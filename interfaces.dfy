/**
 * Dpi_itf and its five kinds (QSPI, JTAG, UART, camera-style CPI, control).
 * The only state an interface has is the back-reference to its
 * simulator-side signal handle, which `Bind` overwrites.
 */
module Interfaces {
  import opened Kernel

  datatype ItfKind = Qspi | Jtag | Uart | Cpi | Ctrl

  class Itf {
    /** Which subclass of Dpi_itf this object is. */
    const kind: ItfKind
    /** sv_handle; None while no bind has happened (the source never initialises it). */
    var svHandle: Option<Ptr>

    constructor (kind: ItfKind)
      ensures this.kind == kind
      ensures svHandle == None
    {
      this.kind := kind;
      svHandle := None;
    }

    /** Dpi_itf::bind: the back-reference becomes `handle`, whatever it was. */
    method Bind(handle: Ptr)
      modifies this
      ensures svHandle == Some(handle)
    {
      svHandle := Some(handle);
    }

    /** Qspi_itf::sck_edge, the default edge callback: does nothing. */
    method SckEdge(timestamp: Int64, sck: Int32, data0: Int32, data1: Int32, data2: Int32, data3: Int32)
      requires kind == Qspi
      ensures unchanged(this)
    {
    }

    /** Uart_itf::tx_edge, the default edge callback: does nothing. */
    method TxEdge(timestamp: Int64, data: Int32)
      requires kind == Uart
      ensures unchanged(this)
    {
    }

    /** The timestamped Cpi_itf::edge, the default edge callback: does nothing. */
    method CpiEdge(timestamp: Int64, pclk: Int32, hsync: Int32, vref: Int32, data: Int32)
      requires kind == Cpi
      ensures unchanged(this)
    {
    }
  }
}
