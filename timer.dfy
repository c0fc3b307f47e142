/** The timer register file (src/timer.rs): DIV, TIMA, TMA and TAC at
    0xFF04-0xFF07. The registers are only stored; nothing counts. */
module Timers {
  import opened Bytes

  predicate IsTimerAddr(addr: u16)
  {
    0xFF04 <= addr <= 0xFF07
  }

  class Timer {
    var div: bv8
    var tima: bv8
    var tma: bv8
    var tac: bv8

    /** DIV, TIMA, TMA, TAC: the register at 0xFF04 + i is element i. */
    function Regs(): (s: seq<bv8>)
      reads this
      ensures |s| == 4
    {
      [div, tima, tma, tac]
    }

    constructor ()
      ensures Regs() == [0, 0, 0, 0]
    {
      div, tima, tma, tac := 0, 0, 0, 0;
    }

    /** Any other address panics in the source. */
    function Read(addr: u16): (r: bv8)
      reads this
      requires IsTimerAddr(addr)
      ensures r == Regs()[addr - 0xFF04]
    {
      match addr
      case 0xFF04 => div
      case 0xFF05 => tima
      case 0xFF06 => tma
      case 0xFF07 => tac
    }

    method Write(addr: u16, dat: bv8)
      requires IsTimerAddr(addr)
      modifies this
      ensures Regs() == old(Regs())[addr - 0xFF04 := dat]
      ensures Read(addr) == dat
    {
      match addr {
        case 0xFF04 => div := dat;
        case 0xFF05 => tima := dat;
        case 0xFF06 => tma := dat;
        case 0xFF07 => tac := dat;
      }
    }
  }
}
