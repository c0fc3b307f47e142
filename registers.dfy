/** The CPU register file (src/register.rs) and the one-byte cell `ByteRegister`
    that the bus and the joypad use. */
module Registers {
  /** A single byte cell. Its source is not part of this model: `Set` stores the
      byte, `SetBit` sets or clears only the named bit (it ors in or masks out
      `1 << bit`) and `Get` returns the byte. */
  class ByteRegister {
    var data: bv8

    constructor ()
      ensures data == 0
    {
      data := 0;
    }

    function Get(): (r: bv8)
      reads this
      ensures r == data
    {
      data
    }

    method Set(v: bv8)
      modifies this
      ensures data == v
    {
      data := v;
    }

    method SetBit(bit: nat, v: bool)
      requires bit < 8
      modifies this
      ensures data == if v then old(data) | (1 << bit) else old(data) & !(1 << bit)
    {
      if v {
        data := data | (1 << bit);
      } else {
        data := data & !(1 << bit);
      }
    }
  }

  /** Eight 8-bit registers, viewed in pairs as AF, BC, DE and HL, and the two
      16-bit registers SP and PC. Flags live in the high nibble of F:
      Z = bit 7, N = bit 6, H = bit 5, C = bit 4. */
  class Register {
    var a: bv8
    var f: bv8
    var b: bv8
    var c: bv8
    var d: bv8
    var e: bv8
    var h: bv8
    var l: bv8
    var sp: bv16
    var pc: bv16

    constructor ()
      ensures a == 0 && f == 0 && b == 0 && c == 0 && d == 0 && e == 0 && h == 0 && l == 0
      ensures sp == 0 && pc == 0
    {
      a, f, b, c, d, e, h, l := 0, 0, 0, 0, 0, 0, 0, 0;
      sp, pc := 0, 0;
    }

    /** AF: A is the high byte, F the low byte. */
    function GetAF(): (r: bv16)
      reads this
      ensures (r >> 8) as bv8 == a && (r & 0xFF) as bv8 == f
    {
      ((a as bv16) << 8) | (f as bv16)
    }

    function GetBC(): (r: bv16)
      reads this
      ensures (r >> 8) as bv8 == b && (r & 0xFF) as bv8 == c
    {
      ((b as bv16) << 8) | (c as bv16)
    }

    function GetDE(): (r: bv16)
      reads this
      ensures (r >> 8) as bv8 == d && (r & 0xFF) as bv8 == e
    {
      ((d as bv16) << 8) | (e as bv16)
    }

    function GetHL(): (r: bv16)
      reads this
      ensures (r >> 8) as bv8 == h && (r & 0xFF) as bv8 == l
    {
      ((h as bv16) << 8) | (l as bv16)
    }

    /** Storing AF drops the low nibble of F: reading AF back gives `dat & 0xFFF0`. */
    method SetAF(dat: bv16)
      modifies this
      ensures a == (dat >> 8) as bv8 && f == (dat & 0xF0) as bv8
      ensures GetAF() == dat & 0xFFF0 && f & 0x0F == 0
      ensures b == old(b) && c == old(c) && d == old(d) && e == old(e) && h == old(h) && l == old(l)
      ensures sp == old(sp) && pc == old(pc)
    {
      a := (dat >> 8) as bv8;
      f := (dat & 0x00F0) as bv8;
    }

    method SetBC(dat: bv16)
      modifies this
      ensures b == (dat >> 8) as bv8 && c == (dat & 0xFF) as bv8
      ensures GetBC() == dat
      ensures a == old(a) && f == old(f) && d == old(d) && e == old(e) && h == old(h) && l == old(l)
      ensures sp == old(sp) && pc == old(pc)
    {
      b := (dat >> 8) as bv8;
      c := (dat & 0x00FF) as bv8;
    }

    method SetDE(dat: bv16)
      modifies this
      ensures d == (dat >> 8) as bv8 && e == (dat & 0xFF) as bv8
      ensures GetDE() == dat
      ensures a == old(a) && f == old(f) && b == old(b) && c == old(c) && h == old(h) && l == old(l)
      ensures sp == old(sp) && pc == old(pc)
    {
      d := (dat >> 8) as bv8;
      e := (dat & 0x00FF) as bv8;
    }

    method SetHL(dat: bv16)
      modifies this
      ensures h == (dat >> 8) as bv8 && l == (dat & 0xFF) as bv8
      ensures GetHL() == dat
      ensures a == old(a) && f == old(f) && b == old(b) && c == old(c) && d == old(d) && e == old(e)
      ensures sp == old(sp) && pc == old(pc)
    {
      h := (dat >> 8) as bv8;
      l := (dat & 0x00FF) as bv8;
    }

    /** Zero flag: bit 7 of F. */
    function GetZ(): (r: bool)
      reads this
      ensures r <==> f & 0x80 != 0
    {
      (f >> 7) & 0x1 != 0
    }

    /** Subtract flag: bit 6 of F. */
    function GetN(): (r: bool)
      reads this
      ensures r <==> f & 0x40 != 0
    {
      (f >> 6) & 0x1 != 0
    }

    /** Half-carry flag: bit 5 of F. */
    function GetH(): (r: bool)
      reads this
      ensures r <==> f & 0x20 != 0
    {
      (f >> 5) & 0x1 != 0
    }

    /** Carry flag: bit 4 of F (the source names this getter `get_l`). */
    function GetL(): (r: bool)
      reads this
      ensures r <==> f & 0x10 != 0
    {
      (f >> 4) & 0x1 != 0
    }

    /** Both branches only mask F: given true the Z bit is kept as it was, given
        false it is cleared. The flag can therefore never be set this way. */
    method SetZ(v: bool)
      modifies this
      ensures f == old(f) & (if v then 0xF0 else 0x70)
      ensures GetZ() == (v && old(GetZ()))
      ensures GetN() == old(GetN()) && GetH() == old(GetH()) && GetL() == old(GetL())
      ensures f & 0x0F == 0
      ensures a == old(a) && b == old(b) && c == old(c) && d == old(d) && e == old(e) && h == old(h) && l == old(l)
      ensures sp == old(sp) && pc == old(pc)
    {
      if v {
        f := f & 0xF0;
      } else {
        f := f & 0x70;
      }
    }

    method SetN(v: bool)
      modifies this
      ensures f == old(f) & (if v then 0xF0 else 0xB0)
      ensures GetN() == (v && old(GetN()))
      ensures GetZ() == old(GetZ()) && GetH() == old(GetH()) && GetL() == old(GetL())
      ensures f & 0x0F == 0
      ensures a == old(a) && b == old(b) && c == old(c) && d == old(d) && e == old(e) && h == old(h) && l == old(l)
      ensures sp == old(sp) && pc == old(pc)
    {
      if v {
        f := f & 0xF0;
      } else {
        f := f & 0xB0;
      }
    }

    method SetH(v: bool)
      modifies this
      ensures f == old(f) & (if v then 0xF0 else 0xD0)
      ensures GetH() == (v && old(GetH()))
      ensures GetZ() == old(GetZ()) && GetN() == old(GetN()) && GetL() == old(GetL())
      ensures f & 0x0F == 0
      ensures a == old(a) && b == old(b) && c == old(c) && d == old(d) && e == old(e) && h == old(h) && l == old(l)
      ensures sp == old(sp) && pc == old(pc)
    {
      if v {
        f := f & 0xF0;
      } else {
        f := f & 0xD0;
      }
    }

    method SetC(v: bool)
      modifies this
      ensures f == old(f) & (if v then 0xF0 else 0xE0)
      ensures GetL() == (v && old(GetL()))
      ensures GetZ() == old(GetZ()) && GetN() == old(GetN()) && GetH() == old(GetH())
      ensures f & 0x0F == 0
      ensures a == old(a) && b == old(b) && c == old(c) && d == old(d) && e == old(e) && h == old(h) && l == old(l)
      ensures sp == old(sp) && pc == old(pc)
    {
      if v {
        f := f & 0xF0;
      } else {
        f := f & 0xE0;
      }
    }
  }
}
