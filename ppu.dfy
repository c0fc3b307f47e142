/** The pixel-processing unit as far as src/ppu.rs implements it: the LCD
    control and status registers, a VRAM byte array, the timing constants and
    the first transition of the mode machine. */
module Video {
  import opened Bytes

  datatype VideoMode = AccessOam | AccessVram | HBlank | VBlank

  const ClocksPerHblank: nat := 204
  const ClocksPerScanlineOam: nat := 80
  const ClocksPerScanlineVram: nat := 172
  /** As written: 356, not the 80 + 172 + 204 = 456 of its three phases. */
  const ClocksPerScanline: nat := 356
  const ClocksPerVblank: nat := 4560
  const ScanlinePerFrame: nat := 144
  const ClocksPerFrame: nat := ClocksPerScanline * ScanlinePerFrame + ClocksPerVblank

  /** The frame budget that follows from the constants as written. */
  lemma FrameBudget()
    ensures ClocksPerFrame == 55824
    ensures ClocksPerScanlineOam + ClocksPerScanlineVram + ClocksPerHblank == 456 != ClocksPerScanline
  {
  }

  /** An LCD register (`LCDControl` or `LCDStatus`; the two are identical). */
  class LcdRegister {
    var value: bv8

    constructor ()
      ensures value == 0
    {
      value := 0;
    }

    /** Shifts without masking: true when any bit at or above `bit` is set,
        that is when the register holds at least 2^bit, not only when bit
        `bit` itself is set. */
    function GetBit(bit: nat): (r: bool)
      reads this
      requires bit < 8
      ensures r <==> value >= 1 << bit
      ensures BitSet(value, bit) ==> r
    {
      (value >> bit) != 0
    }

    /** Sets bit `bit` to `v` and keeps the other seven (the second clause
        compares everything outside that bit). */
    method SetBit(bit: nat, v: bool)
      requires bit < 8
      modifies this
      ensures value == if v then old(value) | (1 << bit) else old(value) & !(1 << bit)
      ensures BitSet(value, bit) == v
      ensures value & !(1 << bit) == old(value) & !(1 << bit)
    {
      if v {
        value := value | (1 << bit);
      } else {
        value := value & !(1 << bit);
      }
    }
  }

  /** `get_bit(0)` of a register holding 0x80 is true although bit 0 is clear. */
  lemma GetBitSeesHigherBits(reg: LcdRegister)
    requires reg.value == 0x80
    ensures reg.GetBit(0) && !BitSet(reg.value, 0)
  {
  }

  class Ppu {
    const vram: array<bv8>
    const lcdControl: LcdRegister
    const lcdStatus: LcdRegister
    var scrollX: bv8
    var scrollY: bv8
    var line: bv8
    var lyCompare: bv8
    var windowX: bv8
    var windowY: bv8
    var bgPalette: bv8
    var spritePalette0: bv8
    var spritePalette1: bv8
    var dmaTransfer: bv8
    var mode: VideoMode
    var cycles: u32

    ghost predicate Valid()
      reads this
    {
      vram.Length == 0x4000 && lcdControl != lcdStatus
    }

    /** The position, palette and DMA registers, in declaration order. */
    ghost function IoBytes(): seq<bv8>
      reads this
    {
      [scrollX, scrollY, line, lyCompare, windowX, windowY, bgPalette, spritePalette0, spritePalette1, dmaTransfer]
    }

    constructor ()
      ensures Valid() && fresh(vram) && fresh(lcdControl) && fresh(lcdStatus)
      ensures forall i :: 0 <= i < vram.Length ==> vram[i] == 0
      ensures lcdControl.value == 0 && lcdStatus.value == 0
      ensures IoBytes() == [0, 0, 0, 0, 0, 0, 0, 0, 0, 0]
      ensures mode == AccessOam && cycles == 0
    {
      vram := new bv8[0x4000](_ => 0);
      lcdControl := new LcdRegister();
      lcdStatus := new LcdRegister();
      scrollX, scrollY, line, lyCompare := 0, 0, 0, 0;
      windowX, windowY := 0, 0;
      bgPalette, spritePalette0, spritePalette1, dmaTransfer := 0, 0, 0, 0;
      mode := AccessOam;
      cycles := 0;
    }

    /** Advances the mode machine by `c` clocks. Only OAM scan has a
        transition: once 80 clocks have accumulated it moves to VRAM access,
        keeps the remainder modulo 80 and sets STAT bits 1 and 0. In every
        other mode the clocks only accumulate. The u32 addition overflows
        (a panic) unless the sum stays below 2^32. */
    method Run(c: u32)
      requires Valid() && cycles + c < 0x1_0000_0000
      modifies this, lcdStatus
      ensures Valid()
      ensures old(mode) == AccessOam && old(cycles) + c >= ClocksPerScanlineOam ==>
                && mode == AccessVram
                && cycles == (old(cycles) + c) % ClocksPerScanlineOam
                && lcdStatus.value == old(lcdStatus.value) | 0x03
      ensures !(old(mode) == AccessOam && old(cycles) + c >= ClocksPerScanlineOam) ==>
                && mode == old(mode)
                && cycles == old(cycles) + c
                && lcdStatus.value == old(lcdStatus.value)
      ensures old(mode) == AccessOam ==> cycles < ClocksPerScanlineOam
      ensures IoBytes() == old(IoBytes()) && lcdControl.value == old(lcdControl.value)
    {
      cycles := cycles + c;
      match mode {
        case AccessOam =>
          if cycles >= ClocksPerScanlineOam {
            cycles := cycles % ClocksPerScanlineOam;
            lcdStatus.SetBit(1, true);
            lcdStatus.SetBit(0, true);
            mode := AccessVram;
          }
        case AccessVram =>
        case HBlank =>
        case VBlank =>
      }
    }

    /** VRAM is indexed by the raw address, so only addresses below 0x4000 are
        inside the array. */
    function Read(addr: u16): (r: bv8)
      reads this, vram
      requires Valid() && addr < 0x4000
      ensures r == vram[addr]
    {
      vram[addr]
    }

    method Write(addr: u16, dat: bv8)
      requires Valid() && addr < 0x4000
      modifies vram
      ensures vram[..] == old(vram[..])[addr := dat]
      ensures Read(addr) == dat
    {
      vram[addr] := dat;
    }
  }
}
