/** The memory bus (src/mmc.rs): one address decoder that routes every CPU
    read and write to the cartridge, the video unit, work RAM and its echo,
    the joypad, the timer, the interrupt registers or high RAM; addresses
    with no handler read as 0 and ignore writes. */
module Bus {
  import opened Bytes
  import opened Registers
  import opened Cartridges
  import opened Input
  import opened Timers

  /** The video unit as the bus sees it. The bus is written against a PPU
      revision that takes the interrupt-flag cell at construction and serves
      VRAM, OAM and its registers at their bus addresses; that revision is not
      part of this model, so this stands for it: it keeps one byte per
      address, handed over unmodified, and holds the shared flag cell. */
  class VideoPort {
    var mem: seq<bv8>
    const intFlag: ByteRegister

    ghost predicate Valid()
      reads this
    {
      |mem| == 0x1_0000
    }

    constructor (intFlag: ByteRegister)
      ensures Valid() && this.intFlag == intFlag
      ensures forall i :: 0 <= i < |mem| ==> mem[i] == 0
    {
      mem := seq(0x1_0000, _ => 0);
      this.intFlag := intFlag;
    }

    function Read(addr: u16): (r: bv8)
      reads this
      requires Valid()
      ensures r == mem[addr]
    {
      mem[addr]
    }

    method Write(addr: u16, dat: bv8)
      requires Valid()
      modifies this
      ensures Valid() && mem == old(mem)[addr := dat]
    {
      mem := mem[addr := dat];
    }
  }

  /** ROM (0x0000-0x7FFF) and external RAM (0xA000-0xBFFF): the cartridge. */
  predicate IsCartridge(addr: u16)
  {
    addr < 0x8000 || 0xA000 <= addr < 0xC000
  }

  /** VRAM, OAM and the LCD registers other than the DMA trigger. */
  predicate IsVideo(addr: u16)
  {
    || 0x8000 <= addr < 0xA000
    || 0xFE00 <= addr < 0xFEA0
    || 0xFF40 <= addr <= 0xFF45
    || 0xFF47 <= addr <= 0xFF4B
  }

  /** Work RAM 0xC000-0xDFFF and its echo 0xE000-0xFDFF. */
  predicate IsWram(addr: u16)
  {
    0xC000 <= addr < 0xFE00
  }

  predicate IsHram(addr: u16)
  {
    0xFF80 <= addr < 0xFFFF
  }

  /** Addresses no read handler claims (0xFF46 among them: it is write-only). */
  predicate IsUnmapped(addr: u16)
  {
    && !IsCartridge(addr) && !IsVideo(addr) && !IsWram(addr) && !IsTimerAddr(addr) && !IsHram(addr)
    && addr != 0xFF00 && addr != 0xFF0F && addr != 0xFF50 && addr != 0xFFFF
  }

  /** The unmapped addresses are exactly the holes in the map. */
  lemma UnmappedRanges(addr: u16)
    ensures IsUnmapped(addr) <==>
              || 0xFEA0 <= addr < 0xFF00
              || 0xFF01 <= addr < 0xFF04
              || 0xFF08 <= addr < 0xFF0F
              || 0xFF10 <= addr < 0xFF40
              || addr == 0xFF46
              || 0xFF4C <= addr < 0xFF50
              || 0xFF51 <= addr < 0xFF80
  {
  }

  class Mmc {
    var rom: Cartridge
    const ppu: VideoPort
    const joypad: Joypad
    const timer: Timer
    const wram: array<bv8>
    var bank: nat
    const hram: array<bv8>
    var intEnable: bv8
    const intFlag: ByteRegister
    /** The cartridge's boot-ROM disable byte, served at 0xFF50. */
    var bootRomDisable: bv8

    /** The bus and the video unit share one interrupt-flag cell, and the
        work-RAM bank is 1 (nothing changes it). */
    ghost predicate Valid()
      reads this, ppu
    {
      Sized() && ppu.Valid() && ppu.intFlag == intFlag
    }

    /** The bus's own storage has its fixed sizes. */
    ghost predicate Sized()
      reads this
    {
      && wram.Length == 0x8000 && hram.Length == 0x7F && wram != hram
      && bank == 0x01
    }

    /** The cartridge is given already built; reading it from a file is not modelled. */
    constructor (cart: Cartridge)
      ensures Valid() && rom == cart
      ensures fresh(ppu) && fresh(joypad) && fresh(timer) && fresh(wram) && fresh(hram) && fresh(intFlag)
      ensures forall i :: 0 <= i < wram.Length ==> wram[i] == 0
      ensures forall i :: 0 <= i < hram.Length ==> hram[i] == 0
      ensures intEnable == 0 && intFlag.data == 0 && bootRomDisable == 0
      ensures !joypad.directionSelect && !joypad.actionSelect
      ensures joypad.Buttons() == [false, false, false, false, false, false, false, false]
      ensures timer.Regs() == [0, 0, 0, 0]
      ensures ByteAt(0xFF00) == 0x3F
    {
      var flag := new ByteRegister();
      rom := cart;
      ppu := new VideoPort(flag);
      joypad := new Joypad();
      timer := new Timer();
      wram := new bv8[0x8000](_ => 0);
      bank := 0x01;
      hram := new bv8[0x7F](_ => 0);
      intEnable := 0;
      intFlag := flag;
      bootRomDisable := 0;
    }

    /** Index into `wram` of a work-RAM or echo address. The low 12 bits are
        kept; the 4 KiB pages at 0xC000 and 0xE000 use bank 0 and those at
        0xD000 and 0xF000 the switchable bank. */
    function WramIndex(addr: u16): (i: nat)
      reads this
      requires IsWram(addr)
      ensures i % 0x1000 == addr % 0x1000
      ensures i / 0x1000 == if (addr / 0x1000) % 2 == 0 then 0 else bank
    {
      if addr < 0xD000 then addr - 0xC000
      else if addr < 0xE000 then addr - 0xD000 + 0x1000 * bank
      else if addr < 0xF000 then addr - 0xE000
      else addr - 0xF000 + 0x1000 * bank
    }

    /** The reads that do not panic: only a cartridge read can leave its vectors. */
    predicate CanRead(addr: u16)
      reads this, rom.Objects()
    {
      IsCartridge(addr) ==> rom.CanRead(addr)
    }

    /** The byte a read of `addr` returns. */
    function ByteAt(addr: u16): (r: bv8)
      reads this, ppu, joypad, timer, wram, hram, intFlag, rom.Objects()
      requires Valid() && CanRead(addr)
      ensures IsCartridge(addr) ==> r == rom.Read(addr)
      ensures IsVideo(addr) ==> r == ppu.mem[addr]
      ensures IsWram(addr) ==> r == wram[WramIndex(addr)]
      ensures addr == 0xFF00 ==> r == joypad.P1()
      ensures IsTimerAddr(addr) ==> r == timer.Regs()[addr - 0xFF04]
      ensures addr == 0xFF0F ==> r == intFlag.data && r == ppu.intFlag.data
      ensures addr == 0xFF50 ==> r == bootRomDisable
      ensures IsHram(addr) ==> r == hram[addr - 0xFF80]
      ensures addr == 0xFFFF ==> r == intEnable
      ensures IsUnmapped(addr) ==> r == 0
    {
      if IsVideo(addr) then ppu.Read(addr) else PortByte(addr)
    }

    /** The byte a read of an address outside the video ranges returns; it
        does not depend on the video unit. */
    function PortByte(addr: u16): (r: bv8)
      reads this, joypad, timer, wram, hram, intFlag, rom.Objects()
      requires Sized() && CanRead(addr) && !IsVideo(addr)
      ensures IsCartridge(addr) ==> r == rom.Read(addr)
      ensures IsWram(addr) ==> r == wram[WramIndex(addr)]
      ensures addr == 0xFF00 ==> r == joypad.P1()
      ensures IsTimerAddr(addr) ==> r == timer.Regs()[addr - 0xFF04]
      ensures addr == 0xFF0F ==> r == intFlag.data
      ensures addr == 0xFF50 ==> r == bootRomDisable
      ensures IsHram(addr) ==> r == hram[addr - 0xFF80]
      ensures addr == 0xFFFF ==> r == intEnable
      ensures IsUnmapped(addr) ==> r == 0
    {
      if IsCartridge(addr) then rom.Read(addr)
      else if IsWram(addr) then wram[WramIndex(addr)]
      else if addr == 0xFF00 then joypad.P1()
      else if IsTimerAddr(addr) then timer.Read(addr)
      else if addr == 0xFF0F then intFlag.data
      else if addr == 0xFF50 then bootRomDisable
      else if IsHram(addr) then hram[addr - 0xFF80]
      else if addr == 0xFFFF then intEnable
      else 0
    }

    /** The echo region reads the work-RAM byte 0x2000 below it. */
    lemma EchoMirrorsWram(k: nat)
      requires Valid() && k < 0x1E00
      ensures ByteAt(0xE000 + k) == ByteAt(0xC000 + k)
      ensures WramIndex(0xC000 + k) < 0x2000
    {
    }

    /** The bus read, dispatched as the source does. */
    method Read(addr: u16) returns (r: bv8)
      requires Valid() && CanRead(addr)
      ensures r == ByteAt(addr)
    {
      if addr < 0x8000 {
        r := rom.Read(addr);
      } else if addr < 0xA000 {
        r := ppu.Read(addr);
      } else if addr < 0xC000 {
        r := rom.Read(addr);
      } else if addr < 0xD000 {
        r := wram[addr - 0xC000];
      } else if addr < 0xE000 {
        r := wram[addr - 0xD000 + 0x1000 * bank];
      } else if addr < 0xF000 {
        r := wram[addr - 0xE000];
      } else if addr < 0xFE00 {
        r := wram[addr - 0xF000 + 0x1000 * bank];
      } else if addr < 0xFEA0 {
        r := ppu.Read(addr);
      } else if addr == 0xFF00 {
        r := joypad.Read(addr);
      } else if IsTimerAddr(addr) {
        r := timer.Read(addr);
      } else if addr == 0xFF0F {
        r := intFlag.data;
      } else if 0xFF40 <= addr <= 0xFF45 {
        r := ppu.Read(addr);
      } else if 0xFF47 <= addr <= 0xFF4B {
        r := ppu.Read(addr);
      } else if addr == 0xFF50 {
        r := bootRomDisable;
      } else if IsHram(addr) {
        r := hram[addr - 0xFF80];
      } else if addr == 0xFFFF {
        r := intEnable;
      } else {
        r := 0;
      }
    }

    /** Every one of the 160 source bytes of a DMA from page `v` can be read. */
    predicate DmaReadable(v: bv8)
      reads this, rom.Objects()
    {
      forall a: u16 :: 0x100 * v as int <= a < 0x100 * v as int + 0xA0 ==> CanRead(a)
    }

    /** The writes that do not panic: those the cartridge accepts, and a DMA
        whose source bytes can all be read. */
    predicate CanWrite(addr: u16, dat: bv8)
      reads this, rom.Objects()
    {
      && (IsCartridge(addr) ==> rom.CanWrite(addr, dat))
      && (addr == 0xFF46 ==> DmaReadable(dat))
    }

    /** A read is unaffected by video-unit changes at other addresses. */
    twostate lemma ByteAtKept(addr: u16)
      requires old(Valid()) && Valid() && old(CanRead(addr))
      requires unchanged(this, joypad, timer, wram, hram, intFlag) && unchanged(old(rom.Objects()))
      requires IsVideo(addr) ==> ppu.mem[addr] == old(ppu.mem[addr])
      ensures CanRead(addr) && ByteAt(addr) == old(ByteAt(addr))
    {
    }

    /** Copies the 160 bytes at 0x100 * v to OAM at 0xFE00, in ascending order,
        through the bus read and the video unit's write. A source byte is never
        one the copy has already overwritten, so OAM ends up holding what the
        source bytes read before the copy; nothing outside OAM changes. The
        source addresses end at 0xFF9F, so the u16 sum cannot overflow. */
    method OamDmaTransfer(v: bv8)
      requires Valid() && DmaReadable(v)
      modifies ppu
      ensures Valid()
      ensures forall a :: 0xFE00 <= a < 0xFEA0 ==> ppu.mem[a] == old(ByteAt(0x100 * v as int + (a - 0xFE00)))
      ensures forall a :: 0 <= a < 0x1_0000 && !(0xFE00 <= a < 0xFEA0) ==> ppu.mem[a] == old(ppu.mem[a])
    {
      var start := 0x100 * v as int;
      ghost var src := DmaSource(v);
      for i := 0 to 0xA0
        invariant Valid()
        invariant forall a :: 0xFE00 <= a < 0xFE00 + i ==> ppu.mem[a] == src[a - 0xFE00]
        invariant forall a :: 0 <= a < 0x1_0000 && !(0xFE00 <= a < 0xFE00 + i) ==> ppu.mem[a] == old(ppu.mem[a])
      {
        assert old(CanRead(start + i));
        assert start + i < 0xFE00 || start + i >= 0xFE00 + i;
        ByteAtKept(start + i);
        assert ByteAt(start + i) == src[i];
        CopyToOam(start + i, i);
      }
    }

    /** One step of the DMA: the byte at `from` is read and written to OAM slot `i`. */
    method CopyToOam(from: u16, i: nat)
      requires Valid() && CanRead(from) && i < 0xA0
      modifies ppu
      ensures Valid() && ppu.mem == old(ppu.mem)[0xFE00 + i := old(ByteAt(from))]
    {
      var oamDat := Read(from);
      ppu.Write(0xFE00 + i, oamDat);
    }

    /** The 160 bytes a DMA from page `v` copies, as read before the copy. */
    ghost function DmaSource(v: bv8): (r: seq<bv8>)
      reads this, ppu, joypad, timer, wram, hram, intFlag, rom.Objects()
      requires Valid() && DmaReadable(v)
      ensures |r| == 0xA0
      ensures forall j :: 0 <= j < 0xA0 ==> r[j] == ByteAt(0x100 * v as int + j)
    {
      seq(0xA0, j requires 0 <= j < 0xA0 && Valid() && DmaReadable(v)
                  reads this, ppu, joypad, timer, wram, hram, intFlag, rom.Objects()
                  => ByteAt(0x100 * v as int + j))
    }

    method Write(addr: u16, dat: bv8)
      requires Valid() && CanWrite(addr, dat)
      modifies this, ppu, joypad, wram, hram, intFlag, rom.Objects()
      ensures Valid() && rom == old(rom) && bank == old(bank)
      // the cartridge: the controller performs its own write, with the address unchanged
      ensures rom.Banked? ==> if IsCartridge(addr) then rom.mbc1.Wrote(addr, dat) else unchanged(rom.mbc1)
      // the video unit: a write in its ranges is handed over unchanged, 0xFF46 runs the DMA
      ensures IsVideo(addr) ==> ppu.mem == old(ppu.mem)[addr := dat]
      ensures addr == 0xFF46 ==>
                forall a :: 0xFE00 <= a < 0xFEA0 ==> ppu.mem[a] == old(ByteAt(0x100 * dat as int + (a - 0xFE00)))
      ensures addr == 0xFF46 ==>
                forall a :: 0 <= a < 0x1_0000 && !(0xFE00 <= a < 0xFEA0) ==> ppu.mem[a] == old(ppu.mem[a])
      ensures !IsVideo(addr) && addr != 0xFF46 ==> ppu.mem == old(ppu.mem)
      // the RAMs and single-byte registers
      ensures wram[..] == if IsWram(addr) then old(wram[..])[WramIndex(addr) := dat] else old(wram[..])
      ensures hram[..] == if IsHram(addr) then old(hram[..])[addr - 0xFF80 := dat] else old(hram[..])
      ensures intEnable == if addr == 0xFFFF then dat else old(intEnable)
      ensures intFlag.data == if addr == 0xFF0F then dat else old(intFlag.data)
      ensures bootRomDisable == if addr == 0xFF50 then dat else old(bootRomDisable)
      // the joypad selects; the write decoder has no timer arm, so the timer keeps its registers
      ensures addr == 0xFF00 ==>
                && joypad.directionSelect == ((dat >> 4) & 0x1 == 0)
                && joypad.actionSelect == ((dat >> 5) & 0x1 == 0)
                && joypad.Buttons() == old(joypad.Buttons())
      ensures addr != 0xFF00 ==> unchanged(joypad)
      ensures unchanged(timer)
      ensures IsTimerAddr(addr) ==> ByteAt(addr) == old(ByteAt(addr))
      // what a read then returns
      ensures IsWram(addr) || IsHram(addr) || addr == 0xFF0F || addr == 0xFFFF || addr == 0xFF50 ==> ByteAt(addr) == dat
      ensures 0xE000 <= addr < 0xFE00 ==> ByteAt(addr - 0x2000) == dat
      ensures addr == 0xFF0F ==> ppu.intFlag.data == dat
    {
      if addr < 0x8000 {
        WriteCartridge(addr, dat);
      } else if addr < 0xA000 {
        ppu.Write(addr, dat);
      } else if addr < 0xC000 {
        WriteCartridge(addr, dat);
      } else if addr < 0xD000 {
        wram[addr - 0xC000] := dat;
      } else if addr < 0xE000 {
        wram[addr - 0xD000 + 0x1000 * bank] := dat;
      } else if addr < 0xF000 {
        wram[addr - 0xE000] := dat;
      } else if addr < 0xFE00 {
        wram[addr - 0xF000 + 0x1000 * bank] := dat;
      } else if addr < 0xFEA0 {
        ppu.Write(addr, dat);
      } else if addr == 0xFF00 {
        joypad.Write(addr, dat);
      } else if addr == 0xFF0F {
        intFlag.data := dat;
      } else if 0xFF40 <= addr <= 0xFF45 {
        ppu.Write(addr, dat);
      } else if addr == 0xFF46 {
        OamDmaTransfer(dat);
      } else if 0xFF47 <= addr <= 0xFF4B {
        ppu.Write(addr, dat);
      } else if addr == 0xFF50 {
        bootRomDisable := dat;
      } else if IsHram(addr) {
        hram[addr - 0xFF80] := dat;
      } else if addr == 0xFFFF {
        intEnable := dat;
      }
    }

    /** Hands a cartridge-range write to the controller. */
    method WriteCartridge(addr: u16, dat: bv8)
      requires Valid() && IsCartridge(addr) && rom.CanWrite(addr, dat)
      modifies rom.Objects()
      ensures rom.Banked? ==> rom.mbc1.Wrote(addr, dat)
    {
      match rom {
        case Plain(n) =>
          var after := n.Write(addr, dat);
          assert after == n;
        case Banked(m) =>
          m.Write(addr, dat);
      }
    }
  }
}
