/** The type-1 bank controller (src/mapper/mbc1.rs): a RAM-enable latch, a
    7-bit ROM bank register whose bits 5-6 double as the RAM bank, and a
    banking mode. */
module BankController {
  import opened Bytes

  datatype BankMode = Rom | Ram

  /** The `rom_bank` register after a write of `dat` at `addr`, as the source
      computes it. A write to 0x2000-0x3FFF keeps the low five bits of `dat`,
      and maps 0x20, 0x40 and 0x60 to 0x21, 0x41 and 0x61; for 0x00 the
      assignment of 1 is overwritten, so the register becomes 0. A write to
      0x4000-0x5FFF replaces bits 5-6 with the low two bits of `dat`. */
  function NextRomBank(bank: bv8, addr: u16, dat: bv8): (r: bv8)
    ensures 0x2000 <= addr < 0x4000 ==>
              r & 0x1F == (if dat == 0x20 || dat == 0x40 || dat == 0x60 then 0x01 else dat & 0x1F)
    ensures 0x2000 <= addr < 0x4000 ==>
              r & 0xE0 == (if dat == 0x20 || dat == 0x40 || dat == 0x60 then dat else 0)
    ensures 0x4000 <= addr < 0x6000 ==> r & 0x9F == bank & 0x9F && r & 0x60 == (dat & 0x03) << 5
    ensures !(0x2000 <= addr < 0x6000) ==> r == bank
    ensures bank <= 0x7F ==> r <= 0x7F
  {
    if 0x2000 <= addr < 0x4000 then
      if dat == 0x20 || dat == 0x40 || dat == 0x60 then dat | 0x01 else dat & 0x1F
    else if 0x4000 <= addr < 0x6000 then
      (bank & 0x9F) | ((dat & 0x03) << 5)
    else
      bank
  }

  /** The trace of `Mbc1.romBank`: its value after construction (which sets
      it to 0x01) followed by the given writes, in order, since each
      `Mbc1.Write` sets it to `NextRomBank` of its old value (see `Wrote`).
      `Mbc1.Valid()` is the same bound, kept write by write. */
  function RomBankAfter(writes: seq<(u16, bv8)>): bv8
  {
    if writes == [] then 0x01
    else
      var w := writes[|writes| - 1];
      NextRomBank(RomBankAfter(writes[..|writes| - 1]), w.0, w.1)
  }

  /** Bit 7 of `rom_bank` is never set: it starts at 1 and no write sets it. */
  lemma {:induction false} RomBankAfterBounded(writes: seq<(u16, bv8)>)
    ensures RomBankAfter(writes) <= 0x7F
  {
    if writes != [] {
      RomBankAfterBounded(writes[..|writes| - 1]);
    }
  }

  class Mbc1 {
    var rom: seq<bv8>
    var ram: seq<bv8>
    var ramEnable: bool
    var romBank: bv8
    var bankMode: BankMode

    /** The invariant every write keeps: bit 7 of `rom_bank` is clear. */
    ghost predicate Valid()
      reads this
    {
      romBank <= 0x7F
    }

    constructor (rom: seq<bv8>, ram: seq<bv8>)
      ensures this.rom == rom && this.ram == ram
      ensures !ramEnable && romBank == 0x01 && bankMode == Rom
      ensures Valid()
    {
      this.rom := rom;
      this.ram := ram;
      ramEnable := false;
      romBank := 0x01;
      bankMode := Rom;
    }

    /** The switchable ROM bank: all seven register bits in Rom mode, only the
        low five in Ram mode. */
    function RomBank(): (bank: nat)
      reads this
      ensures bank < 0x80
      ensures bank % 0x20 == romBank as int % 0x20
      ensures bankMode == Ram ==> bank < 0x20
      ensures bankMode == Rom && romBank <= 0x7F ==> bank == romBank as int
    {
      match bankMode
      case Rom => (romBank & 0x7F) as int
      case Ram => (romBank & 0x1F) as int
    }

    /** The external RAM bank: 0 in Rom mode, register bits 5-6 in Ram mode. */
    function RamBank(): (bank: nat)
      reads this
      ensures bank < 4
      ensures bankMode == Rom ==> bank == 0
      ensures bankMode == Ram ==> bank == (romBank as int / 0x20) % 4
    {
      match bankMode
      case Rom => 0
      case Ram => ((romBank & 0x60) >> 5) as int
    }

    /** Offset into the ROM image of a switchable-bank address: the bank
        selects a 16 KiB page and the address the byte within it. */
    function RomOffset(addr: u16): (offset: nat)
      reads this
      requires 0x4000 <= addr < 0x8000
      ensures offset / 0x4000 == RomBank() && offset % 0x4000 == addr - 0x4000
    {
      addr - 0x4000 + 0x4000 * RomBank()
    }

    /** Offset into external RAM of a cartridge-RAM address: the bank selects
        an 8 KiB page and the address the byte within it. */
    function RamOffset(addr: u16): (offset: nat)
      reads this
      requires 0xA000 <= addr < 0xC000
      ensures offset / 0x2000 == RamBank() && offset % 0x2000 == addr - 0xA000
    {
      addr - 0xA000 + 0x2000 * RamBank()
    }

    /** The reads that stay inside the ROM and RAM vectors (any other panics). */
    predicate CanRead(addr: u16)
      reads this
    {
      && (addr < 0x4000 ==> addr < |rom|)
      && (0x4000 <= addr < 0x8000 ==> RomOffset(addr) < |rom|)
      && (0xA000 <= addr < 0xC000 && ramEnable ==> RamOffset(addr) < |ram|)
    }

    function Read(addr: u16): (r: bv8)
      reads this
      requires CanRead(addr)
      ensures addr < 0x4000 ==> r == rom[addr]
      ensures 0x4000 <= addr < 0x8000 ==> r == rom[RomOffset(addr)]
      ensures 0xA000 <= addr < 0xC000 && ramEnable ==> r == ram[RamOffset(addr)]
      ensures 0xA000 <= addr < 0xC000 && !ramEnable ==> r == 0
      ensures 0x8000 <= addr < 0xA000 || 0xC000 <= addr ==> r == 0
    {
      if addr < 0x4000 then rom[addr]
      else if addr < 0x8000 then rom[RomOffset(addr)]
      else if 0xA000 <= addr < 0xC000 then
        if ramEnable then ram[RamOffset(addr)] else 0
      else 0
    }

    /** The writes that do not panic: a banking-mode value other than 0 or 1,
        and an enabled RAM write past the end of the RAM vector, do. */
    predicate CanWrite(addr: u16, dat: bv8)
      reads this
    {
      && (0x6000 <= addr < 0x8000 ==> dat == 0x00 || dat == 0x01)
      && (0xA000 <= addr < 0xC000 && ramEnable ==> RamOffset(addr) < |ram|)
    }

    /** The state after `Write(addr, dat)` in terms of the state before. */
    twostate predicate Wrote(addr: u16, dat: bv8)
      requires old(CanWrite(addr, dat))
      reads this
    {
      && rom == old(rom)
      && ramEnable == (if addr < 0x2000 then dat & 0x0F == 0x0A else old(ramEnable))
      && romBank == NextRomBank(old(romBank), addr, dat)
      && bankMode == (if 0x6000 <= addr < 0x8000 then (if dat == 0x00 then Rom else Ram) else old(bankMode))
      && ram == (if 0xA000 <= addr < 0xC000 && old(ramEnable) then old(ram)[old(RamOffset(addr)) := dat] else old(ram))
    }

    method Write(addr: u16, dat: bv8)
      requires CanWrite(addr, dat)
      modifies this
      ensures Wrote(addr, dat)
      ensures old(Valid()) ==> Valid()
      ensures 0xA000 <= addr < 0xC000 && old(ramEnable) ==> CanRead(addr) && Read(addr) == dat
      ensures 0xA000 <= addr < 0xC000 && !old(ramEnable) ==> ram == old(ram)
    {
      if addr < 0x2000 {
        ramEnable := dat & 0x0F == 0x0A;
      } else if addr < 0x4000 {
        if dat == 0x00 { romBank := 0x01; }
        if dat == 0x20 { romBank := 0x21; return; }
        if dat == 0x40 { romBank := 0x41; return; }
        if dat == 0x60 { romBank := 0x61; return; }
        romBank := dat & 0x1F;
      } else if addr < 0x6000 {
        romBank := (romBank & 0x9F) | ((dat & 0x03) << 5);
      } else if addr < 0x8000 {
        if dat == 0x00 {
          bankMode := Rom;
        } else {
          bankMode := Ram;
        }
      } else if 0xA000 <= addr < 0xC000 {
        if ramEnable {
          var offset := RamOffset(addr);
          ram := ram[offset := dat];
        }
      }
    }
  }

  /** Writing 0x00 to the bank-select range clears the bank register whatever
      it held, so in Rom mode the switchable window 0x4000-0x7FFF then shows
      the fixed bank 0x0000-0x3FFF. */
  twostate lemma ZeroSelectsBankZero(m: Mbc1, addr: u16, k: nat)
    requires 0x2000 <= addr < 0x4000 && k < 0x4000 && k < |m.rom|
    requires old(m.CanWrite(addr, 0x00)) && m.Wrote(addr, 0x00) && m.bankMode == Rom
    ensures forall bank: bv8 :: NextRomBank(bank, addr, 0x00) == 0
    ensures m.romBank == 0 && m.RomBank() == 0
    ensures m.CanRead(0x4000 + k) && m.Read(0x4000 + k) == m.Read(k)
  {
  }
}
