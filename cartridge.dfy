/** The mapper capability (src/mapper/mod.rs): `read(addr)` and
    `write(addr, dat)`, implemented by the two controllers. Written here as a
    closed set of variants. */
module Cartridges {
  import opened Bytes
  import opened NoController
  import opened BankController

  datatype Cartridge = Plain(noMbc: NoMbc) | Banked(mbc1: Mbc1) {

    /** The heap objects the controller keeps its state in. */
    function Objects(): set<object>
    {
      if Banked? then {mbc1} else {}
    }

    predicate CanRead(addr: u16)
      reads Objects()
    {
      match this
      case Plain(n) => addr < |n.ram|
      case Banked(m) => m.CanRead(addr)
    }

    predicate CanWrite(addr: u16, dat: bv8)
      reads Objects()
    {
      match this
      case Plain(_) => true
      case Banked(m) => m.CanWrite(addr, dat)
    }

    /** Dispatches a read to the controller. */
    function Read(addr: u16): (r: bv8)
      reads Objects()
      requires CanRead(addr)
      ensures Plain? ==> r == noMbc.Read(addr)
      ensures Banked? ==> r == mbc1.Read(addr)
    {
      match this
      case Plain(n) => n.Read(addr)
      case Banked(m) => m.Read(addr)
    }
  }
}
