/** The cartridge without a bank controller (src/mapper/nombc.rs): reads index
    the image directly and writes are ignored. */
module NoController {
  import opened Bytes

  /** `NoMbc::new(ram)` is the constructor `NoMbc(ram)`: it keeps exactly the given bytes. */
  datatype NoMbc = NoMbc(ram: seq<bv8>) {

    /** The byte at `addr` of the image; an address past its end panics in the source. */
    function Read(addr: u16): (r: bv8)
      requires addr < |ram|
      ensures r == ram[addr]
    {
      ram[addr]
    }

    /** A write has no effect: the controller comes back unchanged. */
    function Write(addr: u16, dat: bv8): (after: NoMbc)
      ensures after == this
      ensures forall a: u16 :: a < |ram| ==> after.Read(a) == Read(a)
    {
      this
    }
  }
}
