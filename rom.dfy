/** The cartridge image and its header fields (src/rom.rs). Reading the files
    is not modelled: `Load` and `LoadBootstrap` take the bytes read. */
module RomImage {
  class Rom {
    var mbcType: bv8
    var romSizeType: bv8
    var ramSizeType: bv8
    var ram: seq<bv8>
    var ramSize: nat
    var bootRom: seq<bv8>
    var bootRomSize: nat

    constructor ()
      ensures mbcType == 0 && romSizeType == 0 && ramSizeType == 0
      ensures ram == [] && ramSize == 0 && bootRom == [] && bootRomSize == 0
    {
      mbcType, romSizeType, ramSizeType := 0, 0, 0;
      ram, ramSize := [], 0;
      bootRom, bootRomSize := [], 0;
    }

    /** Appends the image to `ram` and decodes the header bytes 0x147-0x149 of
        the result. The RAM-size code sets `ram_size` for codes 0, 1 and 3 and
        leaves it alone otherwise; the mapper type selects nothing here. The
        header indexes panic unless the result is longer than 0x149 bytes. */
    method Load(image: seq<bv8>)
      requires |ram| + |image| > 0x149
      modifies this`ram, this`mbcType, this`romSizeType, this`ramSizeType, this`ramSize
      ensures ram == old(ram) + image
      ensures mbcType == ram[0x147] && romSizeType == ram[0x148] && ramSizeType == ram[0x149]
      ensures ramSize == if ramSizeType == 0 then 0x200
                         else if ramSizeType == 1 then 0
                         else if ramSizeType == 3 then 0x8000
                         else old(ramSize)
      ensures bootRom == old(bootRom) && bootRomSize == old(bootRomSize)
    {
      ram := ram + image;
      mbcType := ram[0x147];
      romSizeType := ram[0x148];
      ramSizeType := ram[0x149];
      assert bootRom == old(bootRom);
      if ramSizeType == 0 {
        ramSize := 0x200;
      } else if ramSizeType == 1 {
        ramSize := 0;
      } else if ramSizeType == 3 {
        ramSize := 0x8000;
      }
    }

    /** Appends the boot image to `boot_rom` and records the resulting length. */
    method LoadBootstrap(image: seq<bv8>)
      modifies this`bootRom, this`bootRomSize
      ensures bootRom == old(bootRom) + image && bootRomSize == |bootRom|
      ensures ram == old(ram) && ramSize == old(ramSize)
      ensures mbcType == old(mbcType) && romSizeType == old(romSizeType) && ramSizeType == old(ramSizeType)
    {
      bootRom := bootRom + image;
      bootRomSize := |bootRom|;
    }
  }
}
