/** The joypad register P1 (src/joypad.rs): eight buttons and two group-select
    bits, read back as an active-low byte. */
module Input {
  import opened Bytes
  import opened Registers

  /** Host keys. The eight mapped keys drive the buttons; every other key is `Other`. */
  datatype Key = Right | Left | Up | Down | A | B | Space | Enter | Other(code: nat) {

    predicate Mapped()
    {
      !Other?
    }

    /** The button a mapped key drives, in the order of `Joypad.Buttons()`. */
    function Index(): (i: nat)
      requires Mapped()
      ensures i < 8
    {
      match this
      case Right => 0
      case Left => 1
      case Up => 2
      case Down => 3
      case A => 4
      case B => 5
      case Space => 6
      case Enter => 7
    }
  }

  /** A group of four buttons as the low nibble of P1: a pressed button reads 0. */
  function ActiveLow(b0: bool, b1: bool, b2: bool, b3: bool): (n: bv8)
    ensures n < 0x10
    ensures BitSet(n, 0) == !b0 && BitSet(n, 1) == !b1 && BitSet(n, 2) == !b2 && BitSet(n, 3) == !b3
  {
    (if b0 then 0 else 0x01) | (if b1 then 0 else 0x02) | (if b2 then 0 else 0x04) | (if b3 then 0 else 0x08)
  }

  class Joypad {
    var directionSelect: bool
    var actionSelect: bool
    var right: bool
    var left: bool
    var up: bool
    var down: bool
    var a: bool
    var b: bool
    var select: bool
    var start: bool

    /** The pressed state of the buttons, in the order right, left, up, down,
        a, b, select, start. */
    function Buttons(): (s: seq<bool>)
      reads this
      ensures |s| == 8
    {
      [right, left, up, down, a, b, select, start]
    }

    constructor ()
      ensures !directionSelect && !actionSelect
      ensures Buttons() == [false, false, false, false, false, false, false, false]
    {
      directionSelect, actionSelect := false, false;
      right, left, up, down := false, false, false, false;
      a, b, select, start := false, false, false, false;
    }

    method KeyDown(key: Key)
      modifies this
      ensures Buttons() == if key.Mapped() then old(Buttons())[key.Index() := true] else old(Buttons())
      ensures directionSelect == old(directionSelect) && actionSelect == old(actionSelect)
    {
      match key {
        case Right => right := true;
        case Left => left := true;
        case Up => up := true;
        case Down => down := true;
        case A => a := true;
        case B => b := true;
        case Space => select := true;
        case Enter => start := true;
        case Other(_) =>
      }
    }

    method KeyUp(key: Key)
      modifies this
      ensures Buttons() == if key.Mapped() then old(Buttons())[key.Index() := false] else old(Buttons())
      ensures directionSelect == old(directionSelect) && actionSelect == old(actionSelect)
    {
      match key {
        case Right => right := false;
        case Left => left := false;
        case Up => up := false;
        case Down => down := false;
        case A => a := false;
        case B => b := false;
        case Space => select := false;
        case Enter => start := false;
        case Other(_) =>
      }
    }

    /** The P1 byte. Bits 4 and 5 are the inverted select bits, bits 6 and 7
        are 0, and the low nibble shows the action buttons when that group is
        selected (they overwrite the directions), else the directions when
        those are selected, else 0b1111. */
    function P1(): (r: bv8)
      reads this
      ensures r & 0xC0 == 0
      ensures BitSet(r, 4) == !directionSelect && BitSet(r, 5) == !actionSelect
      ensures !directionSelect && !actionSelect ==> r & 0x0F == 0x0F
      ensures directionSelect && !actionSelect ==> r & 0x0F == ActiveLow(right, left, up, down)
      ensures actionSelect ==> r & 0x0F == ActiveLow(a, b, select, start)
    {
      var low :=
        if actionSelect then ActiveLow(a, b, select, start)
        else if directionSelect then ActiveLow(right, left, up, down)
        else 0x0F;
      low | (if directionSelect then 0 else 0x10) | (if actionSelect then 0 else 0x20)
    }

    /** Builds P1 bit by bit in a scratch register, as the source does. The
        joypad itself is not modified. */
    method Read(addr: u16) returns (r: bv8)
      ensures r == P1()
    {
      var keys := new ByteRegister();
      keys.Set(0x0F);
      if directionSelect {
        keys.SetBit(0, !right);
        keys.SetBit(1, !left);
        keys.SetBit(2, !up);
        keys.SetBit(3, !down);
        assert keys.data == ActiveLow(right, left, up, down);
      }
      if actionSelect {
        keys.SetBit(0, !a);
        keys.SetBit(1, !b);
        keys.SetBit(2, !select);
        keys.SetBit(3, !start);
        assert keys.data == ActiveLow(a, b, select, start);
      }
      ghost var low := keys.data;
      assert low == if actionSelect then ActiveLow(a, b, select, start)
                    else if directionSelect then ActiveLow(right, left, up, down)
                    else 0x0F;
      keys.SetBit(4, !directionSelect);
      assert keys.data == low | (if directionSelect then 0 else 0x10);
      keys.SetBit(5, !actionSelect);
      assert keys.data == low | (if directionSelect then 0 else 0x10) | (if actionSelect then 0 else 0x20);
      r := keys.Get();
    }

    /** A cleared bit 4 selects the directions and a cleared bit 5 the action
        buttons, so bits 4-5 of P1 then equal bits 4-5 of `dat`. */
    method Write(addr: u16, dat: bv8)
      modifies this
      ensures directionSelect == ((dat >> 4) & 0x1 == 0)
      ensures actionSelect == ((dat >> 5) & 0x1 == 0)
      ensures Buttons() == old(Buttons())
      ensures P1() & 0x30 == dat & 0x30
    {
      directionSelect := (dat >> 4) & 0x1 == 0;
      actionSelect := (dat >> 5) & 0x1 == 0;
    }
  }
}
