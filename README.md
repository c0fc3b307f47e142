# deepboy core, modelled in Dafny

deepboy is a Game Boy (DMG) emulator written in Rust and still partly
unfinished. This project models its core: the memory bus (MMC), the CPU
register file, the cartridge controllers (no controller, and MBC1), the
pixel-processing unit as far as it is written, the joypad register, the
timer register file and the ROM image loader. It proves properties of that
model.

Bytes are `bv8`, register pairs are `bv16` and CPU addresses are integers
below 2^16 (`u16`). A Rust `panic!` and an out-of-bounds index abort the
emulator in any build. A `u32` overflow and a shift by 8 or more abort it
only in a debug build (overflow checks on). The model follows the debug
build: each of these becomes a precondition, which is a
`CanRead`/`CanWrite` predicate, a bound on the address, a bound on the sum
or a bound on the shift.

Modules, one per source file:

- `Bytes`: the shared word types (`bytes.dfy`).
- `Registers`: `Register` (src/register.rs) and the one-byte cell `ByteRegister` (`registers.dfy`).
- `NoController`: the cartridge without a controller (src/mapper/nombc.rs, `nombc.dfy`).
- `BankController`: the MBC1 controller (src/mapper/mbc1.rs, `mbc1.dfy`).
- `Cartridges`: the mapper capability (src/mapper/mod.rs), written as the closed datatype `Plain | Banked` (`cartridge.dfy`).
- `Video`: src/ppu.rs (`ppu.dfy`).
- `Input`: src/joypad.rs (`joypad.dfy`).
- `Timers`: src/timer.rs (`timer.dfy`).
- `RomImage`: src/rom.rs (`rom.dfy`).
- `Bus`: src/mmc.rs (`mmc.dfy`).

Objects the source mutates in place become classes. Their methods carry
`modifies` clauses and state the whole new state. Pure decisions become
functions: the next MBC1 bank register, the P1 byte, the byte a bus read
returns. The methods are proved against those functions. `Mmc.Read` returns
`ByteAt(addr)`. `Joypad.Read` builds the byte bit by bit and returns `P1()`.
`Mbc1.Write` establishes the two-state predicate `Wrote`, which the bus
reuses for cartridge writes.

Behaviour modelled as the code has it:

- MBC1: writing 0x00 to 0x2000-0x3FFF selects bank 0. The assignment of 1 is
  overwritten by the unconditional `dat & 0x1F` that follows it.
- `set_z`/`set_n`/`set_h`/`set_c` only ever clear their flag. Given `true`
  they mask with 0xF0, which keeps the flag's old value but cannot set it.
- `get_l` reads the carry flag (bit 4).
- `get_bit` of the LCD registers shifts without masking. It answers
  "the register is at least 2^bit", not "bit `bit` is set".
- `CLOCKS_PER_SCANLINE` is 356, not 80 + 172 + 204 = 456. A frame is
  therefore 55824 clocks.
- The bus's `write` has no arm for 0xFF04-0xFF07, so timer writes through the
  bus are ignored. The timer's own `write` stores them.
- OAM DMA reads its 160 source bytes through the bus, in ascending order.
  Given the per-address video store (see `Bus.VideoPort` below), no source
  byte is one the copy has already overwritten, so OAM receives the bytes
  as they read before the copy.

## Model

| member | source | states |
|---|---|---|
| Registers.Register.constructor | src/register.rs:15-28 | every 8-bit and 16-bit register starts at 0 |
| Registers.Register.GetAF | src/register.rs:30-32 | the pair's high byte is A and its low byte is F |
| Registers.Register.GetBC | src/register.rs:34-36 | the pair's high byte is B and its low byte is C |
| Registers.Register.GetDE | src/register.rs:38-40 | the pair's high byte is D and its low byte is E |
| Registers.Register.GetHL | src/register.rs:42-44 | the pair's high byte is H and its low byte is L |
| Registers.Register.SetAF | src/register.rs:46-49 | A gets the high byte and F only the flag nibble; reading AF back gives the value with its low nibble cleared; the other registers are unchanged |
| Registers.Register.SetBC | src/register.rs:51-54 | reading BC back returns the value written; the other registers are unchanged |
| Registers.Register.SetDE | src/register.rs:56-59 | reading DE back returns the value written; the other registers are unchanged |
| Registers.Register.SetHL | src/register.rs:61-64 | reading HL back returns the value written; the other registers are unchanged |
| Registers.Register.GetZ | src/register.rs:66-68 | true exactly when bit 7 of F is set |
| Registers.Register.GetN | src/register.rs:70-72 | true exactly when bit 6 of F is set |
| Registers.Register.GetH | src/register.rs:74-76 | true exactly when bit 5 of F is set |
| Registers.Register.GetL | src/register.rs:78-80 | true exactly when bit 4 (carry) of F is set |
| Registers.Register.SetZ | src/register.rs:82-88 | Z afterwards is `v` and its old value together, so it is never set; N, H and C are kept; the low nibble is cleared; the other registers are unchanged |
| Registers.Register.SetN | src/register.rs:90-96 | N afterwards is `v` and its old value together; Z, H and C are kept; the low nibble is cleared; the other registers are unchanged |
| Registers.Register.SetH | src/register.rs:98-104 | H afterwards is `v` and its old value together; Z, N and C are kept; the low nibble is cleared; the other registers are unchanged |
| Registers.Register.SetC | src/register.rs:106-112 | C afterwards is `v` and its old value together; Z, N and H are kept; the low nibble is cleared; the other registers are unchanged |
| NoController.NoMbc.Read | src/mapper/nombc.rs:16-18 | the byte of the image at the address, which must lie inside it |
| NoController.NoMbc.Write | src/mapper/nombc.rs:20 | the controller is unchanged, so every later read returns what it did before |
| BankController.NextRomBank | src/mapper/mbc1.rs:63-72 | bank-select writes take the low five bits of the data, with 0x20/0x40/0x60 becoming 0x21/0x41/0x61 and 0x00 becoming 0; upper-bank writes replace only bits 5-6 with the data's low two bits; other addresses keep the register; bit 7 is never set |
| BankController.RomBankAfterBounded | src/mapper/mbc1.rs:13-20 | from construction, the ROM bank register's trace stays at most 0x7F over any sequence of writes (by induction on the writes) |
| BankController.ZeroSelectsBankZero | src/mapper/mbc1.rs:64-68 | a bank-select write of 0x00 clears the register whatever it held; in Rom mode the switchable window then reads the same bytes as the fixed bank |
| BankController.Mbc1.constructor | src/mapper/mbc1.rs:13-21 | keeps the given ROM and RAM; RAM disabled, bank register 1, Rom mode |
| BankController.Mbc1.RomBank | src/mapper/mbc1.rs:23-29 | below 0x80 and equal to the register modulo 32; below 32 in Ram mode; the whole register in Rom mode |
| BankController.Mbc1.RamBank | src/mapper/mbc1.rs:31-37 | below 4; 0 in Rom mode; register bits 5-6 in Ram mode |
| BankController.Mbc1.RomOffset | src/mapper/mbc1.rs:44-47 | the offset lies in the 16 KiB page of the current ROM bank, at the address's position within the window |
| BankController.Mbc1.RamOffset | src/mapper/mbc1.rs:48-55 | the offset lies in the 8 KiB page of the current RAM bank, at the address's position within the window |
| BankController.Mbc1.Read | src/mapper/mbc1.rs:41-58 | fixed bank from the image start; switchable window from the selected bank; external RAM from the selected RAM bank when enabled, else 0; any other address reads 0 |
| BankController.Mbc1.Write | src/mapper/mbc1.rs:60-88 | RAM enabled exactly when the low nibble is 0xA; the bank register follows `NextRomBank`; mode 0/1 selects Rom/Ram; an enabled RAM write is read back; a disabled one changes nothing; the bank-register bound is kept |
| Cartridges.Cartridge.Read | src/mapper/mod.rs:1-4 | a read goes to the controller the cartridge holds |
| Video.FrameBudget | src/ppu.rs:8-14 | a frame as the constants define it is 55824 clocks, and the scanline constant differs from the sum of its three phases |
| Video.LcdRegister.constructor | src/ppu.rs:21-25 | the register starts at 0 |
| Video.LcdRegister.GetBit | src/ppu.rs:27-29 | true exactly when the register is at least 2^bit, which includes every case where that bit is set |
| Video.LcdRegister.SetBit | src/ppu.rs:31-37 | the named bit afterwards equals the argument and the other seven bits are unchanged |
| Video.GetBitSeesHigherBits | src/ppu.rs:51-53 | a register holding 0x80 answers true for bit 0, which is clear |
| Video.Ppu.constructor | src/ppu.rs:83-101 | VRAM and all registers zero, mode OAM scan, no clocks counted |
| Video.Ppu.Run | src/ppu.rs:103-125 | in OAM scan, reaching 80 clocks moves to VRAM access, keeps the remainder and sets STAT bits 0-1; otherwise clocks only accumulate; after a run from OAM scan fewer than 80 clocks remain; the other registers are untouched |
| Video.Ppu.Read | src/ppu.rs:127-129 | the VRAM byte at the raw address, which must be below 0x4000 |
| Video.Ppu.Write | src/ppu.rs:131-133 | only that VRAM byte changes, and reading it back returns the value written |
| Input.ActiveLow | src/joypad.rs:64-76 | a nibble whose bit i is clear exactly when button i is pressed |
| Input.Joypad.constructor | src/joypad.rs:17-30 | no button pressed and no group selected |
| Input.Joypad.KeyDown | src/joypad.rs:32-44 | the mapped key's button becomes pressed and nothing else changes; unmapped keys change nothing |
| Input.Joypad.KeyUp | src/joypad.rs:46-58 | the mapped key's button becomes released and nothing else changes; unmapped keys change nothing |
| Input.Joypad.P1 | src/joypad.rs:60-87 | bits 6-7 clear; bits 4-5 are the inverted selects; the low nibble is the action buttons when selected, else the directions when selected, else 0xF, all active-low |
| Input.Joypad.Read | src/joypad.rs:60-87 | building the byte in a scratch register yields exactly `P1()` |
| Input.Joypad.Write | src/joypad.rs:89-92 | a cleared bit 4 or 5 selects its group; buttons are unchanged; P1 bits 4-5 then read back as written |
| Timers.Timer.constructor | src/timer.rs:9-16 | DIV, TIMA, TMA and TAC start at 0 |
| Timers.Timer.Read | src/timer.rs:18-26 | 0xFF04 + i reads register i; other addresses are excluded (they panic) |
| Timers.Timer.Write | src/timer.rs:28-36 | only register addr - 0xFF04 changes, and reading it back returns the value written |
| RomImage.Rom.constructor | src/rom.rs:15-25 | all header fields zero, both images empty |
| RomImage.Rom.Load | src/rom.rs:27-52 | the image is appended; the header fields are bytes 0x147-0x149 of the result; RAM size codes 0, 1 and 3 give 0x200, 0 and 0x8000 and any other code keeps the old size; the boot image is untouched |
| RomImage.Rom.LoadBootstrap | src/rom.rs:54-58 | the boot image is appended and its recorded size is the resulting length; the cartridge fields are untouched |
| Bus.UnmappedRanges | src/mmc.rs:39-58 | an address has no read handler exactly when it lies in one of the seven holes of the memory map, 0xFF46 among them |
| Bus.Mmc.constructor | src/mmc.rs:24-36 | RAMs and interrupt registers start at 0; work-RAM bank 1; the joypad has no button pressed and no group selected, so P1 reads 0x3F; the timer registers are 0; the bus and the video unit share one interrupt-flag cell |
| Bus.Mmc.WramIndex | src/mmc.rs:44-47 | keeps the address's offset within its 4 KiB page; the pages at 0xC000/0xE000 use bank 0 and those at 0xD000/0xF000 the selected bank |
| Bus.Mmc.ByteAt | src/mmc.rs:39-58 | each address range reads from its own component (cartridge, video, work RAM, P1, timer, IF, boot-ROM disable, high RAM, IE); any other address reads 0 |
| Bus.Mmc.PortByte | src/mmc.rs:39-58 | outside the video ranges, each address range reads from its own component, and the read does not depend on the video unit |
| Bus.Mmc.EchoMirrorsWram | src/mmc.rs:44-47 | 0xE000-0xFDFF reads the work-RAM byte 0x2000 below |
| Bus.Mmc.Read | src/mmc.rs:39-65 | the bus read returns `ByteAt(addr)` |
| Bus.Mmc.ByteAtKept | src/mmc.rs:90-98 | a read is unaffected by video-unit writes at other addresses |
| Bus.Mmc.OamDmaTransfer | src/mmc.rs:90-98 | OAM 0xFE00-0xFE9F ends up holding the 160 bytes at 0x100 * v as they read before the copy; the rest of the video unit is unchanged |
| Bus.Mmc.CopyToOam | src/mmc.rs:94-96 | one DMA step: OAM slot i receives the byte the source address reads |
| Bus.Mmc.Write | src/mmc.rs:67-88 | each range updates only its component: cartridge writes satisfy the controller's `Wrote`; video writes pass through; 0xFF46 runs the DMA; RAM, IE, IF and boot-ROM disable read back as written (echo writes through to work RAM); P1 gets its selects; the timer is unchanged |

## Left out

- Opening files and printing: `Rom::load` and `Rom::load_bootstrap` take the bytes already read. The header messages and the MBC-type report are console output and are not modelled.
- Bus.VideoPort: the bus is written against a PPU revision that takes the interrupt-flag cell and serves VRAM, OAM and the LCD registers at their bus addresses. That revision is not part of this model. The bus uses a per-address byte store that holds the shared flag cell. src/ppu.rs indexes its 0x4000-byte array by the raw address, which would panic for every bus address from 0x8000.
- `Rom::new(fname)`, `Rom::read`, `Rom::write` and `disable_boot_rom`, which the bus calls, are not part of this model. The bus holds a `Cartridge` directly and keeps the boot-ROM disable byte itself.
- Bus.Mmc.constructor: the boot-ROM disable byte is assumed to start at 0, because the `Rom` revision that holds it is not part of this model.
- Video.Ppu.Run: the release-build wrap-around of `cycles` modulo 2^32 is not modelled; the sum is required to stay below 2^32, as in a debug build, where it would panic. The wrap is reachable, because only OAM scan ever resets `cycles`.
- Video.LcdRegister.GetBit: release builds mask a shift amount of 8 or more to its low three bits. This is not modelled; `bit < 8` is required instead, as in a debug build, where it would panic. The same applies to Video.LcdRegister.SetBit.
- Registers.ByteRegister: its source is not part of this model. The assumed semantics are that `set` stores the byte, `set_bit` sets or clears only the named bit, and `get` returns the byte.
- Registers.ByteRegister.SetBit: the contract states only the resulting byte (or-in or mask-out of `1 << bit`), which is the assumed behaviour above.
- The MBC3 controller, the real-time clock, the CPU, the window and output, and `main` are outside this core.
- `write_scanline` and `wirte_sprites` have empty bodies. The VRAM-access, H-blank and V-blank modes of `run` have no transitions in the source, and the model keeps them so.
- The timer only stores its registers; no counting is written in the source.
- `Rc<RefCell<ByteRegister>>` sharing becomes one shared object referenced by both the bus and the video unit. Dynamic borrow checking is not modelled.
- The `Mapper` trait becomes a closed datatype of the two controllers.
- `minifb::Key` becomes a datatype of the eight mapped keys and `Other`.
- Work-RAM bank switching: `bank` is fixed at 1, because nothing in the source changes it.
