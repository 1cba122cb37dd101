# NesGull core, modelled in Dafny

NesGull is a Nintendo Entertainment System emulator written in Rust. It comes
with a Python tool, `diff_nes_log.py`, that compares the emulator's CPU trace
against the `nestest.log` reference trace. This project models the parts of
both that are sequential, integer-level logic:

- the 6502 CPU: the status bits, operand lengths, addressing modes and every
  implemented instruction (`cpu.rs`), plus the older CPU with its flat,
  mirrored memory (`old_cpu.rs`);
- the memories and address decoders: RAM/ROM (`memory.rs`), the CPU bus with
  its 256-step OAM DMA (`bus.rs`), the NROM, UxROM and MMC1 mappers, and the
  `load_rom` dispatch;
- the PPU's register file (`ppu/memory.rs`): nametable mirroring, the
  `v`/`t`/`x`/`w` scroll latches, the status side effects, and OAM and
  palette addressing. Also the background shift registers and the
  dot/scanline counter with its frame buffer;
- iNES / NES 2.0 header decoding and the PRG/CHR slicing of a ROM image;
- the APU register file, the pulse and triangle channel timers, the
  controller's serial port and the `SlaveClock` divider;
- the trace checker: both line parsers, the field comparison and the
  reporting loop.

Each source file has its own module, and each module keeps the form of its
source file:

- Rust structs whose methods update fields become classes, with `modifies`
  frames.
- Arrays stay arrays.
- Pure decoding becomes functions with lemmas beside them.
- The trace checker's loop is a method proved against per-index
  specification functions.

Bytes are `bv8` and 16-bit words `bv16`, so `u8`/`u16` wrap-around is
explicit. An arithmetic overflow that panics in Rust, and an index out of
range, become preconditions.

The Rust files come from different revisions and do not type-check together.
Each is modelled by its own text. Where one file calls another with a
different signature, the call is abstracted:

- `PPUMemory` takes the mapper's byte as a parameter.
- `PPUMemory` hands a pattern-table write back to its caller (`forward`,
  `toMapper`) instead of calling the mapper itself.

Nothing in this project was executed: the claims below are what the verifier
proves about the model.

## Model

| member | source | states |
|---|---|---|
| NesMemory.Zeros | src/nes/memory.rs:23-24 | exactly `n` cells, all zero: the `vec![0; capacity]` every sized memory starts from |
| NesMemory.Memory.constructor | src/nes/memory.rs:19-21 | `Memory::new` is empty and writable |
| NesMemory.Memory.WithCapacity | src/nes/memory.rs:23-29 | `capacity` zero cells, writable |
| NesMemory.Memory.Rom | src/nes/memory.rs:31-35 | `capacity` zero cells, write-protected |
| NesMemory.Memory.RomFromBytes | src/nes/memory.rs:37-41 | holds a copy of the bytes and is write-protected |
| NesMemory.Memory.Ram | src/nes/memory.rs:43-45 | the same as `with_capacity`: zeros, writable |
| NesMemory.Memory.RamFromBytes | src/nes/memory.rs:47-51 | holds a copy of the bytes and is writable |
| NesMemory.Memory.Read | src/nes/memory.rs:71-74 | returns the cell at `addr % len`; an empty memory is a precondition (the modulo by zero panics) |
| NesMemory.Memory.Write | src/nes/memory.rs:78-83 | a writable memory changes exactly the cell `addr % len`, which then reads back `value`; every cell of another residue keeps its value; a protected memory is unchanged; length and protection stay |
| NesMemory.Memory.WriteProtect | src/nes/memory.rs:65-67 | `writable` becomes `!protect` and the contents stay |
| NesMemory.WriteThenRead | src/nes/memory.rs:71-83 | reading after writing: the cell written reads back the value when writable, any other residue reads its old byte, and the length is kept |
| Clock.TickStep | src/nes/clock.rs:34-43 | a tick fires exactly when the countdown is zero; it then reloads below `div`, otherwise it counts down by one |
| Clock.SlaveClock.constructor | src/nes/clock.rs:23-28 | `SlaveClock::new(div)` stores `div` and starts the countdown at `div - 1`; a zero divisor is refused (the `u32` subtraction panics) |
| Clock.SlaveClock.Reset | src/nes/clock.rs:30-32 | `reset` sets the countdown to `div` itself, keeping `div` |
| Clock.SlaveClock.Tick | src/nes/clock.rs:34-43 | the fired flag and the new countdown are one `TickStep` of the old countdown |
| Clock.CountdownFromNew | src/nes/clock.rs:23-43 | after `n` ticks from `new` the countdown is `div - 1 - n % div` |
| Clock.FiresEveryDivTicks | src/nes/clock.rs:23-43 | a fresh divider fires on tick `n` exactly when `div` divides `n` |
| Clock.FiresAfterReset | src/nes/clock.rs:30-43 | after `reset` it fires on tick `n` exactly when `n >= 2` and `div` divides `n - 1`: one tick later than a fresh divider |
| Clock.ShiftAfterReset | src/nes/clock.rs:30-43 | the countdown `n` ticks after `reset` equals the countdown `n - 1` ticks after `new` |
| PpuRegister.LoadUpper | src/nes/ppu/register.rs:24-27 | the new high byte is `value` and the low byte of the shifter is kept |
| PpuRegister.Halve16 | src/nes/ppu/register.rs:30-31 | a one-bit logical right shift of a 16-bit shifter is halving |
| PpuRegister.Halve8 | src/nes/ppu/register.rs:32-33 | a one-bit logical right shift of an 8-bit shifter is halving |
| PpuRegister.Register.constructor | src/nes/ppu/register.rs:13-22 | both VRAM addresses at nametable 0x2000, no fine X scroll, the write toggle set, all four shifters zero |
| PpuRegister.Register.LoadBackUpper | src/nes/ppu/register.rs:24-27 | pane `pane` of the 16-bit shifters gets `LoadUpper`; the other pane is kept; a pane past 1 is refused (the array index panics) |
| PpuRegister.Register.ShiftBackground | src/nes/ppu/register.rs:29-34 | each of the four shifters is halved |
| PpuRegister.LoadUpperTwice | src/nes/ppu/register.rs:24-27 | loading twice leaves only the second value: the low byte survives, the first high byte does not |
| Ppu.Painted | src/nes/ppu.rs:31-36 | painting keeps the length of the buffer |
| Ppu.PaintedCells | src/nes/ppu.rs:31-36 | painting pixel `i` writes B, G, R and alpha 255 into bytes `4i`..`4i+3` and changes no other byte |
| Ppu.Frame.constructor | src/nes/ppu.rs:23-29 | keeps the width and height; the buffer is `width * height * 4` zero bytes |
| Ppu.Frame.PutPixel | src/nes/ppu.rs:31-36 | the new buffer is `Painted` at index `width * y + x`; a pixel outside the buffer is refused (the indexing panics) |
| Ppu.NextDot | src/nes/ppu.rs:117-123 | a dot before 340 moves one to the right; dot 340 wraps to dot 0 of the next scanline |
| Ppu.DotsAdvanceByT | src/nes/ppu.rs:110-126 | `t` ticks move the counter exactly `t` dots forward and keep it on dots 0..340 |
| Ppu.PPU.constructor | src/nes/ppu.rs:66-75 | a 256 x 224 blank frame, 256 bytes of OAM and 32 of palette memory (both writable, zero), the counter at dot 0 of scanline 0 |
| Ppu.PPU.GetCyclesInfo | src/nes/ppu.rs:100-102 | returns the scanline and the dot, in that order |
| Ppu.PPU.Tick | src/nes/ppu.rs:111-125 | dots 1..256 paint column `dot - 1` of the current scanline with palette entry 21, other dots paint nothing; the counter moves by `NextDot`; always returns true |
| Ppu.PPU.TickN | src/nes/clock.rs:10-14 | `tick_n` runs `tick` `t` times: the counter ends at `DotsAfter(t)`, that is `t` dots further on, the palette is kept, and the frame buffer is `FrameAfter` of the old one, every visible dot of the run painted with entry 21; it demands only that each painted dot lies inside the buffer, where the source's indexing would panic (also ppu.rs lines 110-126) |
| Ppu.FrameAfterCells | src/nes/ppu.rs:111-118 | after a run of dots, a pixel holds the dot colour iff some dot of the run painted it, and keeps its old bytes otherwise |
| Ppu.ScanlineRun | src/nes/ppu.rs:111-118 | within one scanline, the dots `c .. c + t - 1` paint exactly the pixels of the visible columns among them on that row |
| Ppu.FullScanlinePaintsRow | src/nes/ppu.rs:111-125 | a whole scanline, dot 0 through 340, paints the 256 pixels of its row with the dot colour and leaves every other byte |
| Ppu.FitsWithinFrame | src/nes/ppu.rs:113-114 | a run that ends by the last dot of the frame's last scanline paints only inside the buffer, so it meets `TickN`'s requirement |
| Ppu.InFrame | src/nes/ppu.rs:113-114 | a visible dot on a scanline inside the frame paints inside the pixel buffer, so `tick_n` never leaves it |
| Arch.InfoFromHeader | src/arch.rs:17-28 | PRG size is byte 4 in 16 KiB units and CHR size byte 5 in 8 KiB units; PRG starts at 16 and CHR right after PRG; no trainer |
| Arch.CreateFromRom | src/arch.rs:41-53 | keeps the whole image and its first 16 bytes as the header; the PRG slice has length and recorded size `size_prg`; CHR is absent exactly when `size_chr` is 0 and otherwise has length `size_chr` |
| Arch.AgreesWithHeaderDecode | src/arch.rs:17-28 | on a header whose byte 9 is 0 this older size rule and the NES 2.0 decoder of `cartridge.rs` give the same PRG and CHR sizes |
| Arch.AgreesWithCartridge | src/arch.rs:41-53 | on such an image both loaders cut out the same PRG and CHR bytes |
| Arch.Layout | src/arch.rs:41-53 | header, PRG and CHR lie back to back and together are a prefix of the image |
| Nrom.Nrom.Load | src/nes/mapper/m000_nrom.rs:16-25 | PRG-ROM holds exactly the cartridge's PRG bytes, read-only; CHR holds its CHR bytes read-only, or is an empty `Memory::new` when it has none; PRG-RAM is 8 KiB of zeros |
| Nrom.Nrom.Read | src/nes/mapper/m000_nrom.rs:29-36 | CHR at `addr % len` below 0x2000, 0 from the never-written PRG-RAM at 0x6000..0x7FFF, PRG-ROM at `addr % len` at 0x8000..0xFFFF, and 0 everywhere else |
| Nrom.Nrom.Write | src/nes/mapper/m000_nrom.rs:40-46 | no write changes PRG-ROM or CHR, and PRG-RAM stays all zeros |
| Bankable.WindowBase | src/nes/mapper/m002_uxrom.rs:40-42 | the window holding `addr` starts at or below it and ends above it |
| Bankable.Translate | src/nes/mapper/m002_uxrom.rs:77-79 | a translated address always lies inside the buffer; there is one exactly when the buffer is nonempty and the address's window has a bank |
| Bankable.Store | src/nes/mapper/m002_uxrom.rs:88 | a write keeps the buffer's length, and on a writable buffer a mapped address reads back the value written |
| Bankable.BankRange | src/nes/mapper/m002_uxrom.rs:40 | `add_bank_range(start, end)` creates a window at exactly the window-aligned bases between `start` and `end` |
| Bankable.LastBankOf | src/nes/mapper/m002_uxrom.rs:41 | `last_bank` is the number of the last whole bank the buffer holds, 0 when it holds less than one window |
| Bankable.BankableMemory.Ram | src/nes/mapper/m002_uxrom.rs:36 | `size` zero bytes, writable, with the given window and no bank mapped |
| Bankable.BankableMemory.RomFromBytes | src/nes/mapper/m002_uxrom.rs:31 | a read-only copy of the bytes with the given window and no bank mapped |
| Bankable.BankableMemory.RamFromBytes | src/nes/mapper/m002_uxrom.rs:34 | a writable copy of the bytes with the given window and no bank mapped |
| Bankable.BankableMemory.Read | src/nes/mapper/m002_uxrom.rs:77-79 | returns the byte the address's window and bank select |
| Bankable.BankableMemory.Write | src/nes/mapper/m002_uxrom.rs:88 | the new buffer is `Store` of the old one |
| Bankable.BankableMemory.SetBank | src/nes/mapper/m002_uxrom.rs:41 | the window at `base` now shows `bank`; every other window is kept |
| Bankable.BankableMemory.AddBankRange | src/nes/mapper/m002_uxrom.rs:40 | the windows of `BankRange` are added, each showing its bank, and windows at other bases are kept |
| Uxrom.SelectBank | src/nes/mapper/m002_uxrom.rs:89-92 | a write in 0x8000..0xFFFF points the 0x8000 window at bank `value & 0x0F`; no other window changes, and any other write leaves the windows alone |
| Uxrom.FixedWindowStays | src/nes/mapper/m002_uxrom.rs:85-96 | no sequence of writes moves the 0xC000 window |
| Uxrom.FixedWindowReads | src/nes/mapper/m002_uxrom.rs:79 | hence every read of 0xC000..0xFFFF returns the same byte after any sequence of writes |
| Uxrom.Uxrom.Load | src/nes/mapper/m002_uxrom.rs:29-44 | PRG-ROM read-only in 16 KiB windows, 0x8000 at bank 0 and 0xC000 at the last bank; CHR writable in one 8 KiB window, holding the cartridge's CHR or 8 KiB of zeros; the header's mirroring |
| Uxrom.Uxrom.Read | src/nes/mapper/m002_uxrom.rs:75-82 | CHR below 0x2000, PRG-ROM in 0x8000..0xFFFF, 0 everywhere else |
| Uxrom.Uxrom.Write | src/nes/mapper/m002_uxrom.rs:86-95 | a write below 0x2000 goes into CHR; its windows are given by `SelectBank`; nothing else changes |
| Uxrom.MapWindows | src/nes/mapper/m002_uxrom.rs:40-42 | the bank setup of `load`: PRG windows 0x8000 to bank 0 and 0xC000 to the last bank, one CHR window at 0 to bank 0 |
| MapperTypes.DefaultMirroring | src/nes/mapper.rs:56-60 | `MirroringType::default()` is Horizontal |
| MapperTypes.Message | src/nes/mapper.rs:32-36 | the error text is the prefix `unsupported mapper number: ` followed by digits that denote exactly the mapper number |
| Common.Decimal | src/nes/mapper.rs:34 | Rust's `{}` of an unsigned number, and Python's `str(i)` of the trace checker: at least one digit, all decimal, no leading zero (also diff_nes_log.py lines 108-112) |
| Common.DecimalRoundTrip | src/nes/mapper.rs:34 | reading the printed digits back gives the number |
| Mapper.TraitDefaults | src/nes/mapper.rs:76-95 | every mapper answers `irq_pending` false, `battery_backed` false, `use_ciram` true and `nametable_page` 0 |
| Mapper.LoadRom | src/nes/mapper.rs:98-106 | succeeds exactly for mapper numbers 0, 1, 2 and 71 (NROM, MMC1, UxROM, UxROM); otherwise the error carries the header's number; a loaded mapper serves the cartridge's PRG bytes and reports the mirroring its `load` sets up |
| Mapper.Null | src/nes/mapper.rs:108-115 | `null()` owns no memory and serves no PRG or CHR bytes |
| Mapper.UnmappedReadsZero | src/nes/mapper.rs:109 | every mapper, the null one included, reads 0 in 0x2000..0x5FFF |
| Mapper.Read | src/nes/mapper.rs:65-75 | the enum dispatch of `read` to the selected mapper; the null mapper uses the trait's default 0 |
| Mapper.Write | src/nes/mapper.rs:65-75 | the enum dispatch of `write`: PRG-ROM never changes; NROM keeps all three memories; MMC1's registers move as its serial port says, its CHR and PRG-RAM bytes change only by the store its own `write` makes (PRG-RAM only while PRG bank bit 4 is clear) and its PRG-RAM windows stay; UxROM's PRG windows move by `SelectBank`, its CHR bytes change only below 0x2000 and its CHR windows stay |
| Mmc1.Region | src/nes/mapper/m001_mmc1.rs:132 | `addr & 0xE000` on the serial port is one of 0x8000, 0xA000, 0xC000 and 0xE000, namely the 8 KiB block the address lies in |
| Mmc1.FiveWriteCommit | src/nes/mapper/m001_mmc1.rs:124-145 | from the reset shift register, four writes with bit 7 clear only shift; the fifth commits the five collected bits (the first write's bit lowest) to the register its own address selects and resets the shift register; the earlier addresses do not matter |
| Mmc1.ShiftOnly | src/nes/mapper/m001_mmc1.rs:141-143 | while bit 0 of the shift register is clear, a write only shifts `value & 1` in at bit 4 |
| Mmc1.Commits | src/nes/mapper/m001_mmc1.rs:130-140 | once bit 0 is set, a write commits `(shift >> 1) \| ((value & 1) << 4)` and resets the shift register to 0b10000 |
| Mmc1.DispatchIgnoresShift | src/nes/mapper/m001_mmc1.rs:132-139 | the register a commit reaches does not depend on the shift register's value |
| Mmc1.ControlIgnoresShift | src/nes/mapper/m001_mmc1.rs:153-195 | `control_write` neither reads nor changes the shift register |
| Mmc1.ChrIgnoresShift | src/nes/mapper/m001_mmc1.rs:197-212 | `chr_bank_write` neither reads nor changes the shift register |
| Mmc1.PrgIgnoresShift | src/nes/mapper/m001_mmc1.rs:214-232 | `prg_bank_write` neither reads nor changes the shift register |
| Mmc1.ShiftSteps | src/nes/mapper/m001_mmc1.rs:130-143 | from 0b10000 the marker bit reaches bit 0 after exactly four shifts, and a fifth shift holds the five data bits in order |
| Mmc1.ResetWrite | src/nes/mapper/m001_mmc1.rs:125-128 | a write with bit 7 set resets the shift register, stores `(control \| 0xC) & 0x1F`, which is PRG mode 0xC, keeps the bank registers and fixes the last PRG bank at 0xC000 |
| Mmc1.DispatchTargets | src/nes/mapper/m001_mmc1.rs:132-138 | a committed value goes to control for 0x8000..0x9FFF, CHR bank 0 for 0xA000..0xBFFF, CHR bank 1 for 0xC000..0xDFFF and the PRG bank for 0xE000..0xFFFF |
| Mmc1.ControlSelectsMirroring | src/nes/mapper/m001_mmc1.rs:153-161 | `control_write` stores `v & 0x1F`; the low two bits 0, 1, 2, 3 select SingleScreenA, SingleScreenB, Vertical, Horizontal, each if and only if |
| Mmc1.PrgModes | src/nes/mapper/m001_mmc1.rs:214-232 | `prg_bank_write` stores `v & 0x1F`; modes 0 and 4 put the even bank at 0x8000 and the odd one at 0xC000; mode 8 moves only 0xC000, mode 0xC only 0x8000; control and the CHR windows are kept |
| Mmc1.LoadState | src/nes/mapper/m001_mmc1.rs:53-63 | after the initial `control_write(0b11110)` control is 0x1E, mirroring Vertical, 0x8000 shows bank 0 and 0xC000 the last bank, both CHR windows bank 0 |
| Mmc1.MMC1.Load | src/nes/mapper/m001_mmc1.rs:35-65 | PRG-RAM of the header's size (8 KiB when the header gives 0) mapped at 0x6000, read-only PRG-ROM, CHR holding the cartridge's CHR or 8 KiB of zeros, and the register state of `LoadState` |
| Mmc1.MMC1.ControlWrite | src/nes/mapper/m001_mmc1.rs:153-195 | the new registers and windows are `AfterControlWrite` of the old ones |
| Mmc1.MMC1.ChrBankWrite | src/nes/mapper/m001_mmc1.rs:197-212 | the new registers and windows are `AfterChrBankWrite` of the old ones, with the source's inverted test of control bit 4 for bank 0 |
| Mmc1.MMC1.PrgBankWrite | src/nes/mapper/m001_mmc1.rs:214-232 | the new registers and windows are `AfterPrgBankWrite` of the old ones |
| Mmc1.MMC1.SerialPortWrite | src/nes/mapper/m001_mmc1.rs:124-145 | the new registers and windows are `AfterSerialWrite` of the old ones |
| Mmc1.MMC1.Write | src/nes/mapper/m001_mmc1.rs:114-150 | CHR changes only on a write below 0x2000; PRG-RAM only at 0x6000..0x7FFF while PRG bank bit 4 is clear; the registers only on the serial port; other writes are dropped |
| Mmc1.MMC1.Read | src/nes/mapper/m001_mmc1.rs:95-110 | CHR below 0x2000; PRG-RAM at 0x6000..0x7FFF while PRG bank bit 4 is clear, 0 while it is set; PRG-ROM from 0x8000; 0 elsewhere |
| Mmc1.SelectMirroring | src/nes/mapper/m001_mmc1.rs:155-161 | the mirroring chosen by the control register's two low bits |
| Mmc1.MapPrgMode | src/nes/mapper/m001_mmc1.rs:163-180 | the PRG windows `control_write` sets for each PRG mode; modes 0 and 4 set the 0x8000 window twice and leave 0xC000 |
| Mmc1.MapChrMode | src/nes/mapper/m001_mmc1.rs:181-194 | the CHR windows `control_write` sets for each CHR mode |
| Mmc1.MapPrgBank | src/nes/mapper/m001_mmc1.rs:216-231 | the PRG windows `prg_bank_write` moves for each PRG mode |
| Mmc1.MapWindows | src/nes/mapper/m001_mmc1.rs:59-62 | the bank setup of `load`: one PRG-RAM window, both PRG windows with the last bank at 0xC000, both CHR windows |
| Cartridge.DecodeHeader | src/nes/cartridge.rs:80-146 | `NesHeader::new`: both sizes fit `usize` (an overflowing product is a precondition, as it panics), the mapper number is below 4096, `nes2` iff `h7 & 0x0C == 8`, battery and trainer are bits 1 and 2 of byte 6, and the submapper, misc-ROM and expansion nibbles are in range |
| Cartridge.DecodedFields | src/nes/cartridge.rs:82-133 | the decoded fields read back to their header bits: a plain size is a whole number of 16 KiB or 8 KiB units whose count is the byte-9 nibble above byte 4 or 5; FourScreen iff byte 6 bit 3, Vertical iff bit 0 without bit 3; the mapper number's three nibbles are the high nibbles of bytes 6 and 7 and the low nibble of byte 8; PRG-RAM is 0 iff its shift count is 0 |
| Cartridge.SizeUnits | src/nes/cartridge.rs:86-88 | outside the exponent form a size is a whole number of units, and its nibble and byte can be recovered from it |
| Cartridge.PlainSizesDefined | src/nes/cartridge.rs:86-96 | a header with neither nibble at 0xF cannot overflow, so its decode is always defined |
| Cartridge.MirroringFlags | src/nes/cartridge.rs:102-111 | FourScreen iff byte 6 bit 3; Vertical iff bit 0 without bit 3; Horizontal iff neither |
| Cartridge.MapperNibbles | src/nes/cartridge.rs:114-118 | the mapper number is below 4096 and is made of the three nibbles, each recoverable |
| Cartridge.MapperRoundTrip | src/nes/cartridge.rs:114-118 | every mapper number below 4096 written into bytes 6, 7 and 8, whatever their other bits hold, decodes back unchanged |
| Cartridge.ConsoleCodes | src/nes/cartridge.rs:119-142 | the console and timing matches are total: each of the four codes reaches exactly one variant, so the fallback arms are never taken |
| Cartridge.RamSizes | src/nes/cartridge.rs:130-133 | a RAM size is 0 exactly for a zero nibble, otherwise `64 << n` is at least 128, and different nibbles give different sizes |
| Cartridge.PrgRomVec | src/nes/cartridge.rs:173-176 | `prg_rom_size` bytes, copied from offset 16 on |
| Cartridge.ChrRomVec | src/nes/cartridge.rs:178-181 | `chr_rom_size` bytes, copied from right after the PRG bytes |
| Cartridge.Assemble | src/nes/cartridge.rs:160-167 | the PRG slice has the header's PRG size; CHR is None iff the CHR size is 0 and otherwise has that length; `chr_size` is set to the PRG size, as written |
| Cartridge.CreateFromRom | src/nes/cartridge.rs:158-171 | the header is decoded from the first 16 bytes; the PRG slice has length and recorded size `prg_rom_size`; CHR is None iff `chr_rom_size` is 0; `chr_size` holds `prg_rom_size` |
| Cartridge.CartridgeLayout | src/nes/cartridge.rs:158-181 | header, PRG and CHR lie back to back from the start of the image with nothing skipped |
| Cartridge.AssembledLayout | src/nes/cartridge.rs:160-167 | the same layout, for the cartridge assembled around a decoded header |
| OldCpu.Spliced | src/nes/old_cpu.rs:152 | a slice copy keeps the memory's length |
| OldCpu.SplicedCells | src/nes/old_cpu.rs:152 | `clone_from_slice` puts the source bytes at `at..at+len` and leaves every other cell |
| OldCpu.Loaded | src/nes/old_cpu.rs:151-157 | loading keeps the 64 KiB size of the memory |
| OldCpu.LoadPlacesImage | src/nes/old_cpu.rs:151-157 | the image sits at 0x8000, and a 16 KiB image once more at 0xC000; everything below 0x8000 is kept, and so is everything past the end of any other image |
| OldCpu.SmallImageResetVector | src/nes/old_cpu.rs:153-155 | with a 16 KiB image the reset vector at 0xFFFC/0xFFFD comes from the image's last bytes 0x3FFC/0x3FFD |
| OldCpu.Mirrored | src/nes/old_cpu.rs:168-177 | mirroring keeps the 64 KiB size |
| OldCpu.Written | src/nes/old_cpu.rs:179-182 | a write keeps the 64 KiB size |
| OldCpu.WriteCells | src/nes/old_cpu.rs:168-182 | after `write_memory(addr, v)` every address naming the same RAM cell (both below 0x2000 and equal modulo 0x800) holds `v`; nothing else changes, so above 0x2000 only `addr` itself changes |
| OldCpu.ReadAfterWrite | src/nes/old_cpu.rs:179-186 | `read_memory` returns the value last written to the address or to any of its mirrors, and the old byte for every other address |
| OldCpu.WriteKeepsMirrors | src/nes/old_cpu.rs:168-182 | a write keeps the four copies of the 2 KiB RAM in agreement |
| OldCpu.LoadKeepsMirrors | src/nes/old_cpu.rs:151-157 | loading a PRG image keeps the four RAM copies in agreement |
| OldCpu.OldCPU.constructor | src/nes/old_cpu.rs:139-149 | registers zero except P = 0x34, all of memory zero, counters and operands zero |
| OldCpu.OldCPU.Load | src/nes/old_cpu.rs:151-157 | the new memory is `Loaded` of the old one; an image whose length differs from `prg_size` or which does not fit is refused (the slice copy panics) |
| OldCpu.OldCPU.CopyInto | src/nes/old_cpu.rs:152 | the new memory is `Spliced` of the old one |
| OldCpu.OldCPU.Reset | src/nes/old_cpu.rs:159-166 | A, X, Y zero, S = 0xFD, P = 0x34, counters zero, and PC the little-endian vector at 0xFFFC/0xFFFD (also lines 100-107) |
| OldCpu.OldCPU.Mirroring | src/nes/old_cpu.rs:168-177 | the new memory is `Mirrored` of the old one |
| OldCpu.OldCPU.WriteMemory | src/nes/old_cpu.rs:179-182 | the new memory is `Written` of the old one |
| OldCpu.OldCPU.ReadMemory | src/nes/old_cpu.rs:184-186 | returns the byte at the address |
| OldCpu.OldCPU.ReadInstr | src/nes/old_cpu.rs:201-213 | the decoded entry is the table's entry for the byte at PC; exactly the operand bytes its mode needs are read from PC+1 and PC+2; PC moves by the operand length plus one; a PC whose `u16` additions would overflow is refused (they panic) (also lines 120-136) |
| OldCpu.OldCPU.ReadOperands | src/nes/old_cpu.rs:205-210 | operand 0 is read when the length is at least 1, operand 1 when it is 2; otherwise they keep their values |
| Cpu.ByteRoundTrip | src/nes/cpu.rs:9-14 | storing the flags of a loaded status byte gives the byte back |
| Cpu.StatusRoundTrip | src/nes/cpu.rs:9-14 | loading a stored status gives the same eight bits back |
| Cpu.Set | src/nes/cpu.rs:31-66 | after `set_F(v)`, `get_F()` returns `v` |
| Cpu.ByteN | src/nes/cpu.rs:31-36 | N is bit 7 of the status byte; setting it ORs 0x80 in, clearing it ANDs with 0x7F (also lines 67-69) |
| Cpu.ByteV | src/nes/cpu.rs:37-42 | V is bit 6; set ORs 0x40, clear ANDs 0xBF (also lines 70-72) |
| Cpu.ByteD | src/nes/cpu.rs:43-48 | D is bit 3; set ORs 0x08, clear ANDs 0xF7 (also lines 73-75) |
| Cpu.ByteI | src/nes/cpu.rs:49-54 | I is bit 2; set ORs 0x04, clear ANDs 0xFB (also lines 76-78) |
| Cpu.ByteZ | src/nes/cpu.rs:55-60 | Z is bit 1; set ORs 0x02, clear ANDs 0xFD (also lines 79-81) |
| Cpu.ByteC | src/nes/cpu.rs:61-66 | C is bit 0; set ORs 0x01, clear ANDs 0xFE (also lines 82-84) |
| Cpu.SetKeepsOtherFlags | src/nes/cpu.rs:31-84 | setting one flag leaves every other flag as it was |
| Cpu.SetNZ | src/nes/cpu.rs:592-597 | Z becomes "the value is 0" and N its bit 7; the other flags are kept |
| Cpu.Transfer | src/nes/cpu.rs:376-393 | AND/ORA/EOR, the loads and TAX/TXA/TAY/TYA/TSX: the destination gets the value, the other registers and PC are kept, and Z/N follow the value (also lines 592-609, 622-651) |
| Cpu.OperandLength | src/nes/cpu.rs:118-134 | 0 exactly for IMP and ACC, 2 exactly for ABS, ABX, ABY, IND and REL, 1 for the other modes |
| Cpu.FlatBus.constructor | src/nes/cpu.rs:165-171 | a bus holding the given cells |
| Cpu.FlatBus.Read | src/nes/cpu.rs:170 | returns the stored byte, 0 where nothing is stored |
| Cpu.FlatBus.Write | src/nes/cpu.rs:610-612 | exactly the written cell changes |
| Cpu.Word16 | src/nes/cpu.rs:170 | `(hi << 8) + lo` has `lo` as its low byte and `hi` as its high byte |
| Cpu.ZeroPageIndexed | src/nes/cpu.rs:294-301 | `op0.wrapping_add(index)` stays on page 0 and equals the 8-bit sum |
| Cpu.Signed | src/nes/cpu.rs:337-340 | the operand read as two's complement: in -128..127, itself below 128, 256 less from 128 on |
| Cpu.SignExtend | src/nes/cpu.rs:341 | `offset as u16` keeps the low byte and fills the high byte with the sign |
| Cpu.Pointer | src/nes/cpu.rs:302-315 | the byte at `ind` is the HIGH byte of the address and the byte after it the low byte, as the source assembles them |
| Cpu.Addressing | src/nes/cpu.rs:285-345 | every mode that reads the bus yields the byte at its effective address; only REL changes the branch offset |
| Cpu.OperandWithoutBus | src/nes/cpu.rs:286-288 | ACC takes the operand from A, IMP keeps the old one, IMM, IND and REL keep the first operand byte; IMP, ACC and IMM keep the old effective address (also lines 331-343) |
| Cpu.ZeroPageWraps | src/nes/cpu.rs:294-301 | ZPX and ZPY addresses are `(op0 + X)` and `(op0 + Y)` modulo 256, on page 0 |
| Cpu.AbsoluteAddress | src/nes/cpu.rs:316-319 | the ABS address is `(op1 << 8) + op0` |
| Cpu.IndirectPageBug | src/nes/cpu.rs:331-339 | IND reads the high byte at pointer `op1:op0` and the low byte after it, except that for `op0 = 0xFF` the low byte comes from `op1 << 8` |
| Cpu.RelativeTarget | src/nes/cpu.rs:337-343 | the REL target is PC plus the sign-extended offset modulo 2^16, and the offset is kept as a signed number |
| Cpu.AdcSum | src/nes/cpu.rs:353-355 | the 8-bit result is `(A + M + C) mod 256` and the carry is set iff the true sum exceeds 0xFF |
| Cpu.AdcFlags | src/nes/cpu.rs:357-361 | C is the carry out, Z iff the result is 0, N its bit 7, V iff the result is negative while both inputs were non-negative; the other flags are kept |
| Cpu.AddBinary | src/nes/cpu.rs:350-362 | A and C together are `AdcSum` of A, M and C; the flags are `AdcFlags`; X, Y, S and PC are kept |
| Cpu.AddWithCarry | src/nes/cpu.rs:349-364 | with D set nothing changes, otherwise it is the binary addition |
| Cpu.BitTest | src/nes/cpu.rs:369-374 | Z iff `A & M` is 0, V and N copied from bits 6 and 7 of M, the other flags kept |
| Cpu.CompareFlags | src/nes/cpu.rs:394-440 | CMP/CPX/CPY set C iff register >= M, Z iff equal, N iff register < M |
| Cpu.Decrement | src/nes/cpu.rs:442-494 | the value minus one modulo 256, Z iff the result is 0, N iff the old value was 0 |
| Cpu.Increment | src/nes/cpu.rs:496-533 | 0xFE becomes 0 and any other value below 0xFF its successor; Z and N from the result; 0xFF is refused (the `u8` addition panics) |
| Cpu.ShiftLeft | src/nes/cpu.rs:535-546 | ASL: C from bit 7, the value shifted left, Z and N from the result |
| Cpu.ShiftRight | src/nes/cpu.rs:547-558 | LSR: C from bit 0, the value shifted right, Z from the result, N cleared |
| Cpu.RotateLeft | src/nes/cpu.rs:559-574 | ROL as written: C from bit 7; with the old carry set the `&=` leaves 0, otherwise the value shifted left |
| Cpu.RotateRight | src/nes/cpu.rs:575-590 | ROR as written: C from bit 0; with the old carry set the `&=` leaves 0, otherwise the value shifted right |
| Cpu.StackCell | src/nes/cpu.rs:658-680 | `0x0100 + S` lies on page 1 |
| Cpu.BranchCycles | src/nes/cpu.rs:683-689 | 3 iff the target is on the page of PC, otherwise 1 |
| Cpu.Branch | src/nes/cpu.rs:683-721 | a conditional branch changes no register and writes nothing; it reports a jump iff taken, with `BranchCycles` cycles, and 0 cycles if not |
| Cpu.JsrWrites | src/nes/cpu.rs:728-738 | JSR writes twice to the same stack cell: the high byte of PC minus one, then the low byte |
| Cpu.StackByteIgnoredWhenNotRead | src/nes/cpu.rs:218-282 | only the pulls and RTS depend on the byte at the stack cell |
| Cpu.BranchTakenIffCondition | src/nes/cpu.rs:260-268 | each conditional branch is taken exactly when its flag condition holds, with 3 cycles on the same page and 1 across, and changes no register (also lines 683-721) |
| Cpu.OnlyJumpsJump | src/nes/cpu.rs:218-221 | every instruction outside the branches, JMP, JSR and RTS leaves the jump flag false and the branch cycles 0, as `exec_instr` clears them first |
| Cpu.ClvActsAsSei | src/nes/cpu.rs:279 | CLV is dispatched to SEI: it sets I and leaves V and everything else alone |
| Cpu.PushEffect | src/nes/cpu.rs:658-662 | PHA writes A at `0x0100 + S` and then increments S, wrapping |
| Cpu.PullEffect | src/nes/cpu.rs:670-674 | PLA loads the byte at `0x0100 + S` into A, setting no flag, and then decrements S |
| Cpu.PushThenPull | src/nes/cpu.rs:658-674 | PHA followed by PLA restores S, but the pull reads the cell above the one the push wrote, not the pushed byte |
| Cpu.StackRoundTrip | src/nes/cpu.rs:658-674 | on a flat bus the pushed cell holds A and the cell above it is untouched |
| Cpu.StackCellsDiffer | src/nes/cpu.rs:658-674 | consecutive stack pointers designate different cells, the wrap from 0xFF to 0 included |
| Cpu.JsrStack | src/nes/cpu.rs:728-738 | JSR moves S up by two and PC to the target, and the stack cell ends up holding the low byte of PC |
| Cpu.RtsStack | src/nes/cpu.rs:740-750 | RTS moves S down by two and builds PC from one stack byte used twice: as the high byte, and minus one as the low byte |
| Cpu.Advance | src/nes/cpu.rs:212 | PC moves by the operand length plus one without wrapping (the `u16` `+=` panics otherwise) |
| Cpu.CPU.constructor | src/nes/cpu.rs:150-163 | `CPU::new`: registers 0 except P = 0x34, counters, operands and addresses 0, no jump |
| Cpu.CPU.Reset | src/nes/cpu.rs:165-171 | A, X, Y 0, S = 0xFD, P = 0x34, counters 0, and PC = `(mem[0xFFFD] << 8) + mem[0xFFFC]` (also lines 108-115) |
| Cpu.CPU.ReadInstr | src/nes/cpu.rs:202-213 | the instruction is the table entry of the byte at PC; exactly the operand bytes its mode needs are read from PC+1 and PC+2; PC moves by the operand length plus one |
| Cpu.CPU.ReadOperands | src/nes/cpu.rs:205-210 | operand 0 is read when the length is at least 1, operand 1 when it is 2; otherwise they keep their values |
| Cpu.CPU.HandleAddressingMode | src/nes/cpu.rs:285-345 | the latched address, operand value and branch offset are `Addressing` of the modes, registers, operand bytes and bus |
| Cpu.CPU.Commit | src/nes/cpu.rs:610-621 | the bus receives the instruction's writes in order |
| Cpu.Execute | src/nes/cpu.rs:222-281 | the pure dispatch on the instruction: branch cycles are non-zero only on a taken jump, and the flag instructions (CLV dispatched as SEI) change only the status register, write nothing and do not jump |
| Cpu.CPU.ExecInstr | src/nes/cpu.rs:218-282 | addressing, then the registers, bus, jump flag and branch cycles are those of the dispatched instruction's effect |
| Cpu.CPU.Finish | src/nes/cpu.rs:218-282 | the register file, jump flag and branch cycles the instruction leaves |
| PpuMemory.MirrorAddress | src/nes/ppu/memory.rs:144-159 | addresses outside 0x2000..0x3EFF pass through unchanged; every address inside lands below 0x1000 |
| PpuMemory.UpperMirror | src/nes/ppu/memory.rs:147-148 | in every mode 0x3000..0x3EFF behaves exactly like 0x2000..0x2EFF |
| PpuMemory.NametableSharing | src/nes/ppu/memory.rs:151-157 | which nametables share memory: Horizontal pairs 0 with 1 and 2 with 3, Vertical pairs 0 with 2 and 1 with 3, the pairs being distinct; SingleScreenA folds all four onto 0x000 and SingleScreenB onto 0x400; FourScreen keeps all four apart |
| PpuMemory.HorizontalSharing | src/nes/ppu/memory.rs:153 | Horizontal: nametables 0 and 1 land at the offset, 2 and 3 at 0x800 plus it |
| PpuMemory.VerticalSharing | src/nes/ppu/memory.rs:152 | Vertical: nametables 0 and 2 land at the offset, 1 and 3 at 0x400 plus it |
| PpuMemory.SingleSharing | src/nes/ppu/memory.rs:155-156 | single screen: every nametable lands at the offset (A) or 0x400 plus it (B) |
| PpuMemory.FourScreenCells | src/nes/ppu/memory.rs:154 | FourScreen: nametable `n` lands at `0x400 n` plus the offset |
| PpuMemory.Route | src/nes/ppu/memory.rs:251-277 | the PPU-side decode: the mapper iff below 0x2000, nametable RAM at the mirrored cell iff in 0x2000..0x3EFF, palette iff in 0x3F00..0x3FFF, nowhere otherwise |
| PpuMemory.PaletteIndex | src/nes/ppu/memory.rs:260 | `addr & 0xFF` of a palette address is its offset from 0x3F00 (also line 274) |
| PpuMemory.PaletteAliases | src/nes/ppu/memory.rs:256-260 | 0x3F10/14/18/1C reach the entries of 0x3F00/04/08/0C, every other palette address its `addr & 0xFF`, for reads and writes alike (also lines 270-274) |
| PpuMemory.OamIndex | src/nes/ppu/memory.rs:246-249 | `oam_read(n, off)` addresses `(n % 64) * 4 + off` |
| PpuMemory.OamIndexInjective | src/nes/ppu/memory.rs:246-249 | the four bytes of the 64 sprites are 256 distinct OAM cells |
| PpuMemory.WithFlag | src/nes/ppu/memory.rs:109-128 | the masked status bit is set or cleared and every other bit kept |
| PpuMemory.CtrlLatch | src/nes/ppu/memory.rs:198 | a PPUCTRL write replaces only bits 10-11 of `t`, with `value & 3` |
| PpuMemory.ScrollXLatch | src/nes/ppu/memory.rs:212 | first PPUSCROLL write: bits 0-4 of `t` become `value >> 3`, bits 5-13 are kept, bits 14-15 cleared |
| PpuMemory.ScrollYLatch | src/nes/ppu/memory.rs:205-208 | second PPUSCROLL write: fine Y (bits 12-14) becomes `value & 7` and coarse Y (bits 5-9) `value >> 3`; the bits of mask 0x0C1F are kept, bit 15 cleared |
| PpuMemory.AddrHighLatch | src/nes/ppu/memory.rs:218 | first PPUADDR write: `t = (t & 0x00FF) \| ((value & 0x7F) << 8)` |
| PpuMemory.AddrLowLatch | src/nes/ppu/memory.rs:221 | second PPUADDR write: `t = (t & 0x3F00) \| value` |
| PpuMemory.RegisterWrite | src/nes/ppu/memory.rs:194-239 | the per-register part of a write keeps the status; PPUCTRL, and only it, stores `value & 0xFC` in ctrl |
| PpuMemory.WriteMarksStatus | src/nes/ppu/memory.rs:240 | every write ORs `value & 0x1F` into the status and clears no status bit |
| PpuMemory.DataWrite | src/nes/ppu/memory.rs:227-237 | a PPUDATA write steps `v` by 32 when ctrl bit 2 is set, else by 1, marks the status and changes no other register (also line 240) |
| PpuMemory.DataStepOnly | src/nes/ppu/memory.rs:227-237 | the register part of a PPUDATA write only steps `v` |
| PpuMemory.OamDataWrite | src/nes/ppu/memory.rs:202 | an OAMDATA write changes no register but the status: the `wrapping_add` result is discarded, so `oam_addr` stays (also line 240) |
| PpuMemory.OamDataKeeps | src/nes/ppu/memory.rs:202 | the register part of an OAMDATA write changes nothing |
| PpuMemory.AddrWriteStep | src/nes/ppu/memory.rs:216-226 | a PPUADDR write is `AddrWrite` (high latch when `w` is clear; low latch and `v = t` when set; `w` toggled) followed by the status mark |
| PpuMemory.ScrollWriteStep | src/nes/ppu/memory.rs:203-215 | a PPUSCROLL write is `ScrollWrite` (fine and coarse X when `w` is clear, the Y bits when set; `w` toggled) followed by the status mark |
| PpuMemory.AddrLatchPair | src/nes/ppu/memory.rs:216-226 | the two PPUADDR latches spell the 14-bit address `(hi & 0x3F) << 8 \| lo` |
| PpuMemory.AddressPair | src/nes/ppu/memory.rs:216-226 | two PPUADDR writes starting with `w` clear set `v` and `t` to that address and leave `w` clear |
| PpuMemory.ScrollLatchPair | src/nes/ppu/memory.rs:203-215 | the two PPUSCROLL latches: coarse X from the first value, fine and coarse Y from the second, nametable bits untouched |
| PpuMemory.ScrollPair | src/nes/ppu/memory.rs:203-215 | two PPUSCROLL writes starting with `w` clear give fine X `sx & 7`, coarse X `sx >> 3`, fine Y `sy & 7`, coarse Y `sy >> 3`, and leave `w` clear |
| PpuMemory.StatusReadResetsLatch | src/nes/ppu/memory.rs:166-172 | reading PPUSTATUS clears `w` and only the vblank bit of the status |
| PpuMemory.WriteKeepsCtrlMasked | src/nes/ppu/memory.rs:194-240 | no write ever sets ctrl's low two bits |
| PpuMemory.DataReadStepsByOne | src/nes/ppu/memory.rs:176-185 | hence a PPUDATA read, which tests ctrl bit 1, always advances `v` by exactly 1 |
| PpuMemory.VramAfter | src/nes/ppu/memory.rs:268-269 | a PPU-side write keeps the 4 KiB size of nametable RAM |
| PpuMemory.PaletteAfter | src/nes/ppu/memory.rs:270-274 | a PPU-side write keeps the 32-byte size of palette RAM |
| PpuMemory.PpuReadBack | src/nes/ppu/memory.rs:251-277 | a PPU-side write to nametable or palette space reads back at every address routed to the same cell |
| PpuMemory.BackdropAlias | src/nes/ppu/memory.rs:256 | a write to 0x3F10 reads back at 0x3F00 (also line 270) |
| PpuMemory.PPUMemory.New | src/nes/ppu/memory.rs:64-83 | registers zero with `nmi_output` set and Horizontal mirroring; 4 KiB, 256 and 32 writable zero bytes of nametable, OAM and palette RAM |
| PpuMemory.PPUMemory.Nmi | src/nes/ppu/memory.rs:105-107 | `nmi_output` is cleared |
| PpuMemory.PPUMemory.SetInterrupt | src/nes/ppu/memory.rs:109-114 | status bit 7 set or cleared, the others kept |
| PpuMemory.PPUMemory.SetSpriteOverflow | src/nes/ppu/memory.rs:116-121 | status bit 5 set or cleared, the others kept |
| PpuMemory.PPUMemory.SetSprite0Hit | src/nes/ppu/memory.rs:123-128 | status bit 6 set or cleared, the others kept |
| PpuMemory.PPUMemory.OamDmaWrite | src/nes/ppu/memory.rs:134-137 | stores at `oam_addr`, then `oam_addr` moves on by one modulo 256 |
| PpuMemory.PPUMemory.SetMirroring | src/nes/ppu/memory.rs:139-142 | the mirroring mode is replaced |
| PpuMemory.PPUMemory.Read | src/nes/ppu/memory.rs:163-188 | the address is cut to 16 bits; the registers become `AfterRead` and the value is the register read of PPUSTATUS, OAMDATA or PPUDATA, 0 for the others; a `v` whose `+=` overflows is refused (it panics) |
| PpuMemory.PPUMemory.ReadRegister | src/nes/ppu/memory.rs:165-187 | the same, once the address is cut |
| PpuMemory.PPUMemory.ReadStatus | src/nes/ppu/memory.rs:166-172 | returns the old status; `w` and the vblank bit are cleared |
| PpuMemory.PPUMemory.ReadData | src/nes/ppu/memory.rs:176-185 | returns the nametable byte of the mirrored `v` and steps `v` |
| PpuMemory.PPUMemory.StepAddress | src/nes/ppu/memory.rs:178-183 | `v` grows by 32 when the tested ctrl bit is set, else by 1 (also lines 231-236) |
| PpuMemory.PPUMemory.OamRead | src/nes/ppu/memory.rs:246-249 | returns the OAM byte at `(n % 64) * 4 + off`, wrapped by the memory |
| PpuMemory.PPUMemory.PpuRead | src/nes/ppu/memory.rs:251-263 | returns what `Route` selects: the mapper's byte, the nametable cell, the palette entry, or 0 |
| PpuMemory.PPUMemory.PpuWrite | src/nes/ppu/memory.rs:265-277 | hands the write to the mapper iff below 0x2000; nametable and palette RAM become `VramAfter` and `PaletteAfter` |
| PpuMemory.PPUMemory.VramWrite | src/nes/ppu/memory.rs:268-269 | the nametable branch of `ppu_write` |
| PpuMemory.PPUMemory.PaletteWrite | src/nes/ppu/memory.rs:270-274 | the palette branch of `ppu_write`, aliases included |
| PpuMemory.PPUMemory.Write | src/nes/ppu/memory.rs:192-242 | the address is cut to 16 bits; the registers become `AfterWrite`; OAMDATA stores at `oam_addr`; PPUDATA writes at `v` through the PPU-side decode and hands a pattern-table write back to the mapper; nothing else changes the memories |
| PpuMemory.PPUMemory.WriteAt | src/nes/ppu/memory.rs:194-240 | the same, once the address is cut |
| PpuMemory.PPUMemory.WriteOamData | src/nes/ppu/memory.rs:202 | stores at `oam_addr` and only marks the status (also line 240) |
| PpuMemory.PPUMemory.WriteOther | src/nes/ppu/memory.rs:195-226 | the registers that hold no memory, followed by the status mark (also lines 238-240) |
| PpuMemory.PPUMemory.MarkStatus | src/nes/ppu/memory.rs:240 | ORs `value & 0x1F` into the status and changes no other register |
| PpuMemory.PPUMemory.WriteData | src/nes/ppu/memory.rs:227-237 | the PPU-side write at `v`, then the step of `v` and the status mark (also line 240) |
| PpuMemory.PPUMemory.StepData | src/nes/ppu/memory.rs:231-236 | the register part of a PPUDATA write (also line 240) |
| PpuMemory.PPUMemory.WriteRegister | src/nes/ppu/memory.rs:195-226 | PPUCTRL, PPUMASK, OAMADDR, PPUSCROLL, PPUADDR and the ignored registers, as `RegisterWrite` (also line 238) |
| Bus.ReadTarget | src/nes/bus.rs:63-71 | the read decode on the full address: work RAM iff `addr <= 0x800`, the PPU iff a PPU register or 0x4014, the APU/IO block iff the rest of 0x4000..0x401F, the cartridge iff 0x4020..0xFFFF |
| Bus.WriteTarget | src/nes/bus.rs:75-85 | the write decode on the 16-bit address: work RAM iff `<= 0x800`, a DMA start iff 0x4014, the PPU iff 0x2000..0x2007, the APU/IO block iff the rest of 0x4000..0x401F, the cartridge iff `>= 0x4020` |
| Bus.WriteWrapsReadDoesNot | src/nes/bus.rs:63-65 | a write to 0x10000 reaches work RAM while a read of 0x10000 is unmapped (also lines 76-78) |
| Bus.DmaAddress | src/nes/bus.rs:48 | the DMA source address is below 0x10000, with the page as its high byte and the index as its low byte |
| Bus.DmaStep | src/nes/bus.rs:51-56 | the page stays; index 0xFF stops the DMA and keeps the index; any other index moves on by one and keeps the running flag |
| Bus.DmaAdvances | src/nes/bus.rs:51-56 | while the index stays at or below 0xFF, `k` ticks add `k` to it and keep the flag and the page |
| Bus.DmaLasts256 | src/nes/bus.rs:47-58 | a DMA started at 0x4014 reads `page * 256 + k` on tick `k + 1` and is still running after tick `k + 1` iff `k < 255`: 256 ticks in all (also line 79) |
| Bus.RunSplit | src/nes/bus.rs:47-58 | `k + 1` ticks are `k` ticks and one more |
| Bus.Bus.New | src/nes/bus.rs:21-29 | 0x800 zero bytes of work RAM, 0x2F of register block, a fresh PPU memory in its initial state, the cartridge loaded as NROM, no DMA |
| Bus.Bus.MapperLoad | src/nes/bus.rs:31-33 | the bus holds the new mapper and stays consistent |
| Bus.Bus.OamDmaState | src/nes/bus.rs:43-45 | true iff a DMA is running |
| Bus.Bus.Read | src/nes/bus.rs:63-71 | returns the byte the read decode selects (0 when unmapped); only a PPU register read changes state, as the PPU read does |
| Bus.Bus.Write | src/nes/bus.rs:75-85 | on the 16-bit address: work RAM or the register block store the byte at the wrapped address, 0x4014 starts a DMA from page `value` at index 0, a PPU register write has the PPU write's effect, and no ROM changes; every other state is kept |
| Bus.Bus.WritePpu | src/nes/bus.rs:80 | the PPU register write, its pattern-table hand-back left without effect on the ROMs |
| Bus.Bus.OamDmaTick | src/nes/bus.rs:47-58 | reads the byte at the DMA address through the bus, stores it in OAM at `oam_addr`, which moves on, steps the DMA tuple and reports whether it still runs |
| Bus.Bus.PpuRead | src/nes/bus.rs:89-95 | the cartridge byte below 0x2000, the PPU memories' byte in 0x2000..0x3FFF, 0 above |
| Bus.Bus.PpuWrite | src/nes/bus.rs:97-103 | nametable and palette RAM take the PPU-side write; the ROMs stay |
| ApuMemory.LocInverse | src/nes/apu/memory.rs:89-117 | every address `write` stores to is recovered from the register it names |
| ApuMemory.LocInjective | src/nes/apu/memory.rs:89-117 | no two addresses of `write`'s table share a register |
| ApuMemory.AfterWrite | src/nes/apu/memory.rs:87-120 | a write keeps the arrays at their fixed lengths 4, 4, 3, 3 and 4 |
| ApuMemory.WriteStoresMasked | src/nes/apu/memory.rs:90-117 | a write stores `value` under its address's mask: noise 0x3F/0x8F/0xF8, DMC 0xCF/0x7F, status 0x1F, frame counter 0xC0, whole elsewhere |
| ApuMemory.WriteKeepsOthers | src/nes/apu/memory.rs:90-117 | a write leaves every other listed register as it was |
| ApuMemory.UnlistedWriteIgnored | src/nes/apu/memory.rs:118 | a write to an address outside the table (0x4009, 0x400D, 0x4014, 0x4016, …) changes nothing |
| ApuMemory.FrameCounterClears | src/nes/apu/memory.rs:41-50 | after a frame-counter write the masked value survives one tick and the second tick clears it (also lines 114-117) |
| ApuMemory.TickKeepsFrameCounter | src/nes/apu/memory.rs:41-50 | except on the tick that ends the countdown, a tick keeps the frame counter; it changes nothing but the countdown and the frame counter (the `wrapping_add` result is discarded) |
| ApuMemory.ChannelReg | src/nes/apu/memory.rs:52-61 | `get_channel_reg` returns an array of the addressed channel's length, or of length 1 for another address |
| ApuMemory.SetChannel | src/nes/apu/memory.rs:63-72 | `set_channel_reg` keeps the arrays at their fixed lengths |
| ApuMemory.SetChannelOnly | src/nes/apu/memory.rs:63-72 | the addressed channel reads back with element `n` replaced; every other channel, the status, the frame counter and the countdown are kept |
| ApuMemory.SetChannelMatchesWrite | src/nes/apu/memory.rs:65 | storing pulse 1 register `n` through `set_channel_reg` and through `write` of 0x4000 + n give the same state (also lines 90-93) |
| ApuMemory.StatusReadBack | src/nes/apu/memory.rs:76-83 | a status write reads back at 0x4015 as `value & 0x1F` (also line 113) |
| ApuMemory.APUMemory.New | src/nes/apu/memory.rs:28-39 | five fresh zeroed arrays of lengths 4, 4, 3, 3, 4; status, frame counter and countdown zero |
| ApuMemory.APUMemory.Tick | src/nes/apu/memory.rs:41-50 | the state becomes `AfterTick` of the old one; the result is false |
| ApuMemory.APUMemory.GetChannelReg | src/nes/apu/memory.rs:52-61 | returns the addressed channel's registers, `[0]` for another address |
| ApuMemory.APUMemory.SetChannelReg | src/nes/apu/memory.rs:63-72 | the state becomes `SetChannel` of the old one; an index past the array, which panics, is refused |
| ApuMemory.APUMemory.Read | src/nes/apu/memory.rs:76-83 | the status at 0x4015, 0 elsewhere |
| ApuMemory.APUMemory.Write | src/nes/apu/memory.rs:87-120 | the state becomes `AfterWrite` of the old one, on the address cut to 16 bits |
| ApuMemory.APUMemory.WritePulse | src/nes/apu/memory.rs:90-98 | the same, for the eight pulse registers |
| ApuMemory.APUMemory.WriteTriangleNoise | src/nes/apu/memory.rs:100-106 | the same, for 0x4008..0x400F, 0x4009 and 0x400D ignored |
| ApuMemory.APUMemory.WriteDmc | src/nes/apu/memory.rs:108-111 | the same, for the four DMC registers |
| Triangle.SequenceShape | src/nes/apu/channel/triangle.rs:8-11 | the 32-step table descends from 15 to 0 and climbs back to 15: every entry is a 4-bit volume and step `i` equals step `31 - i` |
| Triangle.Period | src/nes/apu/channel/triangle.rs:72 | the reload value is an 11-bit number whose low byte is `channelReg[1]` (0x400A) and whose high bits are `channelReg[2] & 7` (0x400B) |
| Triangle.CountsDown | src/nes/apu/channel/triangle.rs:71-76 | a non-zero timer counts down one per tick |
| Triangle.TimerPeriodic | src/nes/apu/channel/triangle.rs:71-76 | with the registers fixed, the timer is 0 again `Period + 1` ticks after being 0 |
| Triangle.TriangleRegister.New | src/nes/apu/channel/triangle.rs:29-36 | every field clear |
| Triangle.TriangleRegister.LoadFromChannelReg | src/nes/apu/channel/triangle.rs:38-43 | the control flag is bit 7 of register 0, the linear counter load its low 7 bits, the length counter load register 2 shifted right by 3; the timer is kept |
| Triangle.LoadSplitsRegister | src/nes/apu/channel/triangle.rs:39-42 | the control flag and the linear counter load put back together give register 0; the loads fit 7 and 5 bits |
| Triangle.Triangle.New | src/nes/apu/channel/triangle.rs:59-65 | the channel keeps its first register address and a fresh cleared register set, so the timer starts within 11 bits |
| Triangle.Triangle.HandleChannel | src/nes/apu/channel/triangle.rs:67-79 | loads the registers, reloads the timer at 0 and counts it down otherwise, keeps the timer at most 0x7FF, and returns table step `timer % 32`, at most 15 |
| Pulse.Period | src/nes/apu/channel/pulse.rs:44 | the period is an 11-bit number whose low byte is register 2 and whose high bits are `register 3 & 7` (also line 52) |
| Pulse.DutyCycle | src/nes/apu/channel/pulse.rs:41 | the duty cycle (the top two bits of register 0) is one of four |
| Pulse.DutyIndexCycles | src/nes/apu/channel/pulse.rs:43-51 | the duty position stays in 0..7; it moves to the next step, 7 wrapping to 0, exactly when the timer reloads at 0 with a nonzero period, and stays otherwise |
| Pulse.TableOutput | src/nes/apu/channel/pulse.rs:53 | the entry looked up as written is 0 or 1 |
| Pulse.DutyOutput | src/nes/apu/channel/pulse.rs:8-13 | the entry the table is laid out for (row duty cycle, column position) is 0 or 1 |
| Pulse.TableOutputIgnoresDutyCycle | src/nes/apu/channel/pulse.rs:8-13 | as written, the output is 1 exactly at positions 3 and 7, whatever the duty cycle (also line 53) |
| Pulse.TableOutputWrongWidth | src/nes/apu/channel/pulse.rs:53 | as written, duty cycle 0 is high on 2 steps out of 8 instead of 1, duty cycle 2 on 2 instead of 4 |
| Pulse.AsWrittenWidth | src/nes/apu/channel/pulse.rs:53 | as written, every duty cycle is high on 2 steps of 8 |
| Pulse.DutyOutputWidths | src/nes/apu/channel/pulse.rs:8-13 | as laid out, the four duty cycles are high on 1, 2, 4 and 6 steps of 8 |
| Pulse.OutputRule | src/nes/apu/channel/pulse.rs:52-62 | the channel is silent when the period is under 8 and otherwise sounds exactly when the table entry is 1 |
| Pulse.Pulse.New | src/nes/apu/channel/pulse.rs:30-37 | the first register address is kept; timer, shift register and duty position are zero |
| Pulse.Pulse.HandleChannel | src/nes/apu/channel/pulse.rs:39-63 | the timer reloads or counts down, the duty position moves as `DutyIndexCycles` says, and the output is that of the entry `table[duty_index % 4][duty_cycle]` at the new position, as line 53 looks it up: the channel sounds iff the period is at least 8 and that entry is nonzero |
| Controller.FilterDpad | src/nes/controller/basic.rs:107-114 | unless opposite directions are allowed, Up and Down are never both pressed nor Left and Right; Up and Right pass unchanged, Down survives only without Up and Left only without Right |
| Controller.FilterIdempotent | src/nes/controller/basic.rs:107-114 | filtering an already filtered D-pad changes nothing |
| Controller.SerialOrder | src/nes/controller/basic.rs:62-71 | the serial order has the eight buttons A, B, Select, Start, Up, Down, Left, Right |
| Controller.ReportsCount | src/nes/controller/basic.rs:58-76 | without strobe, `n` reads give `n` bits, read `k` being the button of report number `count + k` |
| Controller.SerialShiftOut | src/nes/controller/basic.rs:58-76 | from a reset count and no strobe, reads 0..7 report the buttons in serial order and every later read reports 1 (also line 115) |
| Controller.StrobeRepeatsA | src/nes/controller/basic.rs:59-61 | with the strobe set, every read reports button A |
| Controller.PortAddr | src/nes/controller/basic.rs:81 | an even port listens at 0x4016 and an odd one at 0x4017 |
| Controller.NesController.New | src/nes/controller/basic.rs:24-39 | no button pressed, opposite directions filtered, count 0, strobe clear, the port kept |
| Controller.NesController.SetOppositeDpad | src/nes/controller/basic.rs:41-43 | the flag is replaced |
| Controller.NesController.DpadActive | src/nes/controller/basic.rs:45-51 | true iff some direction is pressed |
| Controller.NesController.SetStrobe | src/nes/controller/basic.rs:53-56 | the strobe is replaced |
| Controller.NesController.PortReport | src/nes/controller/basic.rs:58-76 | returns 1 or 0 for the button of the current count (0 while strobed) and counts one more report; a `u8` count that would overflow is refused (it panics) |
| Controller.NesController.Read | src/nes/controller/basic.rs:80-89 | a read of the port's address is one report; any other address reads 0 and keeps the count |
| Controller.NesController.Write | src/nes/controller/basic.rs:91-96 | a write to 0x4016 sets the strobe to bit 0 of the value; other addresses leave it |
| Controller.NesController.Update | src/nes/controller/basic.rs:98-116 | the buttons are stored, the D-pad filtered as `FilterDpad` says, and the count reset |
| TraceDiff.Split | diff_nes_log.py:20 | `str.split()` yields non-empty tokens free of whitespace (also line 43) |
| TraceDiff.SplitAtSpace | diff_nes_log.py:20 | a whitespace character separates tokens: `(a + c + b).split()` is `a.split()` followed by `b.split()` (also line 43) |
| TraceDiff.SplitToken | diff_nes_log.py:20 | a non-empty run without whitespace splits into itself alone (also line 43) |
| TraceDiff.SplitBlank | diff_nes_log.py:20 | a string of whitespace only has no tokens (also line 43) |
| TraceDiff.SplitKeepsText | diff_nes_log.py:20 | the tokens put back together are the line's non-whitespace text, in order (also line 43) |
| TraceDiff.SplitOn | diff_nes_log.py:33-39 | `s.split(sep)` gives at least one piece, exactly one iff `sep` does not occur, and no piece holds `sep` (also lines 44-60, 108-112) |
| TraceDiff.SplitOnJoin | diff_nes_log.py:33-39 | joining the pieces back with the separator gives the string again (also lines 44-60, 108-112) |
| TraceDiff.Upper | diff_nes_log.py:33-39 | `str.upper()` keeps the length, turns each lower-case letter into its capital and keeps every other character, so no lower-case letter is left (also lines 44-60) |
| TraceDiff.UpperIdempotent | diff_nes_log.py:33-39 | upper-casing twice is upper-casing once (also lines 44-60) |
| TraceDiff.ParseLog | diff_nes_log.py:18-39 | `from_log` succeeds iff tokens -4 .. -8 exist and each holds a colon; it echoes the line and then fails iff -4 .. -7 hold one and -8 does not; on success each field is the token the source names (operands only when two characters long, the mnemonic after them, registers upper-cased after the colon, PPU and cycle the last two tokens) |
| TraceDiff.ParseOut | diff_nes_log.py:41-60 | `from_out` succeeds iff token 0, the operand tokens its length calls for (2 at 11 or more tokens, 3 at exactly 12) and tokens -4 .. -8 hold an `x`; it echoes the line and fails iff token -4 exists without one; on success the fields are the upper-cased texts after the `x`, PPU and cycle the last two tokens, opcode and mnemonic empty |
| TraceDiff.FromOutOperands | diff_nes_log.py:45-50 | a candidate line with a second operand has 12 tokens and a first operand |
| TraceDiff.Fields | diff_nes_log.py:64-81 | the compared fields line up with the labels OP1, OP2, A, X, Y, SP, P, cycle, PPU |
| TraceDiff.CheckStep | diff_nes_log.py:64-81 | each field test appends the field's fragment to the message and raises the severity to 1 iff the field differs |
| TraceDiff.Cmp | diff_nes_log.py:62-84 | severity 2 iff the PCs differ, 1 iff they agree and some other field differs, 0 iff all agree; the message is the PC text (on a PC mismatch) followed by the fragments of the differing fields, in order |
| TraceDiff.FieldsDifferUnfolded | diff_nes_log.py:64-81 | some field other than the PC differs iff one of the nine compared fields does |
| TraceDiff.DiffTextEmpty | diff_nes_log.py:64-81 | the fragments of the first `k` fields are empty iff those fields match |
| TraceDiff.CmpReflexive | diff_nes_log.py:62-84 | a record compared with itself gives `(0, "")` |
| TraceDiff.CmpMessageEmpty | diff_nes_log.py:62-84 | the message is empty iff the severity is 0 |
| TraceDiff.CompareAt | diff_nes_log.py:95-104 | the loop body up to `cmp` computes the step of index `i`; a comparison needs a reference line at `i` |
| TraceDiff.ErrorsBefore | diff_nes_log.py:106 | the error count after `n` indices is at most `n` (also line 116) |
| TraceDiff.ExhaustedEnds | diff_nes_log.py:94 | leaving the loop because the range is used up finishes the run with the totals so far |
| TraceDiff.CrashEnds | diff_nes_log.py:37-39 | a failed index finishes the run with its echoed line printed last (also lines 54-56, 95) |
| TraceDiff.ComparedStep | diff_nes_log.py:104-122 | a compared index adds its report and its error; a PC mismatch then stops the run, the last reference line ends it with "Congrats!!!", and otherwise the loop goes on with the verdict remembered |
| TraceDiff.ExtendCompared | diff_nes_log.py:94-104 | a newly compared index extends the verdicts of the earlier ones |
| TraceDiff.ExtendTotals | diff_nes_log.py:106-116 | appending a verdict adds its report and its error to the earlier totals |
| TraceDiff.ReportsPrefix | diff_nes_log.py:106-116 | what the first `n` indices print depends only on their verdicts |
| TraceDiff.ErrorsPrefix | diff_nes_log.py:106 | the error count of the first `n` indices depends only on their verdicts (also line 116) |
| TraceDiff.ReportOf | diff_nes_log.py:106-115 | a match prints nothing; a divergence prints an empty line, preceded by the five context lines only when its verdict differs from the remembered one (also line 119) |
| TraceDiff.RecordVerdict | diff_nes_log.py:106-116 | a compared index adds one to the error count iff its severity is nonzero and prints exactly its `Report` |
| TraceDiff.DiffTraces | diff_nes_log.py:92-122 | the loop's error count, printed lines and stop are those `Finished` describes, for the verdicts the traces give |
| TraceDiff.MatchingTracesReportNothing | diff_nes_log.py:106-116 | matching verdicts count no error and print nothing |
| TraceDiff.RepeatedDivergence | diff_nes_log.py:106-116 | a divergence repeated at the next index is counted again but prints only an empty line (also line 119) |
| TraceDiff.CleanRun | diff_nes_log.py:92-122 | a run whose every comparison matched counts no error and prints only its epilogue |
| TraceDiff.DesyncIsPcMismatch | diff_nes_log.py:82-83 | a run stops on a desynchronisation exactly at an index whose two lines both parse and have different PCs (also lines 117-118) |

## Left out

Behaviour modelled as the code is written, where the code and its evident
intent or its accompanying description differ:

- `Cpu`: the CLV opcode is dispatched to SEI, as `exec_instr` does.
- `Cpu`: INC/INX/INY map 0xFE to 0.
- `Cpu`: ROL/ROR combine with `&=`, so the shifted-in bit clears the value.
- `Cpu`: PHA/PHP push upwards (S increments) and PLA/PLP pull downwards.
- `Cpu`: JSR writes both return-address bytes into the same cell, and RTS
  builds PC from one stack byte used twice.
- `Cpu`: SBC is a no-op, and BRK and RTI are empty stubs. They change
  nothing but the common bookkeeping.
- `PpuMemory`: a PPUDATA read tests ctrl bit 1 for its step. PPUCTRL always
  stores `value & 0xFC`, so that bit is never set
  (`PpuMemory.DataReadStepsByOne`).
- `PpuMemory`: the `wrapping_add` of an OAMDATA write is discarded, so
  `oam_addr` does not move.
- `ApuMemory`: the `wrapping_add` of `tick` is discarded too.
- `Bus`: a write is decoded on the address cut to 16 bits, but a read is
  decoded on the full address (`Bus.WriteWrapsReadDoesNot`).
- `Bus`: work RAM answers 0x0000..=0x0800. 0x0800 wraps to cell 0, and
  0x0801..0x1FFF read 0.
- `Mmc1`: in PRG modes 0 and 4, `control_write` sets the 0x8000 window
  twice.
- `Mmc1`: `chr_bank_write` tests control bit 4 in the opposite sense to
  `control_write`.
- `Cartridge`: `chr_size` holds the PRG size.
- `Cpu`: DEC/DEX/DEY set N only when the old value was 0, not from bit 7
  of the result.
- `Cpu`: CMP/CPX/CPY set N from `register < operand`, not from bit 7 of
  the difference.
- `Cpu`: IZX, IZY and IND take the first pointer byte read as the high
  byte of the address and the second as the low byte.
- `Cpu`: ADC sets V only when two non-negative operands give a negative
  result. Two negative operands giving a non-negative result leave V clear.
- `Cpu`: a taken branch counts 3 cycles on the same page and 1 across a
  page boundary.
- `Cpu`: a taken branch only sets the jump flag and the branch cycles. It
  never moves PC to the target (`Cpu.Branch`).
- `Cpu`: `operand_lenght` gives REL two operand bytes, where the 6502 has
  one (`Cpu.OperandLength`).
- `Pulse`: `handle_channel` reads the duty table with its indices swapped,
  `table[duty_index % 4][duty_cycle]`, so every duty setting is high at
  positions 3 and 7 only (see Findings).

Omitted or abstracted:

- `Cpu`: the contents of the opcode table are not part of this model. The
  table is an input of 256 `InstructionInfo` entries.
- `Cpu`: the CPU's bus is a flat map of cells (`FlatBus`).
- `Bankable`: `BankableMemory` is not part of this model. It is modelled as
  a memory with a window size and a map from window base to bank, with the
  read and write layout inferred from the calls in the mapper files.
- `Ppu`: `Palette::new` is not part of this model, so the 64-entry palette
  is taken to be black. `render_frame`, `load_palette` and `reset` are left
  out: they are empty or drive SDL.
- `Ppu.PPU.TickN`: models the `Clock::tick_n` default method for the PPU.
  The trait method is not modelled in general.
- `Arch`: the `Nes` struct (the run loop wiring CPU, PPU, APU, controllers
  and SDL) is left out. It is I/O and scheduling.
- `apu.rs`, the mixer and the `f32` audio samples are left out. Pulse
  outputs the 0/1 table value in place of the `f32`.
- `Triangle` and `Pulse`: the `u16` timers are `nat`. Every value a timer
  takes is at most 0x7FF (each channel's `Valid` keeps it so) and a
  count-down never passes 0, so no wrap-around is lost.
- `Controller`: the SDL button polling of `update` becomes a `Buttons`
  parameter. Which host button feeds which NES button is not modelled. The
  unused fields `input` and `output` are left out.
- `Controller.NesController`: `debug_print` is left out, as printing.
- `TraceDiff`: opening and reading the two files becomes two sequences of
  lines. `print` becomes appending to an output sequence.
- `TraceDiff`: `str.upper()` upper-cases ASCII letters only.
- `TraceDiff`: `str.split()` treats the ASCII and Latin-1 whitespace as
  separators, not the rest of Unicode.
- `TraceDiff`: an uncaught `IndexError` is a `Crash` stop that keeps the
  line echoed before it.
- `Bus`, `PpuMemory`, `ApuMemory`, `NesMemory`: the `Display`
  implementations and `print_*` helpers are left out, as output only.
- `Mmc1`, `Uxrom`, `Cartridge`, `OldCpu`, `Cpu`, `PpuMemory`: the debug
  printing inside the modelled members (the `print!`/`println!` calls of
  MMC1's `write` and `control_write`, UxROM's `mirroring`,
  `create_from_rom`, the old CPU's `load` and `reset`, the new CPU's
  `reset` and the catch-all arm of `exec_instr`, PPUMemory's
  `set_mirroring`) and the
  `debug_print_vec` helpers are left out, as output only.
- `PpuMemory`: the getters (`read_ctrl`, `get_nmi_output`, …) become plain
  field reads.

## Findings

| source | as written | input that shows it | evidently intended | confidence | as-written member | corrected member |
|---|---|---|---|---|---|---|
| src/nes/apu/channel/pulse.rs:53 | `sequence_lookup_table[duty_index % 4][duty_cycle]` indexes the table by position first and duty cycle second | duty cycle 0 (12.5%) gives 2 high steps of 8 instead of 1, and duty cycle 2 (50%) gives 2 instead of 4: every setting is high at positions 3 and 7 | `sequence_lookup_table[duty_cycle][duty_index]`, row per duty cycle as the table is laid out | not executed | Pulse.TableOutputWrongWidth | Pulse.DutyOutputWidths |
