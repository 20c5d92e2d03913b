# A verified model of a Go NES emulator core and its trace comparator

This project models, in Dafny, the core of a Nintendo Entertainment System emulator written in Go, together with the Python script that checks the emulator's execution trace against the reference `nestest` log.

- **Processor.** The 6502 core has A, X, Y, P, Sp, Pc and the branch-taken mark.
  - The status flags, the stack in page 1, and the operand fetch of every addressing mode are modelled. This includes page-crossing cycles, zero-page wrap-around and the indirect-JMP page bug.
  - The 256-entry opcode table is modelled, with the instruction cycle (`Run`, `executeInstruction`, `attendInterrupt`).
  - Every instruction family is modelled: arithmetic, shifts and rotates, logic, branches, increments, loads and stores, transfers, flag instructions, the stack, and control flow.
  - The `Stringfy` trace line is modelled as written, including the unsigned sum it prints for a relative operand (see Findings).
- **Address decoding.**
  - The CPU bus map.
  - The iNES cartridge loader and the NROM mapper.
  - The PPU's address space, with horizontally mirrored nametables and separate background and sprite palettes.
- **Picture processing unit.**
  - The `v` register's bit fields.
  - The CPU-facing ports, with the two-write address latch and the data-port auto-increment.
  - The decoding of character ROM into 8x8 tiles of 2-bit pixels.
  - The control, mask and sprite-attribute byte decoders.
  - The 16-slot pixel ring buffer.
  - The nine-state background fetch cycle of the scanline builder.
- **Input and interrupts.** The controller's strobe-and-shift protocol, and the one-slot interrupt signal.
- **Tools.** The hex dumper of `cmd/savehex`, and `compare_output.py`: its two token-cursor parsers and its first-mismatch comparator.

Go's `uint8` and `uint16` are `bv8` and `bv16`, so their wrap-around is the bit-vector's. Python integers are `int`.

The state-changing parts take the source's form:
- a `class` whose methods update fields in place;
- `modifies` frames;
- loops with invariants.

Each such method is proved against a specification function, and lemmas state what those functions mean.

A Go panic (an index or slice out of range) or a Python exception becomes an `Err` result when the failure is part of the behaviour being described, such as an empty file or a short ROM. Otherwise it becomes a precondition.

The processor's bus is an abstract 64 KiB byte memory owned by the `CPU` object; a cell never written reads as 0. The CPU-side address map of `bus/bus.go` is modelled on its own in `CpuBus`. The flag constants of `StatusFlag` are not part of this model; the model uses the standard 6502 bit positions: C 0, Z 1, I 2, D 3, B 4, V 6, N 7.

## Model

| member | source | states |
|---|---|---|
| Arithmetic.Adc | cpu/arithmetic.go:3-23 | ADC leaves A = low byte of A + operand + carry and P = the N, Z, C, V status of that sum; nothing else changes |
| Arithmetic.Sbc | cpu/arithmetic.go:58-79 | SBC is ADC of the operand with its low byte inverted: same accumulator and status rule, nothing else changes |
| Arithmetic.Compare | cpu/arithmetic.go:25-56 | the compare shared by CMP, CPX and CPY changes only P, to the compare status of register minus operand |
| Arithmetic.Cmp | cpu/arithmetic.go:25-34 | CMP compares A with the operand's low byte; only P changes |
| Arithmetic.Cpx | cpu/arithmetic.go:36-45 | CPX compares X with the operand's low byte; only P changes |
| Arithmetic.Cpy | cpu/arithmetic.go:47-56 | CPY compares Y with the operand's low byte; only P changes |
| Arithmetic.AdcResult | cpu/arithmetic.go:11-12 | ADC's accumulator is A + M + C modulo 256, M being the operand's low byte |
| Arithmetic.AdcCarry | cpu/arithmetic.go:11-20 | for a byte operand, C is set exactly when A + M + C exceeds 255 as an integer sum |
| Arithmetic.AdcCarryFlag | cpu/arithmetic.go:20 | C after ADC is set exactly when the 16-bit sum exceeds 0xFF |
| Arithmetic.AdcZero | cpu/arithmetic.go:19 | Z after ADC is set exactly when the new accumulator is zero |
| Arithmetic.AdcNegative | cpu/arithmetic.go:18 | N after ADC is bit 7 of the new accumulator |
| Arithmetic.AdcOverflow | cpu/arithmetic.go:14-21 | V after ADC is set exactly when both operands share a sign that the result lacks |
| Arithmetic.AdcKeepsOtherFlags | cpu/arithmetic.go:18-21 | ADC and SBC leave I, D, B and bit 5 of P unchanged |
| Arithmetic.SbcSubtracts | cpu/arithmetic.go:66-76 | SBC computes A - M - (1 - C) modulo 256, and sets C exactly when no borrow occurs |
| Arithmetic.SbcResult | cpu/arithmetic.go:66-68 | SBC's accumulator is A - M - (1 - C) modulo 256 |
| Arithmetic.SbcCarry | cpu/arithmetic.go:66-76 | C after SBC is set exactly when M + (1 - C) is at most A |
| Arithmetic.CompareFlags | cpu/arithmetic.go:28-33 | after a compare, C is set iff the operand is at most the register, Z iff they are equal, N is bit 7 of the difference |
| Arithmetic.CompareCarry | cpu/arithmetic.go:33 | C after a compare is set iff the operand's low byte is at most the register |
| Arithmetic.CompareZero | cpu/arithmetic.go:29-31 | Z after a compare is set iff the register equals the operand's low byte |
| Arithmetic.CompareNegative | cpu/arithmetic.go:29-32 | N after a compare is bit 7 of register minus operand |
| Arithmetic.CompareKeepsOtherFlags | cpu/arithmetic.go:31-33 | the compares change only N, Z and C |
| Branching.OppositeBranches | cpu/branching.go:3-73 | the branches come in complementary pairs (BCC/BCS, BNE/BEQ, BPL/BMI, BVC/BVS): for any P exactly one of each pair is taken |
| Branching.Branch | cpu/branching.go:3-10 | when the branch condition holds, Pc becomes the operand and branchTaken is set; otherwise neither changes |
| Branching.Bcc | cpu/branching.go:3-10 | BCC jumps to the operand and marks the branch taken exactly when carry is clear; otherwise nothing changes |
| Branching.Bcs | cpu/branching.go:12-19 | BCS jumps exactly when carry is set |
| Branching.Beq | cpu/branching.go:21-28 | BEQ jumps exactly when zero is set |
| Branching.Bmi | cpu/branching.go:30-37 | BMI jumps exactly when negative is set |
| Branching.Bne | cpu/branching.go:39-46 | BNE jumps exactly when zero is clear |
| Branching.Bpl | cpu/branching.go:48-55 | BPL jumps exactly when negative is clear |
| Branching.Bvc | cpu/branching.go:57-64 | BVC jumps exactly when overflow is clear |
| Branching.Bvs | cpu/branching.go:66-73 | BVS jumps exactly when overflow is set |
| CpuBus.NewBus | bus/bus.go:30-34 | a new bus has 2 KiB of zeroed RAM and 16 KiB of video RAM and holds the cartridge's bank count and program ROM |
| CpuBus.Read | bus/bus.go:40-58 | below 0x2000 a read returns the RAM cell of the address modulo 2 KiB, from 0x8000 the program ROM byte at the bank-folded offset, and 0 for 0x2000-0x7FFF |
| CpuBus.Write | bus/bus.go:36-38 | a write leaves the bus as it was |
| CpuBus.RamIndexMirrors | bus/bus.go:41-44 | the RAM index of an address below 0x0800 is the address itself, and its three mirrors 2, 4 and 6 KiB above map to the same cell |
| CpuBus.RamMirrored | bus/bus.go:41-45 | RAM repeats every 2 KiB below 0x2000: the four mirrors of a cell read the same byte |
| CpuBus.OneBankOffsetInFirstBank | bus/bus.go:47-53 | with one bank every ROM address reads within the first 16 KiB |
| CpuBus.OneBankHighOffset | bus/bus.go:49-52 | with one bank, an address from 0xC000 has bit 14 cleared, which moves it 16 KiB down |
| CpuBus.LowOffset | bus/bus.go:52 | between 0x8000 and 0xBFFF the ROM offset is the distance from 0x8000, whatever the bank count |
| CpuBus.OneBankOffsetFolds | bus/bus.go:49-52 | with one bank, an address from 0xC000 reads the ROM offset of the address 16 KiB below it |
| CpuBus.BanksOffsetDirect | bus/bus.go:47-53 | with any bank count but one, the ROM offset is the distance from 0x8000 |
| CpuBus.SingleBankMirrored | bus/bus.go:47-54 | with one bank, 0xC000-0xFFFF reads exactly what 0x8000-0xBFFF reads |
| CpuBus.UnmappedReadsZero | bus/bus.go:56 | addresses 0x2000-0x7FFF read 0 |
| CpuBus.WriteInvisible | bus/bus.go:36-38 | a write changes nothing any later read can see |
| Cartridge.MirroringFlagAsWritten | cartridge/cartridge.go:58 | for bit 0 (vertical mirroring) comparing the masked byte with 1 is the same as testing the bit |
| Cartridge.HigherFlagsNeverSetAsWritten | cartridge/cartridge.go:59-64 | as written, the battery, trainer and four-screen tests (masks 2, 4, 8 compared with 1) are false for every control byte |
| Cartridge.TrainerMissedAsWritten | cartridge/cartridge.go:64 | the control byte 0x04 announces a trainer, which the test as written misses |
| Cartridge.MapperId | cartridge/cartridge.go:62 | the mapper number takes its high nibble from the second control byte and its low nibble from the first control byte's high nibble |
| Cartridge.ZeroBytes | cartridge/cartridge.go:67 | a fresh buffer of n bytes, all zero |
| Cartridge.FileRead | cartridge/cartridge.go:42-96 | `File.Read` of n bytes: EOF exactly when n > 0 at the end of the file, otherwise as many of the next bytes of the file as remain, up to n |
| Cartridge.FromHeaders | cartridge/cartridge.go:51-64 | the cartridge's mirroring flag is bit 0 of the first control byte under either reading, its trainer flag is the header's trainer test, its mapper number is `MapperId`, and its mapper holds the bank count and the two ROMs |
| Cartridge.ReadTrainer | cartridge/cartridge.go:64-72 | with the trainer announced, EOF exactly when the file ends at the header; otherwise the cursor moves to the program ROM's start and the trainer is the bytes read, zero-padded to 512; without it nothing is read |
| Cartridge.LoadCartridgeFromRom | cartridge/cartridge.go:33-121 | the cursor loader returns exactly the stage-by-stage decoding of the file under the given flag reading; the loader as written is the reading `AsWritten` |
| Cartridge.DecodeOutcome | cartridge/cartridge.go:40-103 | under either reading: an empty file ends at once; a file shorter than the header is invalid; a longer one loads iff its sizes fit and its mapper is 0; the mapper is rejected only once all size checks pass |
| Cartridge.DecodeContents | cartridge/cartridge.go:51-120 | a loaded cartridge holds the header's flags under the reading used and its counts, the trainer when announced, and program and character ROMs that are consecutive parts of the file ending at its last byte |
| Cartridge.DecodeAsWrittenFlags | cartridge/cartridge.go:58-72 | as the loader is written, a loaded cartridge never has the battery, trainer or four-screen flag, holds no trainer, and its program ROM starts right after the header |
| Cartridge.ReadingsAgree | cartridge/cartridge.go:58-64 | when bits 1-3 of the first control byte are clear, the loader as written and the intended bit tests load the same outcome |
| Cartridge.TrainerBitIgnoredAsWritten | cartridge/cartridge.go:64-83 | a header with the trainer bit followed by one 16 KiB bank loads as written with that bank as program ROM and no trainer, while the intended reading finds the file too short |
| Cartridge.DecodeLayout | cartridge/cartridge.go:51-120 | under either reading, a header followed by the trainer and ROMs it announces loads back as exactly those parts (the inverse of the layout) |
| Cartridge.ReadPrgRom | cartridge/cartridge.go:127-129 | a program read through the cartridge answers with the ROM byte at the address, modulo 16 KiB when there is one 16 KiB bank |
| Cartridge.WritePrgRom | cartridge/cartridge.go:131-133 | a program write through the cartridge leaves it unchanged |
| Cartridge.ReadChrRom | cartridge/cartridge.go:135-137 | a character read through the cartridge answers with the character ROM byte at the address |
| Cartridge.WriteChrRom | cartridge/cartridge.go:139-141 | a character write through the cartridge leaves it unchanged |
| Cartridge.CartridgeWritesInvisible | cartridge/cartridge.go:131-141 | program and character writes through the cartridge change nothing it holds |
| Cartridge.LoadedChrReads | cartridge/cartridge.go:135-137 | a character ROM read of a loaded cartridge returns the file's byte that far after the program ROM |
| Cartridge.LoadedOneBankPrgReads | cartridge/cartridge.go:127-129 | a loaded one-bank cartridge answers every address of its 32 KiB window with the file's program byte at that address modulo 16 KiB |
| Nrom.PrgIndex | cartridge/nrom.go:9-15 | the program index stays 16-bit; with any bank count but one it is the address; with one 16 KiB bank an address from 16 KiB moves back one bank, and one inside the ROM is kept |
| Nrom.SingleBankMirrored | cartridge/nrom.go:9-15 | with a single 16 KiB bank, the upper half of the 32 KiB window reads the same byte as the lower half |
| Nrom.TwoBanksDirect | cartridge/nrom.go:9-15 | with two banks every address below 32 KiB reads its own byte |
| Nrom.WritesInvisible | cartridge/nrom.go:17-25 | program and character writes are invisible to every later program or character read |
| Nrom.ReadPrg | cartridge/nrom.go:9-15 | a program read answers with the ROM byte at the address, or at the address modulo 16 KiB when there is one 16 KiB bank |
| Nrom.WritePrg | cartridge/nrom.go:17-18 | a program write leaves the mapper unchanged |
| Nrom.ReadChr | cartridge/nrom.go:20-22 | a character read answers with the character ROM byte at the address |
| Nrom.WriteChr | cartridge/nrom.go:24-25 | a character write leaves the mapper unchanged |
| Control.Brk | cpu/control.go:4-22 | BRK pushes Pc + 1 (high, low) and P below Sp, lowers Sp by 3, sets I and loads Pc from the IRQ vector at 0xFFFE/0xFFFF |
| Control.Jmp | cpu/control.go:24-27 | JMP sets Pc to the operand and nothing else |
| Control.Jsr | cpu/control.go:29-41 | JSR pushes Pc - 1 high byte first, lowers Sp by 2 and jumps to the operand |
| Control.Rti | cpu/control.go:43-52 | RTI pulls P, then the low and the high byte of Pc, raising Sp by 3 (the reverse of the interrupt frame) |
| Control.Rts | cpu/control.go:54-62 | RTS pulls the low then the high byte, raises Sp by 2 and continues one past the pulled address |
| Cpu.Store | cpu/cpu.go:258-260 | after a bus write the written address reads the new value and every other address reads what it did |
| Cpu.WithFlag | cpu/cpu.go:54-60 | `SetStatusFlag` on a status byte: the chosen bit takes the new value and every other bit is kept |
| Cpu.FlagIsBit | cpu/cpu.go:50-52 | `GetStatusFlag` is set exactly when the flag's bit of P is set |
| Cpu.WithFlagKeepsOthers | cpu/cpu.go:54-60 | setting one flag leaves every other flag as it was |
| Cpu.WithFlagKeepsMask | cpu/cpu.go:54-60 | setting one flag leaves every bit outside it as it was |
| Cpu.WithFlagIdempotent | cpu/cpu.go:54-60 | setting a flag twice to the same value is the same as setting it once |
| Cpu.CarryInIsFlag | cpu/arithmetic.go:6-9 | the carry addend of ADC and SBC is 1 exactly when the carry flag is set, else 0 |
| Cpu.NZOrderIrrelevant | cpu/loading.go:3-9 | setting Z then N, or N then Z, from a value gives the same P |
| Cpu.ZNStatusMeaning | cpu/loading.go:3-9 | after a load, Z says whether the value is zero, N is its bit 7, and no other bit of P changes |
| Cpu.PushedTwoReadsBack | cpu/cpu.go:62-73 | two pushed bytes are read back from the stack addresses they were pushed to |
| Cpu.WordRoundTrip | cpu/cpu.go:246-252 | splitting a word into high and low bytes and joining them again are inverse, and joining by OR equals joining by addition |
| Cpu.StackAddressInPageOne | cpu/cpu.go:62-73 | every stack address lies in page 1 with Sp as its low byte, and distinct stack pointers give distinct addresses |
| Cpu.FetchAdvancesPc | cpu/cpu.go:128-238 | the operand fetch of every declared addressing mode steps Pc over exactly that mode's operand bytes (0, 1 or 2) |
| Cpu.FetchExtraCycles | cpu/cpu.go:128-238 | a fetch costs at most one extra cycle, and none outside the indexed-absolute, (zp),Y and relative modes |
| Cpu.PageCrossMeansNewPage | cpu/cpu.go:136-140 | the extra cycle is charged exactly when the two addresses have different high bytes |
| Cpu.ZeroPageWraps | cpu/cpu.go:185-194 | zero-page indexing stays in page 0: the address is operand plus index modulo 256 |
| Cpu.IndirectHighStaysInPage | cpu/cpu.go:166-174 | the indirect jump reads its high byte from the pointer's own page, one byte further modulo 256 |
| Cpu.RelativeTargetIsSigned | cpu/cpu.go:195-202 | a relative offset below 0x80 moves forward by the offset, and from 0x80 on moves back by 256 minus it |
| Cpu.ValueModeReadsPlainAddress | cpu/cpu.go:134-235 | every value mode fetches like its plain mode, then reads the byte at the address the plain mode yields, with the same Pc and extra cycles |
| Cpu.XIndexedAbsoluteValueReads | cpu/cpu.go:134-149 | absolute,X value mode is the absolute,X address's byte with the same Pc and cycles |
| Cpu.YIndexedAbsoluteValueReads | cpu/cpu.go:150-165 | absolute,Y value mode is the absolute,Y address's byte with the same Pc and cycles |
| Cpu.AbsoluteValueReads | cpu/cpu.go:175-179 | absolute value mode is the absolute address's byte with the same Pc |
| Cpu.ZeroPageValueReads | cpu/cpu.go:180-184 | zero-page value mode is the zero-page address's byte with the same Pc |
| Cpu.XIndexedZeroPageValueReads | cpu/cpu.go:185-189 | zp,X value mode is the zp,X address's byte with the same Pc |
| Cpu.YIndexedZeroPageValueReads | cpu/cpu.go:190-194 | zp,Y value mode is the zp,Y address's byte with the same Pc |
| Cpu.XIndexedZeroPageIndirectValueReads | cpu/cpu.go:203-213 | (zp,X) value mode is the byte at the (zp,X) address with the same Pc |
| Cpu.ZeroPageIndirectYIndexedValueReads | cpu/cpu.go:214-235 | (zp),Y value mode is the byte at the (zp),Y address with the same Pc and cycles |
| Cpu.CPU.constructor | cpu/cpu.go:31-41 | a new processor has every register zero and no branch taken, attached to the given memory |
| Cpu.CPU.BusWrite | cpu/cpu.go:258-260 | a bus write stores the byte at the address and changes nothing else |
| Cpu.CPU.GetStatusFlag | cpu/cpu.go:50-52 | a flag reads as set exactly when its bit of P is set |
| Cpu.CPU.SetStatusFlag | cpu/cpu.go:54-60 | only P changes, to P with the one flag set to the new value; reading the flag back gives that value |
| Cpu.CPU.Push | cpu/cpu.go:62-66 | a push writes at 0x0100 \| Sp and then lowers Sp by one modulo 256 |
| Cpu.CPU.Pop | cpu/cpu.go:68-73 | a pop raises Sp by one modulo 256 and then reads at 0x0100 \| Sp; memory is unchanged |
| Cpu.CPU.SetBranchTaken | cpu/cpu.go:75-77 | only branchTaken changes, to true |
| Cpu.CPU.SetRomEntrypoint | cpu/cpu.go:43-48 | Pc is loaded from the reset vector, low byte at 0xFFFC and high byte at 0xFFFD |
| Cpu.CPU.GetImmediateValue | cpu/cpu.go:240-244 | returns the byte at Pc and advances Pc by one |
| Cpu.CPU.GetAbsoluteAddress | cpu/cpu.go:246-252 | returns the little-endian word at Pc and advances Pc by two |
| Cpu.CPU.FetchNextValue | cpu/cpu.go:128-238 | the operand, extra cycles and new Pc are those of the fetch specification for the mode; only Pc changes |
| Cpu.CPU.FetchZeroPage | cpu/cpu.go:132-133 | immediate and zero-page modes: the operand byte plus the index within page 0, or the byte there for value modes; Pc + 1 |
| Cpu.CPU.FetchIndexedIndirect | cpu/cpu.go:203-213 | (zp,X): the word stored at the X-indexed zero-page address, or the byte it points to; Pc + 1 |
| Cpu.CPU.FetchIndexedAbsolute | cpu/cpu.go:134-165 | absolute,X/Y: the indexed address (or its byte), one extra cycle exactly on a page change; Pc + 2 |
| Cpu.CPU.FetchAbsoluteIndirect | cpu/cpu.go:166-174 | JMP (ind): the word whose high byte is read without leaving the pointer's page; Pc + 2 |
| Cpu.CPU.FetchRelative | cpu/cpu.go:195-202 | branch target = address after the operand plus the signed offset, one extra cycle on a page change; Pc + 1 |
| Cpu.CPU.FetchIndirectIndexed | cpu/cpu.go:214-235 | (zp),Y: the page-0 pointer plus Y (or its byte), one extra cycle on a page change; Pc + 1 |
| Stack.Pha | cpu/stack.go:3-6 | PHA writes A at 0x0100 \| Sp and lowers Sp by one; nothing else changes |
| Stack.Php | cpu/stack.go:8-11 | PHP pushes P exactly as it is |
| Stack.Pla | cpu/stack.go:13-18 | PLA raises Sp, loads A from the new top of the stack and sets Z and N from it |
| Stack.Plp | cpu/stack.go:20-23 | PLP raises Sp and loads P verbatim from the new top of the stack |
| Transfer.Tax | cpu/transfer.go:7-13 | TAX copies A into X and sets Z and N from it |
| Transfer.Tay | cpu/transfer.go:15-21 | TAY copies A into Y and sets Z and N from it |
| Transfer.Tsx | cpu/transfer.go:23-29 | TSX copies Sp into X and sets Z and N from it |
| Transfer.Txa | cpu/transfer.go:31-37 | TXA copies X into A and sets Z and N from it |
| Transfer.Txs | cpu/transfer.go:39-43 | TXS copies X into Sp and leaves P alone |
| Transfer.Tya | cpu/transfer.go:45-51 | TYA copies Y into A and sets Z and N from it |
| Increment.Dec | cpu/increment.go:3-13 | DEC stores the byte at the operand address minus one (mod 256) and sets N and Z from it |
| Increment.Dex | cpu/increment.go:15-21 | DEX lowers X by one modulo 256 and sets N and Z from it |
| Increment.Dey | cpu/increment.go:23-29 | DEY lowers Y by one modulo 256 and sets N and Z from it |
| Increment.Inc | cpu/increment.go:31-41 | INC stores the byte at the operand address plus one (mod 256) and sets N and Z from it |
| Increment.Inx | cpu/increment.go:43-49 | INX raises X by one modulo 256 and sets N and Z from it |
| Increment.Iny | cpu/increment.go:51-57 | INY raises Y by one modulo 256 and sets N and Z from it |
| Loading.Lda | cpu/loading.go:3-9 | LDA loads the operand's low byte into A and sets Z and N from it |
| Loading.Ldx | cpu/loading.go:11-17 | LDX loads the operand's low byte into X and sets Z and N from it |
| Loading.Ldy | cpu/loading.go:19-25 | LDY loads the operand's low byte into Y and sets Z and N from it |
| Loading.Lax | cpu/loading.go:27-34 | LAX loads the same byte into A and X, with Z and N from it |
| Loading.Sta | cpu/loading.go:36-40 | STA stores A at the operand address; registers and flags are kept |
| Loading.Stx | cpu/loading.go:42-46 | STX stores X at the operand address |
| Loading.Sty | cpu/loading.go:48-52 | STY stores Y at the operand address |
| FlagInstructions.Clc | cpu/flag.go:3-6 | CLC clears only the carry bit of P |
| FlagInstructions.Cld | cpu/flag.go:8-11 | CLD clears only the decimal bit |
| FlagInstructions.Cli | cpu/flag.go:13-16 | CLI clears only the interrupt-disable bit |
| FlagInstructions.Clv | cpu/flag.go:18-21 | CLV clears only the overflow bit |
| FlagInstructions.Sec | cpu/flag.go:23-26 | SEC sets only the carry bit |
| FlagInstructions.Sed | cpu/flag.go:28-31 | SED sets only the decimal bit |
| FlagInstructions.Sei | cpu/flag.go:33-36 | SEI sets only the interrupt-disable bit |
| FlagInstructions.OnlyOwnBitChanges | cpu/flag.go:3-36 | each flag instruction gives its bit the new value, keeps every other bit, and is idempotent |
| Unofficial.Sax | cpu/instruction.go:185-188 | SAX stores A AND X at the operand address, keeping registers and flags (its Go body is not part of this model) |
| Unofficial.Dcp | cpu/instruction.go:300-307 | DCP stores the byte at the operand address minus one and compares A with it (its Go body is not part of this model) |
| Unofficial.Nop | cpu/instruction.go:366-394 | NOP, official and unofficial, in every addressing mode the table gives it, leaves the processor as it was (its Go body is not part of this model) |
| CpuExamples.AdcCase | cpu/arithmetic_test.go:10-77 | the ADC test cases: 10+100, 127+30, 254+129 and 200+56 give the sums and C/Z/N/V flags the tests expect |
| CpuExamples.SbcCase | cpu/arithmetic_test.go:78-139 | the SBC test cases with carry set: 10-5, 10-255 and 128-1 give the results and flags the tests expect |
| CpuExamples.CompareCase | cpu/arithmetic_test.go:140-273 | CMP, CPX and CPY give identical flags for the same register value, as in the three compare tests |
| CpuExamples.AslCase | cpu/shift_test.go:11-52 | ASL on 0x80 gives 0 with C and Z; on 0x60 gives 0xC0 with N |
| CpuExamples.RolCase | cpu/shift_test.go:179-232 | ROL of 0x80 without carry gives 0 with C, Z; of 0x60 with carry gives 0xC1 with N |
| CpuExamples.RorCase | cpu/shift_test.go:284-328 | ROR of 0x01 without carry gives 0 with C, Z; of 0xC1 with carry gives 0xE0 with C, N |
| CpuExamples.LogicCase | cpu/logic_test.go:10-203 | the AND, EOR and ORA test cases give the results and Z/N flags the tests expect |
| CpuExamples.BitCase | cpu/logic_test.go:56-114 | BIT keeps A and sets Z, N and V as the tests expect |
| CpuExamples.BccCase | cpu/branching_test.go:10-42 | BCC to 0x9000 jumps exactly when carry is clear |
| CpuExamples.JmpCase | cpu/control_test.go:10-14 | JMP from 0x8000 with operand 0x9000 lands on 0x9000 |
| CpuExamples.PushThenPop | cpu/cpu.go:62-73 | a push followed by a pop returns the pushed value and restores Sp |
| CpuExamples.PhaThenPla | cpu/stack.go:3-18 | PHA then PLA gives back A and Sp, with P reflecting A |
| CpuExamples.TaxThenTxa | cpu/transfer.go:7-37 | TAX then TXA leaves A as it was and X a copy of it |
| CpuExamples.IncThenDec | cpu/increment.go:3-41 | INC then DEC on one address restores its byte, even across the 0xFF/0x00 wrap |
| CpuExamples.ReturnAddressReadsBack | cpu/control.go:29-62 | a word pushed high byte first is read back by pulling the low byte, then the high byte |
| CpuExamples.JsrThenRts | cpu/control.go:29-62 | JSR then RTS returns Pc to its value before JSR and restores Sp |
| CpuExamples.InterruptFrameReadsBack | cpu/control.go:4-52 | RTI pulls back BRK's three pushes: P first, then the low byte, then the high byte |
| Shift.Asl | cpu/shift.go:3-14 | ASL stores the byte shifted left one place; C gets its old bit 7, Z and N come from the result |
| Shift.AslAccumulator | cpu/shift.go:16-24 | ASL A shifts A left; C gets the old bit 7, Z and N come from the result |
| Shift.Lsr | cpu/shift.go:26-34 | LSR stores the byte shifted right one place; C gets its old bit 0, Z from the result, N cleared |
| Shift.LsrAccumulator | cpu/shift.go:36-44 | LSR A shifts A right; C gets the old bit 0, Z from the result, N cleared |
| Shift.Rol | cpu/shift.go:46-62 | ROL stores the byte rotated left through carry: the old carry enters bit 0 and the old bit 7 becomes C |
| Shift.RolAccumulator | cpu/shift.go:64-80 | ROL A rotates A left through carry |
| Shift.Ror | cpu/shift.go:82-98 | ROR stores the byte rotated right through carry: the old carry enters bit 7 and the old bit 0 becomes C |
| Shift.RorAccumulator | cpu/shift.go:100-116 | ROR A rotates A right through carry |
| Shift.Slo | cpu/shift.go:118-129 | SLO shifts the byte left in memory, ORs it into A, with C from the shift and N, Z from the new A |
| Shift.Rla | cpu/shift.go:131-147 | RLA rotates the byte left in memory, ANDs it into A, with C from the rotate and N, Z from the new A |
| Shift.Sre | cpu/shift.go:149-160 | SRE shifts the byte right in memory, XORs it into A, with C from the shift and N, Z from the new A |
| Shift.Rra | cpu/shift.go:162-191 | RRA rotates the byte right in memory, then adds it to A with the rotate's carry-out as carry-in, with ADC's flags |
| Shift.ShiftLeftDoubles | cpu/shift.go:3-14 | the carry-out of ASL and the new byte together are twice the old byte as a 9-bit number |
| Shift.ShiftRightHalves | cpu/shift.go:26-34 | twice the byte LSR produces plus the carry-out is the old byte, and bit 7 of the result is clear |
| Shift.ShiftStatusMeaning | cpu/shift.go:11-13 | after a shift, C, Z and N are as computed and I, D, B, bit 5 and V keep their values |
| Shift.RotateLeftThenRight | cpu/shift.go:46-98 | ROL followed by ROR gives back the byte and the carry |
| Shift.RotateRightThenLeft | cpu/shift.go:46-98 | ROR followed by ROL gives back the byte and the carry |
| Logic.And | cpu/logic.go:7-13 | AND leaves A = A AND the operand's low byte, with Z and N from it |
| Logic.Bit | cpu/logic.go:15-23 | BIT keeps A and sets P to the BIT status of A and the operand |
| Logic.Eor | cpu/logic.go:25-31 | EOR leaves A = A XOR the operand's low byte, with N and Z from it |
| Logic.Ora | cpu/logic.go:33-39 | ORA leaves A = A OR the operand's low byte, with N and Z from it |
| Logic.BitStatusMeaning | cpu/logic.go:18-22 | after BIT, N is the operand's bit 7, V its bit 6, Z says whether A AND the operand is zero, and the other bits are kept |
| Logic.BitFlagWrites | cpu/logic.go:20-22 | the three flag writes of BIT set N, V and Z to the written values and keep every other bit |
| Logic.ByteOperandBits | cpu/logic.go:20-21 | bits 7 and 6 of a zero-extended byte operand are the byte's own bits 7 and 6 |
| Logic.EorWithItself | cpu/logic.go:25-31 | EOR of A with its own value clears A and sets Z |
| AddressingModes.ModeString | cpu/instruction.go:33-79 | `AddressingMode.String` gives each declared mode its name, and "" exactly for Accumulator and for undeclared values |
| AddressingModes.ModeStringInjective | cpu/instruction.go:33-79 | distinct declared modes other than Accumulator print differently, so the trace's mode column identifies the mode |
| Instructions.InstructionAt | cpu/instruction.go:138-395 | every one of the 256 table slots is well formed: a listed entry dispatches, uses a declared mode and takes 2 to 8 cycles; an unlisted one is Go's zero entry |
| Instructions.UnofficialNamesMarked | cpu/instruction.go:138-395 | in all 256 slots the `*` prefix marks exactly the unofficial opcodes: every LAX, SAX and DCP, every NOP but 0xEA, and the SBC at 0xEB |
| Instructions.NotableEntries | cpu/instruction.go:204-329 | 0x4C is JMP absolute in 3 cycles, 0x6C JMP indirect in 5, 0x08 is named "PHP " with a trailing space, and 0xEB is "*SBC" |
| Disassembly.Hex4 | cpu/instruction.go:124-126 | `%04X` of a word is four upper-case hex digits whose value is the word |
| Disassembly.Spaces | cpu/instruction.go:125 | a run of k spaces |
| Disassembly.PadRight | cpu/instruction.go:125 | `%-15s`: the text, padded on the right with spaces to the width and never cut short |
| Disassembly.BackwardBranchMisprinted | cpu/instruction.go:102-103 | as written, the number printed for a backward branch (operand 0x80 or more) is never the branch target |
| Disassembly.BackwardBranchOffByAPage | cpu/instruction.go:102-103 | as written, the printed number for a backward branch, kept to 16 bits, is 256 bytes past the target |
| Disassembly.ForwardBranchPrinted | cpu/instruction.go:102-103 | a forward branch whose printed number stays below 0x10000 is printed at its real target |
| Disassembly.WordDigits | cpu/instruction.go:100-101 | `%02X%02X` of the second and first operand bytes is four hex digits whose value is the little-endian word they form |
| Disassembly.RelativeDigitsAsWritten | cpu/instruction.go:102-103 | the digits printed for a relative operand as written spell the unsigned sum `(pc - 1) + operand + 2`, in four or more digits |
| Disassembly.ByteField | cpu/instruction.go:94-99 | a one-byte operand is its prefix, two hex digits worth the byte, and its suffix |
| Disassembly.WordField | cpu/instruction.go:100-101 | a two-byte operand is its prefix, four hex digits worth the word of the second and first bytes, and its suffix |
| Disassembly.RelativeFieldAsWritten | cpu/instruction.go:102-103 | a relative operand as written is `$` and four or more digits worth the unsigned sum |
| Disassembly.OperandField | cpu/instruction.go:93-122 | per addressing mode: `$hh`, `$hh, X`, `$hh, Y` and `#$hh` spell the first byte; `$hhhh`, `$hhhh, X`, `$hhhh, Y`, `($hhhh)`, `($hhhh, X)` and `($hhhh), Y` spell the word of the second and first bytes; Relative is the as-written sum; Accumulator is `A` |
| Disassembly.OperandText | cpu/instruction.go:91-122 | the instruction column is the mnemonic alone for Implied, "XXX" for an undeclared mode, and otherwise the mnemonic, a space and the mode's operand |
| Disassembly.RelativeField | cpu/instruction.go:102-103 | the intended relative operand is `$` and four digits worth the signed branch target |
| Disassembly.RelativeTextIsTarget | cpu/instruction.go:102-103 | the intended relative operand names the address the branch fetch yields |
| Disassembly.RelativeOperandAsWritten | cpu/instruction.go:102-103 | the relative operand as written names the branch target for a forward branch whose sum stays below 0x10000, and never for a backward branch |
| Disassembly.BranchToSelfMisprinted | cpu/instruction.go:102-103 | the branch at 0x8000 back to itself (operand 0xFE) jumps to 0x8000 and is printed as 8100 |
| Disassembly.AbsoluteTextIsAddress | cpu/instruction.go:100-101 | absolute operands print the high byte first, so the digits spell the address the fetch uses |
| Disassembly.LineColumnsFields | cpu/instruction.go:124-134 | in a trace line the address, a space, the instruction column, the 42 register columns and ", AM: " and the mode name sit at fixed offsets |
| Disassembly.RegisterColumnsFields | cpu/instruction.go:124-132 | each register's two digits sit at fixed offsets in the register columns, with "01" before SP's digits |
| Disassembly.TraceLineFields | cpu/instruction.go:88-134 | a `Stringfy` line is the opcode address in four digits, a space, the instruction column padded to at least 15, the register columns and the mode name |
| Disassembly.TraceLineStart | cpu/instruction.go:124-126 | a trace line is at least 68 characters plus the mode name and starts with the opcode's address in four digits |
| Disassembly.Stringfy | cpu/instruction.go:88-136 | the trace line of the processor's next instruction starts with the four digits of `Pc - 1`, the opcode's address, and is at least 68 characters plus the mode name |
| Numerals.HexCharsListed | compare_output.py:117-122 | `is_hex_char` accepts exactly the 22 characters 0-9, A-F and a-f |
| Numerals.DigitValue | compare_output.py:82-94 | the value `int(_, 16)` gives one digit is below 16, and below 10 for a decimal digit |
| Numerals.DigitChar | cpu/instruction.go:124-134 | the digit Go prints for a value below 16 reads back as that value, upper or lower case as the verb says |
| Numerals.Pow16 | cpu/instruction.go:124-134 | powers of 16 are positive |
| Numerals.Digits | cpu/instruction.go:124-134 | the shortest hexadecimal spelling has at least one digit and only hexadecimal digits |
| Numerals.Zeros | cpu/instruction.go:124-134 | the padding of a zero-padded verb is a run of '0' digits of the given length |
| Numerals.FormatHex | cpu/instruction.go:124-134 | `%0<width>X` prints only hexadecimal digits and at least `width` of them |
| Numerals.ValueAppend | compare_output.py:82-94 | appending a digit multiplies the value by the base and adds the digit |
| Numerals.TwoDigitValue | compare_output.py:82-94 | a two-digit string is worth 16 times its first digit plus its second |
| Numerals.ByteValue | cpu/instruction.go:124-134 | a byte's two digits, high nibble first, read back as the byte |
| Numerals.HexPairValue | cpu/instruction.go:100-101 | a digit string followed by two more digits is worth 256 times the first part plus the second |
| Numerals.DigitsValue | cpu/instruction.go:124-134 | the shortest spelling of n reads back as n |
| Numerals.ZerosValue | cpu/instruction.go:124-134 | leading zeros do not change the value |
| Numerals.ZerosAlone | cpu/instruction.go:124-134 | a run of zeros reads as 0 |
| Numerals.FormatHexRoundTrip | cpu/instruction.go:124-134 | reading Go's zero-padded hexadecimal back gives the number that was formatted |
| Numerals.DigitsFit | cpu/instruction.go:124-134 | a number below 16^k needs at most k digits |
| Numerals.FormatHexWidth | cpu/instruction.go:124-134 | a number below 16^width is printed in exactly `width` characters |
| Numerals.ByteDigits | cpu/instruction.go:124-134 | `%02X` of a byte is the high nibble's digit followed by the low nibble's |
| Numerals.Hex2 | cpu/instruction.go:124-134 | `%02X`/`%02x` of a byte is two hexadecimal digits that read back as the byte |
| Numerals.Hex2IsFormatHex | cpu/instruction.go:124-134 | the two digits are exactly what the zero-padded verb of width 2 prints |
| PythonText.TrimStart | compare_output.py:35-36 | the leading white space is removed: the result is a suffix, everything dropped is white space, and it does not start with white space |
| PythonText.TrimEnd | compare_output.py:35-36 | the trailing white space is removed: the result is a prefix, everything dropped is white space, and it does not end with white space |
| PythonText.Strip | compare_output.py:35-36 | `str.strip()` is no longer than its input and neither starts nor ends with white space |
| PythonText.StripNoSpace | compare_output.py:76 | text without white space is its own strip |
| PythonText.TokenEnd | compare_output.py:67 | the first token of text starting with a non-space character ends at the first white space or the end |
| PythonText.Split | compare_output.py:67 | every piece `str.split()` yields is non-empty and free of white space |
| PythonText.SplitKeepsEveryOtherCharacter | compare_output.py:67 | the pieces of `str.split()` laid end to end spell the text without its white space |
| PythonText.TokenEndUnique | compare_output.py:67 | a token ends at exactly one place: the first white space after it, or the end of the text |
| PythonText.SplitSpaces | compare_output.py:67 | `str.split()` of white space alone yields no pieces |
| PythonText.SplitToken | compare_output.py:67 | `str.split()` of one run of non-space characters yields exactly that run |
| PythonText.SplitAtSpace | compare_output.py:67 | any white space character separates: splitting around it is splitting each side and joining the lists, so the pieces are exactly the maximal runs of non-space characters |
| PythonText.SplitLeadingToken | compare_output.py:67 | a token at the head of the text stays the first piece of `str.split()` when white space and more text follow it |
| PythonText.IndexOf | compare_output.py:31-32 | the index of the first occurrence of the separator |
| PythonText.SplitOn | compare_output.py:31-32 | `str.split('\n')` yields at least one piece and no piece contains the separator |
| PythonText.JoinSplitOn | compare_output.py:31-32 | joining the pieces of `str.split(sep)` with the separator gives back the text |
| PythonText.RemovePrefix | compare_output.py:82-94 | `removeprefix` drops the prefix exactly when the text starts with it, and otherwise returns the text |
| PythonText.RemoveSuffix | compare_output.py:135-145 | `removesuffix` drops the suffix exactly when the text ends with it, and otherwise returns the text |
| PythonText.Upper | compare_output.py:76 | `upper()` keeps the length, leaves no lower-case ASCII letter, and keeps every other character |
| PythonText.ParseInt | compare_output.py:70-96 | `int(text, base)` either succeeds or raises ValueError, and reads what is left once surrounding white space is stripped |
| PythonText.ParseToken | compare_output.py:70-96 | the stripped text either reads as an integer or raises ValueError |
| PythonText.ParseMagnitude | compare_output.py:70-96 | the unsigned part either reads as an integer or raises ValueError |
| PythonText.HexPrefixIsStartsWith | compare_output.py:70-96 | the base-16 prefix test holds exactly when the text starts with `0x` or `0X` |
| PythonText.ParseIntNeedsDigits | compare_output.py:70-96 | white space alone or a lone sign raises ValueError |
| PythonText.ParseIntReadsFormatHex | compare_output.py:82-94 | Python reads back exactly the number Go's `%0<width>X` printed |
| PythonText.ParseIntReadsDigits | compare_output.py:82-94 | bare digits of the base read as their value |
| PythonText.ParseIntReadsUnsigned | compare_output.py:70-96 | white space, a `0x`/`0X` prefix in base 16, digits and white space read as the digits' value |
| PythonText.ParseIntReadsSigned | compare_output.py:70-96 | the same with a `-` or `+` after the leading white space: the value is negated after `-` and kept after `+` |
| PythonText.ParseIntSurrounded | compare_output.py:70-96 | white space around a token does not change what `int()` reads |
| PythonText.ParseTokenSigned | compare_output.py:70-96 | a sign, an optional prefix and digits read as the signed value of the digits |
| PythonText.ParseTokenSign | compare_output.py:70-96 | a leading `-` negates the value of what follows and a leading `+` keeps it |
| PythonText.SignedTokenEnds | compare_output.py:70-96 | a sign followed by an optional prefix and digits neither starts nor ends with white space |
| PythonText.ParseTokenUnsigned | compare_output.py:70-96 | without a sign, an optional prefix and digits read as the digits' value |
| PythonText.ParseMagnitudeReads | compare_output.py:70-96 | an optional base-16 prefix followed by digits reads as the digits' value and starts with no sign |
| PythonText.ParseMagnitudeDigits | compare_output.py:70-96 | bare digits of the base read as their value and do not start with a sign |
| PythonText.ParseMagnitudeHex | compare_output.py:70-96 | in base 16 a `0x` or `0X` before the digits is skipped and the digits read as their value |
| PythonText.StripSurrounded | compare_output.py:35-36 | `str.strip()` of a token between white space is the token |
| PythonText.TrimStartSpaces | compare_output.py:35-36 | the leading white space is exactly what is removed at the start |
| PythonText.TrimEndSpaces | compare_output.py:35-36 | the trailing white space is exactly what is removed at the end |
| PythonText.DigitsHaveNoSpace | compare_output.py:82-94 | digit strings contain no white space |
| PythonText.DigitsHaveNoPrefix | compare_output.py:82-94 | digit strings never start with `0x` or `0X` |
| TraceCompare.Eq | compare_output.py:15-26 | `__eq__` holds exactly when the other object is an `Instruction` equal to this one in all eight fields |
| TraceCompare.IsHex | compare_output.py:110-122 | `is_hex` holds exactly when every character is a hexadecimal digit, so the empty string passes |
| TraceCompare.SkipPairs | compare_output.py:73-74 | the scan stops at the first token from the start index that is not two characters long, or at the end, and every token it passes has two characters |
| TraceCompare.FindMarker | compare_output.py:79-80 | the scan stops at the first token from the start index that starts with `A:`, or at the end, and no token it passes starts with `A:` |
| TraceCompare.NumberAt | compare_output.py:82-96 | indexing past the tokens raises IndexError; otherwise the token without its label is read with `int` in the given base |
| TraceCompare.HexBeforeComma | compare_output.py:135-145 | indexing past the tokens raises IndexError; otherwise the token without a trailing comma is read in base 16 |
| TraceCompare.ReadNestestRegisters | compare_output.py:82-96 | the register half of the reference parser gives the record its specification function gives: A, X, Y, P and SP from five consecutive tokens, the clock from the last |
| TraceCompare.ParseNestestLine | compare_output.py:66-107 | the reference-line parser returns exactly the record (or the exception) the line denotes |
| TraceCompare.SkipOpcodeBytes | compare_output.py:73-74 | the first loop ends where the two-character scan says |
| TraceCompare.FindRegisters | compare_output.py:79-80 | the second loop ends at the first `A:` token |
| TraceCompare.NestestRegistersFields | compare_output.py:82-107 | a parsed reference line takes each register from the labelled token at its fixed offset and the clock from the last token |
| TraceCompare.NestestNeedsMarker | compare_output.py:79-80 | a reference line with no `A:` token after the mnemonic raises IndexError |
| TraceCompare.StripAll | compare_output.py:126 | the list comprehension strips every token and keeps their number |
| TraceCompare.ReadOutputRegisters | compare_output.py:133-147 | the register half of the emulator-line parser gives the record its specification function gives, stepping over each label |
| TraceCompare.ParseOutputLine | compare_output.py:125-158 | the emulator-line parser returns exactly the record (or the exception) the line denotes |
| TraceCompare.OutputRegistersFields | compare_output.py:133-147 | a parsed emulator line takes A, X, Y, P, SP and the address from every other token after `A:`, each without a trailing comma, and the clock from the token after them |
| TraceCompare.OutputFields | compare_output.py:125-133 | a parsed emulator line's mnemonic is its first token and its registers follow the first `A:` token after it |
| TraceCompare.Rank | compare_output.py:41-56 | each field has one position in the report order |
| TraceCompare.FieldValues | compare_output.py:41-56 | a record has eight reportable values, one per field |
| TraceCompare.DifferencesFrom | compare_output.py:41-56 | the fields from a position on produce no diagnostic exactly when they agree, and otherwise one diagnostic per differing field, in report order, with both values |
| TraceCompare.Differences | compare_output.py:40-57 | two records produce no diagnostic exactly when they are equal; otherwise one per differing field, in the order name, address, x, y, a, sp, p, clock, each carrying both values |
| TraceCompare.CompareTraces | compare_output.py:30-57 | `main` returns the report the line-by-line comparison of the two files' stripped lines defines |
| TraceCompare.SilentIffAllAgree | compare_output.py:33-38 | nothing is reported exactly when every compared pair of lines parses to equal records |
| TraceCompare.ReportIsFirstMismatch | compare_output.py:34-57 | a report concerns one line: all earlier pairs agreed, that pair parsed to different records, and the report lists exactly their differences |
| TraceCompare.FirstParseErrorWins | compare_output.py:34-36 | the first emulator line that does not parse, after agreeing pairs, ends the comparison with its exception |
| TraceCompare.ExtraLinesIgnored | compare_output.py:33-34 | lines beyond the length of the shorter file never affect the outcome |
| Joypad.Bit | joypad/joypad.go:59-62 | a button reads as 1 exactly when it is pressed, otherwise 0 |
| Joypad.Joypad.constructor | joypad/joypad.go:28-34 | a new controller has eight released buttons in both the live and the latched state, strobe off and no reads yet |
| Joypad.Joypad.Write | joypad/joypad.go:36-46 | bit 0 of the value sets the strobe; a falling strobe latches the live buttons; the read count restarts; the live buttons are unchanged |
| Joypad.Joypad.Read | joypad/joypad.go:48-63 | after eight reads or while strobing it returns 1 and changes nothing; otherwise it returns the next latched button and advances the count by one |
| Joypad.Joypad.SetControl | joypad/joypad.go:65-70 | only the given button's live state changes |
| Joypad.PollButtons | joypad/joypad.go:36-63 | writing 1 then 0 and reading nine times yields the eight buttons as they were, in the order A, B, Select, Start, Up, Down, Left, Right, and then 1 |
| Interrupts.InterruptString | interrupt/interrupt.go:11-21 | each of the three interrupts has its own name and every other value prints as the empty string |
| Interrupts.InterruptSignal.constructor | interrupt/interrupt.go:40 | the signal starts untriggered, holding Reset |
| Interrupts.InterruptSignal.Read | interrupt/interrupt.go:28-32 | reading returns the held interrupt and whether it was triggered, and clears the trigger |
| Interrupts.InterruptSignal.Send | interrupt/interrupt.go:34-38 | sending holds the interrupt and sets the trigger |
| Interrupts.SendThenReadTwice | interrupt/interrupt.go:28-38 | after two sends, a read sees the later interrupt as triggered and a second read sees it untriggered |
| VRegister.FieldBounds | ppu/v-register.go:3-16 | coarse X and coarse Y fit in five bits, the nametable in two and fine Y in three |
| VRegister.FieldsCompose | ppu/v-register.go:3-16 | the register is exactly its fields put back at their positions (fine Y at 12, nametable at 10, coarse Y at 5, coarse X at 0) plus the unused top bit |
| VRegister.CoarseXSet | ppu/v-register.go:41-44 | setting coarse X stores its low five bits and leaves every other field unchanged |
| VRegister.CoarseYSet | ppu/v-register.go:74-77 | setting coarse Y stores its low five bits and leaves every other field unchanged |
| VRegister.FineYSet | ppu/v-register.go:83-86 | setting fine Y stores its low three bits and leaves every other field unchanged |
| VRegister.NametableXFlipped | ppu/v-register.go:37-39 | flipping the horizontal nametable bit toggles bit 0 of the nametable and changes no other field |
| VRegister.NametableYFlipped | ppu/v-register.go:70-72 | flipping the vertical nametable bit toggles bit 1 of the nametable and changes no other field |
| VRegister.VerticalBitsSet | ppu/v-register.go:111-116 | copying the vertical bits takes coarse Y, fine Y and the vertical nametable bit from the value and keeps coarse X and the horizontal nametable bit |
| VRegister.HorizontalBitsSet | ppu/v-register.go:118-123 | copying the horizontal bits takes coarse X and the horizontal nametable bit from the value and keeps the vertical fields |
| VRegister.NametableAddressOf | ppu/v-register.go:92-95 | the tile address is 0x2000 plus nametable, coarse Y and coarse X at their places, fine Y left out |
| VRegister.AttrTableAddressOf | ppu/v-register.go:97-103 | the attribute address keeps the nametable bits and is 0x23C0 plus 8 times coarse Y/4 plus coarse X/4, so it lies in 0x23C0-0x23FF of that nametable |
| VRegister.AttrTableBytePartOf | ppu/v-register.go:105-109 | the quadrant number is below 4; its bit 0 is bit 1 of coarse X and its bit 1 is bit 1 of coarse Y |
| VRegister.VRegister.constructor | ppu/v-register.go:18-20 | a register holds the given value |
| VRegister.VRegister.CoarseX | ppu/v-register.go:22-24 | coarse X is the register's value modulo 32 |
| VRegister.VRegister.CoarseY | ppu/v-register.go:46-48 | coarse Y is the value divided by 32, modulo 32 |
| VRegister.VRegister.FineY | ppu/v-register.go:79-81 | fine Y is the value divided by 4096, modulo 8 |
| VRegister.VRegister.Nametable | ppu/v-register.go:88-90 | the nametable number is the value divided by 1024, modulo 4 |
| VRegister.VRegister.FlipNametableX | ppu/v-register.go:37-39 | toggles the horizontal nametable bit |
| VRegister.VRegister.FlipNametableY | ppu/v-register.go:70-72 | toggles the vertical nametable bit |
| VRegister.VRegister.SetCoarseX | ppu/v-register.go:41-44 | the new value is the old one with coarse X replaced |
| VRegister.VRegister.SetCoarseY | ppu/v-register.go:74-77 | the new value is the old one with coarse Y replaced |
| VRegister.VRegister.SetFineY | ppu/v-register.go:83-86 | the new value is the old one with fine Y replaced |
| VRegister.VRegister.IncrementX | ppu/v-register.go:26-35 | coarse X advances by one, and from 31 wraps to 0 into the horizontally adjacent nametable; coarse Y, fine Y and the top bit are unchanged |
| VRegister.VRegister.IncrementY | ppu/v-register.go:50-68 | fine Y advances within a tile; after row 7 it returns to 0 and coarse Y advances, row 29 wrapping to 0 into the vertically adjacent nametable and row 31 wrapping to 0 without; coarse X is unchanged |
| VRegister.VRegister.SetVerticalBits | ppu/v-register.go:111-116 | the vertical fields are replaced by those of the value |
| VRegister.VRegister.SetHorizontalBits | ppu/v-register.go:118-123 | the horizontal fields are replaced by those of the value |
| PpuControlRegister.NewPpuControl | ppu/ppu-control.go:24-51 | bits 0-1 pick the nametable, whose base is 0x2000 + 0x400 per nametable; bit 2 makes the VRAM increment 32 instead of 1; bits 3 and 4 put the sprite and background pattern tables at 0x1000; bits 5, 6 and 7 are the sprite size, master/slave and NMI flags |
| PpuControlRegister.ControlByteRoundTrip | ppu/ppu-control.go:24-51 | decoding loses no bit: every byte decodes to a well-formed control value that encodes back to the byte |
| PpuControlRegister.ControlDecodeRoundTrip | ppu/ppu-control.go:24-51 | every well-formed control value is the decoding of its own byte |
| PpuMaskRegister.UseGreyscale | ppu/ppu-mask.go:15-17 | greyscale is on exactly when the byte is odd (bit 0) |
| PpuMaskRegister.ShowBgInLeftMost8Pixels | ppu/ppu-mask.go:19-21 | the leftmost background column shows exactly when bit 1 is set (the byte halved is odd) |
| PpuMaskRegister.ShowFgInLeftMost8Pixels | ppu/ppu-mask.go:23-25 | the leftmost sprite column shows exactly when bit 2 is set |
| PpuMaskRegister.BackgroundRenderingEnabledAsWritten | ppu/ppu-mask.go:27-29 | as written, the byte times 8 wraps to a non-zero byte exactly when one of bits 0-4 is set |
| PpuMaskRegister.SpriteRenderingEnabledAsWritten | ppu/ppu-mask.go:31-33 | as written, the byte times 16 is non-zero exactly when one of bits 0-3 is set |
| PpuMaskRegister.RenderingEnabledAsWritten | ppu/ppu-mask.go:35-37 | as written, rendering is on exactly when one of bits 0-4 is set |
| PpuMaskRegister.BackgroundRenderingEnabled | ppu/ppu-mask.go:27-29 | with the mask as a bit test, background rendering is on exactly when bit 3 is set |
| PpuMaskRegister.SpriteRenderingEnabled | ppu/ppu-mask.go:31-33 | with the mask as a bit test, sprite rendering is on exactly when bit 4 is set |
| PpuMaskRegister.RenderingEnabled | ppu/ppu-mask.go:35-37 | with bit tests, rendering is on exactly when bit 3 or bit 4 is set |
| PpuMaskRegister.MaskByte | ppu/ppu-mask.go:3-9 | a mask byte built from the five flags leaves the colour-emphasis bits 5-7 clear |
| PpuMaskRegister.MaskFlagsRoundTrip | ppu/ppu-mask.go:3-37 | with rendering read by masking, each flag of the mask register reads back exactly as written, and rendering is on exactly when background or sprites are |
| PpuMaskRegister.RenderingBits | ppu/ppu-mask.go:27-37 | with masking, rendering is on exactly when bit 3 or bit 4 is set, and a zero byte turns every flag off |
| PpuMaskRegister.RenderingAsWrittenMeaning | ppu/ppu-mask.go:27-37 | as written, with a multiplication, any of bits 0-4 turns on background rendering, any of bits 0-3 sprite rendering, and rendering is on exactly when the background test is |
| PpuMaskRegister.RenderingAsWrittenDisagrees | ppu/ppu-mask.go:27-33 | greyscale alone (0x01) turns both written tests on although bits 3 and 4 are clear, and sprite rendering alone (0x10) leaves the written sprite test off |
| SpriteAttributeByte.NewSpriteAttributesFromByte | ppu/sprite-attributes.go:17-29 | bit 7 flips vertically, bit 6 flips horizontally, a clear bit 5 gives the sprite priority, and bits 0-1 are the palette |
| SpriteAttributeByte.AttributesRoundTrip | ppu/sprite-attributes.go:17-29 | any attributes with a palette below 4 are the decoding of their own byte |
| SpriteAttributeByte.ByteRoundTrip | ppu/sprite-attributes.go:17-29 | decoding keeps every used bit: re-encoding gives the byte with bits 2-4 cleared |
| SpriteAttributeByte.UnusedBitsIgnored | ppu/sprite-attributes.go:17-29 | bytes that differ only in bits 2-4 decode to the same attributes |
| PixelShiftRegister.Slot | ppu/shift-registers.go:11-21 | a counter selects one of the 16 slots, its value modulo 16 |
| PixelShiftRegister.PixelsShiftRegister.constructor | ppu/shift-registers.go:5-9 | a new register has a fresh 16-slot buffer and both counters at 0 |
| PixelShiftRegister.PixelsShiftRegister.Buffer | ppu/shift-registers.go:11-15 | the colour goes into the slot of the end counter, which then advances by one (wrapping at 256); nothing else changes |
| PixelShiftRegister.PixelsShiftRegister.Unbuffer | ppu/shift-registers.go:17-21 | returns the colour `offset` slots past the start, and the start advances by one modulo 16; the buffer and the end are unchanged |
| PixelShiftRegister.BufferThenUnbuffer | ppu/shift-registers.go:11-21 | when start and end are at the same slot, a colour buffered and then unbuffered at offset 0 comes back unchanged |
| PixelShiftRegister.SlotsRepeatEvery16 | ppu/shift-registers.go:11-21 | counters 16 apart select the same slot, and a counter below 16 selects its own slot |
| PpuAddressSpace.Folded | ppu/bus.go:51-53 | addresses from 0x4000 up lose their top two bits, so every address lands below 0x4000 |
| PpuAddressSpace.FoldedIsModulo | ppu/bus.go:51-53 | folding is the address modulo 16 KiB, so the address space repeats every 0x4000 bytes |
| PpuAddressSpace.NametableRamIndex | ppu/bus.go:64-70 | the nametable arithmetic lands on the RAM cell that the mirroring of nametables 0/1 and 2/3 defines |
| PpuAddressSpace.MirrorPage | ppu/bus.go:5-10 | nametables 0 and 1 use RAM page 0, nametables 2 and 3 page 1 |
| PpuAddressSpace.NametableBits | ppu/bus.go:64-68 | a nametable address has nametable index 2 or 3 exactly when it is at 0x2800 or above, and the rebuilt address selects the page that index maps to |
| PpuAddressSpace.GetAddress | ppu/bus.go:50-79 | below 0x2000 a pattern-table byte when the ROM is long enough, else nil; 0x2000-0x2FFF a nametable RAM cell; from 0x3F00 the background palette for the low 16 of each 32 bytes and the sprite palette for the high 16 |
| PpuAddressSpace.LocationInBounds | ppu/bus.go:50-79 | every location the bus points at lies inside its store (ROM length, 2 KiB RAM, 16-byte palettes) |
| PpuAddressSpace.MirrorsShareLocation | ppu/bus.go:51-53 | an address and its three 16 KiB mirrors point at the same cell |
| PpuAddressSpace.NametableCell | ppu/bus.go:64-70 | a nametable cell lies in the 2 KiB RAM |
| PpuAddressSpace.NametableLocation | ppu/bus.go:64-70 | every address in 0x2000-0x2FFF points at its nametable RAM cell |
| PpuAddressSpace.NametableXBitIgnored | ppu/bus.go:5-10 | horizontal mirroring: the two nametables side by side share their cells |
| PpuAddressSpace.NametableYBitSelects | ppu/bus.go:5-10 | the two nametables one above the other have different cells |
| PpuAddressSpace.NametablesMirrored | ppu/bus.go:63-70 | addresses 0x400 apart in the nametable area reach the same cell and addresses 0x800 apart reach different cells |
| PpuAddressSpace.PalettesSeparate | ppu/bus.go:72-78 | 0x3F00+k reaches background entry k, 0x3F10+k sprite entry k, and 0x3F20+k again background entry k |
| PpuAddressSpace.Stored | ppu/bus.go:34-40 | storing a byte keeps the size of every store |
| PpuAddressSpace.StoredCell | ppu/bus.go:34-40 | after storing at a location, that location reads the new byte and every other location its old byte; storing nowhere changes nothing |
| PpuAddressSpace.ReadStores | ppu/bus.go:42-48 | reading an address that points nowhere gives 0 |
| PpuAddressSpace.WriteStores | ppu/bus.go:34-40 | writing through the bus keeps the size of every store |
| PpuAddressSpace.WriteThenRead | ppu/bus.go:34-79 | a write is seen by every later read of an address reaching the same cell, mirrors included, and by no other read; a pattern-table address past the ROM keeps reading 0 |
| PpuAddressSpace.Bus.constructor | ppu/bus.go:21-32 | a new bus holds the ROM as its pattern tables, a zeroed 2 KiB RAM and two zeroed 16-byte palettes |
| PpuAddressSpace.Bus.Write | ppu/bus.go:34-40 | the stores after a write are exactly what writing the byte to the address's cell gives |
| PpuAddressSpace.Bus.Read | ppu/bus.go:42-48 | a read returns the byte of the cell `getAddress` picks for the address, which lies inside the stores; an address with no cell reads 0 |
| PpuAddressSpace.Bus.GetBackgroundColor | ppu/bus.go:81-87 | a background colour is the bus's read at 0x3F00 plus the entry: 0 for colour 0 (the shared transparency byte), 4p + c for colour c of palette p |
| PpuAddressSpace.Bus.GetSpriteColor | ppu/bus.go:89-95 | a sprite colour is the bus's read at 0x3F10 plus the same entry |
| Ppu.Pixel | ppu/ppu.go:156-161 | a pixel is a colour number 0-3 made of one bit from each plane |
| Ppu.Row | ppu/ppu.go:152-161 | a tile row has eight pixels |
| Ppu.RowPlanesRoundTrip | ppu/ppu.go:152-161 | no bit is lost: the low and high plane bytes can be read back from the row they produce |
| Ppu.DecodeTile | ppu/ppu.go:145-163 | a 16-byte block becomes eight rows of eight pixels |
| Ppu.TilePixelsInRange | ppu/ppu.go:152-161 | pixel j of row i combines bit 7-j of block byte i (low) and of byte i+8 (high), and is at most 3 |
| Ppu.TileRoundTrip | ppu/ppu.go:145-163 | each row of a decoded tile gives back its two plane bytes |
| Ppu.DecodeTiles | ppu/ppu.go:140-167 | the character ROM yields one tile per 16-byte block, and slicing fails exactly when the length is not a multiple of 16 |
| Ppu.DecodeTilesBlocks | ppu/ppu.go:140-167 | tile k is the decoding of bytes 16k to 16k+15 |
| Ppu.DecodeTilesStep | ppu/ppu.go:145-163 | decoding from a block boundary is that block's tile followed by the decoding of the rest |
| Ppu.GenerateTilesFromChrRom | ppu/ppu.go:140-167 | the tile loop returns exactly the decoding of the whole ROM, or the slicing failure |
| Ppu.TileFromPlanes | ppu/ppu.go:151-162 | row a of the tile built from two planes is the row of their bytes a |
| Ppu.RowFromPlanes | ppu/ppu.go:156-161 | the pixel loop builds the row of the two plane bytes |
| Ppu.BlockTile | ppu/ppu.go:146-163 | a tile built from the two halves of a 16-byte block is that block's tile |
| Ppu.IncrementSizeDecoded | ppu/ppu.go:127-132 | the data port's increment agrees with the control register's decoded increment, 1 or 32 |
| Ppu.AddressWritesCompose | ppu/ppu.go:117-124 | two address writes starting from a clear latch set the address to the high byte followed by the low byte |
| Ppu.Ppu.constructor | ppu/ppu.go:44-48 | a new PPU holds a zeroed 2 KiB VRAM, the ROM on its bus, the ROM's tiles, clear ports, a clear latch and an even frame |
| Ppu.Ppu.ReadStatusPort | ppu/ppu.go:81-87 | returns the status, then clears its vertical-blank bit and the address latch; nothing else changes |
| Ppu.Ppu.ReadOAMDataPort | ppu/ppu.go:89-91 | always reads 0 |
| Ppu.Ppu.WriteOAMAddrPort | ppu/ppu.go:105-107 | a write to the sprite-memory address port changes nothing |
| Ppu.Ppu.WriteOAMDataPort | ppu/ppu.go:109-111 | a write to the sprite-memory data port changes nothing |
| Ppu.Ppu.WritePPUScrollPort | ppu/ppu.go:113-115 | a write to the scroll port changes nothing |
| Ppu.Ppu.ReadVRamDataPort | ppu/ppu.go:93-95 | always reads 0 |
| Ppu.Ppu.WritePPUControlPort | ppu/ppu.go:97-99 | stores the control byte and changes nothing else |
| Ppu.Ppu.WritePPUMaskPort | ppu/ppu.go:101-103 | stores the mask byte and changes nothing else |
| Ppu.Ppu.WritePPUAddrPort | ppu/ppu.go:117-124 | the first write of a pair sets the high byte and clears the low byte, the second adds the low byte (wrapping at 16 bits); the latch toggles |
| Ppu.Ppu.WritePPUDataPort | ppu/ppu.go:126-136 | the byte is written through the bus at the current address, which then advances by 1 or by 32 as control bit 2 says (wrapping at 16 bits) |
| Ppu.SetAddressThroughPorts | ppu/ppu.go:81-124 | a status read followed by two address writes sets the address to the two bytes, whatever the latch was, and leaves the latch clear |
| Ppu.StoreThroughPorts | ppu/ppu.go:117-136 | after setting the address and writing data, the address reads back the byte, when it points at a cell, and the address has advanced by one step |
| ScanlineImageBuilder.Index | ppu/scanline-image-builder.go:9-19 | the nine fetch states are numbered 0-8 in the order of the constants |
| ScanlineImageBuilder.StateOf | ppu/scanline-image-builder.go:9-19 | each number below 9 names the state with that number |
| ScanlineImageBuilder.IndexRoundTrip | ppu/scanline-image-builder.go:9-19 | numbering the states loses nothing |
| ScanlineImageBuilder.Next | ppu/scanline-image-builder.go:21-26 | the next state is the one numbered one more, and the first after `stateFetchesDone` |
| ScanlineImageBuilder.IterateIndex | ppu/scanline-image-builder.go:21-26 | k applications of `Next` move k places round the cycle of nine |
| ScanlineImageBuilder.NextPeriodNine | ppu/scanline-image-builder.go:21-26 | k applications of `Next` return to the start exactly when k is a multiple of 9 |
| ScanlineImageBuilder.StateName | ppu/scanline-image-builder.go:28-50 | every state prints as its constant's name, which starts with `stateFetch` |
| ScanlineImageBuilder.IndexOfStateName | ppu/scanline-image-builder.go:28-50 | the name printed for each state before the last is read back as that state's number |
| ScanlineImageBuilder.StateNamesDistinct | ppu/scanline-image-builder.go:28-50 | different states print differently |
| ScanlineImageBuilder.StepsFromStartIndex | ppu/scanline-image-builder.go:99-175 | stepping from the start of a scanline, the state after k steps is the one numbered k mod 8, so `stateFetchesDone` is never the state between steps |
| ScanlineImageBuilder.StepStateIndex | ppu/scanline-image-builder.go:140-173 | between steps the states 0-7 follow one another in a cycle of eight |
| ScanlineImageBuilder.NametableFetchMatchesVRegister | ppu/scanline-image-builder.go:115 | the nametable fetch address is the tile address of the loopy register word with the same nametable and coarse coordinates |
| ScanlineImageBuilder.WordFields | ppu/scanline-image-builder.go:115 | a word built from a nametable and coarse coordinates has exactly those fields |
| ScanlineImageBuilder.ShiftsAreGoDivisions | ppu/scanline-image-builder.go:119-128 | Go's unsigned divisions by 8 and 32, remainder by 2 and product by 8 are the shifts and masks the model uses |
| ScanlineImageBuilder.AttrFetchMatchesVRegister | ppu/scanline-image-builder.go:119-121 | for an on-screen pixel the attribute fetch address is the attribute address of the register word for the pixel's tile |
| ScanlineImageBuilder.AttrFetchBlocks | ppu/scanline-image-builder.go:119-121 | the attribute fetch address is 0x23C0 plus the nametable plus the 32x32 block row and column as bit fields |
| ScanlineImageBuilder.AttrTableOfWord | ppu/v-register.go:97-103 | the attribute address of a register word built from a tile has the same bit fields |
| ScanlineImageBuilder.AttrSum | ppu/scanline-image-builder.go:121 | the sum the source writes sets disjoint bits, so it equals the bitwise composition |
| ScanlineImageBuilder.PatternAddress | ppu/scanline-image-builder.go:131-135 | a plane address is below 0x1100 and is one the bus can serve |
| ScanlineImageBuilder.PatternAddressLayout | ppu/scanline-image-builder.go:131-135 | 16 bytes per tile, one per pixel row, the high plane 8 bytes after the low |
| ScanlineImageBuilder.FetchAddressesReadable | ppu/scanline-image-builder.go:113-138 | inside a frame none of the nametable, attribute or pattern fetch addresses falls in the range the bus cannot serve |
| ScanlineImageBuilder.PaletteIdAsWritten | ppu/scanline-image-builder.go:124-129 | as written, the palette is two bits of the attribute byte at a shift of 0-3 picked by the tile's column and row parity |
| ScanlineImageBuilder.PaletteId | ppu/scanline-image-builder.go:124-129 | the corrected palette is the two bits of the attribute byte of the pixel's 2x2-tile quadrant, below 4 |
| ScanlineImageBuilder.PaletteOfQuadrant | ppu/scanline-image-builder.go:124-129 | every pixel reads back the palette given to its own quadrant (top left bits 0-1, top right 2-3, bottom left 4-5, bottom right 6-7) |
| ScanlineImageBuilder.PaletteIdMatchesVRegister | ppu/v-register.go:105-109 | the corrected quadrant is the `AttrTableBytePart` of the register word for the pixel's tile |
| ScanlineImageBuilder.PaletteIdAsWrittenMisreads | ppu/scanline-image-builder.go:124-129 | with attribute byte 0x06 (top left palette 2, top right 1), dot 9 of scanline 0 gets palette 3 as written where its quadrant says 2 |
| ScanlineImageBuilder.PlaneBit | ppu/scanline-image-builder.go:155-166 | a plane bit is 0 or 1, and a shift of 8 or more gives 0 as Go's `>>` does |
| ScanlineImageBuilder.ColorIndex | ppu/scanline-image-builder.go:163-167 | a pixel's colour number is below 4 |
| ScanlineImageBuilder.ColorIndexIsTilePixel | ppu/scanline-image-builder.go:163-167 | the scanline's pixel i is the tile decoder's pixel i of the same two plane bytes |
| ScanlineImageBuilder.PaletteEntryAddress | ppu/scanline-image-builder.go:168 | a colour's palette address lies in 0x3F00-0x3FFF, which the bus can serve |
| ScanlineImageBuilder.TileColors | ppu/scanline-image-builder.go:163-171 | a tile row yields eight colours |
| ScanlineImageBuilder.TileColorsAreBackgroundColors | ppu/bus.go:81-87 | a non-zero colour number of the tile row is the bus's background colour for that palette and number |
| ScanlineImageBuilder.ColorLoopAsWrittenOverEight | ppu/scanline-image-builder.go:163-171 | over a slice of eight, the loop as written yields the tile row's colours |
| ScanlineImageBuilder.ColorLoopAsWrittenPanics | ppu/scanline-image-builder.go:146-171 | over the longer slice of the `fineX` branch, the loop as written reaches a negative shift and panics |
| ScanlineImageBuilder.ExtraColors | ppu/scanline-image-builder.go:153-158 | the extra pixels are `fineX` many |
| ScanlineImageBuilder.ExtraColorsArePixels | ppu/scanline-image-builder.go:153-158 | the extra pixels are the next tile row's pixels from the left through `pixelMap`, and those past the eighth are colour 0 |
| ScanlineImageBuilder.WrappedShift | ppu/scanline-image-builder.go:153-154 | the byte-typed `7 - i` is the pixel's shift below 8 and wraps to 8 or more past it |
| ScanlineImageBuilder.Fetch | ppu/scanline-image-builder.go:113-138 | a fetch keeps the palette below 4 |
| ScanlineImageBuilder.StepColors | ppu/scanline-image-builder.go:145-171 | a finished fetch yields the tile row's eight colours first, followed by `fineX` extra pixels in the dot-239 branch |
| ScanlineImageBuilder.StepSchedule | ppu/scanline-image-builder.go:108-176 | outside scanlines 0-239 and dots 1-256 a step changes nothing; otherwise the state advances, and colours come out, with a move to the next column, exactly on the step after the high-plane read |
| ScanlineImageBuilder.DoneFollowsHighPlane | ppu/scanline-image-builder.go:136-143 | only the second cycle of the high-plane fetch leads to `stateFetchesDone` |
| ScanlineImageBuilder.StepKeepsFrame | ppu/scanline-image-builder.go:108-176 | a step returns 8 colours, or 8 + `fineX` in the extra branch; the nametable, scroll, row and pattern table never change, and the palette stays below 4 |
| ScanlineImageBuilder.ColorsEveryEighthDot | ppu/scanline-image-builder.go:140-175 | stepping a scanline from dot 1, colours come out exactly at the dots that are multiples of 8, so dot 239 never takes the `fineX` branch |
| ScanlineImageBuilder.NextRowAdvancesPixelRow | ppu/scanline-image-builder.go:101-105 | each new scanline moves one pixel row down and fine Y stays below 8 |
| ScanlineImageBuilder.CarryIntoCoarseRow | ppu/scanline-image-builder.go:102-105 | the row after fine row 7 is fine row 0 of the next coarse row |
| ScanlineImageBuilder.NextFineRow | ppu/scanline-image-builder.go:101 | within a tile row the next fine row is the next pixel row |
| ScanlineImageBuilder.ScanlineImageBuilder.constructor | ppu/scanline-image-builder.go:84-86 | a new builder holds the bus, every field zero and the first state |
| ScanlineImageBuilder.ScanlineImageBuilder.SetNewFrameState | ppu/scanline-image-builder.go:88-94 | a new frame restarts at scanline 0 and column 0 with the given coarse Y and pattern table; the fine-Y argument is ignored and nothing else changes |
| ScanlineImageBuilder.ScanlineImageBuilder.SetNewScanlineState | ppu/scanline-image-builder.go:96-106 | a new scanline sets fine X and the scanline, restarts the fetch cycle at column 0 and moves one pixel row down; nothing else changes |
| ScanlineImageBuilder.ScanlineImageBuilder.AdvanceRow | ppu/scanline-image-builder.go:101-105 | fine Y advances, carrying into coarse Y at 8 |
| ScanlineImageBuilder.ScanlineImageBuilder.RunStep | ppu/scanline-image-builder.go:108-176 | the new fields and the returned colours are exactly those of the step function, whose schedule the lemmas above describe |
| ScanlineImageBuilder.ScanlineImageBuilder.FinishTile | ppu/scanline-image-builder.go:145-175 | returns the finished fetch's colours, resets the state and moves to the next column |
| ScanlineImageBuilder.ScanlineImageBuilder.FetchCurrentState | ppu/scanline-image-builder.go:113-138 | the switch changes only the latches, as the fetch function says |
| ScanlineImageBuilder.ScanlineImageBuilder.FetchAddress | ppu/scanline-image-builder.go:114-135 | the first cycles compute the address of the next read |
| ScanlineImageBuilder.ScanlineImageBuilder.FetchByte | ppu/scanline-image-builder.go:116-137 | the second cycles read the byte at the current address into the state's latch |
| ScanlineImageBuilder.ScanlineImageBuilder.FetchTileByte | ppu/scanline-image-builder.go:116-129 | the nametable read stores the tile index and the attribute read the quadrant's palette |
| ScanlineImageBuilder.ScanlineImageBuilder.FetchPlaneByte | ppu/scanline-image-builder.go:132-137 | the pattern reads store the low or high plane byte |
| ScanlineImageBuilder.ScanlineImageBuilder.FinishedColors | ppu/scanline-image-builder.go:145-171 | the colour slice of a finished fetch is the step function's colours |
| ScanlineImageBuilder.ScanlineImageBuilder.TileRowColors | ppu/scanline-image-builder.go:163-171 | the colour loop reads the palette entry of each of the eight pixels |
| ScanlineImageBuilder.ExtraPixels | ppu/scanline-image-builder.go:153-158 | the first colour loop yields the extra pixels of the next tile |
| Execution.Dispatch | cpu/cpu.go:98 | running an operation marks a taken branch exactly when it is a branch whose condition holds on the status before it, and keeps a mark already set; Pc ends at the operand after a jump or a taken branch and stays put after every other operation except BRK, RTI and RTS |
| Execution.DispatchBranch | cpu/cpu.go:98 | the eight branches mark the branch taken exactly when their condition holds, and move Pc to the operand exactly then |
| Execution.DispatchOther | cpu/cpu.go:98 | no operation other than a branch marks a branch taken; JMP and JSR move Pc to the operand, and every operation except BRK, RTI and RTS leaves it where it was |
| Execution.DispatchDataMove | cpu/cpu.go:98 | loads, stores, transfers and stack operations leave the branch mark alone and leave Pc where it was |
| Execution.DispatchBitwise | cpu/cpu.go:98 | logic, shift and rotate operations leave the branch mark alone and leave Pc where it was |
| Execution.DispatchArithmetic | cpu/cpu.go:98 | additions, subtractions, comparisons, increments and decrements leave the branch mark alone and leave Pc where it was |
| Execution.DispatchFlow | cpu/cpu.go:98 | jumps, calls, returns and flag operations leave the branch mark alone; JMP and JSR move Pc to the operand and the flag operations leave it |
| Execution.ResetJumpsToZero | cpu/cpu.go:116-125 | an NMI continues at the address stored at 0xFFFA/0xFFFB, an IRQ at the one stored at 0xFFFE/0xFFFF, and Reset (which has no case) at address 0 |
| Execution.ExecuteInstruction | cpu/cpu.go:87-105 | an opcode without an operation fails with the invalid-instruction error and changes nothing; otherwise the cycles returned are the table's plus the operand fetch's page-crossing penalty plus one for a taken branch, the branch mark ends clear, and Pc ends past the opcode and operand bytes unless the operation jumped, branched or is BRK, RTI or RTS |
| Execution.InstructionCyclesBounds | cpu/cpu.go:87-105 | every valid instruction costs between 2 and 10 cycles: the table's 2 to 8, at most one page-crossing cycle and at most one for a taken branch |
| Execution.PcStepsOverInstruction | cpu/cpu.go:93-98 | an instruction that is not a jump, BRK, a return or a taken branch leaves Pc just past its opcode and exactly its addressing mode's operand bytes |
| Execution.NextPcStays | cpu/cpu.go:98 | an operation that does not jump, branch, break or return leaves Pc where the operand fetch left it |
| Execution.AttendInterrupt | cpu/cpu.go:107-126 | pushes Pc high byte, Pc low byte and P, sets the interrupt-disable flag and continues at the interrupt's handler |
| Execution.Run | cpu/cpu.go:79-85 | a pending interrupt is served instead of an instruction, at 0 cycles: the signal is cleared, Pc and P are pushed, I is set and Pc goes to the handler; otherwise the signal is left alone and one instruction runs with the cycles, error case and Pc of ExecuteInstruction |
| SaveHex.Spaced | cmd/savehex/main.go:26-28 | every byte takes three characters: two digits and a space |
| SaveHex.Dump | cmd/savehex/main.go:24-29 | an empty file fails at the slicing; otherwise the dump has three characters per byte less the final space |
| SaveHex.SaveHex | cmd/savehex/main.go:24-29 | the serialisation loop produces exactly the dump of the file's bytes, or the slicing failure for an empty file |
| SaveHex.SpacedFields | cmd/savehex/main.go:26-28 | byte k is spelled at characters 3k and 3k+1, followed by a space |
| SaveHex.DumpEndsWithDigit | cmd/savehex/main.go:29 | the dump does not end in a space |
| SaveHex.DumpFields | cmd/savehex/main.go:24-29 | byte k of the file is spelled by characters 3k and 3k+1 of the dump in lower-case `%02x`, and every byte but the last is followed by one space |
| SaveHex.SliceOfPrefix | cmd/savehex/main.go:24-29 | a slice inside the first part of a concatenation is a slice of that part |
| SaveHex.DumpInjective | cmd/savehex/main.go:24-29 | the dump loses nothing: two files with the same dump are the same file |
| SaveHex.ByteOfDigits | cmd/savehex/main.go:27 | distinct bytes have distinct two-digit spellings |

## Left out

- Execution.Dispatch: its contract states how the branch-taken mark is set and where Pc ends. The effect on A, X, Y, P, Sp and memory is stated by each operation's own method, which Dispatch calls. For BRK, RTI and RTS the new Pc comes from memory and is stated by those methods only.
- Execution.ExecuteInstruction: states the cycles, the error case, the cleared branch mark and where Pc ends, but not the operation's effect on A, X, Y, P, Sp and memory, which each operation's own method states. For BRK, RTI and RTS it leaves the new Pc to those methods.
- Execution.Run: the instruction case states what ExecuteInstruction states, and no more.
- Unofficial.Sax: the Go body of SAX is not part of this model. It is given the usual 6502 meaning: store A AND X.
- Unofficial.Dcp: the Go body of DCP is not part of this model. It is given the usual 6502 meaning: decrement memory, then compare with A.
- Unofficial.Nop: the Go body of NOP is not part of this model; NOP is modelled as changing nothing, which is what the operation is for.
- CpuBus.Read: requires RomReadable, an address whose ROM offset is inside the program ROM. Go's slice index panics there.
- PpuAddressSpace.GetAddress: requires that the address does not fall in 0x3000-0x3EFF or a mirror of it. The Go arithmetic indexes past the 2 KiB RAM there and panics.
- PpuAddressSpace.ReadStores: requires the same fault-free address as GetAddress.
- PpuAddressSpace.WriteStores: requires the same fault-free address as GetAddress.
- PpuAddressSpace.Bus.Write: requires the same fault-free address as GetAddress.
- Ppu.Ppu.WritePPUDataPort: requires that the current address is fault-free, for the same reason as GetAddress.
- Ppu.DecodeTiles: takes the ROM slice's capacity to be its length. A Go slice expression may reach past the length into the capacity; the model reports SliceBounds instead.
- Ppu.Ppu.constructor: requires a character ROM whose length is a multiple of 16, the case where tile decoding succeeds.
- ScanlineImageBuilder.StepColors: uses the corrected colour loop, eight colours per tile, so it models neither the negative shift that panics for fine X above 0 nor the `uint8` wrap-around of `8 + fineX` (see Findings).
- ScanlineImageBuilder.Fetch: uses the corrected palette quadrant (see Findings).
- ScanlineImageBuilder.StepKeepsFrame: is stated over the corrected palette quadrant and colour loop (see Findings).
- ScanlineImageBuilder.ScanlineImageBuilder.FetchTileByte: uses the corrected palette quadrant (see Findings).
- ScanlineImageBuilder.ScanlineImageBuilder.FinishTile: uses the corrected colour loop (see Findings).
- ScanlineImageBuilder.ScanlineImageBuilder.FinishedColors: uses the corrected colour loop (see Findings).
- ScanlineImageBuilder.ScanlineImageBuilder.RunStep: requires that every pattern, nametable and attribute read is in range. It uses the corrected palette quadrant and colour loop (see Findings). The Go `switch` is split into one helper method per state.
- Execution.ExecuteInstruction: the cycle count is a byte, because `executeInstruction` returns `uint8`. In cpu/instruction.go the table's `Cycles` field is `uint16`; every entry of the table is below 256.
- window/window.go, nes/nes.go, cmd/gui/main.go and cmd/cli/main.go are not part of this model. They are the window, the frame loop and the command lines.
- cmd/savehex/main.go: argument parsing and file reading and writing are left out. The dump is modelled from the bytes to the text.
- ppu/ppu.go: `vBlank`, `Run`, `generateFrame` and `saveImage` are left out. They rely on a channel, a sleep and PNG encoding, and `generateFrame` refers to a bus field that this revision's bus does not have.
- ppu/ppu.go: the OAM address, OAM data and scroll port writes have empty bodies in the source, so they have no effect in the model either.
- joypad/joypad.go: the mutex around the button state is left out, because the model is single-threaded.
- interruption/interruption.go is not part of this model; it is a channel wrapper.
- interrupt/interrupt.go: the package-level interrupt signal is passed to the CPU explicitly as an object.
- cartridge/cartridge.go: `os.Open` and `File.Read` are left out. The file is given as its byte sequence.
- cartridge/mapper.go is not part of this model; it only declares the mapper interface, which NROM implements.
- compare_output.py: reading the files and printing are left out. The comparison returns the diagnostics it would print. The producer of `output.log` is not part of this model.
- cpu/logic.go and cpu/transfer.go: the `fmt.Println` tracing is left out.
- ppu/scanline-image-builder.go: colours are palette indices. The `nesPalette` RGB table is not part of this model.
- ppu/scanline-image-builder.go: the builder's `nametable` field is never assigned in the source, so the model keeps it at its zero value.
- ppu/scanline-image-builder.go: the scanline state is a datatype of the nine states. The empty-string default of its `String` method is unreachable.
- PythonText.ParseInt: does not accept the underscores and non-ASCII digits Python's `int()` accepts.
- PythonText.Upper: changes ASCII letters only, where `str.upper()` changes every cased letter.
- cpu/*_test.go: the scenarios of the Go tests appear as concrete lemmas in CpuExamples, not as executable tests.

## Findings

| source | as written | input that shows it | evidently intended | confidence | as-written member | corrected member |
|---|---|---|---|---|---|---|
| ppu/ppu-mask.go:27-33 | the rendering flags multiply the register by the mask (`*`) instead of masking it (`&`) | a mask register of 0x01 reports background rendering on | each flag reads its own bit of the register | not executed | PpuMaskRegister.RenderingAsWrittenDisagrees | PpuMaskRegister.RenderingBits |
| cartridge/cartridge.go:58-64 | each control flag is checked as `control & mask == 1`, which can hold only for bit 0, so the battery, trainer and four-screen flags are never set | a header with control byte 0x04 and one program bank, followed by 16 KiB: it loads with no trainer and the program ROM taken from byte 16 | a flag is set when its bit is non-zero; that file is too short for the 512-byte trainer it announces | not executed | Cartridge.TrainerBitIgnoredAsWritten | Cartridge.DecodeContents |
| cpu/instruction.go:102-103 | a relative operand is added to the PC as an unsigned byte | the branch at 0x8000 back to itself (operand 0xFE, read at 0x8001) is printed as 0x8100 instead of 0x8000 | the operand is a signed displacement from the next instruction | not executed | Disassembly.BranchToSelfMisprinted | Disassembly.RelativeTextIsTarget |
| ppu/scanline-image-builder.go:124-129 | the attribute quadrant is chosen from the wrong bits of the dot and the scanline | attribute byte 0x06 at dot 9 of scanline 0 gives palette 3 instead of 2 | the quadrant of the 32x32 area holding the tile selects the two palette bits | not executed | ScanlineImageBuilder.PaletteIdAsWrittenMisreads | ScanlineImageBuilder.PaletteOfQuadrant |
| ppu/scanline-image-builder.go:146-171 | the colour loop runs `8 + fineX` times and shifts by `7 - i`, which goes negative | fine X of 1 at the high-plane fetch reaches a shift by -1, which panics | eight colours per tile, one per bit of the pattern planes | not executed | ScanlineImageBuilder.ColorLoopAsWrittenPanics | ScanlineImageBuilder.StepColors |
