# Two Intel 8080 cores of a Space Invaders emulator, modelled in Dafny

The repository runs the Space Invaders arcade board on two independent
Intel 8080 CPU cores:

* `8080e.c` decodes each opcode with a chain of bit-mask tests and calls
  one handler per instruction family. Every handler updates a `state_t` in
  place. B/C, D/E and H/L are byte views of the 16-bit `bc`, `de` and `hl`
  fields. The ROM half of memory is mapped read-only, so a write into it
  kills the process. `execute_one` charges the cost of each instruction from
  a table; its taken/not-taken adjustment applies to conditional calls and
  returns. `execute` runs instructions until a cycle budget is used up.
* `references/reference.c` holds a switch-driven core with lazy flags.
  `RES` keeps the carry in bit 8 and the byte that S, Z and P describe in
  bits 0-7; `cpu.a` is the aux carry. Writes into the ROM are silently
  dropped. The cycle balance carries over from one `cpu_run` to the next,
  and interrupts can be latched while disabled.

The modules follow the two files:

| module | file | contents |
|---|---|---|
| `Bytes` | bytes.dfy | bytes, words, and the byte views of a register pair |
| `Isa` | isa.dfy | the standard 8080 opcode map, an independent reference for both decoders |
| `Bcd` | bcd.dfy | the two-step decimal adjustment that DAA performs in both cores, and packed decimal numbers to measure it against |
| `Emu8080eDefs` | emu8080e_defs.dfy | `MEM_LOC`, the flag byte, `parity`, `set_ZSP`, `get_cond`, the shift register, the dispatch chain and the cycle table of `8080e.c` |
| `Emu8080eAlu` | emu8080e_alu.dfy | `add`, `sub`, `inc_dec`, `and`, `or`, `xor`, the rotations, DAD and DAA as functions of operands and flags |
| `Emu8080eSpec` | emu8080e_spec.dfy | every handler, `execute_one`, `execute` and `generate_intr` as functions on a machine value |
| `Emu8080e` | emu8080e.dfy | class `Machine`: the fields of `state_t`, with one method per C function, each proved to do what its function in `Emu8080eSpec` says |
| `Emu8080eProps` | emu8080e_props.dfy | round trips, faults and ROM protection, proved on `Emu8080eSpec` |
| `RefDefs` | reference_defs.dfy | `R8`/`W8` addressing, `lut_cycles`, `lut_parity`, the lazy-flag macros, the PSW flag byte and the ports of `reference.c` |
| `RefSpec` | reference_spec.dfy | the switch of `cpu_run`, `interrupt` and the balance loop as functions on a `cpu` value, with their properties |
| `Reference` | reference.dfy | class `Cpu`: the `cpu` union, `mem`, `lut_parity` and the port latches, with one method per macro or case group, each proved to do what its function in `RefSpec` says |
| `Agreement` | agreement.dfy | where the two cores agree (addressing, parity, shift register, DAA's accumulator), where DAA's carry differs, and where their cycle tables differ |

Integers are unbounded in Dafny. Every C truncation to `unsigned char` or
`unsigned short` is therefore written out as `% 0x100` or `% 0x10000`.
Each C mask on disjoint bits becomes the arithmetic it amounts to.

Where the repository's own description and its code differ, the model
follows the code. `execute_one` refuses twelve alternate encodings, not
six: 0x08, 0x10, 0x18, 0x20, 0x28, 0x30, 0x38, 0xCB, 0xD9, 0xDD, 0xED and
0xFD.

Several behaviours that look like defects are modelled as written:
* In `8080e.c`, `set_A` sets the aux flag when bit 4 of A differs before
  and after the operation, not on a carry out of bit 3. So 0x19 + 0x19
  leaves AC clear, and DAA then leaves 0x32 instead of the decimal 0x38
  (`Emu8080eAlu.DecimalSumMissesAuxCarry`).
* `generate_intr` does not clear `intr`.
* In both cores the first addition of DAA (+6) replaces the carry that the
  second addition (+0x60) tests. A carry set before DAA is ignored once
  the first addition has run: with A = 0x32 and C and AC set (the binary
  sum of 0x99 and 0x99 in the reference), DAA gives 0x38, not 0x98
  (`Bcd.CarryBeforeDaaIgnored`). A carry out of the first addition is not
  kept either: 0x99 + 0x66 = 0xFF adjusts to 0x65 with no carry
  (`Bcd.LowStepLosesCarry`).
* In `8080e.c` the carry after DAA is that of the second addition alone. A
  carry set before DAA is cleared whenever the second addition does not
  carry: with A = 0x20 and C set (0x90 + 0x90), DAA gives 0x80 with C
  clear, and with A = 0x0A it gives 0x10 with C clear. The reference keeps
  the old carry in both cases (`Agreement.DaaCarriesDiffer`).
* In the reference, FAUX after ADC compares the low nibbles of A and of the
  result. It misses the carry out of bit 3 when the operand's low nibble is
  0xF and the carry is added in: ADC 0x0F on A = 0 with the carry set
  leaves aux clear (`RefDefs.AdcAuxMissesCarry`).

The two cycle tables differ in fifteen entries:
* The reference charges nothing for the twelve alternate encodings and
  skips them; `8080e.c` charges them and then refuses them.
* The reference charges XTHL 18, PCHL 5 and XCHG 4 cycles; `8080e.c`
  charges 10 for each.
* For conditional calls and returns, the reference table holds the
  not-taken cost. `8080e.c` encodes both costs as 111 and 117. In both
  cores a taken branch costs 6 more.

`Agreement.LowTablesDiffer`, `Agreement.HighTablesDiffer` and
`Agreement.TopTablesDiffer` state these differences entry by entry.

## Model

| member | source | states |
|---|---|---|
| Bytes.Join | 8080e.c:175-180 | the pair built from two bytes has them as its high (B, D, H) and low (C, E, L) views |
| Bytes.WithHi | 8080e.c:175-180 | a write through the high-byte view sets that byte and keeps the low byte |
| Bytes.WithLo | 8080e.c:175-180 | a write through the low-byte view sets that byte and keeps the high byte |
| Bytes.WithLoThenHi | references/reference.c:446 | writing L then H leaves HL equal to the pair of the two bytes, whatever it held before |
| Bytes.JoinHiLo | 8080e.c:175-180 | a pair is determined by its two byte views |
| Bytes.Inc16 | 8080e.c:622-626 | `++` on an unsigned short steps by one and wraps 0xFFFF to 0 |
| Bytes.Dec16 | 8080e.c:628-632 | `--` on an unsigned short steps back by one and wraps 0 to 0xFFFF |
| Isa.DecodeEncode | references/reference.c:355-677 | decoding the opcode of any well-formed 8080 instruction gives back that instruction |
| Isa.EncodeDecode | references/reference.c:355-677 | an opcode decodes to no instruction exactly when it is one of the twelve alternate encodings; every other opcode is the encoding of the instruction it decodes to |
| Emu8080eDefs.MemLoc | 8080e.c:24 | every address in 0..0x10000 maps to an index below 0x4000; the map is the identity below 0x2000, and above that it gives a RAM index that agrees with the address modulo 0x2000 |
| Emu8080eDefs.MemLocAliases | 8080e.c:24 | two addresses name the same byte iff they are equal, or both are at least 0x2000 and agree in their low 13 bits (so 0x2100 and 0x6100 alias) |
| Emu8080eDefs.NextLocDiffers | 8080e.c:24 | the byte after an address is a different byte of memory, also across the 0x1FFF/0x2000 and 0xFFFF/0x10000 seams |
| Emu8080eDefs.RomWriteIffRomAddress | 8080e.c:186-193 | a write lands in the read-only ROM exactly when its address is below 0x2000 |
| Emu8080eDefs.UnpackPack | 8080e.c:647-664 | loading the flags from the byte that PUSH PSW stores gives back the same flags |
| Emu8080eDefs.PackUnpack | 8080e.c:647-664 | storing the flags loaded by POP PSW gives back the popped byte, bits 1, 3 and 5 included |
| Emu8080eDefs.InitFlagsByte | 8080e.c:171 | the flag byte after start-up is 0x02: only the fixed bit 1 is set |
| Emu8080eDefs.Parity | 8080e.c:244-250 | `parity(b)` is true iff `b` has an even number of set bits |
| Emu8080eDefs.ParityExamples | 8080e.c:244-250 | 0x00, 0xFF and 0x03 have even parity; 0x01 and 0x80 have odd parity |
| Emu8080eDefs.WithZSP | 8080e.c:252-271 | Z is set iff the result is 0, S iff bit 7 is set, P iff the parity is even; every other flag is kept |
| Emu8080eDefs.Cond | 8080e.c:339-371 | condition codes NZ, NC, PO and P hold when their flag is clear; Z, C, PE and M hold when it is set |
| Emu8080eDefs.InPort1 | 8080e.c:711-713 | IN 1 puts shoot in bit 4, start 1 in bit 2, start 2 in bit 1 and coin in bit 0, with bit 3 always set |
| Emu8080eDefs.ShiftPush | 8080e.c:731-734 | OUT 4 makes the written byte the high byte and the old high byte the low byte |
| Emu8080eDefs.ShiftRead | 8080e.c:714-716 | IN 3: `shift_reg >> (8 - offset)` truncated to a byte; `ShiftReadOffsetZero`, `ShiftExample` and `Agreement.ShiftInAgrees` state what it reads |
| Emu8080eDefs.ShiftReadOffsetZero | 8080e.c:714-716 | with offset 0, IN 3 returns the high byte of the shift register |
| Emu8080eDefs.ShiftExample | 8080e.c:714-734 | OUT 4 of 0xAA then 0xFF into a cleared register gives 0xFFAA; IN 3 then reads 0xFF at offset 0 and 0xFE at offset 2 |
| Emu8080eDefs.DecodeAgreesWithIsa | 8080e.c:891-1142 | for every opcode, the mask chain and the switch refuse the twelve alternates as alternates; they refuse the sixteen documented opcodes with no handler (STAX, RAL, CMC, the eight RST, ACI, XRI, DI, SPHL) as unrecognized; every other opcode goes to the handler of the instruction the 8080 defines for it |
| Emu8080eDefs.Decode | 8080e.c:891-1142 | the mask chain and the switch as one map from opcode to handler; `DecodeAgreesWithIsa`, `MovRows`, `AluRows` and `DecodeConditional` state where each opcode goes |
| Emu8080eDefs.MovRows | 8080e.c:891-899 | the same for the MOV quarter of the table |
| Emu8080eDefs.AluRows | 8080e.c:900-931 | the same for the ALU quarter |
| Emu8080eDefs.Cost | 8080e.c:1145-1155 | every cost that `execute_one` computes lies in 4..17, so its "cycle number incorrect" abort cannot happen |
| Emu8080eDefs.ConditionalCosts | 8080e.c:72-87 | conditional returns cost 11 taken and 5 not taken, conditional calls 17 and 11, and no other cost depends on the branch |
| Emu8080eDefs.DecodeConditional | 8080e.c:956-972 | the chain sends exactly the opcodes 11ccc000 to RX and 11ccc100 to CX |
| Emu8080eDefs.ConditionalColumns | 8080e.c:84-87 | the table holds 111 in the RX columns and 117 in the CX columns |
| Emu8080eDefs.PlainColumns | 8080e.c:72-87 | every other entry of the table is a plain cost below 100 |
| Emu8080eAlu.AluAdd | 8080e.c:406-420 | `add` returns the sum modulo 0x100, with C set iff the sum exceeds 0xFF; AC follows `set_A`, and Z, S and P describe the result |
| Emu8080eAlu.AddCarryLast | 8080e.c:815-831 | ADI, which sets C after `set_ZSP`, ends with the same flags as `add` |
| Emu8080eAlu.AluSub | 8080e.c:422-436 | `sub` returns the difference modulo 0x100, with C set iff there is a borrow (`x < y`) |
| Emu8080eAlu.AluIncDec | 8080e.c:438-448 | `inc_dec` moves the byte by one modulo 0x100 and keeps C |
| Emu8080eAlu.AluAnd | 8080e.c:450-465 | `and` returns the bitwise and and clears C; ANI also clears AC, ANA takes AC from `set_A` |
| Emu8080eAlu.AluOr | 8080e.c:467-477 | `or` returns the bitwise or and clears C and AC |
| Emu8080eAlu.AluXor | 8080e.c:479-489 | `xor` returns the bitwise exclusive or and clears C and AC |
| Emu8080eAlu.RotateLeft | 8080e.c:741-751 | RLC rotates A left, bit 7 entering bit 0 and C; no other flag changes |
| Emu8080eAlu.RotateRight | 8080e.c:753-763 | RRC rotates A right, bit 0 entering bit 7 and C; no other flag changes |
| Emu8080eAlu.RotateRightThroughCarry | 8080e.c:765-775 | RAR shifts the old C into bit 7 and bit 0 into C |
| Emu8080eAlu.RotateRightUndoesLeft | 8080e.c:741-763 | RRC undoes RLC and RLC undoes RRC on A, with C holding the bit that went round |
| Emu8080eAlu.Complement | 8080e.c:810-813 | CMA gives the one's complement: A and the result add up to 0xFF |
| Emu8080eAlu.DoubleAdd | 8080e.c:679-691 | DAD gives HL + rp modulo 0x10000 and sets C iff the sum exceeds 0xFFFF; no other flag changes |
| Emu8080eAlu.AddModulo | 8080e.c:406-420 | `add` gives the sum modulo 0x100 and sets C iff the sum exceeds 0xFF |
| Emu8080eAlu.AdjustLowStep | 8080e.c:869-871 | the first step of DAA gives the accumulator and carry of `Bcd.DaaLow` and `Bcd.DaaLowCarry`; when it runs, AC is bit 4 toggled and Z, S and P describe the result; otherwise nothing changes |
| Emu8080eAlu.AdjustHighStep | 8080e.c:873-875 | the second step gives `Bcd.DaaHigh` with C its own carry out of bit 7; when it runs, AC is bit 4 toggled and Z, S and P describe the result; otherwise nothing changes |
| Emu8080eAlu.DecimalAdjust | 8080e.c:867-876 | the three fixed bits kept; A and the flags unchanged when both nibbles are digits and C and AC are clear; `DecimalAdjustResult` states the rest |
| Emu8080eAlu.DecimalAdjustResult | 8080e.c:867-876 | DAA leaves A as `Bcd.DaaValue` of A, C and AC; C set iff the second addition carries, so an earlier carry is cleared; AC bit 4 toggled by the last addition that ran; Z, S and P of the result when an addition ran; A and the flags unchanged when none ran |
| Emu8080eAlu.DecimalAdjustClearsCarry | 8080e.c:867-876 | with C set and AC clear, DAA of 0x0A gives 0x10 and clears C |
| Emu8080eAlu.DecimalSumMissesAuxCarry | 8080e.c:406-420 | ADD of 0x19 and 0x19 gives 0x32 with AC and C clear, and DAA then leaves 0x32 |
| Emu8080eAlu.DecimalAdjustExample | 8080e.c:867-876 | DAA on 0x9A with C and AC clear gives 0x00 with C set |
| Bcd.HighDigitAdjusted | 8080e.c:873-875 | the second step on a high nibble `t` and a decimal low digit, with no carry from the first step, gives the decimal value modulo 100 and carries iff it reaches 100 |
| Bcd.DecimalSum | 8080e.c:867-876 | for two packed decimal bytes whose binary sum fits in a byte, with AC the carry out of bit 3, DAA gives the decimal sum modulo 100; it carries iff the decimal sum reaches 100 and the first step did not itself carry out of bit 7 |
| Bcd.LowStepLosesCarry | references/reference.c:659-660 | the binary sum 0xFF (99 + 66) adjusts to 0x65 with no carry |
| Bcd.CarryBeforeDaaIgnored | references/reference.c:659-660 | 0x32 with C and AC set (99 + 99) adjusts to 0x38: the second step does not run |
| Emu8080eSpec.Init | 8080e.c:165-189 | after start-up the program image is at address 0, the rest of memory is zero, and the flag byte is 0x02 |
| Emu8080eSpec.Store | 8080e.c:24 | a store completes iff its address is at least 0x2000; the stored byte then reads back and nothing else of the state changes |
| Emu8080eSpec.StoreKeeps | 8080e.c:24 | a completed store leaves every byte that does not alias its address unchanged |
| Emu8080eSpec.SetReg | 8080e.c:283-315 | writing through `get_reg` fails only for M at a ROM address; otherwise the register reads back the value, the other registers are kept, and memory changes only for M |
| Emu8080eSpec.SetPair | 8080e.c:317-337 | writing through `get_dreg` changes the selected pair and nothing else |
| Emu8080eSpec.Fetch8 | 8080e.c:217-227 | `read_8b` moves PC past one byte |
| Emu8080eSpec.Fetch16 | 8080e.c:229-242 | `read_16b` reads a little-endian word at PC and moves PC past both bytes |
| Emu8080eSpec.PushWord | 8080e.c:641-645 | a push completes iff both bytes below SP are RAM; then SP drops by two, the low byte is at the new SP and the high byte above it, and nothing else changes |
| Emu8080eSpec.PopWord | 8080e.c:653-658 | a pop reads the low byte at SP and the high byte above it, and raises SP by two |
| Emu8080eSpec.JumpIf | 8080e.c:373-380 | `jump_if` always consumes the two-byte operand, and PC takes it when the condition holds |
| Emu8080eSpec.CallIf | 8080e.c:382-392 | `call_if` consumes the operand; when the condition holds it pushes the address after it and jumps |
| Emu8080eSpec.ReturnIf | 8080e.c:394-404 | `return_if` pops PC when the condition holds and changes nothing otherwise |
| Emu8080eSpec.Lhld | 8080e.c:561-566 | LHLD loads L from the operand address and H from the next byte; only HL and PC change |
| Emu8080eSpec.ShldFaults | 8080e.c:568-573 | SHLD completes exactly when its operand address is RAM |
| Emu8080eSpec.ShldStores | 8080e.c:568-573 | a completed SHLD leaves L at the operand address and H at the next byte |
| Emu8080eSpec.ShldKeepsRegisters | 8080e.c:568-573 | a completed SHLD changes only memory and PC |
| Emu8080eSpec.Cmp | 8080e.c:609-614 | CMP keeps A and changes only the flags: C iff A is below the operand, Z iff they are equal |
| Emu8080eSpec.Cpi | 8080e.c:616-620 | CPI does the same with the immediate byte and moves PC past it |
| Emu8080eSpec.InPort | 8080e.c:703-721 | IN 0 gives 0x0D, IN 3 the shift register at its offset, and ports other than 0, 1 and 3 give 0 |
| Emu8080eSpec.Out | 8080e.c:724-739 | OUT 2 stores A & 7 as the shift offset, OUT 4 pushes A into the shift register, and other ports only consume the operand |
| Emu8080eSpec.Step | 8080e.c:878-1165 | an `execute_one` that completes charges between 4 and 17 cycles |
| Emu8080eSpec.Exec | 8080e.c:891-1142 | the handler called for a decoded opcode; `Emu8080eProps.StepHalts`, `StepRomWrite`, `ReadOnlyHandlers`, `WritingHandlers` and the handler lemmas of `Emu8080eSpec` and `Emu8080eProps` state its effects |
| Emu8080eSpec.GenerateIntr | 8080e.c:1167-1179 | `generate_intr`; `Emu8080eProps.GenerateIntrPushesPc` states what it does |
| Emu8080eSpec.Run | 8080e.c:1181-1199 | `execute` completes only with at least the budget used, and with less than the budget plus 17 when it started below the budget; at or above the budget it does nothing |
| Emu8080eSpec.RunAfterStep | 8080e.c:1186-1196 | one round of the loop: after a step that completes, the rest of the run is the run from the new state; otherwise the run stops with that step's outcome |
| Emu8080eProps.PopUndoesPush | 8080e.c:641-658 | the pop sequence reads back the word the push sequence wrote and restores SP |
| Emu8080eProps.PopUndoesPushPair | 8080e.c:641-658 | POP of a pair after PUSH of the same pair restores every register; only memory differs |
| Emu8080eProps.PopPswUndoesPushPsw | 8080e.c:647-664 | POP PSW after PUSH PSW restores A, the flags, SP and every other register; only memory differs |
| Emu8080eProps.PushLayout | 8080e.c:641-645 | PUSH faults exactly when a byte below SP is ROM; otherwise the high byte is at SP-1 and the low byte at SP-2 |
| Emu8080eProps.RetUndoesCall | 8080e.c:523-539 | RET after CALL returns to the address after the call's operand with SP restored |
| Emu8080eProps.XchgTwice | 8080e.c:693-700 | XCHG swaps HL and DE, so doing it twice changes nothing |
| Emu8080eProps.XthlSwaps | 8080e.c:666-677 | XTHL faults exactly when SP is in the ROM; otherwise it swaps L with the byte at SP and H with the byte at SP+1, keeping SP and PC |
| Emu8080eProps.IncDecKeepsCarry | 8080e.c:634-639 | INR and DCR move the register or M by one modulo 0x100 and keep C; only M at a ROM address faults |
| Emu8080eProps.InxDcxKeepFlags | 8080e.c:622-632 | INX and DCX step the pair modulo 0x10000 and keep every flag |
| Emu8080eProps.BranchNotTaken | 8080e.c:503-534 | a conditional jump, call or return whose condition fails only skips its operand (jump and call) or does nothing (return) |
| Emu8080eProps.JumpTaken | 8080e.c:503-513 | JMP and a taken conditional jump set PC to the little-endian operand and change nothing else |
| Emu8080eProps.GenerateIntrPushesPc | 8080e.c:1167-1179 | `generate_intr` does nothing while interrupts are off; otherwise it completes iff PC can be pushed, and then PC is 8n, the old PC is on the stack, and interrupts stay enabled |
| Emu8080eProps.StepOutsideProgram | 8080e.c:884-886 | PC beyond the program stops `execute_one` with a memory fault |
| Emu8080eProps.StepHalts | 8080e.c:891-896 | opcode 0x76 halts, although it lies in the MOV quarter |
| Emu8080eProps.StepDecodeFault | 8080e.c:1127-1141 | `execute_one` refuses exactly the alternates and the sixteen opcodes it has no handler for, and reports the opcode with the address after it |
| Emu8080eProps.StepRomWrite | 8080e.c:580-588 | MOV M,r with HL in the ROM stops with a memory fault |
| Emu8080eProps.StoreKeepsRom | 8080e.c:186-193 | a completed store leaves the ROM unchanged |
| Emu8080eProps.PushWordKeepsRom | 8080e.c:641-645 | so does a completed push |
| Emu8080eProps.SetRegKeepsRom | 8080e.c:283-315 | so does a completed write through `get_reg` |
| Emu8080eProps.RegisterAluKeepsMemory | 8080e.c:590-614 | ADD, SUB, ANA, XRA, ORA and CMP always complete and leave memory unchanged |
| Emu8080eProps.ImmediateArithmeticKeepsMemory | 8080e.c:604-607 | so do ADI, SUI and SBI |
| Emu8080eProps.ImmediateLogicKeepsMemory | 8080e.c:777-801 | so do ANI, ORI and CPI |
| Emu8080eProps.AccumulatorKeepsMemory | 8080e.c:741-876 | so do NOP, the rotations, DAA, CMA and STC |
| Emu8080eProps.PortsKeepMemory | 8080e.c:703-739 | so do EI, IN and OUT |
| Emu8080eProps.PairsKeepMemory | 8080e.c:543-547 | so do LXI, INX, DCX, DAD and XCHG |
| Emu8080eProps.LoadsKeepMemory | 8080e.c:555-578 | so do LDAX, LHLD, LDA, POP and POP PSW |
| Emu8080eProps.BranchesKeepMemory | 8080e.c:498-539 | so do the jumps, the returns and PCHL |
| Emu8080eProps.ReadOnlyHandlers | 8080e.c:891-1142 | every handler that does not write memory always completes and leaves memory unchanged |
| Emu8080eProps.CallKeepsRom | 8080e.c:382-392 | a completed call leaves the ROM unchanged |
| Emu8080eProps.ShldKeepsRom | 8080e.c:568-573 | so does a completed SHLD |
| Emu8080eProps.XthlKeepsRom | 8080e.c:666-677 | so does a completed XTHL |
| Emu8080eProps.RegisterWritesKeepRom | 8080e.c:580-588 | so do completed MOV, INR, DCR, MVI and STA |
| Emu8080eProps.StackWritesKeepRom | 8080e.c:641-651 | so do completed CALL, conditional calls, PUSH and PUSH PSW |
| Emu8080eProps.WritingHandlers | 8080e.c:891-1142 | every handler that writes memory writes only RAM |
| Emu8080eProps.StepKeepsRom | 8080e.c:878-1165 | whatever its outcome, `execute_one` never changes a ROM byte |
| Emu8080e.InitMachine | 8080e.c:149-206 | `init_machine` gives no machine for an empty or oversized program; otherwise it gives a fresh machine in the start-up state |
| Emu8080e.Machine.constructor | 8080e.c:165-189 | the registers are reset, SP is 0x2400, F holds only bit 1, and the program is loaded at address 0 |
| Emu8080e.Machine.Write | 8080e.c:24 | a write through `MEM_LOC` reports a fault for a ROM address and otherwise stores the byte, as `Emu8080eSpec.Store` says |
| Emu8080e.Machine.Read8 | 8080e.c:217-227 | returns the byte at PC and steps PC |
| Emu8080e.Machine.Read16 | 8080e.c:229-242 | returns the little-endian word at PC and moves PC past it |
| Emu8080e.Machine.GetReg | 8080e.c:283-315 | reads B, C, D, E, H, L, the byte at HL or A |
| Emu8080e.Machine.PutReg | 8080e.c:283-315 | writes a register through its byte view of a pair, or memory at HL, as `Emu8080eSpec.SetReg` says |
| Emu8080e.Machine.GetPair | 8080e.c:317-337 | reads BC, DE, HL or SP |
| Emu8080e.Machine.PutPair | 8080e.c:317-337 | writes the selected pair only |
| Emu8080e.Machine.SetZSP | 8080e.c:252-271 | sets Z, S and P from the result and keeps every other flag |
| Emu8080e.Machine.SetA | 8080e.c:273-281 | sets AC iff bit 4 differs between the two bytes and keeps every other flag |
| Emu8080e.Machine.Add | 8080e.c:406-420 | returns the result and leaves the flags that `Emu8080eAlu.AluAdd` gives |
| Emu8080e.Machine.Sub | 8080e.c:422-436 | the same for `Emu8080eAlu.AluSub` |
| Emu8080e.Machine.IncDec | 8080e.c:438-448 | the same for `Emu8080eAlu.AluIncDec` |
| Emu8080e.Machine.And | 8080e.c:450-465 | the same for `Emu8080eAlu.AluAnd` |
| Emu8080e.Machine.Or | 8080e.c:467-477 | the same for `Emu8080eAlu.AluOr` |
| Emu8080e.Machine.Xor | 8080e.c:479-489 | the same for `Emu8080eAlu.AluXor` |
| Emu8080e.Machine.PushWord | 8080e.c:641-645 | the push sequence, faulting on a ROM byte, as `Emu8080eSpec.PushWord` says |
| Emu8080e.Machine.PopWord | 8080e.c:653-658 | the pop sequence, as `Emu8080eSpec.PopWord` says |
| Emu8080e.Machine.JumpIf | 8080e.c:373-380 | `jump_if`, as `Emu8080eSpec.JumpIf` says |
| Emu8080e.Machine.CallIf | 8080e.c:382-392 | `call_if`, as `Emu8080eSpec.CallIf` says |
| Emu8080e.Machine.ReturnIf | 8080e.c:394-404 | `return_if`, as `Emu8080eSpec.ReturnIf` says |
| Emu8080e.Machine.Pchl | 8080e.c:498-501 | PC takes HL |
| Emu8080e.Machine.Jx | 8080e.c:503-508 | jumps when the condition of the opcode holds |
| Emu8080e.Machine.Jmp | 8080e.c:510-513 | jumps to the operand |
| Emu8080e.Machine.Cx | 8080e.c:515-521 | returns whether the condition held and calls when it does |
| Emu8080e.Machine.Cal | 8080e.c:523-526 | calls the operand |
| Emu8080e.Machine.Rx | 8080e.c:528-534 | returns whether the condition held and returns when it does |
| Emu8080e.Machine.Ret | 8080e.c:536-539 | pops PC |
| Emu8080e.Machine.Lxi | 8080e.c:543-547 | the pair takes the operand |
| Emu8080e.Machine.Mvi | 8080e.c:549-553 | the register or M takes the immediate byte, faulting for M in the ROM |
| Emu8080e.Machine.Lda | 8080e.c:555-559 | A takes the byte at the operand address |
| Emu8080e.Machine.Lhld | 8080e.c:561-566 | as `Emu8080eSpec.Lhld` says: L and H from the operand address and the next |
| Emu8080e.Machine.Shld | 8080e.c:568-573 | as `Emu8080eSpec.Shld` says: L and H to the operand address and the next, faulting on ROM |
| Emu8080e.Machine.Ldax | 8080e.c:575-578 | A takes the byte at BC or DE |
| Emu8080e.Machine.Mov | 8080e.c:580-588 | the destination takes the source, faulting for M in the ROM |
| Emu8080e.Machine.Sta | 8080e.c:851-855 | A goes to the operand address, faulting on ROM |
| Emu8080e.Machine.AddReg | 8080e.c:590-595 | ADD and ADC, with the carry added to the operand before `add` |
| Emu8080e.Machine.SubReg | 8080e.c:597-602 | SUB and SBB, likewise |
| Emu8080e.Machine.Sbi | 8080e.c:604-607 | SBI: the immediate plus the carry, subtracted |
| Emu8080e.Machine.Cmp | 8080e.c:609-614 | as `Emu8080eSpec.Cmp` says: flags only, A kept |
| Emu8080e.Machine.Cpi | 8080e.c:616-620 | as `Emu8080eSpec.Cpi` says |
| Emu8080e.Machine.Inx | 8080e.c:622-626 | the pair steps up modulo 0x10000 |
| Emu8080e.Machine.Dcx | 8080e.c:628-632 | the pair steps down modulo 0x10000 |
| Emu8080e.Machine.Inr | 8080e.c:634-639 | INR and DCR: flags from `inc_dec`, then the write, faulting for M in the ROM |
| Emu8080e.Machine.Dad | 8080e.c:679-691 | HL and C as `Emu8080eAlu.DoubleAdd` gives them |
| Emu8080e.Machine.Adi | 8080e.c:815-831 | ADI, with the flags of `add` |
| Emu8080e.Machine.Sui | 8080e.c:833-849 | SUI, with the flags of `sub` |
| Emu8080e.Machine.Daa | 8080e.c:867-876 | A and the flags as `Emu8080eAlu.DecimalAdjust` gives them |
| Emu8080e.Machine.Ana | 8080e.c:783-788 | ANA through `and`, AC from `set_A` |
| Emu8080e.Machine.Ani | 8080e.c:777-781 | ANI through `and`, AC cleared |
| Emu8080e.Machine.Ora | 8080e.c:790-795 | ORA through `or` |
| Emu8080e.Machine.Ori | 8080e.c:797-801 | ORI through `or` |
| Emu8080e.Machine.Xra | 8080e.c:803-808 | XRA through `xor` |
| Emu8080e.Machine.Cma | 8080e.c:810-813 | A takes its complement |
| Emu8080e.Machine.Rlc | 8080e.c:741-751 | A and C as `Emu8080eAlu.RotateLeft` gives them |
| Emu8080e.Machine.Rrc | 8080e.c:753-763 | A and C as `Emu8080eAlu.RotateRight` gives them |
| Emu8080e.Machine.Rar | 8080e.c:765-775 | A and C as `Emu8080eAlu.RotateRightThroughCarry` gives them |
| Emu8080e.Machine.Stc | 8080e.c:862-865 | C is set |
| Emu8080e.Machine.Push | 8080e.c:641-645 | pushes BC, DE or HL |
| Emu8080e.Machine.PushPsw | 8080e.c:647-651 | pushes A above the flag byte |
| Emu8080e.Machine.Pop | 8080e.c:653-658 | pops BC, DE or HL |
| Emu8080e.Machine.PopPsw | 8080e.c:660-664 | pops the flag byte and then A |
| Emu8080e.Machine.Xthl | 8080e.c:666-677 | as `Emu8080eSpec.Xthl` says, faulting when a byte at SP is ROM |
| Emu8080e.Machine.Xchg | 8080e.c:693-700 | HL and DE are exchanged |
| Emu8080e.Machine.In | 8080e.c:703-721 | A takes `Emu8080eSpec.InPort` of the operand |
| Emu8080e.Machine.Out | 8080e.c:724-739 | the shift hardware changes as `Emu8080eSpec.Out` says |
| Emu8080e.Machine.Ei | 8080e.c:857-860 | interrupts are enabled |
| Emu8080e.Machine.Dispatch | 8080e.c:891-972 | the mask chain calls the handler that `Emu8080eSpec.Exec` describes and reports whether a conditional branch was taken |
| Emu8080e.Machine.DispatchSwitch | 8080e.c:973-1142 | the switch calls the handler that `Emu8080eSpec.Exec` describes |
| Emu8080e.Machine.ExecuteOne | 8080e.c:878-1165 | returns the outcome of `Emu8080eSpec.Step` and, when it is Ok, leaves the machine in the state it gives |
| Emu8080e.Machine.GenerateIntr | 8080e.c:1167-1179 | as `Emu8080eSpec.GenerateIntr` says |
| Emu8080e.Machine.Round | 8080e.c:1186-1196 | one pass of the loop of `execute`: it keeps the rest of the run unchanged, or stops with the outcome that ends it |
| Emu8080e.Machine.Execute | 8080e.c:1181-1199 | the loop returns the outcome of `Emu8080eSpec.Run` from the starting state and, when it completes, leaves the machine in its final state |
| RefDefs.R8Loc | references/reference.c:269 | every address maps to an index below 0x4000: the identity up to 0x1FFF and a RAM index above |
| RefDefs.R8LocMirrors | references/reference.c:269 | an address above 0x1FFF lands on the RAM byte that agrees with it modulo 0x2000 |
| RefDefs.NextLocDiffers | references/reference.c:270 | R16 reads two different bytes |
| RefDefs.LutCycles | references/reference.c:170-187 | `lut_cycles` row by row; `ZeroCostIsAlternate`, `AlternatesCostNothing` and the `Agreement` table lemmas state its entries |
| RefDefs.LutParity | references/reference.c:782 | the expression that fills `lut_parity`; `LutParityEven` and `Agreement.ParityAgrees` state its values |
| RefDefs.ZeroCostIsAlternate | references/reference.c:170-187 | only the twelve undocumented encodings cost nothing in `lut_cycles` |
| RefDefs.AlternatesCostNothing | references/reference.c:170-187 | each of them does cost nothing |
| RefDefs.LutParityEven | references/reference.c:782 | the fill loop stores 4 in `lut_parity[i]` iff `i` has an even number of set bits, and 0 otherwise |
| RefDefs.Holds | references/reference.c:260-267 | each odd condition (Z, C, PE, M) is the negation of the even one before it |
| RefDefs.WithCarry | references/reference.c:646-649 | replacing bit 8 of RES sets the carry and keeps the low byte |
| RefDefs.Add | references/reference.c:283-284 | ADD: A becomes the sum modulo 0x100, the carry is set iff the sum exceeds 0xFF, and aux iff the low nibbles carry |
| RefDefs.Adc | references/reference.c:285 | ADC: A becomes the sum with the carry modulo 0x100, the carry is set iff that sum exceeds 0xFF, and aux iff the low nibbles and the carry carry out of bit 3 while the operand's low nibble plus the carry stays below 0x10 |
| RefDefs.FauxOfSum | references/reference.c:283-285 | FAUX after `c + A + v` is set exactly when the low nibbles and `c` carry and `v`'s low nibble plus `c` is below 0x10 |
| RefDefs.AdcAuxMissesCarry | references/reference.c:285 | ADC 0x0F on A = 0 with the carry set gives 0x10 with aux clear |
| RefDefs.Borrow | references/reference.c:287-289 | a negative difference stored in the 16-bit RES sets bit 8 and keeps the low byte and nibble |
| RefDefs.Cmp | references/reference.c:287 | CMP keeps A, sets the carry iff A is below the operand, sets Z iff they are equal, and leaves the difference in the low byte |
| RefDefs.CmpAux | references/reference.c:283-287 | the aux flag of CMP and SUB is set iff the operand's low nibble is nonzero and at most A's |
| RefDefs.Sub | references/reference.c:288 | SUB: A becomes the difference modulo 0x100; the carry is set iff A is below the operand |
| RefDefs.Sbb | references/reference.c:289 | SBB: the same, less the carry |
| RefDefs.Ana | references/reference.c:290 | ANA stores the bitwise and in A and RES, so the carry is cleared; aux is kept |
| RefDefs.Xra | references/reference.c:291 | XRA likewise with exclusive or |
| RefDefs.Ora | references/reference.c:292 | ORA likewise with or |
| RefDefs.Fszp | references/reference.c:280 | FSZP keeps the carry and takes the byte as the low byte of RES |
| RefDefs.Dad | references/reference.c:286 | DAD: HL + rp modulo 0x10000, carry iff the sum exceeds 0xFFFF, low byte of RES kept |
| RefDefs.Rlc | references/reference.c:646 | RLC: bit 7 to the carry, A shifted left with a 0 in bit 0 |
| RefDefs.Rrc | references/reference.c:647 | RRC: bit 0 to the carry, A shifted right with a 0 in bit 7 |
| RefDefs.Ral | references/reference.c:648 | RAL: a nine-bit rotation left through the carry |
| RefDefs.Rar | references/reference.c:649 | RAR: a nine-bit rotation right through the carry |
| RefDefs.RarUndoesRal | references/reference.c:648-649 | RAR after RAL restores A, the carry, the low byte of RES and the aux flag |
| RefDefs.Stc | references/reference.c:654 | STC sets the carry and keeps the low byte |
| RefDefs.Cmc | references/reference.c:655 | CMC flips the carry and keeps the low byte |
| RefDefs.CmcTwice | references/reference.c:655 | CMC twice changes nothing |
| RefDefs.Cma | references/reference.c:653 | CMA: A and the result add up to 0xFF |
| RefDefs.DaaResult | references/reference.c:657-663 | DAA leaves A as `Bcd.DaaValue` of A, the carry and aux; the carry set iff it was set before or the second addition carries; aux set iff it was set before or the low nibble exceeds 9; the low byte of RES is A when an addition ran and unchanged otherwise |
| RefDefs.DaaFirstStep | references/reference.c:659 | the first addition gives `Bcd.DaaLow` and `Bcd.DaaLowCarry`, and its aux is set iff the low nibble exceeds 9 |
| RefDefs.DaaSecondStep | references/reference.c:660 | the second addition gives `Bcd.DaaHigh` and its own carry out of bit 7 |
| RefDefs.DaaAfterBcdSum | references/reference.c:657-663 | DAA on the state an ADD of two packed decimal bytes leaves without a carry out of bit 7 holds their decimal sum modulo 100, with the carry set iff it reaches 100 unless the first addition carried |
| RefDefs.AddThenDaa | references/reference.c:657-663 | ADD then DAA on two packed decimal bytes whose sum fits in a byte gives their decimal sum modulo 100, with the carry set iff it reaches 100 unless the first addition carried |
| RefDefs.DaaExample | references/reference.c:657-663 | DAA on 0x9A with no carries gives 0x00 with the carry set |
| RefDefs.FlagsByteBits | references/reference.c:457 | the byte PUSH PSW builds has the carry in bit 0, bit 1 set, the parity in bit 2, bit 3 clear, aux in bit 4, bit 5 clear, Z in bit 6 and S in bit 7 |
| RefDefs.PopFlagsReads | references/reference.c:462 | for a byte with Z set only together with S clear and P set, the lazy flags that POP PSW rebuilds read back C, P, AC, Z and S as the byte has them |
| RefDefs.PswRoundTrip | references/reference.c:457-462 | POP PSW then PUSH PSW gives back S, Z, AC, P and C of such a byte, with bit 1 set and bits 3 and 5 clear |
| RefDefs.FlagsRoundTrip | references/reference.c:457-462 | PUSH PSW then POP PSW keeps carry, zero, sign, parity and aux |
| RefDefs.InPort | references/reference.c:302-315 | IN 1 gives the key byte without bit 7, IN 2 the switch byte, IN 3 the shift register, and any other port its own number |
| RefDefs.SwitchPort | references/reference.c:308 | IN 2 has bits 0, 1 and 3 clear and bit 7 clear; bits 4-6 are those of the key byte, and bit 2 is its bit 7 |
| RefDefs.ShiftOut | references/reference.c:323 | OUT 4 makes the byte the new high byte and the old high byte the low byte |
| RefDefs.ShiftIn | references/reference.c:309 | IN 3: `(shift_reg << shift_offset) >> 8` truncated to a byte; `Agreement.ShiftInAgrees` states that it reads what 8080e.c reads |
| RefDefs.OutPort | references/reference.c:317-329 | OUT 2 sets the offset to the low three bits, OUT 4 shifts the byte in, and other ports change nothing |
| RefSpec.Init | references/reference.c:775-781 | the start-up state holds the ROM image with zeroed RAM, PC and SP at 0, interrupts off, no pending interrupt, a zero balance, and RES = 1, which reads as no carry, not zero, plus and odd parity |
| RefSpec.W8 | references/reference.c:271 | W8 stores only above 0x1FFF, where the byte then reads back; below it nothing changes; bytes that do not alias the address are kept, and the ROM never changes |
| RefSpec.SetReg | references/reference.c:356-426 | assigning to a register sets it and keeps memory; assigning to M is a W8 at HL; either way PC, SP, RES, the balance, the interrupt state and the ROM are kept |
| RefSpec.SetPair | references/reference.c:437-439 | assigning to a pair changes only that pair |
| RefSpec.Push16 | references/reference.c:272 | PUSH16 drops SP by two and changes only SP and RAM |
| RefSpec.Pop16 | references/reference.c:273 | POP16 returns R16 at SP and raises SP by two |
| RefSpec.PopUndoesPush16 | references/reference.c:272-273 | with both bytes in RAM, POP16 after PUSH16 gives back the word and SP |
| RefSpec.PushIntoRom | references/reference.c:271-272 | a push whose two bytes fall in the ROM changes no memory |
| RefSpec.Shld | references/reference.c:445 | SHLD changes only memory and PC, and never the ROM |
| RefSpec.ShldStores | references/reference.c:445 | when the operand address is RAM and neither store overwrites the operand bytes, L is at the operand address and H at the next |
| RefSpec.LhldFrom | references/reference.c:446 | LHLD sets HL to the two bytes at the operand address and steps PC past it |
| RefSpec.XchgTwice | references/reference.c:450 | XCHG swaps HL and DE, so doing it twice changes nothing |
| RefSpec.Moves | references/reference.c:356-450 | NOP, MOV, MVI, LXI and XCHG keep the ROM, the balance and the interrupt state |
| RefSpec.PairTransfer | references/reference.c:441-444 | so do STAX and LDAX |
| RefSpec.DirectTransfer | references/reference.c:445-448 | so do SHLD, LHLD, STA and LDA |
| RefSpec.Transfer | references/reference.c:355-450 | so does every case under MOVE, LOAD, AND STORE |
| RefSpec.IncDec | references/reference.c:521-537 | INR and DCR keep the ROM, the balance, the interrupt state, PC and SP, and A unless A is the operand |
| RefSpec.IncDecResult | references/reference.c:281-282 | INR and DCR keep the carry and leave the register plus or minus one in the register and in RES; on M in the ROM the memory is unchanged and RES takes the old byte |
| RefSpec.AddSubLogical | references/reference.c:548-641 | the ALU cases change only A, RES, aux and PC |
| RefSpec.IncrementDecrement | references/reference.c:520-573 | INR, DCR, INX, DCX and DAD keep the ROM, the balance and the interrupt state |
| RefSpec.Rotate | references/reference.c:646-649 | the rotations change only A and RES |
| RefSpec.Specials | references/reference.c:653-663 | DAA, CMA, STC and CMC change only A, RES and aux |
| RefSpec.Arith | references/reference.c:520-663 | every arithmetic case keeps the ROM, the balance and the interrupt state |
| RefSpec.Push | references/reference.c:454-457 | PUSH keeps the ROM, the balance and the interrupt state |
| RefSpec.PopUndoesPush | references/reference.c:454-461 | POP of the pair just pushed restores the pair and SP |
| RefSpec.PopPswUndoesPushPsw | references/reference.c:457-462 | POP PSW right after PUSH PSW restores A, SP and aux, and every flag reads as before |
| RefSpec.Xthl | references/reference.c:464 | XTHL changes only HL and RAM |
| RefSpec.XthlSwaps | references/reference.c:464 | with the top of the stack in RAM, XTHL exchanges HL with the word there and keeps SP |
| RefSpec.XthlInRom | references/reference.c:464 | with the top of the stack in the ROM, the XOR sequence changes nothing |
| RefSpec.Stack | references/reference.c:453-466 | the stack cases keep the ROM, the balance and the interrupt state |
| RefSpec.Call | references/reference.c:275 | CALL keeps the ROM and the balance |
| RefSpec.Ccon | references/reference.c:276 | CCON charges six cycles and keeps the ROM |
| RefSpec.CallIf | references/reference.c:492-499 | a conditional call keeps the ROM |
| RefSpec.Rcon | references/reference.c:278 | RCON charges six cycles and changes no memory |
| RefSpec.Rst | references/reference.c:279 | RST x sets PC to 8x and keeps the ROM and the balance |
| RefSpec.CallThenRet | references/reference.c:275-277 | RET after CALL returns after the operand with SP restored |
| RefSpec.RstPushesPc | references/reference.c:279 | RST pushes the address of the next instruction |
| RefSpec.ConditionalCosts | references/reference.c:492-512 | conditional calls and returns charge six cycles only when taken; not taken, a call only skips its operand and a return does nothing |
| RefSpec.Jumps | references/reference.c:474-486 | the jumps change only PC |
| RefSpec.Calls | references/reference.c:489-517 | CALL, conditional calls and RST keep the ROM and the interrupt state and never add to the balance |
| RefSpec.Returns | references/reference.c:502-512 | the returns change no memory and never add to the balance |
| RefSpec.Branch | references/reference.c:474-517 | every branch keeps the ROM and the interrupt state and never adds to the balance |
| RefSpec.Interrupt | references/reference.c:332-340 | `interrupt` keeps the ROM and never adds to the balance |
| RefSpec.InterruptTaken | references/reference.c:332-337 | an enabled interrupt charges 11 cycles, disables interrupts, clears the latch and jumps to 8i with the old PC on the stack |
| RefSpec.InterruptLatched | references/reference.c:339 | a disabled interrupt only latches 0x80 \| i |
| RefSpec.Ei | references/reference.c:673 | EI keeps the ROM and never adds to the balance |
| RefSpec.EiDeliversLatched | references/reference.c:332-340 | an interrupt latched while disabled is delivered by the next EI as if it had arrived enabled |
| RefSpec.EiWithoutPending | references/reference.c:673 | with nothing pending, EI only enables interrupts |
| RefSpec.Control | references/reference.c:666-677 | I/O, DI, EI, NOP and HLT keep the ROM; HLT empties the balance; an opcode with no case changes nothing |
| RefSpec.ExecCharges | references/reference.c:354-678 | no case of the switch writes the ROM or adds to the balance; HLT empties it; an opcode with no case changes nothing |
| RefSpec.StepIs | references/reference.c:351-354 | a pass of the loop fetches the opcode, steps PC, charges `lut_cycles` and runs the case |
| RefSpec.StepCharges | references/reference.c:349-352 | a pass keeps the ROM and lowers a positive balance, unless the opcode is a free undocumented one that only steps PC |
| RefSpec.AlternateSkipped | references/reference.c:677 | an undocumented encoding only steps PC |
| RefSpec.Exec | references/reference.c:354-678 | the switch on the decoded instruction; `ExecCharges` and the case lemmas of `RefSpec` state its effects |
| RefSpec.Step | references/reference.c:351-678 | one pass of the loop of `cpu_run`; `StepIs`, `StepCharges` and `AlternateSkipped` state what it does |
| RefSpec.HltEmptiesBalance | references/reference.c:675 | HLT leaves a balance of 0, so `cpu_run` returns after it |
| RefSpec.DistanceShrinks | references/reference.c:351 | stepping PC, wrapping at 0x10000, brings it one address closer to any other address |
| RefSpec.StepProgress | references/reference.c:349-352 | each pass lowers the balance or, on a free opcode, brings PC closer to a costly ROM byte, which stays in place |
| RefSpec.Run | references/reference.c:349-688 | the loop ends with a balance of at most 0 and the ROM unchanged, and does nothing when the balance is already at most 0 |
| RefSpec.CpuRun | references/reference.c:343-689 | `cpu_run` adds the budget to the carried-over balance and ends with a balance of at most 0, so any overshoot is carried into the next call |
| Reference.Cpu.constructor | references/reference.c:775-781 | the start-up code gives the state `RefSpec.Init` describes |
| Reference.Cpu.FillParity | references/reference.c:782 | the loop fills `lut_parity` with 4 for each even-parity index and 0 for each odd one |
| Reference.Cpu.Read16 | references/reference.c:270 | R16 |
| Reference.Cpu.W8 | references/reference.c:271 | W8, as `RefSpec.W8` says |
| Reference.Cpu.GetReg | references/reference.c:240-247 | reads a register, or R8 of HL |
| Reference.Cpu.SetReg | references/reference.c:356-426 | assigns a register, or W8 at HL |
| Reference.Cpu.GetPair | references/reference.c:248-257 | reads BC, DE, HL or SP |
| Reference.Cpu.SetPair | references/reference.c:437-439 | assigns one pair |
| Reference.Cpu.Cond | references/reference.c:260-267 | the condition tests, with parity from `lut_parity` |
| Reference.Cpu.Push16 | references/reference.c:272 | PUSH16 |
| Reference.Cpu.Pop16 | references/reference.c:273 | POP16 |
| Reference.Cpu.Add | references/reference.c:284 | ADD, as `RefDefs.Add` says |
| Reference.Cpu.Adc | references/reference.c:285 | ADC, as `RefDefs.Adc` says |
| Reference.Cpu.Sub | references/reference.c:288 | SUB, as `RefDefs.Sub` says |
| Reference.Cpu.Sbb | references/reference.c:289 | SBB, as `RefDefs.Sbb` says |
| Reference.Cpu.Cmp | references/reference.c:287 | CMP, as `RefDefs.Cmp` says |
| Reference.Cpu.AluApply | references/reference.c:284-292 | the eight ALU macros |
| Reference.Cpu.Daa | references/reference.c:657-663 | DAA, as `RefDefs.Daa` computes and `RefDefs.DaaResult` states: A adjusted in two steps, the old carry kept or the second addition's carry added, aux kept or set by a low nibble above 9 |
| Reference.Cpu.IncDec | references/reference.c:521-537 | INR and DCR, as `RefSpec.IncDec` says |
| Reference.Cpu.Mov | references/reference.c:356-426 | MOV |
| Reference.Cpu.Mvi | references/reference.c:428-435 | MVI |
| Reference.Cpu.Lxi | references/reference.c:437-439 | LXI |
| Reference.Cpu.Stax | references/reference.c:441-442 | STAX |
| Reference.Cpu.Ldax | references/reference.c:443-444 | LDAX |
| Reference.Cpu.Shld | references/reference.c:445 | SHLD, reading the operand again for the second store |
| Reference.Cpu.Lhld | references/reference.c:446 | LHLD |
| Reference.Cpu.Sta | references/reference.c:447 | STA |
| Reference.Cpu.Lda | references/reference.c:448 | LDA |
| Reference.Cpu.Moves | references/reference.c:356-450 | NOP, MOV, MVI, LXI and XCHG, as `RefSpec.Moves` says |
| Reference.Cpu.PairTransfer | references/reference.c:441-444 | STAX and LDAX |
| Reference.Cpu.DirectTransfer | references/reference.c:445-448 | SHLD, LHLD, STA and LDA |
| Reference.Cpu.Transfer | references/reference.c:355-450 | the MOVE, LOAD, AND STORE cases |
| Reference.Cpu.AluReg | references/reference.c:549-641 | the ALU cases on a register or M |
| Reference.Cpu.AluImm | references/reference.c:567-641 | the ALU cases on the immediate byte |
| Reference.Cpu.Inx | references/reference.c:539-541 | INX |
| Reference.Cpu.Dcx | references/reference.c:543-545 | DCX |
| Reference.Cpu.Dad | references/reference.c:570-573 | DAD |
| Reference.Cpu.Rlc | references/reference.c:646 | RLC, as `RefDefs.Rlc` says |
| Reference.Cpu.Rrc | references/reference.c:647 | RRC, as `RefDefs.Rrc` says |
| Reference.Cpu.Ral | references/reference.c:648 | RAL, as `RefDefs.Ral` says |
| Reference.Cpu.Rar | references/reference.c:649 | RAR, as `RefDefs.Rar` says |
| Reference.Cpu.Cma | references/reference.c:653 | CMA |
| Reference.Cpu.Stc | references/reference.c:654 | STC |
| Reference.Cpu.Cmc | references/reference.c:655 | CMC |
| Reference.Cpu.AddSubLogical | references/reference.c:548-641 | the ADD, SUBTRACT and LOGICAL cases |
| Reference.Cpu.IncrementDecrement | references/reference.c:520-545 | the INCREMENT AND DECREMENT cases and DAD |
| Reference.Cpu.Rotate | references/reference.c:645-649 | the ROTATE cases |
| Reference.Cpu.Specials | references/reference.c:652-663 | the SPECIALS cases |
| Reference.Cpu.Arith | references/reference.c:520-663 | every arithmetic case, as `RefSpec.Arith` says |
| Reference.Cpu.PushPsw | references/reference.c:457 | F rebuilt from RES, `lut_parity` and aux, then PSW pushed |
| Reference.Cpu.PopPsw | references/reference.c:462 | PSW popped, then RES and aux rebuilt from F |
| Reference.Cpu.Push | references/reference.c:454-457 | PUSH |
| Reference.Cpu.Pop | references/reference.c:459-462 | POP |
| Reference.Cpu.Xthl | references/reference.c:464 | XTHL, by the effect of its XOR sequence |
| Reference.Cpu.Stack | references/reference.c:453-466 | the STACK OPS cases |
| Reference.Cpu.Jmp | references/reference.c:274-275 | JUMP |
| Reference.Cpu.JumpIf | references/reference.c:477-484 | the conditional jumps |
| Reference.Cpu.Call | references/reference.c:275 | CALL |
| Reference.Cpu.Ccon | references/reference.c:276 | CCON |
| Reference.Cpu.CallIf | references/reference.c:492-499 | the conditional calls |
| Reference.Cpu.Ret | references/reference.c:277 | RET |
| Reference.Cpu.Rcon | references/reference.c:278 | RCON |
| Reference.Cpu.RetIf | references/reference.c:505-512 | the conditional returns |
| Reference.Cpu.Rst | references/reference.c:279 | RST |
| Reference.Cpu.Jumps | references/reference.c:474-486 | the JUMP cases |
| Reference.Cpu.Calls | references/reference.c:489-517 | the CALL and RESTART cases |
| Reference.Cpu.Returns | references/reference.c:502-512 | the RETURN cases |
| Reference.Cpu.Branch | references/reference.c:474-517 | every branch, as `RefSpec.Branch` says |
| Reference.Cpu.Interrupt | references/reference.c:332-340 | `interrupt`, as `RefSpec.Interrupt` says |
| Reference.Cpu.InPort | references/reference.c:302-315 | `in_port`, as `RefDefs.InPort` says |
| Reference.Cpu.OutPort | references/reference.c:317-329 | `out_port` changes only the shift register and offset, as `RefDefs.OutPort` says |
| Reference.Cpu.Control | references/reference.c:666-677 | the INPUT/OUTPUT and CONTROL cases and the default |
| Reference.Cpu.Exec | references/reference.c:354-678 | the switch, as `RefSpec.Exec` says |
| Reference.Cpu.Step | references/reference.c:351-678 | one pass of the loop, as `RefSpec.Step` says |
| Reference.Cpu.CpuRun | references/reference.c:343-689 | `cpu_run` ends in the state `RefSpec.CpuRun` gives, with a balance of at most 0 |
| Agreement.LocationsAgree | references/reference.c:269 | R8 and W8 fold every address onto the same byte as `MEM_LOC` in 8080e.c |
| Agreement.ParityAgrees | references/reference.c:782 | `lut_parity[i]` is nonzero exactly when `parity(i)` of 8080e.c is true |
| Agreement.ShiftInAgrees | references/reference.c:309 | IN 3 reads the same byte in both cores for every offset 0..7 |
| Agreement.ShiftOutAgrees | references/reference.c:323 | OUT 4 shifts the same way in both cores |
| Agreement.DaaAgrees | references/reference.c:657-663 | with the same carry and aux flags, both cores leave the same accumulator after DAA; the reference's carry is set iff the carry was set before or 8080e's carry is set |
| Agreement.DaaCarriesDiffer | references/reference.c:657-663 | with C set and AC clear, DAA of 0x0A gives 0x10 and DAA of 0x20 gives 0x80 in both cores; the reference keeps the carry and 8080e clears it |
| Agreement.NotTaken | 8080e.c:1145-1152 | each table entry of 8080e.c, with the marked conditional costs replaced by their not-taken cost |
| Agreement.LowTablesDiffer | references/reference.c:170-174 | the first four lines of the two tables differ only in the undocumented encodings 0x08-0x38, which the reference charges nothing |
| Agreement.MiddleTablesAgree | references/reference.c:175-182 | lines 4 to 0xB of the two tables are equal |
| Agreement.HighTablesDiffer | references/reference.c:183-184 | lines 0xC and 0xD hold the not-taken costs, and nothing for 0xCB, 0xD9 and 0xDD |
| Agreement.TopTablesDiffer | references/reference.c:185-186 | lines 0xE and 0xF hold the not-taken costs, nothing for 0xED and 0xFD, and 18, 5 and 4 for XTHL, PCHL and XCHG where 8080e.c charges 10 |

## Left out

- File loading (`init_program`, `loadrom`) is left out: the program image is a parameter. The `posix_memalign`/`mprotect` mechanics become an explicit ROM check that reports a memory fault. The mirror half of the allocation is never reached, because `MEM_LOC` stays below 0x4000.
- The Win32 shell of `references/reference.c` is left out: `WndProc`, `WinMain`, `vblank`, `GetAsyncKeyState` and the timer. So are `main.c` and its OpenGL drawing and pacing, and the DEBUG/PROFILE tables and output. The cabinet inputs are fields that the caller sets between runs.
- The tracing in `8080e.c` is left out: `TRACE`, `print_stack`, and the counters `count`, `total_cycles` and `stop`.
- Emu8080e.Machine.Execute: does not model the breakpoint at 8080e.c:1187-1193, which makes `execute` return -1 once PC reaches 0x05F3; that is a debugging aid, not emulation.
- The sound ports OUT 3, 5 and 6 accept a byte and do nothing, so there is nothing to model.
- Reference.Cpu.Xthl: `references/reference.c` swaps HL with the stack word through three XORs per byte, and swaps HL and DE the same way. The model swaps the bytes directly. That has the same effect on every input, including a stack byte in the ROM: W8 ignores the write there, so the register keeps its value. RefSpec.XthlInRom states that case.
- RefSpec.CpuRun and RefSpec.Run: `cpu.cycles` is a C `int`; the model keeps the balance unbounded and does not model an overflow.
- RefSpec.Run, RefSpec.CpuRun and Reference.Cpu.CpuRun: require one ROM byte whose cost is not zero. Without one, memory filled with free undocumented opcodes would make `cpu_run` loop forever, which a terminating function cannot express. The Space Invaders ROM satisfies the condition.
- RefSpec.Interrupt and Reference.Cpu.Interrupt: take interrupt numbers 0..0x7F, so that `0x80 | i` fits the `unsigned char` latch; the callers pass 1 and 2.
- Emu8080eSpec.Step and Emu8080e.Machine.ExecuteOne: require a program size of at most 0x2000, which `init_program` guarantees by refusing larger files.
- Agreement.DaaAgrees: compares the accumulator and the carry after DAA, not the aux flag. 8080e.c takes AC from bit 4 toggled by the last addition, and the reference from FAUX of the first; the two differ in value, not just in representation.
