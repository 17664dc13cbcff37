# LS-8 CPU emulator core in Dafny

This project models the core of an LS-8 emulator written in C (`ls8/cpu.c`,
`ls8/cpu.h`). The LS-8 is an 8-bit computer with these parts:

- 256 bytes of RAM;
- eight 8-bit registers R0..R7, with R7 serving as the stack pointer (SP);
- an 8-bit program counter (PC);
- a flags byte FL whose bits are `00000LGE`.

Its instructions are one opcode byte followed by zero, one or two operand
bytes. Bits 7 and 6 of the opcode say how many operand bytes follow.

The model is written at two levels.

- **`Machine`**, in `machine.dfy`: the CPU record as a value (`State`),
  together with one function for each routine of `cpu.c`. These are
  `RamWrite`, `StackPush`, `StackPop`, `Call`, `Ret`, `AluStep` (the `alu`
  switch), `Step` (one pass of the `cpu_run` loop), `Run`, `Reset`
  (`cpu_init`) and `Load` (the effect of `cpu_load`).
  - `Step` fetches the opcode and reads as many operands as its bits
    announce. It dispatches through `Execute`, which splits the cases into
    `ExecuteBasic`, `ExecuteAlu`, `ExecuteMod` and `Transfer`. It reports
    how the step ended as an `Outcome`:
    - running;
    - halted;
    - unrecognised opcode, with the byte and its address;
    - a register operand of 8 or more, which is an out-of-bounds index in C;
    - MOD by zero, which only the MOD case as written can reach.
  - `Run` is the loop cut off after `fuel` passes. It is the generic
    `Iterate` applied to `Step`.
- **`Ls8.Cpu`**, in `cpu.dfy`: the record as the C code has it. It is a class
  with `pc` and `fl` fields and `registers` and `ram` arrays, and its methods
  update them in place. Each method is proved to have exactly the effect of
  the matching `Machine` function on the abstract state `State()`. `Run` and
  `Load` are loops whose invariants tie them to `Machine.Run` and
  `Machine.Load`.

The other modules hold the supporting definitions and proofs.

- `Bits` (`bits.dfy`) holds bytes, powers of two and the C bitwise operators,
  defined bit by bit.
- `Opcodes` (`opcodes.dfy`) holds the opcode constants, the flag bits,
  decoding and instruction lengths.
- `Alu` (`alu.dfy`) holds the ALU operations on byte values.
- `MachineProperties` (`properties.dfy`) holds the lemmas about the machine:
  - the effect of each instruction;
  - the stack discipline;
  - CALL/RET;
  - the loop invariants for flags and output;
  - stopping;
  - initialisation and loading;
  - a small complete program.

Arithmetic follows C:

- Every register, memory cell, PC and FL is an `unsigned char`. Values are
  promoted to `int` for the computation and truncated modulo 256 when
  stored.
- So ADD and MUL wrap around.
- SP decrements from 0 to 255.
- PC plus an instruction length wraps around.
- The address counter of the loader is truncated to 8 bits.

## Model

| member | source | states |
|---|---|---|
| `Ls8.Cpu.constructor` | ls8/cpu.h:5-27 | The record has exactly 8 registers and 256 RAM cells, in separate storage, and nothing printed yet |
| `Ls8.Cpu.Init` | ls8/cpu.c:300-314 | After `cpu_init` the state is `Machine.Reset` of the old one: PC = FL = 0, all of RAM 0, all registers 0 except SP = 0xF4 |
| `Ls8.Cpu.RamRead` | ls8/cpu.c:9-12 | Returns the RAM cell at the address and changes nothing |
| `Ls8.Cpu.RamWrite` | ls8/cpu.c:14-17 | Exactly one RAM cell changes, to the value written |
| `Ls8.Cpu.StackPush` | ls8/cpu.c:20-25 | SP becomes SP - 1 modulo 256 and the value is stored at the new SP; nothing else changes |
| `Ls8.Cpu.StackPop` | ls8/cpu.c:28-33 | Returns the cell at SP, zeroes that cell and sets SP to SP + 1 modulo 256 |
| `Ls8.Cpu.Call` | ls8/cpu.c:36-39 | Pushes PC + `nextInst` truncated to 8 bits |
| `Ls8.Cpu.Ret` | ls8/cpu.c:42-45 | Pops the return address into PC and returns it |
| `Ls8.Cpu.Alu` | ls8/cpu.c:87-146 | Each ALU operation updates register A (the flags, for CMP) as `Machine.AluStep` does, with results truncated to 8 bits |
| `Ls8.Cpu.Step` | ls8/cpu.c:159-293 | One loop pass: fetch at PC, read the operands bits 7 and 6 announce, dispatch on the exact byte, and report how the pass ended; equals `Machine.Step` |
| `Ls8.Cpu.Execute` | ls8/cpu.c:182-291 | The `switch (IR)` on a recognised instruction equals `Machine.Execute`; MOD runs the corrected guard, see Findings |
| `Ls8.Cpu.ExecuteBasic` | ls8/cpu.c:185-293 | LDI, PRN, NOT, PUSH, POP and HLT do their case of the switch, then PC advances by the instruction length |
| `Ls8.Cpu.ExecuteAlu` | ls8/cpu.c:194-231 | The two-register ALU instructions call `alu` with both operands, then PC advances |
| `Ls8.Cpu.ExecuteMod` | ls8/cpu.c:233-240 | MOD with its guard corrected: when register B holds 0 the instruction is skipped and PC advances; otherwise register A gets A % B (see Findings) |
| `Ls8.Cpu.Transfer` | ls8/cpu.c:250-280 | CALL, RET, JMP, JEQ and JNE set PC themselves and skip the advance, except a JEQ or JNE whose condition fails |
| `Ls8.Cpu.Run` | ls8/cpu.c:151-295 | The loop repeats `Step` while running; with `fuel` passes it ends in the same state and outcome as `Machine.Run`; MOD runs the corrected guard, see Findings |
| `Ls8.Cpu.Load` | ls8/cpu.c:52-82 | Writing the program bytes in order at addresses 0, 1, ... (truncated to 8 bits) gives `Machine.Load` |
| `Opcodes.Decode` | ls8/cpu.c:182-291 | A byte decodes to an instruction only if that instruction's opcode is that byte |
| `Opcodes.DecodeOpcode` | ls8/cpu.h:42-57 | Every instruction's opcode decodes back to that instruction |
| `Opcodes.UnknownIffNoOpcode` | ls8/cpu.c:287-290 | A byte falls to the default case exactly when it is no instruction's opcode |
| `Opcodes.OpcodesDistinct` | ls8/cpu.h:42-57 | Distinct instructions have distinct opcodes, so the switch is unambiguous |
| `Opcodes.ArityConvention` | ls8/cpu.c:168-178 | For every instruction, the operand count that bits 7 and 6 of its opcode announce agrees with the instruction's operand table `Operands`, and the length is that count plus 1; `ExecuteIgnoresB` and `ExecuteIgnoresOperands` tie the table to what the dispatch reads |
| `Opcodes.OperandCount` | ls8/cpu.c:166-178 | The operand count read off bits 7 and 6 is at most 2; `ArityConvention` relates it to every opcode |
| `Opcodes.Length` | ls8/cpu.c:166-178 | `next_inst` is 1, 2 or 3 bytes |
| `Opcodes.FlagLayout` | ls8/cpu.h:14-18 | E, G and L are bits 0, 1 and 2 of FL, one bit each |
| `Alu.Apply` | ls8/cpu.c:142-144 | A MOD result is below the divisor |
| `Alu.Compare` | ls8/cpu.c:101-116 | CMP's new FL is one of E, G or L; `CompareFlags` states which one |
| `Alu.ShiftRight` | ls8/cpu.c:138-140 | `a >> b` never exceeds `a`; `ShiftRightDivides` proves it is a / 2^b |
| `Alu.CompareFlags` | ls8/cpu.c:101-116 | CMP sets exactly one flag bit: E iff equal, G iff greater, L iff less |
| `Alu.LogicIsBitwise` | ls8/cpu.c:118-128 | AND, OR and XOR give at every bit position the AND, OR or XOR of the operands' bits |
| `Alu.NotIsBitwise` | ls8/cpu.c:130-132 | NOT flips each of the low eight bits, that is gives 255 - A, and ignores register B |
| `Alu.ShiftsPastWidth` | ls8/cpu.c:134-140 | Shifting left or right by 8 or more places leaves 0 once truncated to 8 bits |
| `Alu.ShiftRightDivides` | ls8/cpu.c:138-140 | `a >> b` equals a divided by 2^b, rounded down |
| `Bits.BitwiseBit` | ls8/cpu.c:118-132 | Each bit below the width of a bitwise result is the operator applied to the operand bits there |
| `Bits.BitwiseExact` | ls8/cpu.c:118-128 | For AND, OR and XOR, truncation to 8 bits loses no bit at all, at any position |
| `Bits.NotIsComplement` | ls8/cpu.c:130-132 | `~x` truncated to w bits equals 2^w - 1 - x |
| `Machine.Step` | ls8/cpu.c:159-293 | One pass yields a valid state, and reports an unrecognised opcode exactly when the byte at PC decodes to no instruction; the `Step…` lemmas give each instruction's effect |
| `Machine.Execute` | ls8/cpu.c:182-291 | A recognised instruction yields a valid state, is never reported unrecognised and, with the corrected MOD, never divides by zero |
| `Machine.ExecuteBasic` | ls8/cpu.c:185-293 | Of LDI, PRN, NOT, PUSH, POP and HLT exactly HLT halts; the others run on or fault on their register operand A |
| `Machine.Transfer` | ls8/cpu.c:250-280 | CALL, RET, JMP, JEQ and JNE never halt or print and never change FL; they only run on or fault on register operand A |
| `Machine.ExecuteModAsWritten` | ls8/cpu.c:233-240 | MOD as written stops with a division by zero exactly when register A is valid and R0 holds 0, and a stop leaves the state unchanged; `ModAsWritten` gives the full effect |
| `Machine.Run` | ls8/cpu.c:151-295 | The loop keeps the state valid; `RunKeepsFlags`, `RunAppends` and `RunStopped` state what it preserves and when it has ended; MOD runs the corrected guard, see Findings |
| `Machine.Reset` | ls8/cpu.c:300-314 | `cpu_init` yields a valid state; `ResetStopsAtOnce` shows all-zero RAM stops the first pass |
| `Machine.Load` | ls8/cpu.c:52-82 | Loading changes only RAM: PC, FL, the registers and the output are as before; `LoadPlacesImage` gives where the bytes go |
| `MachineProperties.ExecuteIgnoresB` | ls8/cpu.c:163-178 | An instruction announcing fewer than two operands has the same effect whatever operand B holds, so the uninitialised `operandB` of C does not matter |
| `MachineProperties.ExecuteIgnoresOperands` | ls8/cpu.c:163-178 | An instruction announcing no operands has the same effect whatever both operands hold |
| `MachineProperties.PushThenPop` | ls8/cpu.c:20-33 | A pop right after a push returns the pushed value and restores every register; the used cell is left 0 |
| `MachineProperties.StackIsLifo` | ls8/cpu.c:20-33 | Two pushes come back in reverse order and SP returns to where it was |
| `MachineProperties.StepLdi` | ls8/cpu.c:185-187 | LDI stores operand B itself in register A, changes nothing else and advances PC by 3 |
| `MachineProperties.StepPrn` | ls8/cpu.c:190-192 | PRN appends register A to the output, changes nothing else and advances PC by 2 |
| `MachineProperties.StepAddMul` | ls8/cpu.c:195-202 | ADD and MUL store the sum or product modulo 256 in register A, with flags, RAM, output and other registers unchanged |
| `MachineProperties.StepAlu` | ls8/cpu.c:194-231 | Every two-register ALU instruction writes `Alu.Apply` of the two register values to register A (CMP writes the flags instead), changes nothing else and advances PC by 3 |
| `MachineProperties.StepCmp` | ls8/cpu.c:204-207 | CMP sets FL to E, G or L exactly according to the order of the two registers and keeps every register |
| `MachineProperties.StepNot` | ls8/cpu.c:221-223 | NOT, a one-operand instruction, replaces register A by 255 - A and advances PC by 2 |
| `MachineProperties.ModAsWritten` | ls8/cpu.c:233-240 | MOD as written divides register A by R0 whatever operand B is; R0 = 0 stops the machine with no effect |
| `MachineProperties.ModGuardAssigns` | ls8/cpu.c:234 | With R0 = 2, R1 = 7, R2 = 0, `MOD R1,R2` as written stores 1 in R1, while the corrected case skips the instruction and only advances PC |
| `MachineProperties.StepMod` | ls8/cpu.c:233-240 | MOD (corrected) never divides by zero: with register B = 0 only PC advances; otherwise register A gets A % B, which is below B |
| `MachineProperties.StepPush` | ls8/cpu.c:242-244 | PUSH decrements SP modulo 256 and stores register A there; nothing else but PC changes |
| `MachineProperties.StepPop` | ls8/cpu.c:246-248 | POP copies the cell at SP into register A, zeroes it and increments SP; the register write comes last |
| `MachineProperties.StepAdvances` | ls8/cpu.c:292-293 | An instruction that does not take control, unknown bytes and HLT included, moves PC on by its length modulo 256 unless it faults |
| `MachineProperties.StepUnrecognised` | ls8/cpu.c:287-290 | An unknown byte stops the loop, reports the byte and PC, and otherwise only advances PC |
| `MachineProperties.StepJump` | ls8/cpu.c:259-280 | JMP always jumps to register A; JEQ jumps exactly when FL = 1 and JNE exactly when FL != 1; a jump not taken advances PC by 2; only PC changes |
| `MachineProperties.EqualTestIsEBit` | ls8/cpu.c:264-275 | On flags CMP can produce, the test FL == 1 is the same as testing the E bit |
| `MachineProperties.CallThenRet` | ls8/cpu.c:250-257 | CALL pushes PC + 2 and jumps to register A read after the push; a RET there returns to PC + 2 with every register restored |
| `MachineProperties.ExecuteFlags` | ls8/cpu.c:101-116 | Only CMP on two valid registers writes FL, and it writes their comparison |
| `MachineProperties.StepKeepsFlags` | ls8/cpu.c:182-293 | A step keeps FL one of 0, E, G or L |
| `MachineProperties.RunKeepsFlags` | ls8/cpu.c:151-295 | However long the loop runs, FL stays one of 0, E, G or L |
| `MachineProperties.ExecuteOutput` | ls8/cpu.c:190-192 | Only PRN on a valid register prints, and it prints that register |
| `MachineProperties.StepAppends` | ls8/cpu.c:182-293 | A step prints at most one value and never changes what was printed |
| `MachineProperties.RunAppends` | ls8/cpu.c:151-295 | The output of any run begins with the output from before the run |
| `MachineProperties.RunStopped` | ls8/cpu.c:153-155 | Once the loop has stopped, more fuel gives the same result |
| `MachineProperties.IterateKeeps` | ls8/cpu.c:155-294 | A property that every pass keeps holds after any number of passes |
| `MachineProperties.IterateStopped` | ls8/cpu.c:153-155 | A loop that stopped within `fuel` passes ends the same with any larger fuel |
| `MachineProperties.ResetStopsAtOnce` | ls8/cpu.c:300-314 | On a freshly initialised machine, byte 0 at address 0 is unknown, so the first pass stops with PC = 1 |
| `MachineProperties.LoadPlacesImage` | ls8/cpu.c:66-79 | An image of at most 256 bytes ends up at addresses 0.. in order, and nothing else changes |
| `MachineProperties.PrintFiveProgram` | ls8/cpu.c:151-295 | `LDI R0,5; PRN R0; HLT`, loaded into an initialised machine, halts after three passes with output 5, R0 = 5 and PC = 6 |
| `MachineProperties.RunPrintFive` | ls8/cpu.c:185-192 | The three passes of that program from address 0 |
| `MachineProperties.PrintThenHalt` | ls8/cpu.c:283-285 | `PRN R0; HLT` prints R0, then halts with PC past the HLT byte |

## Left out

- Reading the program file is not modelled. That covers `fopen`, `fgets`,
  parsing each line with `strtoul` in base 2, skipping lines with no digits,
  and the error message for a missing file. The conversion of each parsed
  `strtoul` result to an `unsigned char` is part of that parse and is not
  modelled. `Load` takes the already converted bytes as a sequence.
- `main` and command-line handling in `ls8/ls8.c` are not part of this model.
- Printing is modelled as appending the value to `output`. The `printf`
  formatting is not modelled, and neither are the messages for unknown
  opcodes and for MOD by zero. An unknown opcode is reported as an
  `Outcome` carrying the byte and its address.
- `cpu_run` may never terminate. `Run` carries a `fuel` bound on the number
  of passes, and a run that is still going when the fuel is spent reports
  `Running`.
- The header defines only LDI, HLT, PRN, MUL, ADD, PUSH, POP, CALL and RET.
  `cpu.c` also uses CMP, AND, OR, XOR, NOT, SHL, SHR, MOD, JMP, JEQ and JNE,
  and `enum alu_op` names only `ALU_MUL` and `ALU_ADD`. So the source as
  it stands does not compile. For the missing opcodes the model uses the
  standard LS-8 values: CMP 0xA7, AND 0xA8, OR 0xAA, XOR 0xAB, NOT 0x69,
  SHL 0xAC, SHR 0xAD, MOD 0xA4, JMP 0x54, JEQ 0x55, JNE 0x56.
- The operand variables are uninitialised in C when the opcode announces
  fewer operands. The model reads them as 0. No instruction uses an operand
  its opcode does not announce (`MachineProperties.ExecuteIgnoresB` and
  `MachineProperties.ExecuteIgnoresOperands`, with `Opcodes.ArityConvention`
  tying the announced count to the operand table), so the value chosen does
  not matter.
- A register operand of 8 or more indexes past `registers[8]`, which is
  undefined behaviour in C. The model stops with `BadRegister` in the state
  reached just before the access, rather than guessing at the neighbouring
  memory.
- `Machine.Step`, `Machine.Execute`, `Machine.Run`, `Ls8.Cpu.Step`,
  `Ls8.Cpu.Execute` and `Ls8.Cpu.Run` execute MOD with the
  corrected guard (see Findings), not as written. They differ from the C
  code whenever register B and R0 differ. For example, with R0 = 2, R1 = 7
  and R2 = 0, `MOD R1,R2` leaves R1 = 7 in the model, but the C code stores 1.
  No step can end in `DivideByZero`. In the code as written, R0 = 0 makes
  MOD divide by zero, which is undefined behaviour in C. Only
  `Machine.ExecuteModAsWritten` models that case, and it stops with
  `DivideByZero` and no effect.
- `Alu.Apply`: shifts by 32 or more places are undefined in C. So is a
  left shift that overflows `int`. The model gives the mathematical result
  truncated to 8 bits, which is 0 for every shift of 8 or more places.
- `Ls8.Cpu.Alu` requires register indexes below 8 and, for MOD, a nonzero
  divisor, because C leaves both cases undefined. `Alu.Apply` likewise
  requires a nonzero divisor. The only callers are the model's dispatch cases
  (`Machine.ExecuteAlu`, `Machine.ExecuteMod`,
  `Machine.ExecuteModAsWritten`, `Machine.ExecuteBasic` and the `Ls8.Cpu`
  dispatch methods), which check both conditions before calling the
  ALU. The C code passes the indexes to `alu` unchecked.
- The interrupt registers R5 (IM) and R6 (IS) are named in the header but
  never used by the code, so they are ordinary registers here.

## Findings

| source | as written | input that shows it | evidently intended | confidence | as-written member | corrected member |
|---|---|---|---|---|---|---|
| ls8/cpu.c:234 | `if (operandB = 0)` assigns 0 to operand B and is never true, so MOD always divides by register R0, and R0 = 0 divides by zero | R0 = 2, R1 = 7, R2 = 0, `MOD R1,R2`: R1 becomes 7 % 2 = 1 instead of the instruction being skipped | test whether register B holds 0; if so, report the error and carry on without dividing; otherwise divide by register B | not executed | `MachineProperties.ModGuardAssigns` | `MachineProperties.StepMod` |

`Machine.ExecuteModAsWritten` is the MOD case as written, and
`MachineProperties.ModAsWritten` states its effect. `Machine.ExecuteMod` is
the corrected case, and `Machine.Step` and `Ls8.Cpu.ExecuteMod` use it. The
error message says "attempt to divide by zero", so the guard was meant to
test the divisor, that is the value in register B. The `break` in the guard
leaves the switch, so PC still advances past the instruction.
