/**
 * The LS-8 CPU as the C code has it: one mutable record whose program
 * counter, flags, register file and RAM the routines update in place. Each
 * method is proved to have exactly the effect of the matching function of
 * module `Machine` on the abstract state `State()`.
 */
module Ls8 {
  import opened Bits
  import Op = Opcodes
  import opened Alu
  import M = Machine

  class Cpu {
    var pc: Byte
    var fl: Byte
    const registers: array<Byte>
    const ram: array<Byte>
    /** Values printed by PRN, oldest first (stands for standard output). */
    var output: seq<Byte>

    ghost predicate Valid()
      reads this
    {
      registers.Length == 8 && ram.Length == 256 && registers != ram
    }

    /** The record's contents as a `Machine.State`. */
    ghost function State(): (s: M.State)
      reads this, registers, ram
      ensures Valid() ==> s.Valid()
    {
      M.State(pc, fl, registers[..], ram[..], output)
    }

    /** Storage for a machine, contents not yet initialised. */
    constructor ()
      ensures Valid() && fresh(registers) && fresh(ram) && output == []
    {
      registers := new Byte[8];
      ram := new Byte[256];
      pc, fl, output := 0, 0, [];
    }

    /** `cpu_init`: clear PC, FL, registers and RAM, then set SP to 0xF4. */
    method Init()
      requires Valid()
      modifies this, registers, ram
      ensures Valid() && State() == M.Reset(old(State()))
    {
      pc := 0;
      fl := 0;
      forall i | 0 <= i < registers.Length {
        registers[i] := 0;
      }
      forall i | 0 <= i < ram.Length {
        ram[i] := 0;
      }
      registers[M.SP] := M.STACK_START;
      assert registers[..] == M.InitialRegisters();
      assert ram[..] == seq(256, _ => 0);
    }

    /** `cpu_ram_read`. */
    method RamRead(address: Byte) returns (value: Byte)
      requires Valid()
      ensures value == State().ram[address]
    {
      value := ram[address];
    }

    /** `cpu_ram_write`. */
    method RamWrite(address: Byte, value: Byte)
      requires Valid()
      modifies ram
      ensures State() == M.RamWrite(old(State()), address, value)
    {
      ram[address] := value;
    }

    /** `stack_push`. */
    method StackPush(value: Byte)
      requires Valid()
      modifies registers, ram
      ensures State() == M.StackPush(old(State()), value)
    {
      registers[M.SP] := (registers[M.SP] as int - 1) % 256;
      RamWrite(registers[M.SP], value);
    }

    /** `stack_pop`. */
    method StackPop() returns (popped: Byte)
      requires Valid()
      modifies registers, ram
      ensures (popped, State()) == M.StackPop(old(State()))
    {
      var sp := registers[M.SP];
      popped := ram[sp];
      ram[sp] := 0;
      registers[M.SP] := (sp as int + 1) % 256;
    }

    /** `call`: push the return address `nextInst` bytes past PC. */
    method Call(nextInst: nat)
      requires Valid()
      modifies registers, ram
      ensures State() == M.Call(old(State()), nextInst)
    {
      StackPush((pc + nextInst) % 256);
    }

    /** `ret`: pop the return address into PC and return it. */
    method Ret() returns (target: Byte)
      requires Valid()
      modifies this, registers, ram
      ensures State() == M.Ret(old(State())) && target == pc
    {
      target := StackPop();
      pc := target;
    }

    /** `alu`: apply `op` to registers `regA` and `regB`. */
    method Alu(op: AluOp, regA: Byte, regB: Byte)
      requires Valid() && regA < 8 && (op != AluNot ==> regB < 8)
      requires op == AluMod ==> registers[regB] != 0
      modifies this, registers
      ensures State() == M.AluStep(old(State()), op, regA, regB)
    {
      match op
      case AluMul =>
        registers[regA] := (registers[regA] as int * registers[regB]) % 256;
      case AluAdd =>
        registers[regA] := (registers[regA] as int + registers[regB]) % 256;
      case AluCmp =>
        if registers[regA] == registers[regB] {
          fl := Op.FL_E;
        } else if registers[regA] > registers[regB] {
          fl := Op.FL_G;
        } else {
          fl := Op.FL_L;
        }
      case AluAnd =>
        registers[regA] := Bitwise(BitAnd, registers[regA], registers[regB], 8);
      case AluOr =>
        registers[regA] := Bitwise(BitOr, registers[regA], registers[regB], 8);
      case AluXor =>
        registers[regA] := Bitwise(BitXor, registers[regA], registers[regB], 8);
      case AluNot =>
        registers[regA] := Bitwise(BitNot, registers[regA], 0, 8);
      case AluShl =>
        registers[regA] := (registers[regA] * Pow2(registers[regB])) % 256;
      case AluShr =>
        registers[regA] := ShiftRight(registers[regA], registers[regB]);
      case AluMod =>
        registers[regA] := registers[regA] % registers[regB];
    }

    /**
     * One pass of the `cpu_run` loop: fetch the opcode at PC, read as many
     * operands as its bits 7 and 6 announce (absent operands are 0), then
     * dispatch on the exact byte; an unknown byte stops the loop.
     */
    method Step() returns (outcome: M.Outcome)
      requires Valid()
      modifies this, registers, ram
      ensures Valid()
      ensures M.Step(old(State())) == M.Transition(State(), outcome)
    {
      var ir := RamRead(pc);
      var operandA: Byte, operandB: Byte := 0, 0;
      var nextInst := 1;
      if Bit(ir, 7) {
        operandA := RamRead((pc + 1) % 256);
        operandB := RamRead((pc + 2) % 256);
        nextInst := 3;
      } else if Bit(ir, 6) {
        operandA := RamRead((pc + 1) % 256);
        nextInst := 2;
      }
      match Op.Decode(ir) {
        case None =>
          outcome := M.Unrecognised(ir, pc);
          pc := (pc + nextInst) % 256;
        case Some(i) =>
          assert M.Step(State()) == M.Execute(State(), i, operandA, operandB, nextInst);
          outcome := Execute(i, operandA, operandB, nextInst);
      }
    }

    /**
     * The `switch (IR)` of `cpu_run` for a recognised instruction with
     * operands `operandA`, `operandB` and length `nextInst`.
     */
    method Execute(i: Op.Instruction, operandA: Byte, operandB: Byte, nextInst: nat) returns (outcome: M.Outcome)
      requires Valid()
      modifies this, registers, ram
      ensures Valid()
      ensures M.Execute(old(State()), i, operandA, operandB, nextInst) == M.Transition(State(), outcome)
    {
      if M.FallsThrough(i) {
        outcome := ExecuteBasic(i, operandA, operandB, nextInst);
      } else if M.TwoRegisterAlu(i) {
        outcome := ExecuteAlu(M.AluOperation(i), operandA, operandB, nextInst);
      } else if i == Op.Mod {
        outcome := ExecuteMod(operandA, operandB, nextInst);
      } else {
        outcome := Transfer(i, operandA, nextInst);
      }
    }

    /**
     * The cases that do not set PC themselves, followed by the PC advance
     * after the `switch`.
     */
    method ExecuteBasic(i: Op.Instruction, operandA: Byte, operandB: Byte, nextInst: nat) returns (outcome: M.Outcome)
      requires Valid() && M.FallsThrough(i)
      modifies this, registers, ram
      ensures Valid()
      ensures M.ExecuteBasic(old(State()), i, operandA, operandB, (old(pc) + nextInst) % 256)
        == M.Transition(State(), outcome)
    {
      outcome := M.Running;
      match i {
        case Ldi =>
          if operandA >= 8 { return M.BadRegister(operandA); }
          registers[operandA] := operandB;
        case Hlt =>
          outcome := M.Halted;
        case Prn =>
          if operandA >= 8 { return M.BadRegister(operandA); }
          output := output + [registers[operandA]];
        case Not =>
          if operandA >= 8 { return M.BadRegister(operandA); }
          Alu(AluNot, operandA, operandB);
        case Push =>
          if operandA >= 8 { return M.BadRegister(operandA); }
          StackPush(registers[operandA]);
        case Pop =>
          var popped := StackPop();
          if operandA >= 8 { return M.BadRegister(operandA); }
          registers[operandA] := popped;
      }
      ghost var executed := State();
      pc := (pc + nextInst) % 256;
      assert State() == executed.(pc := pc);
    }

    /** A two-register ALU instruction and the PC advance after it. */
    method ExecuteAlu(op: AluOp, operandA: Byte, operandB: Byte, nextInst: nat) returns (outcome: M.Outcome)
      requires Valid() && op != AluNot && op != AluMod
      modifies this, registers
      ensures Valid()
      ensures M.ExecuteAlu(old(State()), op, operandA, operandB, (old(pc) + nextInst) % 256)
        == M.Transition(State(), outcome)
    {
      if operandA >= 8 { return M.BadRegister(operandA); }
      if operandB >= 8 { return M.BadRegister(operandB); }
      Alu(op, operandA, operandB);
      ghost var computed := State();
      pc := (pc + nextInst) % 256;
      assert State() == computed.(pc := pc);
      outcome := M.Running;
    }

    /**
     * The MOD case with its guard testing register B, as evidently intended:
     * a zero divisor skips the instruction and the loop carries on.
     */
    method ExecuteMod(operandA: Byte, operandB: Byte, nextInst: nat) returns (outcome: M.Outcome)
      requires Valid()
      modifies this, registers
      ensures Valid()
      ensures M.ExecuteMod(old(State()), operandA, operandB, (old(pc) + nextInst) % 256) == M.Transition(State(), outcome)
    {
      outcome := M.Running;
      if operandB >= 8 { return M.BadRegister(operandB); }
      if registers[operandB] == 0 {
        pc := (pc + nextInst) % 256;
        return;
      }
      if operandA >= 8 { return M.BadRegister(operandA); }
      Alu(AluMod, operandA, operandB);
      ghost var computed := State();
      pc := (pc + nextInst) % 256;
      assert State() == computed.(pc := pc);
    }

    /** The dispatch cases that may set PC and `continue` the loop. */
    method Transfer(i: Op.Instruction, operandA: Byte, nextInst: nat) returns (outcome: M.Outcome)
      requires Valid() && M.SetsPc(i)
      modifies this, registers, ram
      ensures Valid()
      ensures M.Transfer(old(State()), i, operandA, nextInst) == M.Transition(State(), outcome)
    {
      outcome := M.Running;
      match i {
        case Call =>
          Call(nextInst);
          if operandA >= 8 { return M.BadRegister(operandA); }
          pc := registers[operandA];
        case Ret =>
          var _ := Ret();
        case Jmp =>
          if operandA >= 8 { return M.BadRegister(operandA); }
          pc := registers[operandA];
        case Jeq =>
          if fl == Op.FL_E {
            if operandA >= 8 { return M.BadRegister(operandA); }
            pc := registers[operandA];
          } else {
            pc := (pc + nextInst) % 256;
          }
        case Jne =>
          if fl != Op.FL_E {
            if operandA >= 8 { return M.BadRegister(operandA); }
            pc := registers[operandA];
          } else {
            pc := (pc + nextInst) % 256;
          }
      }
    }

    /**
     * `cpu_run`, cut off after `fuel` iterations: steps until the machine
     * halts, meets an unknown opcode or faults, or the fuel runs out.
     */
    method Run(fuel: nat) returns (outcome: M.Outcome)
      requires Valid()
      modifies this, registers, ram
      ensures Valid()
      ensures M.Run(old(State()), fuel) == M.Transition(State(), outcome)
    {
      outcome := M.Running;
      var steps := 0;
      while outcome.Running? && steps < fuel
        invariant Valid() && steps <= fuel
        invariant M.Run(old(State()), fuel)
          == if outcome.Running? then M.Run(State(), fuel - steps) else M.Transition(State(), outcome)
        decreases fuel - steps
      {
        ghost var before := State();
        outcome := Step();
        assert M.Run(before, fuel - steps)
          == if outcome.Running? then M.Run(State(), fuel - steps - 1) else M.Transition(State(), outcome);
        steps := steps + 1;
      }
    }

    /**
     * The effect of `cpu_load` once the image is parsed: byte `k` of
     * `program` goes to address `k` truncated to 8 bits, in order.
     */
    method Load(program: seq<Byte>)
      requires Valid()
      modifies ram
      ensures State() == M.Load(old(State()), program)
    {
      var address := 0;
      while address < |program|
        invariant 0 <= address <= |program|
        invariant State() == M.Load(old(State()), program[..address])
      {
        assert program[..address + 1][..address] == program[..address];
        RamWrite(address % 256, program[address]);
        address := address + 1;
      }
      assert program[..address] == program;
    }
  }
}
