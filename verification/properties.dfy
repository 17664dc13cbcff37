/**
 * Properties of the LS-8 executor: what each instruction does to the
 * machine, how the stack, CALL and RET fit together, what the loop keeps
 * invariant, and a small program run end to end.
 */
module MachineProperties {
  import opened Bits
  import Op = Opcodes
  import Alu
  import opened Machine

  /** The byte after the opcode: operand A of a one- or two-operand instruction. */
  function OperandA(s: State): Byte
    requires s.Valid()
  {
    s.ram[(s.pc + 1) % 256]
  }

  /** The second byte after the opcode: operand B of a two-operand instruction. */
  function OperandB(s: State): Byte
    requires s.Valid()
  {
    s.ram[(s.pc + 2) % 256]
  }

  /** The flags byte as CMP leaves it: 0 (before any CMP) or a single flag. */
  predicate FlagsWellFormed(fl: Byte)
  {
    fl == 0 || fl == Op.FL_E || fl == Op.FL_G || fl == Op.FL_L
  }

  // ---------------------------------------------------------------- stack

  /**
   * A push followed by a pop returns the pushed value and restores the stack
   * pointer; the only trace left is the popped cell, now 0.
   */
  lemma PushThenPop(s: State, v: Byte)
    requires s.Valid()
    ensures var sp := (s.regs[SP] as int - 1) % 256;
      var (popped, t) := StackPop(StackPush(s, v));
      && popped == v
      && t.regs == s.regs
      && t.ram == s.ram[sp := 0]
      && t.pc == s.pc && t.fl == s.fl && t.output == s.output
  {
  }

  /** The stack is last in, first out: two pushes come back in reverse order. */
  lemma StackIsLifo(s: State, v: Byte, w: Byte)
    requires s.Valid()
    ensures var (first, s1) := StackPop(StackPush(StackPush(s, v), w));
      var (second, s2) := StackPop(s1);
      && first == w && second == v
      && s2.regs == s.regs
  {
    var pushed := StackPush(s, v);
    PushThenPop(pushed, w);
    PushThenPop(s, v);
  }

  // ---------------------------------------------------------- instructions

  /** LDI stores operand B itself in register A and moves on 3 bytes. */
  lemma StepLdi(s: State)
    requires s.Valid() && s.ram[s.pc] == Op.LDI && OperandA(s) < 8
    ensures var t := Step(s);
      && t.outcome == Running
      && t.next == s.(regs := s.regs[OperandA(s) := OperandB(s)], pc := (s.pc + 3) % 256)
  {
  }

  /** PRN appends register A to the output and changes nothing else. */
  lemma StepPrn(s: State)
    requires s.Valid() && s.ram[s.pc] == Op.PRN && OperandA(s) < 8
    ensures var t := Step(s);
      && t.outcome == Running
      && t.next == s.(output := s.output + [s.regs[OperandA(s)]], pc := (s.pc + 2) % 256)
  {
  }

  /**
   * ADD and MUL store the sum and the product modulo 256 in register A. No
   * other register, no flag, no memory cell and no output changes.
   */
  lemma StepAddMul(s: State)
    requires s.Valid() && (s.ram[s.pc] == Op.ADD || s.ram[s.pc] == Op.MUL)
    requires OperandA(s) < 8 && OperandB(s) < 8
    ensures var t := Step(s);
      var (a, x, y) := (OperandA(s), s.regs[OperandA(s)], s.regs[OperandB(s)]);
      && t.outcome == Running
      && t.next.regs == s.regs[a := if s.ram[s.pc] == Op.ADD then (x as int + y) % 256 else (x as int * y) % 256]
      && t.next.fl == s.fl && t.next.ram == s.ram && t.next.output == s.output
      && t.next.pc == (s.pc + 3) % 256
  {
  }

  /**
   * Every two-register ALU instruction writes the ALU result for the values
   * of registers A and B (the flags, for CMP) and nothing else.
   */
  lemma StepAlu(s: State, i: Op.Instruction)
    requires s.Valid() && TwoRegisterAlu(i)
    requires s.ram[s.pc] == Op.Opcode(i) && OperandA(s) < 8 && OperandB(s) < 8
    ensures var t := Step(s);
      var (a, x, y) := (OperandA(s), s.regs[OperandA(s)], s.regs[OperandB(s)]);
      && t.outcome == Running
      && t.next.pc == (s.pc + 3) % 256
      && t.next.ram == s.ram && t.next.output == s.output
      && (i == Op.Cmp ==> t.next.regs == s.regs && t.next.fl == Alu.Compare(x, y))
      && (i != Op.Cmp ==> t.next.fl == s.fl && t.next.regs == s.regs[a := Alu.Apply(AluOperation(i), x, y)])
  {
    Op.DecodeOpcode(i);
    Op.ArityConvention(i);
  }

  /**
   * CMP sets the flags to exactly one of E, G and L, the one matching the
   * order of registers A and B, and leaves every register as it was.
   */
  lemma StepCmp(s: State)
    requires s.Valid() && s.ram[s.pc] == Op.CMP && OperandA(s) < 8 && OperandB(s) < 8
    ensures var t := Step(s);
      var (x, y) := (s.regs[OperandA(s)], s.regs[OperandB(s)]);
      && t.outcome == Running
      && t.next.regs == s.regs
      && (t.next.fl == Op.FL_E <==> x == y)
      && (t.next.fl == Op.FL_G <==> x > y)
      && (t.next.fl == Op.FL_L <==> x < y)
      && FlagsWellFormed(t.next.fl) && t.next.fl != 0
  {
    StepAlu(s, Op.Cmp);
  }

  /**
   * NOT (a one-operand instruction) complements register A within 8 bits;
   * there is no operand B to read.
   */
  lemma StepNot(s: State)
    requires s.Valid() && s.ram[s.pc] == Op.NOT && OperandA(s) < 8
    ensures var t := Step(s);
      && t.outcome == Running
      && t.next == s.(regs := s.regs[OperandA(s) := 255 - s.regs[OperandA(s)]], pc := (s.pc + 2) % 256)
  {
    Alu.NotIsBitwise(s.regs[OperandA(s)], 0, 0);
  }

  /**
   * MOD as written: the divisor is register R0 whatever operand B says; with
   * R0 == 0 the machine stops on a division by zero without any effect.
   */
  lemma ModAsWritten(s: State, a: Byte, after: Byte)
    requires s.Valid() && a < 8
    ensures var t := ExecuteModAsWritten(s, a, after);
      && (s.regs[0] == 0 ==> t == Transition(s, DivideByZero))
      && (s.regs[0] != 0 ==>
            t == Transition(s.(regs := s.regs[a := s.regs[a] % s.regs[0]], pc := after), Running))
  {
  }

  /**
   * The guard's assignment shows on a concrete machine: R0 = 2, R1 = 7,
   * R2 = 0 and `MOD R1, R2`. The intended code skips the instruction and
   * keeps R1 = 7; the code as written computes 7 % R0 and stores 1.
   */
  lemma ModGuardAssigns(s: State)
    requires s.Valid() && s.regs[0] == 2 && s.regs[1] == 7 && s.regs[2] == 0
    ensures ExecuteModAsWritten(s, 1, 3).next.regs[1] == 1
    ensures ExecuteMod(s, 1, 2, 3) == Transition(s.(pc := 3), Running)
  {
  }

  /**
   * MOD (as intended) never divides by zero: with register B holding 0 it
   * changes nothing but PC and execution continues; otherwise register A gets
   * the remainder of A by B, which is below B.
   */
  lemma StepMod(s: State)
    requires s.Valid() && s.ram[s.pc] == Op.MOD && OperandA(s) < 8 && OperandB(s) < 8
    ensures var t := Step(s);
      var (a, b) := (OperandA(s), OperandB(s));
      && t.outcome == Running
      && (s.regs[b] == 0 ==> t.next == s.(pc := (s.pc + 3) % 256))
      && (s.regs[b] != 0 ==>
            && t.next == s.(regs := s.regs[a := s.regs[a] % s.regs[b]], pc := (s.pc + 3) % 256)
            && t.next.regs[a] < s.regs[b])
  {
  }

  /** PUSH stores register A at the decremented SP and moves on 2 bytes. */
  lemma StepPush(s: State)
    requires s.Valid() && s.ram[s.pc] == Op.PUSH && OperandA(s) < 8
    ensures var t := Step(s);
      var sp := (s.regs[SP] as int - 1) % 256;
      && t.outcome == Running
      && t.next == s.(regs := s.regs[SP := sp], ram := s.ram[sp := s.regs[OperandA(s)]], pc := (s.pc + 2) % 256)
  {
  }

  /**
   * POP copies the cell at SP into register A, zeroes that cell and
   * increments SP; the register write comes last, so `POP R7` leaves SP
   * holding the popped value.
   */
  lemma StepPop(s: State)
    requires s.Valid() && s.ram[s.pc] == Op.POP && OperandA(s) < 8
    ensures var t := Step(s);
      var sp := s.regs[SP];
      && t.outcome == Running
      && t.next == s.(regs := s.regs[SP := (sp as int + 1) % 256][OperandA(s) := s.ram[sp]],
                      ram := s.ram[sp := 0], pc := (s.pc + 2) % 256)
  {
  }

  // ------------------------------------------------------------ operands

  /**
   * An instruction that announces fewer than two operands never uses operand
   * B, so the value the model gives an absent operand (C leaves it
   * uninitialised) makes no difference.
   */
  lemma ExecuteIgnoresB(s: State, i: Op.Instruction, a: Byte, b: Byte, b': Byte, len: nat)
    requires s.Valid() && Op.Operands(i) < 2
    ensures Execute(s, i, a, b, len) == Execute(s, i, a, b', len)
  {
  }

  /** An instruction that announces no operands uses neither operand. */
  lemma ExecuteIgnoresOperands(s: State, i: Op.Instruction, a: Byte, a': Byte, b: Byte, b': Byte, len: nat)
    requires s.Valid() && Op.Operands(i) == 0
    ensures Execute(s, i, a, b, len) == Execute(s, i, a', b', len)
  {
  }

  // ------------------------------------------------------- control flow

  /** Does the instruction at PC set PC itself rather than advance it? */
  predicate TakesControl(s: State)
    requires s.Valid()
  {
    var ir := s.ram[s.pc];
    ir == Op.CALL || ir == Op.RET || ir == Op.JMP
    || (ir == Op.JEQ && s.fl == Op.FL_E) || (ir == Op.JNE && s.fl != Op.FL_E)
  }

  /**
   * Every instruction that does not jump, HLT and unknown bytes included,
   * moves PC on by the length its opcode bits announce, modulo 256 (unless
   * it faulted, which leaves PC where it was).
   */
  lemma StepAdvances(s: State)
    requires s.Valid() && !TakesControl(s)
    ensures var t := Step(s);
      t.outcome.BadRegister?
      || t.next.pc == (s.pc + Op.Length(s.ram[s.pc])) % 256
  {
  }

  /** An unrecognised byte stops the loop, reporting the byte and its address. */
  lemma StepUnrecognised(s: State)
    requires s.Valid() && Op.Decode(s.ram[s.pc]).None?
    ensures Step(s).outcome == Unrecognised(s.ram[s.pc], s.pc)
    ensures Step(s).next == s.(pc := (s.pc + Op.Length(s.ram[s.pc])) % 256)
  {
  }

  /**
   * JMP always jumps to register A; JEQ jumps exactly when FL is 1 and JNE
   * exactly when it is not; a jump not taken moves on 2 bytes. Nothing but
   * PC changes.
   */
  lemma StepJump(s: State)
    requires s.Valid() && s.ram[s.pc] in {Op.JMP, Op.JEQ, Op.JNE} && OperandA(s) < 8
    ensures var t := Step(s);
      var ir := s.ram[s.pc];
      var taken := ir == Op.JMP || (ir == Op.JEQ && s.fl == 1) || (ir == Op.JNE && s.fl != 1);
      && t.outcome == Running
      && t.next == s.(pc := if taken then s.regs[OperandA(s)] else (s.pc + 2) % 256)
  {
  }

  /** On flags CMP can produce, FL == 1 is exactly "the E bit is set". */
  lemma EqualTestIsEBit(fl: Byte)
    requires FlagsWellFormed(fl)
    ensures fl == Op.FL_E <==> Bit(fl, 0)
  {
    Op.FlagLayout();
  }

  /**
   * CALL at address P (a one-operand opcode, so 2 bytes long) pushes P + 2
   * and jumps to register A, read after the push (so CALL R7 jumps to the new
   * SP). If a RET is waiting there, it comes back to P + 2 with SP and every
   * register restored and the used stack cell zeroed.
   */
  lemma CallThenRet(s: State)
    requires s.Valid() && s.ram[s.pc] == Op.CALL && OperandA(s) < 8
    ensures var t := Step(s);
      var a := OperandA(s);
      var sp := (s.regs[SP] as int - 1) % 256;
      && t.outcome == Running
      && t.next.regs[SP] == sp && t.next.ram[sp] == (s.pc + 2) % 256
      && t.next.pc == (if a == SP then sp else s.regs[a])
      && (t.next.ram[t.next.pc] == Op.RET ==>
            var u := Step(t.next);
            && u.outcome == Running
            && u.next.pc == (s.pc + 2) % 256
            && u.next.regs == s.regs
            && u.next.ram == s.ram[sp := 0])
  {
    var t := Step(s);
    if t.next.ram[t.next.pc] == Op.RET {
      var u := Step(t.next);
      assert u.next.regs == t.next.regs[SP := s.regs[SP]];
    }
  }

  // ------------------------------------------------------------- the loop

  /** Only a CMP with two valid registers writes the flags; it writes their comparison. */
  lemma ExecuteFlags(s: State, i: Op.Instruction, a: Byte, b: Byte, len: nat)
    requires s.Valid()
    ensures var fl := Execute(s, i, a, b, len).next.fl;
      fl == s.fl || (i.Cmp? && a < 8 && b < 8 && fl == Alu.Compare(s.regs[a], s.regs[b]))
  {
    if FallsThrough(i) {
    } else if TwoRegisterAlu(i) {
    } else if i == Op.Mod {
    } else {
    }
  }

  /** A step keeps the flags byte one of 0, E, G or L. */
  lemma StepKeepsFlags(s: State)
    requires s.Valid() && FlagsWellFormed(s.fl)
    ensures FlagsWellFormed(Step(s).next.fl)
  {
    var ir := s.ram[s.pc];
    var len := Op.Length(ir);
    var a := if len >= 2 then OperandA(s) else 0;
    var b := if len == 3 then OperandB(s) else 0;
    match Op.Decode(ir) {
      case None =>
      case Some(i) =>
        ExecuteFlags(s, i, a, b, len);
        if i.Cmp? && a < 8 && b < 8 {
          Alu.CompareFlags(s.regs[a], s.regs[b]);
        }
    }
  }

  /** However long it runs, the machine's flags stay one of 0, E, G or L. */
  lemma RunKeepsFlags(s: State, fuel: nat)
    requires s.Valid() && FlagsWellFormed(s.fl)
    ensures FlagsWellFormed(Run(s, fuel).next.fl)
  {
    forall x: State | x.Valid() && FlagsWellFormed(x.fl)
      ensures FlagsWellFormed(Step(x).next.fl)
    {
      StepKeepsFlags(x);
    }
    IterateKeeps(Step, (x: State) => FlagsWellFormed(x.fl), s, fuel);
  }

  /** Only PRN with a valid register prints, and it prints that register. */
  lemma ExecuteOutput(s: State, i: Op.Instruction, a: Byte, b: Byte, len: nat)
    requires s.Valid()
    ensures var out := Execute(s, i, a, b, len).next.output;
      out == s.output || (i.Prn? && a < 8 && out == s.output + [s.regs[a]])
  {
    if FallsThrough(i) {
    } else if TwoRegisterAlu(i) {
    } else if i == Op.Mod {
    } else {
    }
  }

  /** A step prints at most one value and never takes back what was printed. */
  lemma StepAppends(s: State)
    requires s.Valid()
    ensures var out := Step(s).next.output;
      out == s.output || (|out| == |s.output| + 1 && out[..|s.output|] == s.output)
  {
    var ir := s.ram[s.pc];
    var len := Op.Length(ir);
    var a := if len >= 2 then OperandA(s) else 0;
    var b := if len == 3 then OperandB(s) else 0;
    match Op.Decode(ir) {
      case None =>
      case Some(i) =>
        ExecuteOutput(s, i, a, b, len);
    }
  }

  /** Whether `out` starts with `before`. */
  ghost predicate Extends(out: seq<Byte>, before: seq<Byte>)
  {
    |before| <= |out| && out[..|before|] == before
  }

  /** Output only grows: what a run printed starts with what was printed before. */
  lemma RunAppends(s: State, fuel: nat)
    requires s.Valid()
    ensures Extends(Run(s, fuel).next.output, s.output)
  {
    forall x: State | x.Valid() && Extends(x.output, s.output)
      ensures Extends(Step(x).next.output, s.output)
    {
      StepAppends(x);
      var out := Step(x).next.output;
      if out != x.output {
        assert out[..|s.output|] == out[..|x.output|][..|s.output|];
      }
    }
    IterateKeeps(Step, (x: State) => Extends(x.output, s.output), s, fuel);
  }

  /** Once a run has stopped, more fuel changes nothing: the loop has ended. */
  lemma RunStopped(s: State, fuel: nat, more: nat)
    requires s.Valid() && fuel <= more && !Run(s, fuel).outcome.Running?
    ensures Run(s, more) == Run(s, fuel)
  {
    IterateStopped(Step, s, fuel, more);
  }

  /** A property every step keeps holds after any number of steps. */
  lemma {:induction false} IterateKeeps(step: State --> Transition, inv: State -> bool, s: State, fuel: nat)
    requires Closed(step) && s.Valid() && inv(s)
    requires forall x: State :: x.Valid() && inv(x) ==> inv(step(x).next)
    ensures inv(Iterate(step, s, fuel).next)
    decreases fuel
  {
    if fuel > 0 && step(s).outcome.Running? {
      IterateKeeps(step, inv, step(s).next, fuel - 1);
    }
  }

  /** An iteration that stopped within `fuel` passes gives the same result with more fuel. */
  lemma {:induction false} IterateStopped(step: State --> Transition, s: State, fuel: nat, more: nat)
    requires Closed(step) && s.Valid() && fuel <= more && !Iterate(step, s, fuel).outcome.Running?
    ensures Iterate(step, s, more) == Iterate(step, s, fuel)
    decreases fuel
  {
    assert fuel > 0;
    if step(s).outcome.Running? {
      IterateStopped(step, step(s).next, fuel - 1, more - 1);
    }
  }

  // ------------------------------------------------------ start and load

  /**
   * Right after `cpu_init` every RAM cell is 0, which is no opcode: the
   * first step reports byte 0x00 at address 0 and stops with PC = 1.
   */
  lemma ResetStopsAtOnce(s: State, fuel: nat)
    requires fuel >= 1
    ensures var r := Reset(s);
      && Step(r) == Transition(r.(pc := 1), Unrecognised(0, 0))
      && Run(r, fuel) == Step(r)
  {
    var r := Reset(s);
    assert r.ram[0] == 0;
  }

  /** An image of at most 256 bytes lands at addresses 0.. and nothing else changes. */
  lemma {:induction false} LoadPlacesImage(s: State, program: seq<Byte>)
    requires s.Valid() && |program| <= 256
    ensures Load(s, program) == s.(ram := program + s.ram[|program|..])
    decreases |program|
  {
    if program != [] {
      var n := |program| - 1;
      LoadPlacesImage(s, program[..n]);
      assert program[..n] + s.ram[n..] == (program + s.ram[|program|..])[n := s.ram[n]];
    }
  }

  /**
   * The program `LDI R0,5; PRN R0; HLT`, loaded into a freshly initialised
   * machine, prints 5 and halts after three steps.
   */
  lemma PrintFiveProgram(s: State)
    ensures var program := [0x82, 0x00, 0x05, 0x47, 0x00, 0x01];
      var t := Run(Load(Reset(s), program), 3);
      && t.outcome == Halted
      && t.next.output == s.output + [5]
      && t.next.pc == 6
      && t.next.regs[0] == 5
  {
    var program: seq<Byte> := [0x82, 0x00, 0x05, 0x47, 0x00, 0x01];
    var s0 := Load(Reset(s), program);
    LoadPlacesImage(Reset(s), program);
    assert s0.ram[..6] == program;
    assert s0.pc == 0 && s0.output == s.output;
    RunPrintFive(s0);
  }

  /** The three steps of `LDI R0,5; PRN R0; HLT` from address 0. */
  lemma RunPrintFive(s0: State)
    requires s0.Valid() && s0.pc == 0 && s0.ram[..6] == [0x82, 0x00, 0x05, 0x47, 0x00, 0x01]
    ensures var t := Run(s0, 3);
      && t.outcome == Halted
      && t.next.output == s0.output + [5]
      && t.next.pc == 6
      && t.next.regs[0] == 5
  {
    assert s0.ram[0] == Op.LDI && OperandA(s0) == 0 && OperandB(s0) == 5;
    StepLdi(s0);
    var s1 := Step(s0).next;
    assert s1.ram[s1.pc] == Op.PRN && OperandA(s1) == 0 && s1.ram[5] == Op.HLT;
    PrintThenHalt(s1);
  }

  /** `PRN R0; HLT`: prints R0, then halts past the HLT byte. */
  lemma PrintThenHalt(s1: State)
    requires s1.Valid() && s1.pc == 3 && s1.ram[3] == Op.PRN && s1.ram[4] == 0 && s1.ram[5] == Op.HLT
    ensures var t := Run(s1, 2);
      && t.outcome == Halted
      && t.next.output == s1.output + [s1.regs[0]]
      && t.next.pc == 6
      && t.next.regs == s1.regs
  {
    StepPrn(s1);
    var s2 := Step(s1).next;
    assert s2.ram[s2.pc] == Op.HLT;
    assert Run(s2, 1) == Step(s2);
  }
}
