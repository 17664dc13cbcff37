/**
 * The LS-8 machine as a value: the state of `struct cpu` plus the text the
 * PRN instruction prints, and the effect of each CPU routine on that state.
 * These functions are the specification the imperative `Ls8.Cpu` class is
 * proved against, and the lemmas in `MachineProperties` are about them.
 */
module Machine {
  import opened Bits
  import Op = Opcodes
  import Alu

  /** Register 7 is the stack pointer. */
  const SP: nat := 7
  /** Initial stack pointer: the stack is empty and grows down from 0xF4. */
  const STACK_START: Byte := 0xF4

  /**
   * The CPU record: program counter, flags byte, registers R0..R7 and the
   * 256 bytes of RAM. `output` holds the values PRN has printed, in order.
   */
  datatype State = State(pc: Byte, fl: Byte, regs: seq<Byte>, ram: seq<Byte>, output: seq<Byte>)
  {
    /** Exactly 8 registers and 256 cells, so every 8-bit register index below 8 and every 8-bit address is in bounds. */
    predicate Valid()
    {
      |regs| == 8 && |ram| == 256
    }
  }

  /** How a step ended: keep running, or one of the ways the loop stops. */
  datatype Outcome =
    | Running
    | Halted                              // HLT
    | Unrecognised(ir: Byte, at: Byte)    // unknown opcode `ir` at address `at`
    | BadRegister(index: Byte)            // register operand >= 8: out of bounds in C
    | DivideByZero                        // MOD as written with R0 == 0: undefined in C

  datatype Transition = Transition(next: State, outcome: Outcome)

  /**
   * A register operand of 8 or more indexes past `registers[8]` in C. The
   * machine stops in the state reached just before that access: POP has
   * already popped and CALL has already pushed; every other instruction
   * faults before any effect.
   */
  function Fault(s: State, index: Byte): Transition
  {
    Transition(s, BadRegister(index))
  }

  /** `cpu_ram_write`. */
  function RamWrite(s: State, address: Byte, value: Byte): (t: State)
    requires s.Valid()
    ensures t.Valid()
  {
    s.(ram := s.ram[address := value])
  }

  /** `stack_push`: decrement SP modulo 256, then store at the new SP. */
  function StackPush(s: State, value: Byte): (t: State)
    requires s.Valid()
    ensures t.Valid()
  {
    var sp := (s.regs[SP] as int - 1) % 256;
    s.(regs := s.regs[SP := sp], ram := s.ram[sp := value])
  }

  /** `stack_pop`: read at SP, zero that cell, increment SP modulo 256. */
  function StackPop(s: State): (r: (Byte, State))
    requires s.Valid()
    ensures r.1.Valid()
  {
    var sp := s.regs[SP];
    (s.ram[sp], s.(ram := s.ram[sp := 0], regs := s.regs[SP := (sp as int + 1) % 256]))
  }

  /** `call`: push the address `nextInst` bytes past PC, truncated to 8 bits. */
  function Call(s: State, nextInst: nat): (t: State)
    requires s.Valid()
    ensures t.Valid()
  {
    StackPush(s, (s.pc + nextInst) % 256)
  }

  /** `ret`: pop the return address into PC. */
  function Ret(s: State): (t: State)
    requires s.Valid()
    ensures t.Valid()
  {
    var (target, popped) := StackPop(s);
    popped.(pc := target)
  }

  /**
   * `alu` on registers `a` and `b`: CMP rewrites the flags, every other
   * operation rewrites register `a`. NOT does not read register `b`.
   */
  function AluStep(s: State, op: Alu.AluOp, a: Byte, b: Byte): (t: State)
    requires s.Valid() && a < 8 && (op != Alu.AluNot ==> b < 8)
    requires op == Alu.AluMod ==> s.regs[b] != 0
    ensures t.Valid()
  {
    if op == Alu.AluCmp then
      s.(fl := Alu.Compare(s.regs[a], s.regs[b]))
    else
      var y := if op == Alu.AluNot then 0 else s.regs[b];
      s.(regs := s.regs[a := Alu.Apply(op, s.regs[a], y)])
  }

  /** The instructions whose case in the dispatch ends in the common PC advance. */
  predicate FallsThrough(i: Op.Instruction)
  {
    i.Ldi? || i.Hlt? || i.Prn? || i.Not? || i.Push? || i.Pop?
  }

  /** The instructions that hand two registers to the ALU. */
  predicate TwoRegisterAlu(i: Op.Instruction)
  {
    i.Mul? || i.Add? || i.Cmp? || i.And? || i.Or? || i.Xor? || i.Shl? || i.Shr?
  }

  /** The instructions that set PC themselves and `continue` the loop. */
  predicate SetsPc(i: Op.Instruction)
  {
    i.Call? || i.Ret? || i.Jmp? || i.Jeq? || i.Jne?
  }

  /** The ALU operation behind each two-register ALU instruction. */
  function AluOperation(i: Op.Instruction): (op: Alu.AluOp)
    requires TwoRegisterAlu(i)
    ensures op != Alu.AluNot && op != Alu.AluMod
  {
    match i
    case Mul => Alu.AluMul
    case Add => Alu.AluAdd
    case Cmp => Alu.AluCmp
    case And => Alu.AluAnd
    case Or => Alu.AluOr
    case Xor => Alu.AluXor
    case Shl => Alu.AluShl
    case Shr => Alu.AluShr
  }

  /** A two-register ALU instruction, then the usual PC advance. */
  function ExecuteAlu(s: State, op: Alu.AluOp, a: Byte, b: Byte, after: Byte): Transition
    requires s.Valid() && op != Alu.AluNot && op != Alu.AluMod
  {
    if a >= 8 then Fault(s, a)
    else if b >= 8 then Fault(s, b)
    else Transition(AluStep(s, op, a, b).(pc := after), Running)
  }

  /**
   * MOD as the source writes it. The guard `if (operandB = 0)` assigns 0 to
   * the operand and is never taken, so the divisor is always register R0, and
   * R0 == 0 reaches a C `%` by zero. `Step` uses the corrected `ExecuteMod`.
   */
  function ExecuteModAsWritten(s: State, a: Byte, after: Byte): (t: Transition)
    requires s.Valid()
    ensures t.outcome == DivideByZero <==> a < 8 && s.regs[0] == 0
    ensures !t.outcome.Running? ==> t.next == s
  {
    if a >= 8 then Fault(s, a)
    else if s.regs[0] == 0 then Transition(s, DivideByZero)
    else Transition(AluStep(s, Alu.AluMod, a, 0).(pc := after), Running)
  }

  /**
   * MOD as evidently intended: the guard tests register B; when it holds 0
   * the case reports the error and breaks out of the switch, so the
   * instruction is skipped and PC advances; otherwise register A is divided
   * by register B.
   */
  function ExecuteMod(s: State, a: Byte, b: Byte, after: Byte): Transition
    requires s.Valid()
  {
    if b >= 8 then Fault(s, b)
    else if s.regs[b] == 0 then Transition(s.(pc := after), Running)
    else if a >= 8 then Fault(s, a)
    else Transition(AluStep(s, Alu.AluMod, a, b).(pc := after), Running)
  }

  /** Jump to the address in register `a`. */
  function Jump(s: State, a: Byte): Transition
    requires s.Valid()
  {
    if a >= 8 then Fault(s, a) else Transition(s.(pc := s.regs[a]), Running)
  }

  /**
   * The effect of one decoded instruction with operands `a` and `b` (0 when
   * the opcode supplies fewer) and length `len`. Every instruction but the
   * control transfers, HLT included, advances PC by `len`.
   */
  function Execute(s: State, i: Op.Instruction, a: Byte, b: Byte, len: nat): (t: Transition)
    requires s.Valid()
    ensures t.next.Valid()
    ensures !t.outcome.Unrecognised? && !t.outcome.DivideByZero?
  {
    var after := (s.pc + len) % 256;
    if FallsThrough(i) then ExecuteBasic(s, i, a, b, after)
    else if TwoRegisterAlu(i) then ExecuteAlu(s, AluOperation(i), a, b, after)
    else if i == Op.Mod then ExecuteMod(s, a, b, after)
    else Transfer(s, i, a, len)
  }

  /**
   * The one-register instructions and HLT, whose cases end in the PC advance
   * to `after`. LDI stores its immediate `b`; NOT ignores register `b`.
   */
  function ExecuteBasic(s: State, i: Op.Instruction, a: Byte, b: Byte, after: Byte): (t: Transition)
    requires s.Valid() && FallsThrough(i)
    ensures t.outcome == Halted <==> i == Op.Hlt
    ensures t.outcome.Running? || t.outcome.Halted? || t.outcome == BadRegister(a)
  {
    match i
    case Ldi => if a >= 8 then Fault(s, a) else Transition(s.(regs := s.regs[a := b], pc := after), Running)
    case Hlt => Transition(s.(pc := after), Halted)
    case Prn => if a >= 8 then Fault(s, a) else Transition(s.(output := s.output + [s.regs[a]], pc := after), Running)
    case Not => if a >= 8 then Fault(s, a) else Transition(AluStep(s, Alu.AluNot, a, b).(pc := after), Running)
    case Push => if a >= 8 then Fault(s, a) else Transition(StackPush(s, s.regs[a]).(pc := after), Running)
    case Pop =>
      var (v, popped) := StackPop(s);
      if a >= 8 then Fault(popped, a)
      else Transition(popped.(regs := popped.regs[a := v], pc := after), Running)
  }

  /**
   * The instructions that may set PC themselves (the `continue` cases of the
   * dispatch). CALL reads register `a` after pushing, so `CALL R7` jumps to
   * the new stack pointer. A JEQ or JNE whose condition fails moves on `len`
   * bytes without reading register `a`.
   */
  function Transfer(s: State, i: Op.Instruction, a: Byte, len: nat): (t: Transition)
    requires s.Valid() && SetsPc(i)
    ensures t.outcome.Running? || t.outcome == BadRegister(a)
    ensures t.next.fl == s.fl && t.next.output == s.output
  {
    var after := (s.pc + len) % 256;
    match i
    case Call =>
      var pushed := Call(s, len);
      if a >= 8 then Fault(pushed, a)
      else Transition(pushed.(pc := pushed.regs[a]), Running)
    case Ret => Transition(Ret(s), Running)
    case Jmp => Jump(s, a)
    case Jeq => if s.fl == Op.FL_E then Jump(s, a) else Transition(s.(pc := after), Running)
    case Jne => if s.fl != Op.FL_E then Jump(s, a) else Transition(s.(pc := after), Running)
  }

  /** One iteration of the `cpu_run` loop: fetch, decode, dispatch. */
  function Step(s: State): (t: Transition)
    requires s.Valid()
    ensures t.next.Valid()
    ensures t.outcome.Unrecognised? <==> Op.Decode(s.ram[s.pc]).None?
  {
    var ir := s.ram[s.pc];
    var len := Op.Length(ir);
    var a := if len >= 2 then s.ram[(s.pc + 1) % 256] else 0;
    var b := if len == 3 then s.ram[(s.pc + 2) % 256] else 0;
    match Op.Decode(ir)
    case None => Transition(s.(pc := (s.pc + len) % 256), Unrecognised(ir, s.pc))
    case Some(i) => Execute(s, i, a, b, len)
  }

  /** Whether `step` is defined on every valid state and only yields valid states. */
  ghost predicate Closed(step: State --> Transition)
  {
    forall x: State :: x.Valid() ==> step.requires(x) && step(x).next.Valid()
  }

  /**
   * The loop of `cpu_run` over any step function, cut off after `fuel`
   * passes: it goes on while the outcome is `Running`.
   */
  function Iterate(step: State --> Transition, s: State, fuel: nat): (t: Transition)
    requires Closed(step) && s.Valid()
    ensures t.next.Valid()
    ensures fuel == 0 ==> t == Transition(s, Running)
    decreases fuel
  {
    if fuel == 0 then Transition(s, Running)
    else
      var t := step(s);
      if t.outcome.Running? then Iterate(step, t.next, fuel - 1) else t
  }

  /**
   * `cpu_run` with at most `fuel` iterations: steps while the outcome is
   * `Running`. With fuel left over the result is a stopped machine.
   */
  function Run(s: State, fuel: nat): (t: Transition)
    requires s.Valid()
    ensures t.next.Valid()
  {
    Iterate(Step, s, fuel)
  }

  /** The registers `cpu_init` leaves: all 0 except SP. */
  function InitialRegisters(): (r: seq<Byte>)
  {
    seq(8, i => if i == SP then STACK_START else 0)
  }

  /** `cpu_init`: PC, FL, registers and RAM reset, SP = 0xF4. */
  function Reset(s: State): (t: State)
    ensures t.Valid()
  {
    s.(pc := 0, fl := 0, regs := InitialRegisters(), ram := seq(256, _ => 0))
  }

  /**
   * The effect of `cpu_load`: program byte `k` is written at address `k`
   * truncated to 8 bits, in order, so an image longer than 256 bytes wraps
   * round and overwrites its own start.
   */
  function Load(s: State, program: seq<Byte>): (t: State)
    requires s.Valid()
    ensures t.Valid()
    ensures t.pc == s.pc && t.fl == s.fl && t.regs == s.regs && t.output == s.output
    decreases |program|
  {
    if program == [] then s
    else
      var n := |program| - 1;
      RamWrite(Load(s, program[..n]), n % 256, program[n])
  }
}
