/**
 * What the generated code does on the Hack computer: the blocks for push, pop
 * and the arithmetic operators, the test of `if-goto`, and the parts of call and return that run
 * before their jump, with their effect on the stack and the memory.
 *
 * The stack grows upwards from the address SP holds. Where the code reads the
 * stack after having written a register, the stack is required to lie above
 * the sixteen registers R0-R15 (`AboveRegisters`), as it does on the Hack
 * platform, where it starts at address 256.
 */
module Effects {
  import opened Strings
  import opened Instructions
  import opened Asm
  import opened Hack
  import opened Codegen

  /** Every cell of the stack, including the top one, lies above R15. */
  predicate AboveRegisters(m: Machine) {
    SP0(m) > 16
  }

  /** The value on top of the stack. */
  function Top(m: Machine): int {
    Get(m.ram, SP0(m) - 1)
  }

  // ---------------------------------------------------------------------------
  // The memory segments of the virtual machine

  /** The address of a memory slot: `pointer` 0 and 1 are THIS and THAT (R3, R4), temp
      starts at R5, static `i` of a file is the assembler variable `file.i`, and the
      other segments start at the address their base register holds. */
  function SlotAddr(t: Target, fileName: string, m: Machine, env: string -> int): int
    requires t.Slot? ==> Digits1(t.index) && t.segment != Constant
  {
    match t
    case Pointer(bit) => if bit == '0' then 3 else 4
    case Slot(Temp, i) => 5 + DigitsValue(i)
    case Slot(Static, i) => env(NameText(StaticVar(fileName, i)))
    case Slot(Argument, i) => Get(m.ram, 2) + DigitsValue(i)
    case Slot(Local, i) => Get(m.ram, 1) + DigitsValue(i)
    case Slot(This, i) => Get(m.ram, 3) + DigitsValue(i)
    case Slot(That, i) => Get(m.ram, 4) + DigitsValue(i)
  }

  /** The value `push t` pushes: the constant itself, or the slot's content. */
  function PushValue(t: Target, fileName: string, m: Machine, env: string -> int): int
    requires t.Slot? ==> Digits1(t.index)
  {
    if t.Slot? && t.segment == Constant then DigitsValue(t.index)
    else Get(m.ram, SlotAddr(t, fileName, m, env))
  }

  // ---------------------------------------------------------------------------
  // Stack primitives

  /** Pushing D stores it at the old top and advances SP. */
  lemma PushDEffect(m: Machine, env: string -> int)
    ensures Straight(PushD())
    ensures Exec(PushD(), m, env).ram == m.ram[0 := SP0(m) + 1][SP0(m) := m.d]
    ensures Exec(PushD(), m, env).d == m.d
  {
    Exec4(At(Reg(SP)), Assign(M, MPlusOne), Assign(A, MMinusOne), Assign(M, OfD), m, env);
  }

  /** Popping into D takes the value below SP and retreats SP. */
  lemma PopDEffect(m: Machine, env: string -> int)
    requires SP0(m) != 1
    ensures Straight(PopD())
    ensures Exec(PopD(), m, env).ram == m.ram[0 := SP0(m) - 1]
    ensures Exec(PopD(), m, env).d == Top(m)
    ensures Exec(PopD(), m, env).a == SP0(m) - 1
  {
    Exec4(At(Reg(SP)), Assign(M, MMinusOne), Assign(A, OfM), Assign(D, OfM), m, env);
  }

  /** A push block: code that loads D without writing memory, then PushD, then a blank
      line. It pushes the value the loading code leaves in D. */
  lemma PushBlockEffect(load: seq<AsmLine>, m: Machine, env: string -> int)
    requires Straight(load) && Exec(load, m, env).ram == m.ram
    ensures Straight(load + PushD() + [Blank])
    ensures Exec(load + PushD() + [Blank], m, env).ram
         == m.ram[0 := SP0(m) + 1][SP0(m) := Exec(load, m, env).d]
  {
    var m1 := Exec(load, m, env);
    PushDEffect(m1, env);
    ExecAppend(load, PushD(), m, env);
    ExecOne(Blank, Exec(load + PushD(), m, env), env);
    ExecAppend(load + PushD(), [Blank], m, env);
  }

  /** `push t` stores the pushed value at the old top of the stack and advances SP;
      no other cell changes. */
  lemma PushEffect(t: Target, fileName: string, m: Machine, env: string -> int)
    requires ValidTarget(t, true)
    ensures Straight(PushCode(t, fileName))
    ensures Exec(PushCode(t, fileName), m, env).ram
         == m.ram[0 := SP0(m) + 1][SP0(m) := PushValue(t, fileName, m, env)]
  {
    match t
    case Pointer(bit) => PushDirect(t, fileName, Reg(PointerRegister(bit)), m, env);
    case Slot(Constant, i) => PushConstant(i, fileName, m, env);
    case Slot(Temp, i) => PushDirect(t, fileName, Num(TempBase + DigitsValue(i)), m, env);
    case Slot(Static, i) => PushDirect(t, fileName, StaticName(fileName, i), m, env);
    case Slot(Argument, _) => PushIndirect(t, ARG, fileName, m, env);
    case Slot(Local, _) => PushIndirect(t, LCL, fileName, m, env);
    case Slot(This, _) => PushIndirect(t, THIS, fileName, m, env);
    case Slot(That, _) => PushIndirect(t, THAT, fileName, m, env);
  }

  /** Pushing a slot whose address the code names directly. */
  lemma PushDirect(t: Target, fileName: string, n: Name, m: Machine, env: string -> int)
    requires ValidTarget(t, true)
    requires t.Pointer? || t.segment == Temp || t.segment == Static
    requires PushCode(t, fileName) == [At(n), Assign(D, OfM)] + PushD() + [Blank]
    requires Addr(n, env) == SlotAddr(t, fileName, m, env)
    ensures Straight(PushCode(t, fileName))
    ensures Exec(PushCode(t, fileName), m, env).ram
         == m.ram[0 := SP0(m) + 1][SP0(m) := PushValue(t, fileName, m, env)]
  {
    Exec2(At(n), Assign(D, OfM), m, env);
    PushBlockEffect([At(n), Assign(D, OfM)], m, env);
  }

  lemma PushConstant(i: string, fileName: string, m: Machine, env: string -> int)
    requires Digits1(i)
    ensures Straight(PushCode(Slot(Constant, i), fileName))
    ensures Exec(PushCode(Slot(Constant, i), fileName), m, env).ram
         == m.ram[0 := SP0(m) + 1][SP0(m) := DigitsValue(i)]
  {
    Exec2(At(Text(i)), Assign(D, OfA), m, env);
    PushBlockEffect([At(Text(i)), Assign(D, OfA)], m, env);
  }

  /** Pushing a slot of a segment addressed through its base register `b`. */
  lemma PushIndirect(t: Target, b: Builtin, fileName: string, m: Machine, env: string -> int)
    requires t.Slot? && Digits1(t.index) && t.segment in {Argument, Local, This, That}
    requires SegmentRegister(t.segment) == b
    ensures Straight(PushCode(t, fileName))
    ensures Exec(PushCode(t, fileName), m, env).ram
         == m.ram[0 := SP0(m) + 1][SP0(m) := Get(m.ram, SlotAddr(t, fileName, m, env))]
  {
    var load := [At(Reg(b)), Assign(D, OfM), At(Text(t.index)), Assign(A, DPlusA), Assign(D, OfM)];
    Exec5(load[0], load[1], load[2], load[3], load[4], m, env);
    PushBlockEffect(load, m, env);
  }

  /** A pop into a cell the code names directly. */
  lemma PopDirectBlock(n: Name, m: Machine, env: string -> int)
    requires SP0(m) != 1
    ensures Straight(PopD() + [At(n), Assign(M, OfD), Blank])
    ensures Exec(PopD() + [At(n), Assign(M, OfD), Blank], m, env).ram
         == m.ram[0 := SP0(m) - 1][Addr(n, env) := Top(m)]
  {
    PopDEffect(m, env);
    Exec3(At(n), Assign(M, OfD), Blank, Exec(PopD(), m, env), env);
    ExecAppend(PopD(), [At(n), Assign(M, OfD), Blank], m, env);
  }

  /** A pop through R13: code that leaves the address in R13 without touching other
      cells, then PopD, then the store through R13. */
  lemma PopViaR13Block(prefix: seq<AsmLine>, addr: int, m: Machine, env: string -> int)
    requires Straight(prefix) && Exec(prefix, m, env).ram == m.ram[13 := addr]
    requires AboveRegisters(m)
    ensures Straight(prefix + PopD() + StoreViaR13() + [Blank])
    ensures Exec(prefix + PopD() + StoreViaR13() + [Blank], m, env).ram
         == m.ram[13 := addr][0 := SP0(m) - 1][addr := Top(m)]
  {
    var m1 := Exec(prefix, m, env);
    assert SP0(m1) == SP0(m) && Top(m1) == Top(m);
    PopDEffect(m1, env);
    ExecAppend(prefix, PopD(), m, env);
    var m2 := Exec(prefix + PopD(), m, env);
    assert Get(m2.ram, 13) == addr;
    Exec4(At(Reg(R13)), Assign(A, OfM), Assign(M, OfD), Blank, m2, env);
    assert StoreViaR13() + [Blank] == [At(Reg(R13)), Assign(A, OfM), Assign(M, OfD), Blank];
    ExecAppend(prefix + PopD(), StoreViaR13() + [Blank], m, env);
    assert prefix + PopD() + StoreViaR13() + [Blank] == prefix + PopD() + (StoreViaR13() + [Blank]);
  }

  /** The pops of temp and of the pointer-addressed segments keep the slot address in R13. */
  predicate UsesR13(t: Target) {
    t.Slot? && t.segment != Static
  }

  /** `pop t` moves the top of the stack into the slot and retreats SP; only R13 (for the
      slot address) and the slot change besides. */
  lemma PopEffect(t: Target, fileName: string, m: Machine, env: string -> int)
    requires ValidTarget(t, false)
    requires AboveRegisters(m)
    ensures Straight(PopCode(t, fileName))
    ensures
      var addr := SlotAddr(t, fileName, m, env);
      var scratch := if UsesR13(t) then m.ram[13 := addr] else m.ram;
      Exec(PopCode(t, fileName), m, env).ram == scratch[0 := SP0(m) - 1][addr := Top(m)]
  {
    match t
    case Pointer(bit) => PopDirectBlock(Reg(PointerRegister(bit)), m, env);
    case Slot(Static, i) => PopDirectBlock(StaticName(fileName, i), m, env);
    case Slot(Temp, i) => PopTemp(i, fileName, m, env);
    case Slot(Argument, _) => PopIndirect(t, ARG, fileName, m, env);
    case Slot(Local, _) => PopIndirect(t, LCL, fileName, m, env);
    case Slot(This, _) => PopIndirect(t, THIS, fileName, m, env);
    case Slot(That, _) => PopIndirect(t, THAT, fileName, m, env);
  }

  /** `push t` followed by `pop t` leaves SP and the slot as they were. The only other
      cells it may change are R13, which the pop uses as scratch, and the cell just
      above the stack, which the push wrote. */
  lemma PushThenPop(t: Target, fileName: string, m: Machine, env: string -> int)
    requires ValidTarget(t, false)
    requires AboveRegisters(m)
    ensures Straight(PushCode(t, fileName)) && Straight(PopCode(t, fileName))
    ensures
      var m2 := Exec(PopCode(t, fileName), Exec(PushCode(t, fileName), m, env), env);
      var addr := SlotAddr(t, fileName, m, env);
      SP0(m2) == SP0(m) && Get(m2.ram, addr) == Get(m.ram, addr)
      && forall i :: i != 13 && i != SP0(m) ==> Get(m2.ram, i) == Get(m.ram, i)
  {
    PushEffect(t, fileName, m, env);
    var m1 := Exec(PushCode(t, fileName), m, env);
    PopEffect(t, fileName, m1, env);
    assert Top(m1) == PushValue(t, fileName, m, env);
    assert SlotAddr(t, fileName, m1, env) == SlotAddr(t, fileName, m, env);
  }

  /** Popping into a slot of a segment addressed through its base register `b`. */
  lemma PopIndirect(t: Target, b: Builtin, fileName: string, m: Machine, env: string -> int)
    requires t.Slot? && Digits1(t.index) && t.segment in {Argument, Local, This, That}
    requires SegmentRegister(t.segment) == b
    requires AboveRegisters(m)
    ensures Straight(PopCode(t, fileName))
    ensures Exec(PopCode(t, fileName), m, env).ram
         == m.ram[13 := SlotAddr(t, fileName, m, env)][0 := SP0(m) - 1][SlotAddr(t, fileName, m, env) := Top(m)]
  {
    var prefix := [At(Reg(b)), Assign(D, OfM), At(Text(t.index)), Assign(D, DPlusA), At(Reg(R13)), Assign(M, OfD)];
    Exec6(prefix[0], prefix[1], prefix[2], prefix[3], prefix[4], prefix[5], m, env);
    PopViaR13Block(prefix, SlotAddr(t, fileName, m, env), m, env);
  }

  lemma PopTemp(i: string, fileName: string, m: Machine, env: string -> int)
    requires Digits1(i)
    requires AboveRegisters(m)
    ensures Straight(PopCode(Slot(Temp, i), fileName))
    ensures Exec(PopCode(Slot(Temp, i), fileName), m, env).ram
         == m.ram[13 := TempBase + DigitsValue(i)][0 := SP0(m) - 1][TempBase + DigitsValue(i) := Top(m)]
  {
    var n := Num(TempBase + DigitsValue(i));
    var prefix := [At(n), Assign(D, OfA), At(Reg(R13)), Assign(M, OfD)];
    assert PopCode(Slot(Temp, i), fileName) == prefix + PopD() + StoreViaR13() + [Blank];
    Exec4(At(n), Assign(D, OfA), At(Reg(R13)), Assign(M, OfD), m, env);
    assert Exec(prefix, m, env).ram == m.ram[13 := TempBase + DigitsValue(i)];
    PopViaR13Block(prefix, TempBase + DigitsValue(i), m, env);
  }

  // ---------------------------------------------------------------------------
  // Arithmetic

  /** The result of a unary operator on the virtual machine: `neg` negates and `not`
      complements every bit. */
  function UnaryValue(op: ArithOp, y: int): int
    requires Classify(op).Unary?
  {
    if op == Neg then -y else BitNot(y)
  }

  /** The bitwise complement in two's complement. */
  function BitNot(y: int): int {
    -y - 1
  }

  /** The result of a binary operator on the two top values, `x` below `y`. */
  function BinaryValue(op: ArithOp, x: int, y: int): int
    requires Classify(op).Binary?
  {
    match op
    case Add => x + y
    case Sub => x - y
    case And => BitAnd(x, y)
    case Or => BitOr(x, y)
  }

  /** `neg` and `not` replace the top of the stack by its image; nothing else changes. */
  lemma UnaryEffect(op: ArithOp, n: nat, m: Machine, env: string -> int)
    requires Classify(op).Unary?
    ensures Straight(ArithmeticCode(op, n))
    ensures Exec(ArithmeticCode(op, n), m, env).ram == m.ram[SP0(m) - 1 := UnaryValue(op, Top(m))]
  {
    assert ArithmeticCode(op, n) == UnaryCode(Classify(op).comp);
    UnaryOpEffect(op, m, env);
  }

  lemma UnaryOpEffect(op: ArithOp, m: Machine, env: string -> int)
    requires Classify(op).Unary?
    ensures Straight(UnaryCode(Classify(op).comp))
    ensures Exec(UnaryCode(Classify(op).comp), m, env).ram == m.ram[SP0(m) - 1 := UnaryValue(op, Top(m))]
  {
    var c := Classify(op).comp;
    Exec4(At(Reg(SP)), Assign(A, MMinusOne), Assign(M, c), Blank, m, env);
  }

  /** `add`, `sub`, `and` and `or` replace the two top values by the result and retreat SP;
      nothing else changes. */
  lemma BinaryEffect(op: ArithOp, n: nat, m: Machine, env: string -> int)
    requires Classify(op).Binary?
    requires AboveRegisters(m)
    ensures Straight(ArithmeticCode(op, n))
    ensures
      var sp := SP0(m);
      Exec(ArithmeticCode(op, n), m, env).ram
        == m.ram[0 := sp - 1][sp - 2 := BinaryValue(op, Get(m.ram, sp - 2), Top(m))]
  {
    assert ArithmeticCode(op, n) == BinaryCode(Classify(op).comp);
    BinaryOpEffect(op, m, env);
  }

  lemma BinaryOpEffect(op: ArithOp, m: Machine, env: string -> int)
    requires Classify(op).Binary?
    requires AboveRegisters(m)
    ensures Straight(BinaryCode(Classify(op).comp))
    ensures
      var sp := SP0(m);
      Exec(BinaryCode(Classify(op).comp), m, env).ram
        == m.ram[0 := sp - 1][sp - 2 := BinaryValue(op, Get(m.ram, sp - 2), Top(m))]
  {
    var sp := SP0(m);
    BinaryCodeEffect(Classify(op).comp, m, env);
    BinaryAlu(op, Machine(sp - 2, Top(m), m.ram));
  }

  /** The computation of a binary operator yields its result, with M the value below
      the top and D the top. */
  lemma BinaryAlu(op: ArithOp, m: Machine)
    requires Classify(op).Binary?
    ensures Alu(Classify(op).comp, m) == BinaryValue(op, Get(m.ram, m.a), m.d)
  {
  }

  /** The code of a binary operator computes `c` with M the value below the top and D
      the top. */
  lemma BinaryCodeEffect(c: Comp, m: Machine, env: string -> int)
    requires AboveRegisters(m)
    ensures Straight(BinaryCode(c))
    ensures
      var sp := SP0(m);
      Exec(BinaryCode(c), m, env).ram
        == m.ram[0 := sp - 1][sp - 2 := Alu(c, Machine(sp - 2, Top(m), m.ram))]
  {
    var sp := SP0(m);
    PopDEffect(m, env);
    var m1 := Exec(PopD(), m, env);
    var rest := [Assign(A, AMinusOne), Assign(D, c), Assign(M, OfD), Blank];
    Exec4(rest[0], rest[1], rest[2], rest[3], m1, env);
    ExecAppend(PopD(), rest, m, env);
    assert BinaryCode(c) == PopD() + rest;
    assert Get(m1.ram, sp - 2) == Get(m.ram, sp - 2);
  }

  // ---------------------------------------------------------------------------
  // Branching

  /** A `goto` or `if-goto` block is straight code, one jump to the label and a blank
      line. Before the jump, `goto` changes no memory; `if-goto` pops the top of the
      stack. The jump is taken always for `goto`, and for `if-goto` exactly when the
      popped value is not zero. */
  lemma GotoEffect(cmd: GotoCmd, dest: string, m: Machine, env: string -> int)
    requires cmd.IfGoto? ==> SP0(m) != 1
    ensures
      var code := GotoCode(cmd, dest);
      var k := |code| - 2;
      k >= 1 && code[k].Branch? && code[k + 1] == Blank && Straight(code[..k])
      && var m' := Exec(code[..k], m, env);
         m'.a == Addr(Text(dest), env)
         && m'.ram == (if cmd.PlainGoto? then m.ram else m.ram[0 := SP0(m) - 1])
         && (Taken(code[k], m') <==> cmd.PlainGoto? || Top(m) != 0)
  {
    var code := GotoCode(cmd, dest);
    var k := |code| - 2;
    match cmd
    case PlainGoto =>
      assert code[..k] == [At(Text(dest))];
      ExecOne(At(Text(dest)), m, env);
    case IfGoto =>
      assert code[..k] == PopD() + [At(Text(dest))];
      PopDEffect(m, env);
      ExecSnoc(PopD(), At(Text(dest)), m, env);
  }
}
