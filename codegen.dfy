/**
 * Code generation (`generateCode` in src/translator.ts): the Hack assembly a
 * token becomes, given the name of the file being translated, the label
 * counter and the table of declared functions.
 *
 * The translator changes its label counter as it generates code; here the
 * generator returns the new counter value beside the code (`Block.next`), and
 * the `Translator` class stores it. A failure is returned as an `Error` value
 * where the source throws.
 */
module Codegen {
  import opened Wrappers
  import opened Strings
  import opened Instructions
  import opened Asm

  /** The three exceptions the translator throws. */
  datatype Error =
    | SyntaxError(line: string, lineNum: nat, file: string)  // a line no pattern accepts
    | ReferenceError(name: string)                          // a call of an undeclared function
    | TypeError(kind: Option<Command>)                      // a token generateCode has no case for

  /** The `type` string of a token. */
  function CommandName(k: Command): string {
    match k
    case ArithmeticKind => "arithmetic" case CommentKind => "comment" case CallKind => "call"
    case FunctionKind => "function" case ReturnKind => "return" case GotoKind => "goto"
    case LabelKind => "label" case PopKind => "pop" case PushKind => "push"
  }

  /** The message of each exception. A token without a type prints as `undefined`. */
  function Message(e: Error): (m: string)
    ensures e.SyntaxError? ==> "Invalid expression \"" + e.line + "\" at line " <= m
    ensures e.ReferenceError? ==> m == "function " + e.name + " is not defined"
    ensures e.TypeError? ==> "Invalid token type " <= m
  {
    match e
    case SyntaxError(line, n, file) =>
      "Invalid expression \"" + line + "\" at line " + NatToString(n) + " in file: " + file
    case ReferenceError(name) => "function " + name + " is not defined"
    case TypeError(k) =>
      "Invalid token type " + (if k.Some? then CommandName(k.value) else "undefined")
  }

  /** The table of declared functions: the local-variable count of each, as written. */
  type Scope = map<string, string>

  /** Every count in the table is a digit string, as the function pattern captures it. */
  predicate ScopeValid(scope: Scope) {
    forall name :: name in scope ==> Digits1(scope[name])
  }

  /** The code for one token and the label counter after it. */
  datatype Block = Block(code: seq<AsmLine>, next: nat)

  // ---------------------------------------------------------------------------
  // The symbol table of the translator

  /** The register holding the base address of a segment addressed through a pointer
      (`constant` names the stack pointer). Temp and static are addressed directly. */
  function SegmentRegister(seg: Segment): (b: Builtin)
    requires seg != Temp && seg != Static
    ensures b == SP <==> seg == Constant
  {
    match seg
    case Constant => SP
    case Argument => ARG
    case Local => LCL
    case This => THIS
    case That => THAT
  }

  /** The first address of the temp segment. */
  const TempBase: nat := 5

  /** The cells a call saves below the callee's locals: the return address, LCL, ARG,
      THIS and THAT. */
  const FrameSize: nat := 5

  /** How an operator is translated: a unary operation on the top of the stack,
      a comparison that branches, or a binary operation on the two top values. */
  datatype OpClass = Unary(comp: Comp) | Compare(test: Test) | Binary(comp: Comp)

  function Classify(op: ArithOp): (c: OpClass)
    ensures c.Unary? <==> op == Neg || op == Not
    ensures c.Compare? <==> op == Eq || op == Lt || op == Gt
  {
    match op
    case Neg => Unary(NegM)
    case Not => Unary(NotM)
    case Eq => Compare(EQ)
    case Lt => Compare(LT)
    case Gt => Compare(GT)
    case Add => Binary(MPlusD)
    case Sub => Binary(MMinusD)
    case Or => Binary(MOrD)
    case And => Binary(MAndD)
  }

  function TestJump(t: Test): Jump {
    match t
    case EQ => JEQ
    case LT => JLT
    case GT => JGT
  }

  /** The operators whose code uses the label counter. */
  predicate IsCompare(op: ArithOp) {
    Classify(op).Compare?
  }

  // ---------------------------------------------------------------------------
  // Pieces of code

  /** Push D onto the stack. */
  function PushD(): seq<AsmLine> {
    [At(Reg(SP)), Assign(M, MPlusOne), Assign(A, MMinusOne), Assign(M, OfD)]
  }

  /** Pop the top of the stack into D. */
  function PopD(): seq<AsmLine> {
    [At(Reg(SP)), Assign(M, MMinusOne), Assign(A, OfM), Assign(D, OfM)]
  }

  /** Push the constant zero: one local variable of a called function. */
  function PushZero(): seq<AsmLine> {
    [At(Reg(SP)), Assign(M, MPlusOne), Assign(A, MMinusOne), Assign(M, Zero)]
  }

  /** `code` written `k` times. */
  function Repeat(code: seq<AsmLine>, k: nat): (r: seq<AsmLine>)
    ensures |r| == k * |code|
  {
    if k == 0 then [] else Repeat(code, k - 1) + code
  }

  /** Pop the second value into D, leaving A at the new top of the stack. */
  function PopOperands(): seq<AsmLine> {
    PopD() + [Assign(A, AMinusOne)]
  }

  /** Store the value D holds at the address R13 holds. */
  function StoreViaR13(): seq<AsmLine> {
    [At(Reg(R13)), Assign(A, OfM), Assign(M, OfD)]
  }

  // ---------------------------------------------------------------------------
  // Arithmetic

  function UnaryCode(c: Comp): seq<AsmLine> {
    [At(Reg(SP)), Assign(A, MMinusOne), Assign(M, c), Blank]
  }

  function BinaryCode(c: Comp): seq<AsmLine> {
    PopOperands() + [Assign(D, c), Assign(M, OfD), Blank]
  }

  /** Subtract, jump to IfTrue when the test holds, else to IfFalse. */
  function CompareTest(t: Test, n: nat): seq<AsmLine> {
    PopOperands() + [Assign(D, MMinusD), At(IfTrue(t, n)), Branch(OfD, TestJump(t)),
      At(IfFalse(t, n)), Branch(Zero, JMP)]
  }

  /** IfTrue: the result is -1 (true); then jump to Done. */
  function CompareTrue(t: Test, n: nat): seq<AsmLine> {
    [Declare(IfTrue(t, n)), At(Reg(SP)), Assign(A, MMinusOne), Assign(M, MinusOne),
     At(Done(n)), Branch(Zero, JMP)]
  }

  /** IfFalse: the result is 0 (false); then Done. */
  function CompareFalse(t: Test, n: nat): seq<AsmLine> {
    [Declare(IfFalse(t, n)), At(Reg(SP)), Assign(A, MMinusOne), Assign(M, Zero),
     Declare(Done(n)), Blank]
  }

  function CompareCode(t: Test, n: nat): seq<AsmLine> {
    CompareTest(t, n) + CompareTrue(t, n) + CompareFalse(t, n)
  }

  function ArithmeticCode(op: ArithOp, n: nat): seq<AsmLine> {
    match Classify(op)
    case Unary(c) => UnaryCode(c)
    case Compare(t) => CompareCode(t, n)
    case Binary(c) => BinaryCode(c)
  }

  // ---------------------------------------------------------------------------
  // Functions

  /** Load D with `c` after `@n`, and push it. */
  function PushFrom(n: Name, c: Comp): seq<AsmLine> {
    [At(n), Assign(D, c)] + PushD()
  }

  /** Push the contents of the registers `regs`, in order. */
  function PushRegisters(regs: seq<Builtin>): seq<AsmLine> {
    if regs == [] then []
    else PushRegisters(regs[..|regs| - 1]) + PushFrom(Reg(regs[|regs| - 1]), OfM)
  }

  /** The segment pointers a call saves, in the order it pushes them. */
  const SavedPointers: seq<Builtin> := [LCL, ARG, THIS, THAT]

  /** Push the return address and the four segment pointers of the caller. */
  function SaveFrame(ret: Name): seq<AsmLine> {
    PushFrom(ret, OfA) + PushRegisters(SavedPointers)
  }

  /** LCL := SP. */
  function SetLocal(): seq<AsmLine> {
    [At(Reg(SP)), Assign(D, OfM), At(Reg(LCL)), Assign(M, OfD)]
  }

  /** ARG := SP - offset. */
  function SetArgument(offset: nat): seq<AsmLine> {
    [At(Reg(SP)), Assign(D, OfM), At(Num(offset)), Assign(D, DMinusA), At(Reg(ARG)), Assign(M, OfD)]
  }

  /** The part of a call that runs before the jump to the callee. */
  function CallSetup(args: nat, locals: nat, ret: Name): seq<AsmLine> {
    SaveFrame(ret) + SetLocal() + Repeat(PushZero(), locals) + SetArgument(FrameSize + args + locals)
  }

  /** A call of `name` with `args` arguments, to a function with `vars` locals; `n` is the
      counter value stamped on the return address. */
  function CallCode(name: string, args: string, vars: string, n: nat): seq<AsmLine>
    requires All(args, Digit) && All(vars, Digit)
  {
    var ret := ReturnAddr(name, n);
    CallSetup(DigitsValue(args), DigitsValue(vars), ret)
    + [At(Text(name)), Branch(Zero, JMP), Declare(ret), Blank]
  }

  /** Restore the caller's segment pointer `b` from the frame and step R14 to the next slot. */
  function RestoreNext(b: Builtin): seq<AsmLine> {
    [At(Reg(R14)), Assign(A, OfM), Assign(D, OfM), At(Reg(b)), Assign(M, OfD),
     At(Reg(R14)), Assign(M, MPlusOne)]
  }

  /** R13 := ARG, where the return value will go. */
  function SaveArgument(): seq<AsmLine> {
    [At(Reg(ARG)), Assign(D, OfM), At(Reg(R13)), Assign(M, OfD)]
  }

  /** R14 := LCL - 5, the first slot of the frame the call saved. */
  function FrameBase(): seq<AsmLine> {
    [At(Reg(LCL)), Assign(D, OfM), At(Num(5)), Assign(D, DMinusA), At(Reg(R14)), Assign(M, OfD)]
  }

  /** Restore the last saved pointer, THAT, from the frame. */
  function RestoreLast(): seq<AsmLine> {
    [At(Reg(R14)), Assign(A, OfM), Assign(D, OfM), At(Reg(THAT)), Assign(M, OfD)]
  }

  /** Store the top of the stack at the address R13 holds. */
  function MoveResult(): seq<AsmLine> {
    [At(Reg(SP)), Assign(A, MMinusOne), Assign(D, OfM)] + StoreViaR13()
  }

  /** SP := R13 + 1, just above the returned value. */
  function ResetStack(): seq<AsmLine> {
    [At(Reg(R13)), Assign(D, OfM), At(Reg(SP)), Assign(M, DPlusOne)]
  }

  /** Restore the registers `regs`, in order, from consecutive frame slots. */
  function RestoreRegisters(regs: seq<Builtin>): seq<AsmLine> {
    if regs == [] then []
    else RestoreRegisters(regs[..|regs| - 1]) + RestoreNext(regs[|regs| - 1])
  }

  /** What a return restores before THAT: the return address (into R15), LCL, ARG, THIS. */
  const RestoredFirst: seq<Builtin> := [R15, LCL, ARG, THIS]

  /** The part of a return that runs before the jump back to the caller. */
  function ReturnSetup(): seq<AsmLine> {
    SaveArgument() + FrameBase() + RestoreRegisters(RestoredFirst) + RestoreLast() +
    MoveResult() + ResetStack()
  }

  function ReturnCode(): seq<AsmLine> {
    ReturnSetup() + [At(Reg(R15)), Assign(A, OfM), Branch(Zero, JMP)]
  }

  // ---------------------------------------------------------------------------
  // Branching

  function GotoCode(cmd: GotoCmd, dest: string): seq<AsmLine> {
    match cmd
    case PlainGoto => [At(Text(dest)), Branch(Zero, JMP), Blank]
    case IfGoto => PopD() + [At(Text(dest)), Branch(OfD, JNE), Blank]
  }

  // ---------------------------------------------------------------------------
  // Memory access

  /** The register `pointer 0` and `pointer 1` name. */
  function PointerRegister(bit: char): Builtin {
    if bit == '0' then R3 else R4
  }

  /** The name of static variable `index` of file `fileName`. */
  function StaticName(fileName: string, index: string): Name {
    StaticVar(fileName, index)
  }

  function PushCode(t: Target, fileName: string): seq<AsmLine>
    requires t.Slot? ==> All(t.index, Digit)
  {
    match t
    case Pointer(bit) => [At(Reg(PointerRegister(bit))), Assign(D, OfM)] + PushD() + [Blank]
    case Slot(Constant, i) => [At(Text(i)), Assign(D, OfA)] + PushD() + [Blank]
    case Slot(Temp, i) => [At(Num(TempBase + DigitsValue(i))), Assign(D, OfM)] + PushD() + [Blank]
    case Slot(Static, i) => [At(StaticName(fileName, i)), Assign(D, OfM)] + PushD() + [Blank]
    case Slot(seg, i) =>
      [At(Reg(SegmentRegister(seg))), Assign(D, OfM), At(Text(i)), Assign(A, DPlusA), Assign(D, OfM)]
      + PushD() + [Blank]
  }

  function PopCode(t: Target, fileName: string): seq<AsmLine>
    requires t.Slot? ==> All(t.index, Digit)
  {
    match t
    case Pointer(bit) => PopD() + [At(Reg(PointerRegister(bit))), Assign(M, OfD), Blank]
    case Slot(Temp, i) =>
      [At(Num(TempBase + DigitsValue(i))), Assign(D, OfA), At(Reg(R13)), Assign(M, OfD)]
      + PopD() + StoreViaR13() + [Blank]
    case Slot(Static, i) => PopD() + [At(StaticName(fileName, i)), Assign(M, OfD), Blank]
    case Slot(seg, i) =>
      [At(Reg(SegmentRegister(seg))), Assign(D, OfM), At(Text(i)), Assign(D, DPlusA),
       At(Reg(R13)), Assign(M, OfD)]
      + PopD() + StoreViaR13() + [Blank]
  }

  // ---------------------------------------------------------------------------
  // The generator

  /** The code of `tok`, or the exception `generateCode` throws for it. */
  function Generate(tok: Option<Instruction>, fileName: string, counter: nat, scope: Scope): (r: Result<Block, Error>)
    requires tok.Some? ==> WellFormed(tok.value)
    requires ScopeValid(scope)
  {
    match tok
    case None => Err(TypeError(None))
    case Some(i) =>
      match i
      case Arithmetic(op) =>
        Ok(Block(ArithmeticCode(op, counter), if IsCompare(op) then counter + 1 else counter))
      case Comment => Err(TypeError(Some(CommentKind)))
      case Call(name, args) =>
        if name in scope && scope[name] != "" then
          Ok(Block(CallCode(name, args, scope[name], counter), counter + 1))
        else Err(ReferenceError(name))
      case Function(name, _) => Ok(Block([Declare(Text(name))], counter))
      case Return => Ok(Block(ReturnCode(), counter))
      case Goto(cmd, dest) => Ok(Block(GotoCode(cmd, dest), counter))
      case Label(name) => Ok(Block([Declare(Text(name))], counter))
      case Pop(t) => Ok(Block(PopCode(t, fileName), counter))
      case Push(t) => Ok(Block(PushCode(t, fileName), counter))
  }
}
