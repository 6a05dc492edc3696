/**
 * The Hack computer, as far as the generated code needs it: the A and D
 * registers and the data memory, and the effect of each instruction that does
 * not jump. Memory cells never written read as 0. Words are unbounded
 * integers; `&` and `|` act on the low 16 bits of their operands and give a
 * 16-bit two's-complement result.
 */
module Hack {
  import opened Strings
  import opened Asm

  datatype Machine = Machine(a: int, d: int, ram: map<int, int>)

  /** The word at address `i`. */
  function Get(ram: map<int, int>, i: int): int {
    if i in ram then ram[i] else 0
  }

  /** The stack pointer, kept at address 0. */
  function SP0(m: Machine): int {
    Get(m.ram, 0)
  }

  /** The addresses of the predefined symbols. */
  function BuiltinAddr(b: Builtin): nat {
    match b
    case SP => 0 case LCL => 1 case ARG => 2 case THIS => 3 case THAT => 4
    case R3 => 3 case R4 => 4 case R13 => 13 case R14 => 14 case R15 => 15
  }

  /** The value `@n` loads into A. A symbol that is a decimal numeral is that number;
      any other symbol has the address `env` gives its text. */
  function Addr(n: Name, env: string -> int): int {
    match n
    case Reg(b) => BuiltinAddr(b)
    case Num(v) => v
    case Text(t) => if Digits1(t) then DigitsValue(t) else env(t)
    case _ => env(NameText(n))
  }

  /** The 16-bit two's-complement value of the low 16 bits of `x`. */
  function Signed16(x: int): int {
    var u := x % 0x1_0000;
    if u < 0x8000 then u else u - 0x1_0000
  }

  /** Bitwise and (`conj`) or bitwise or (not `conj`) of the low `k` bits of `x` and `y`. */
  function Bitwise(x: nat, y: nat, k: nat, conj: bool): nat {
    if k == 0 then 0
    else
      var xb, yb := x % 2 == 1, y % 2 == 1;
      var bit := if conj then xb && yb else xb || yb;
      2 * Bitwise(x / 2, y / 2, k - 1, conj) + (if bit then 1 else 0)
  }

  function BitAnd(x: int, y: int): int {
    Signed16(Bitwise(x % 0x1_0000, y % 0x1_0000, 16, true))
  }

  function BitOr(x: int, y: int): int {
    Signed16(Bitwise(x % 0x1_0000, y % 0x1_0000, 16, false))
  }

  /** The value a computation yields in state `m`. */
  function Alu(c: Comp, m: Machine): int {
    var mem := Get(m.ram, m.a);
    match c
    case Zero => 0 case MinusOne => -1 case OfD => m.d case OfA => m.a case OfM => mem
    case NotM => -mem - 1 case NegM => -mem case MPlusOne => mem + 1 case MMinusOne => mem - 1
    case AMinusOne => m.a - 1 case DPlusA => m.d + m.a case DMinusA => m.d - m.a
    case DPlusOne => m.d + 1 case MPlusD => mem + m.d case MMinusD => mem - m.d
    case MOrD => BitOr(mem, m.d) case MAndD => BitAnd(mem, m.d)
  }

  /** Whether a jump line `comp;jump` is taken in state `m`: the computed value is
      compared with zero, and `JMP` always jumps. */
  function Taken(l: AsmLine, m: Machine): bool
    requires l.Branch?
  {
    var v := Alu(l.comp, m);
    match l.jump
    case JMP => true
    case JNE => v != 0
    case JEQ => v == 0
    case JLT => v < 0
    case JGT => v > 0
  }

  /** Code with no jump: it runs from its first line to its last. */
  predicate Straight(code: seq<AsmLine>) {
    forall i :: 0 <= i < |code| ==> !code[i].Branch?
  }

  /** The effect of one line that does not jump. Labels and blank lines do nothing. */
  function Step(m: Machine, l: AsmLine, env: string -> int): Machine
    requires !l.Branch?
  {
    match l
    case At(n) => m.(a := Addr(n, env))
    case Assign(dest, c) =>
      var v := Alu(c, m);
      (match dest
       case A => m.(a := v)
       case D => m.(d := v)
       case M => m.(ram := m.ram[m.a := v]))
    case Declare(_) => m
    case Blank => m
  }

  /** The state after running straight-line code from `m`. */
  function Exec(code: seq<AsmLine>, m: Machine, env: string -> int): Machine
    requires Straight(code)
  {
    if code == [] then m
    else Step(Exec(code[..|code| - 1], m, env), code[|code| - 1], env)
  }

  /** Running two pieces one after the other is running their concatenation. */
  lemma {:induction false} ExecAppend(a: seq<AsmLine>, b: seq<AsmLine>, m: Machine, env: string -> int)
    requires Straight(a) && Straight(b)
    ensures Straight(a + b)
    ensures Exec(a + b, m, env) == Exec(b, Exec(a, m, env), env)
    decreases |b|
  {
    if b == [] {
      assert a + b == a;
    } else {
      var b' := b[..|b| - 1];
      assert (a + b)[..|a + b| - 1] == a + b';
      assert (a + b)[|a + b| - 1] == b[|b| - 1];
      ExecAppend(a, b', m, env);
    }
  }
  /** Running a single line is one step. */
  lemma ExecOne(l: AsmLine, m: Machine, env: string -> int)
    requires !l.Branch?
    ensures Straight([l]) && Exec([l], m, env) == Step(m, l, env)
  {
    assert [l][..0] == [];
  }

  /** Running `code` and then one more line. */
  lemma ExecSnoc(code: seq<AsmLine>, l: AsmLine, m: Machine, env: string -> int)
    requires Straight(code) && !l.Branch?
    ensures Straight(code + [l]) && Exec(code + [l], m, env) == Step(Exec(code, m, env), l, env)
  {
    assert (code + [l])[..|code|] == code;
  }

  // Running short pieces of code given line by line

  lemma Exec2(l0: AsmLine, l1: AsmLine, m: Machine, env: string -> int)
    requires !l0.Branch? && !l1.Branch?
    ensures Straight([l0, l1])
    ensures Exec([l0, l1], m, env) == Step(Step(m, l0, env), l1, env)
  {
    ExecOne(l0, m, env);
    ExecSnoc([l0], l1, m, env);
  }

  lemma Exec3(l0: AsmLine, l1: AsmLine, l2: AsmLine, m: Machine, env: string -> int)
    requires !l0.Branch? && !l1.Branch? && !l2.Branch?
    ensures Straight([l0, l1, l2])
    ensures Exec([l0, l1, l2], m, env) == Step(Step(Step(m, l0, env), l1, env), l2, env)
  {
    Exec2(l0, l1, m, env);
    ExecSnoc([l0, l1], l2, m, env);
    assert [l0, l1] + [l2] == [l0, l1, l2];
  }

  lemma Exec4(l0: AsmLine, l1: AsmLine, l2: AsmLine, l3: AsmLine, m: Machine, env: string -> int)
    requires !l0.Branch? && !l1.Branch? && !l2.Branch? && !l3.Branch?
    ensures Straight([l0, l1, l2, l3])
    ensures Exec([l0, l1, l2, l3], m, env) == Step(Step(Step(Step(m, l0, env), l1, env), l2, env), l3, env)
  {
    Exec3(l0, l1, l2, m, env);
    ExecSnoc([l0, l1, l2], l3, m, env);
    assert [l0, l1, l2] + [l3] == [l0, l1, l2, l3];
  }

  lemma Exec5(l0: AsmLine, l1: AsmLine, l2: AsmLine, l3: AsmLine, l4: AsmLine, m: Machine, env: string -> int)
    requires !l0.Branch? && !l1.Branch? && !l2.Branch? && !l3.Branch? && !l4.Branch?
    ensures Straight([l0, l1, l2, l3, l4])
    ensures Exec([l0, l1, l2, l3, l4], m, env) == Step(Step(Step(Step(Step(m, l0, env), l1, env), l2, env), l3, env), l4, env)
  {
    Exec4(l0, l1, l2, l3, m, env);
    ExecSnoc([l0, l1, l2, l3], l4, m, env);
    assert [l0, l1, l2, l3] + [l4] == [l0, l1, l2, l3, l4];
  }

  lemma Exec6(l0: AsmLine, l1: AsmLine, l2: AsmLine, l3: AsmLine, l4: AsmLine, l5: AsmLine, m: Machine, env: string -> int)
    requires !l0.Branch? && !l1.Branch? && !l2.Branch? && !l3.Branch? && !l4.Branch? && !l5.Branch?
    ensures Straight([l0, l1, l2, l3, l4, l5])
    ensures Exec([l0, l1, l2, l3, l4, l5], m, env) == Step(Step(Step(Step(Step(Step(m, l0, env), l1, env), l2, env), l3, env), l4, env), l5, env)
  {
    Exec5(l0, l1, l2, l3, l4, m, env);
    ExecSnoc([l0, l1, l2, l3, l4], l5, m, env);
    assert [l0, l1, l2, l3, l4] + [l5] == [l0, l1, l2, l3, l4, l5];
  }

  lemma Exec7(l0: AsmLine, l1: AsmLine, l2: AsmLine, l3: AsmLine, l4: AsmLine, l5: AsmLine, l6: AsmLine, m: Machine, env: string -> int)
    requires !l0.Branch? && !l1.Branch? && !l2.Branch? && !l3.Branch? && !l4.Branch? && !l5.Branch? && !l6.Branch?
    ensures Straight([l0, l1, l2, l3, l4, l5, l6])
    ensures Exec([l0, l1, l2, l3, l4, l5, l6], m, env) == Step(Step(Step(Step(Step(Step(Step(m, l0, env), l1, env), l2, env), l3, env), l4, env), l5, env), l6, env)
  {
    Exec6(l0, l1, l2, l3, l4, l5, m, env);
    ExecSnoc([l0, l1, l2, l3, l4, l5], l6, m, env);
    assert [l0, l1, l2, l3, l4, l5] + [l6] == [l0, l1, l2, l3, l4, l5, l6];
  }
}
