/**
 * Hack assembly as the translator writes it: one instruction or label
 * declaration per line, each line ended by a newline, with empty lines
 * separating the blocks of most VM commands.
 *
 * Symbols are kept structured (a predefined register, a number, a label the
 * translator makes from its counter, or text taken from the VM line) and are
 * turned into text only by `NameText`, so that facts about the code are
 * stated without reasoning about characters, and facts about the text are
 * proved once, about `NameText`.
 */
module Asm {
  import opened Strings

  /** The destination registers the generated code writes. */
  datatype Dest = A | D | M

  /** The computations the generated code uses, written as the translator writes them. */
  datatype Comp =
    | Zero | MinusOne | OfD | OfA | OfM | NotM | NegM
    | MPlusOne | MMinusOne | AMinusOne | DPlusA | DMinusA | DPlusOne
    | MPlusD | MMinusD | MOrD | MAndD

  datatype Jump = JMP | JNE | JEQ | JLT | JGT

  /** The predefined symbols the generated code names. */
  datatype Builtin = SP | LCL | ARG | THIS | THAT | R3 | R4 | R13 | R14 | R15

  /** The three comparisons; their names prefix the labels of a comparison block. */
  datatype Test = EQ | LT | GT

  /** A symbol of an `@` instruction or of a label declaration. */
  datatype Name =
    | Reg(reg: Builtin)
    | Num(value: nat)                          // a decimal constant or address
    | Text(text: string)                       // text copied from the VM line
    | StaticVar(file: string, index: string)   // the variable `file.index`
    | IfTrue(test: Test, stamp: nat)           // EQ_n: the comparison held
    | IfFalse(test: Test, stamp: nat)          // NEQ_n: the comparison failed
    | Done(stamp: nat)                         // CONT_n: after a comparison
    | ReturnAddr(callee: string, stamp: nat)   // callee$.n: where a call returns
  {
    /** A label the translator makes from its counter. */
    predicate IsStamped() {
      IfTrue? || IfFalse? || Done? || ReturnAddr?
    }
  }

  datatype AsmLine =
    | At(symbol: Name)                // @symbol
    | Assign(dest: Dest, comp: Comp)  // dest=comp
    | Branch(comp: Comp, jump: Jump)  // comp;jump
    | Declare(name: Name)             // (name)
    | Blank                           // an empty line

  function DestText(r: Dest): string {
    match r
    case A => "A"
    case D => "D"
    case M => "M"
  }

  function CompText(c: Comp): string {
    match c
    case Zero => "0" case MinusOne => "-1" case OfD => "D" case OfA => "A" case OfM => "M"
    case NotM => "!M" case NegM => "-M" case MPlusOne => "M+1" case MMinusOne => "M-1"
    case AMinusOne => "A-1" case DPlusA => "D+A" case DMinusA => "D-A" case DPlusOne => "D+1"
    case MPlusD => "M+D" case MMinusD => "M-D" case MOrD => "M|D" case MAndD => "M&D"
  }

  function JumpText(j: Jump): string {
    match j
    case JMP => "JMP" case JNE => "JNE" case JEQ => "JEQ" case JLT => "JLT" case JGT => "JGT"
  }

  function BuiltinText(b: Builtin): string {
    match b
    case SP => "SP" case LCL => "LCL" case ARG => "ARG" case THIS => "THIS" case THAT => "THAT"
    case R3 => "R3" case R4 => "R4" case R13 => "R13" case R14 => "R14" case R15 => "R15"
  }

  function TestText(t: Test): (s: string)
    ensures |s| == 2
  {
    match t
    case EQ => "EQ"
    case LT => "LT"
    case GT => "GT"
  }

  /** What a stamped label writes before its counter value. */
  function StampPrefix(n: Name): (p: string)
    requires n.IsStamped()
    ensures p != [] && (p[|p| - 1] == '_' || p[|p| - 1] == '.')
    ensures n.ReturnAddr? <==> p[|p| - 1] == '.'
  {
    match n
    case IfTrue(t, _) => TestText(t) + "_"
    case IfFalse(t, _) => "N" + TestText(t) + "_"
    case Done(_) => "CONT_"
    case ReturnAddr(callee, _) => callee + "$."
  }

  /** The text of a symbol. A stamped label is its prefix followed by the counter value. */
  function NameText(n: Name): (s: string)
    ensures n.IsStamped() ==> s == StampPrefix(n) + NatToString(n.stamp)
  {
    match n
    case Reg(b) => BuiltinText(b)
    case Num(v) => NatToString(v)
    case Text(t) => t
    case StaticVar(file, index) => ReplaceChar(file, '/', '.') + "." + index
    case IfTrue(_, k) => StampPrefix(n) + NatToString(k)
    case IfFalse(_, k) => StampPrefix(n) + NatToString(k)
    case Done(k) => StampPrefix(n) + NatToString(k)
    case ReturnAddr(_, k) => StampPrefix(n) + NatToString(k)
  }

  /** The text of one line, without its newline. */
  function LineText(l: AsmLine): string {
    match l
    case At(n) => "@" + NameText(n)
    case Assign(d, c) => DestText(d) + "=" + CompText(c)
    case Branch(c, j) => CompText(c) + ";" + JumpText(j)
    case Declare(n) => "(" + NameText(n) + ")"
    case Blank => ""
  }

  /** The text of one line with its newline. */
  function LineOut(l: AsmLine): string {
    LineText(l) + "\n"
  }

  /** The texts of the elements of `xs`, one after another. */
  function Concat<T>(xs: seq<T>, f: T -> string): (t: string)
    ensures xs == [] ==> t == []
  {
    if xs == [] then "" else Concat(xs[..|xs| - 1], f) + f(xs[|xs| - 1])
  }

  lemma {:induction false} ConcatAppend<T>(a: seq<T>, b: seq<T>, f: T -> string)
    ensures Concat(a + b, f) == Concat(a, f) + Concat(b, f)
    decreases |b|
  {
    if b == [] {
      assert a + b == a;
    } else {
      var b' := b[..|b| - 1];
      var x := b[|b| - 1];
      assert (a + b)[..|a + b| - 1] == a + b';
      assert (a + b)[|a + b| - 1] == x;
      ConcatAppend(a, b', f);
      assert Concat(a, f) + Concat(b', f) + f(x) == Concat(a, f) + (Concat(b', f) + f(x));
    }
  }

  /** The text of a sequence of lines: every line followed by a newline. */
  function Render(code: seq<AsmLine>): string {
    Concat(code, LineOut)
  }

  /** Rendering distributes over concatenation, so emitting blocks one after another
      writes the text of the whole program. */
  lemma RenderAppend(a: seq<AsmLine>, b: seq<AsmLine>)
    ensures Render(a + b) == Render(a) + Render(b)
  {
    ConcatAppend(a, b, LineOut);
  }

  /** The labels a piece of code declares, in order. */
  function Declared(code: seq<AsmLine>): (names: seq<Name>)
    ensures |names| <= |code|
    ensures forall n :: n in names <==> Declare(n) in code
  {
    if code == [] then []
    else
      var rest := Declared(code[..|code| - 1]);
      assert code == code[..|code| - 1] + [code[|code| - 1]];
      match code[|code| - 1]
      case Declare(n) => rest + [n]
      case _ => rest
  }

  lemma {:induction false} DeclaredAppend(a: seq<AsmLine>, b: seq<AsmLine>)
    ensures Declared(a + b) == Declared(a) + Declared(b)
    decreases |b|
  {
    if b == [] {
      assert a + b == a;
    } else {
      var b' := b[..|b| - 1];
      assert (a + b)[..|a + b| - 1] == a + b';
      assert (a + b)[|a + b| - 1] == b[|b| - 1];
      DeclaredAppend(a, b');
    }
  }

  // ---------------------------------------------------------------------------
  // The text of a stamped label determines the label

  /** The counter value of a stamped label is the run of digits its text ends with. */
  lemma StampDigits(n: Name)
    requires n.IsStamped()
    ensures SpanBack(NameText(n), Digit) == |NatToString(n.stamp)|
  {
    SpanBackOf(StampPrefix(n), NatToString(n.stamp), Digit);
  }

  /** Two stamped labels with the same text are the same label: labels made from
      different counter values, or of different kinds, never collide. */
  lemma StampedTextInjective(x: Name, y: Name)
    requires x.IsStamped() && y.IsStamped()
    requires NameText(x) == NameText(y)
    ensures x == y
  {
    var s := NameText(x);
    StampDigits(x);
    StampDigits(y);
    var k := |NatToString(x.stamp)|;
    assert NatToString(x.stamp) == s[|s| - k..] == NatToString(y.stamp);
    NatToStringInjective(x.stamp, y.stamp);
    assert StampPrefix(x) == s[..|s| - k] == StampPrefix(y);
    StampPrefixInjective(x, y);
  }

  /** Stamped labels with the same counter value and the same prefix are the same label. */
  lemma StampPrefixInjective(x: Name, y: Name)
    requires x.IsStamped() && y.IsStamped() && x.stamp == y.stamp
    requires StampPrefix(x) == StampPrefix(y)
    ensures x == y
  {
    var p := StampPrefix(x);
    if x.ReturnAddr? {
      assert x.callee == p[..|p| - 2] == y.callee;
    } else if x.IfTrue? {
      assert |p| == 3;
      assert TestText(x.test) == p[..2] == TestText(y.test);
    } else if x.IfFalse? {
      assert |p| == 4;
      assert TestText(x.test) == p[1..3] == TestText(y.test);
    } else {
      assert |p| == 5;
    }
  }
}
