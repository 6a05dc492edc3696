/**
 * The instruction grammar of the Hack VM language (src/instructions.ts): nine
 * anchored line patterns, one per command kind, written as recognisers.
 *
 * A recogniser returns the named groups of its pattern as an Instruction, or
 * None when the pattern does not match. It is built from greedy scanning
 * stages (`AfterPrefix`, `Run1`, `NameRun`); none of the patterns can gain
 * anything by backtracking, because every run is followed by a character
 * outside its class. Beside each recogniser a predicate states the language
 * of the pattern as a decomposition of the line into keyword, whitespace runs,
 * fields and tail, and a lemma shows that the recogniser accepts exactly the
 * lines of that language and captures exactly its fields.
 */
module Instructions {
  import opened Wrappers
  import opened Strings

  /** The command kinds, in the order the translator tries the patterns. */
  datatype Command =
    | ArithmeticKind | CommentKind | CallKind | FunctionKind | ReturnKind
    | GotoKind | LabelKind | PopKind | PushKind

  datatype ArithOp = Add | Sub | Neg | Eq | Or | Not | And | Lt | Gt

  datatype Segment = Constant | Argument | Local | This | That | Temp | Static

  /** The operand of push and pop: a segment with a digit-string index, or `pointer` with bit 0 or 1. */
  datatype Target = Slot(segment: Segment, index: string) | Pointer(bit: char)

  datatype GotoCmd = PlainGoto | IfGoto

  /** A token with a type; its fields are the named groups of the pattern that matched. */
  datatype Instruction =
    | Arithmetic(op: ArithOp)
    | Comment
    | Call(name: string, args: string)
    | Function(name: string, vars: string)
    | Return
    | Goto(cmd: GotoCmd, dest: string)
    | Label(name: string)
    | Pop(target: Target)
    | Push(target: Target)
  {
    function Kind(): Command {
      match this
      case Arithmetic(_) => ArithmeticKind
      case Comment => CommentKind
      case Call(_, _) => CallKind
      case Function(_, _) => FunctionKind
      case Return => ReturnKind
      case Goto(_, _) => GotoKind
      case Label(_) => LabelKind
      case Pop(_) => PopKind
      case Push(_) => PushKind
    }
  }

  function OpName(op: ArithOp): (w: string)
    ensures |w| > 0 && All(w, Letter)
  {
    match op
    case Add => "add" case Sub => "sub" case Neg => "neg"
    case Eq => "eq" case Or => "or" case Not => "not"
    case And => "and" case Lt => "lt" case Gt => "gt"
  }

  /** The operator a whole word names, if any. */
  function OpNamed(w: string): (r: Option<ArithOp>)
    ensures r.Some? ==> OpName(r.value) == w
    ensures forall op :: OpName(op) == w ==> r == Some(op)
  {
    if w == "add" then Some(Add) else if w == "sub" then Some(Sub)
    else if w == "neg" then Some(Neg) else if w == "eq" then Some(Eq)
    else if w == "or" then Some(Or) else if w == "not" then Some(Not)
    else if w == "and" then Some(And) else if w == "lt" then Some(Lt)
    else if w == "gt" then Some(Gt) else None
  }

  function SegmentName(seg: Segment): string {
    match seg
    case Constant => "constant" case Argument => "argument" case Local => "local"
    case This => "this" case That => "that" case Temp => "temp" case Static => "static"
  }

  /** The segment a whole word names, if any. */
  function SegmentNamed(w: string): (r: Option<Segment>)
    ensures r.Some? ==> SegmentName(r.value) == w
    ensures forall seg :: SegmentName(seg) == w ==> r == Some(seg)
  {
    if w == "constant" then Some(Constant) else if w == "argument" then Some(Argument)
    else if w == "local" then Some(Local) else if w == "this" then Some(This)
    else if w == "that" then Some(That) else if w == "temp" then Some(Temp)
    else if w == "static" then Some(Static) else None
  }

  function GotoName(cmd: GotoCmd): string {
    match cmd
    case PlainGoto => "goto"
    case IfGoto => "if-goto"
  }

  // ---------------------------------------------------------------------------
  // Shapes of fields and tails

  /** The optional trailing comment every pattern ends with: nothing, or a non-empty
      run of whitespace, `//`, and a rest free of line terminators (`.` does not match
      them and the pattern is anchored at the end). */
  predicate CommentTail(t: string) {
    t == [] ||
    var k := Span(t, Space);
    0 < k && "//" <= t[k..] && All(t[k + 2..], NonTerminator)
  }

  /** The tail of `return`, `call` and `function` lines: optional whitespace, then the
      optional comment; that is, only whitespace, or a comment tail. */
  predicate SpacedTail(t: string) {
    All(t, Space) || CommentTail(t)
  }

  /** A callee name: one character of the ASCII range `A`..`z` (which also holds
      `[ \ ] ^ _` and the backquote), then at least one of letters, digits, `_`, `$`, `.`. */
  predicate CallName(name: string) {
    |name| >= 2 && In(name[0], AToz) && All(name[1..], NameChar)
  }

  /** A declared function name: a letter, then at least one of letters, digits, `_`, `$`, `.`. */
  predicate FunctionName(name: string) {
    |name| >= 2 && IsLetter(name[0]) && All(name[1..], NameChar)
  }

  /** A label: runs of word characters joined by single `.` or `$`. */
  predicate LabelName(l: string) {
    |l| > 0 && IsWordChar(l[0]) && IsWordChar(l[|l| - 1]) && All(l, NameChar)
    && forall i :: 0 <= i < |l| - 1 && !IsWordChar(l[i]) ==> IsWordChar(l[i + 1])
  }

  /** The operand forms a push (`withConstant`) or a pop (not `withConstant`) accepts. */
  predicate ValidTarget(t: Target, withConstant: bool) {
    match t
    case Slot(seg, index) => Digits1(index) && (withConstant || seg != Constant)
    case Pointer(bit) => bit == '0' || bit == '1'
  }

  /** The field values a successful match can produce. */
  predicate WellFormed(i: Instruction) {
    match i
    case Call(name, args) => CallName(name) && Digits1(args)
    case Function(name, vars) => FunctionName(name) && Digits1(vars)
    case Goto(_, dest) => LabelName(dest)
    case Label(name) => LabelName(name)
    case Pop(t) => ValidTarget(t, false)
    case Push(t) => ValidTarget(t, true)
    case _ => true
  }

  lemma TailStartsWithSpace(t: string)
    requires SpacedTail(t) && t != []
    ensures IsSpace(t[0])
  {
  }

  // ---------------------------------------------------------------------------
  // Shared stages

  /** A name whose first character has class `first` followed by a greedy run of name
      characters, and what follows it. */
  function NameRun(s: string, first: CharClass): (r: Option<(string, string)>)
    ensures r.Some? ==> s == r.value.0 + r.value.1
    ensures r.Some? ==> |r.value.0| >= 2 && In(r.value.0[0], first) && All(r.value.0[1..], NameChar)
    ensures r.Some? ==> r.value.1 == [] || !IsNameChar(r.value.1[0])
  {
    if s == [] || !In(s[0], first) then None
    else
      match Run1(s[1..], NameChar)
      case None => None
      case Some((more, rest)) =>
        var name := [s[0]] + more;
        assert name[1..] == more;
        assert s == name + rest;
        Some((name, rest))
  }

  lemma NameRunOf(name: string, rest: string, first: CharClass)
    requires |name| >= 2 && In(name[0], first) && All(name[1..], NameChar)
    requires rest == [] || !IsNameChar(rest[0])
    ensures NameRun(name + rest, first) == Some((name, rest))
  {
    var s := name + rest;
    assert s[1..] == name[1..] + rest;
    Run1Of(name[1..], rest, NameChar);
    assert [s[0]] + name[1..] == name;
  }

  /** The `call` and `function` patterns: keyword `kw`, whitespace, then a name whose first
      character has class `first`, whitespace, a count and its tail. */
  function NameAndCount(s: string, kw: string, first: CharClass): (r: Option<(string, string)>)
    ensures r.Some? ==> |r.value.0| >= 2 && In(r.value.0[0], first) && All(r.value.0[1..], NameChar)
    ensures r.Some? ==> Digits1(r.value.1)
  {
    match AfterPrefix(s, kw)
    case None => None
    case Some(r1) =>
      match Run1(r1, Space)
      case None => None
      case Some((_, r2)) => NameThenCount(r2, first)
  }

  /** The middle stage of `NameAndCount`: the name, whitespace, then the count and its tail. */
  function NameThenCount(r: string, first: CharClass): (nc: Option<(string, string)>)
    ensures nc.Some? ==> |nc.value.0| >= 2 && In(nc.value.0[0], first) && All(nc.value.0[1..], NameChar)
    ensures nc.Some? ==> Digits1(nc.value.1)
  {
    match NameRun(r, first)
    case None => None
    case Some((name, r3)) =>
      match Run1(r3, Space)
      case None => None
      case Some((_, r4)) =>
        match CountAndTail(r4)
        case None => None
        case Some(count) => Some((name, count))
  }

  /** The last stage of `NameAndCount`: a digit count, then a spaced tail. */
  function CountAndTail(r: string): (count: Option<string>)
    ensures count.Some? ==> Digits1(count.value)
  {
    match Run1(r, Digit)
    case None => None
    case Some((count, tail)) => if SpacedTail(tail) then Some(count) else None
  }

  /** The language of `NameAndCount`, as a decomposition of the line. */
  predicate NameAndCountLine(s: string, kw: string, first: CharClass,
                             w1: string, name: string, w2: string, count: string, tail: string)
  {
    s == kw + (w1 + (name + (w2 + (count + tail))))
    && Spaces1(w1) && |name| >= 2 && In(name[0], first) && All(name[1..], NameChar)
    && Spaces1(w2) && Digits1(count) && SpacedTail(tail)
  }

  lemma NameAndCountComplete(s: string, kw: string, first: CharClass,
                             w1: string, name: string, w2: string, count: string, tail: string)
    requires first == AToz || first == Letter
    requires NameAndCountLine(s, kw, first, w1, name, w2, count, tail)
    ensures NameAndCount(s, kw, first) == Some((name, count))
  {
    if tail != [] {
      TailStartsWithSpace(tail);
    }
    Run1Of(count, tail, Digit);
    NameThenCountStages(first, name, w2, count + tail);
    assert !IsSpace(name[0]);
    NameAndCountStages(kw, first, w1, name + (w2 + (count + tail)));
  }

  /** The keyword and first whitespace run of `NameAndCount`. */
  lemma NameAndCountStages(kw: string, first: CharClass, w1: string, r: string)
    requires Spaces1(w1)
    requires r == [] || !IsSpace(r[0])
    ensures NameAndCount(kw + (w1 + r), kw, first) == NameThenCount(r, first)
  {
    AfterPrefixOf(kw, w1 + r);
    Run1Of(w1, r, Space);
  }

  /** The name and second whitespace run of `NameAndCount`. */
  lemma NameThenCountStages(first: CharClass, name: string, w2: string, r: string)
    requires |name| >= 2 && In(name[0], first) && All(name[1..], NameChar) && Spaces1(w2)
    requires r == [] || !IsSpace(r[0])
    ensures NameThenCount(name + (w2 + r), first) ==
            match CountAndTail(r) case None => None case Some(count) => Some((name, count))
  {
    NameRunOf(name, w2 + r, first);
    Run1Of(w2, r, Space);
  }

  lemma NameAndCountSound(s: string, kw: string, first: CharClass) returns (w1: string, w2: string, tail: string)
    requires NameAndCount(s, kw, first).Some?
    ensures NameAndCountLine(s, kw, first, w1, NameAndCount(s, kw, first).value.0, w2,
                             NameAndCount(s, kw, first).value.1, tail)
  {
    var r2 := Run1(AfterPrefix(s, kw).value, Space).value.1;
    w1 := Run1(AfterPrefix(s, kw).value, Space).value.0;
    w2, tail := NameThenCountSound(r2, first);
  }

  lemma NameThenCountSound(r: string, first: CharClass) returns (w2: string, tail: string)
    requires NameThenCount(r, first).Some?
    ensures var (name, count) := NameThenCount(r, first).value;
            r == name + (w2 + (count + tail)) && Spaces1(w2) && SpacedTail(tail)
  {
    var r3 := NameRun(r, first).value.1;
    var r4 := Run1(r3, Space).value.1;
    w2, tail := Run1(r3, Space).value.0, Run1(r4, Digit).value.1;
  }

  /** The goto and label patterns after the keyword: whitespace, a label and a comment tail. */
  function LabelAndTail(r: string): (l: Option<string>)
    ensures l.Some? ==> LabelName(l.value)
  {
    match Run1(r, Space)
    case None => None
    case Some((_, r2)) =>
      match Run1(r2, NameChar)
      case None => None
      case Some((name, tail)) => if LabelName(name) && CommentTail(tail) then Some(name) else None
  }

  /** The fields of a line made of a keyword and a label operand. */
  predicate LabelFields(w: string, name: string, tail: string) {
    Spaces1(w) && LabelName(name) && CommentTail(tail)
  }

  /** The language of a line made of keyword `kw` and a label operand, as a decomposition. */
  predicate LabelLine(s: string, kw: string, w: string, name: string, tail: string) {
    s == kw + (w + (name + tail)) && LabelFields(w, name, tail)
  }

  lemma LabelAndTailComplete(w: string, name: string, tail: string)
    requires LabelFields(w, name, tail)
    ensures LabelAndTail(w + (name + tail)) == Some(name)
  {
    Run1Of(w, name + tail, Space);
    if tail != [] {
      TailStartsWithSpace(tail);
    }
    Run1Of(name, tail, NameChar);
  }

  lemma LabelAndTailSound(r: string) returns (w: string, tail: string)
    requires LabelAndTail(r).Some?
    ensures r == w + (LabelAndTail(r).value + tail) && LabelFields(w, LabelAndTail(r).value, tail)
  {
    var r2 := Run1(r, Space).value.1;
    w, tail := Run1(r, Space).value.0, Run1(r2, NameChar).value.1;
  }

  /** The push and pop patterns after the keyword: whitespace, then a segment word,
      whitespace and a digit index, or `pointer`, whitespace and the bit 0 or 1; then a
      comment tail. `constant` is a segment word only when `withConstant`. */
  function TargetAndTail(r: string, withConstant: bool): (t: Option<Target>)
    ensures t.Some? ==> ValidTarget(t.value, withConstant)
  {
    match Run1(r, Space)
    case None => None
    case Some((_, r2)) =>
      match Run1(r2, Letter)
      case None => None
      case Some((word, r3)) =>
        match Run1(r3, Space)
        case None => None
        case Some((_, r4)) => Operand(word, r4, withConstant)
  }

  /** The last stage of `TargetAndTail`: after the segment word `word` and its whitespace,
      the bit of `pointer` or the digit index of a segment, then the comment tail. */
  function Operand(word: string, r: string, withConstant: bool): (t: Option<Target>)
    ensures t.Some? ==> ValidTarget(t.value, withConstant)
  {
    if word == "pointer" then
      if r != [] && (r[0] == '0' || r[0] == '1') && CommentTail(r[1..]) then Some(Pointer(r[0]))
      else None
    else
      match SegmentNamed(word)
      case None => None
      case Some(seg) =>
        if !withConstant && seg == Constant then None
        else
          match Run1(r, Digit)
          case None => None
          case Some((index, tail)) => if CommentTail(tail) then Some(Slot(seg, index)) else None
  }

  /** The word that names a target's segment. */
  function TargetWord(t: Target): (w: string)
    ensures |w| > 0 && All(w, Letter)
    ensures w == "pointer" <==> t.Pointer?
  {
    match t
    case Slot(seg, _) => SegmentName(seg)
    case Pointer(_) => "pointer"
  }

  /** The index text of a target. */
  function TargetIndex(t: Target): string {
    match t
    case Slot(_, index) => index
    case Pointer(bit) => [bit]
  }

  /** The fields of a line made of a keyword and a push/pop operand. */
  predicate TargetFields(withConstant: bool, w1: string, t: Target, w2: string, tail: string) {
    Spaces1(w1) && Spaces1(w2) && ValidTarget(t, withConstant) && CommentTail(tail)
  }

  /** The language of a line made of keyword `kw` and a push/pop operand, as a decomposition. */
  predicate TargetLine(s: string, kw: string, withConstant: bool, w1: string, t: Target, w2: string, tail: string) {
    s == kw + (w1 + (TargetWord(t) + (w2 + (TargetIndex(t) + tail))))
    && TargetFields(withConstant, w1, t, w2, tail)
  }

  lemma TargetAndTailComplete(withConstant: bool, w1: string, t: Target, w2: string, tail: string)
    requires TargetFields(withConstant, w1, t, w2, tail)
    ensures TargetAndTail(w1 + (TargetWord(t) + (w2 + (TargetIndex(t) + tail))), withConstant) == Some(t)
  {
    if tail != [] {
      TailStartsWithSpace(tail);
    }
    assert !IsSpace(TargetIndex(t)[0]);
    TargetAndTailStages(withConstant, w1, TargetWord(t), w2, TargetIndex(t) + tail);
    OperandComplete(withConstant, t, tail);
  }

  /** The scanning stages of `TargetAndTail` split the operand at its whitespace runs. */
  lemma TargetAndTailStages(withConstant: bool, w1: string, word: string, w2: string, r: string)
    requires Spaces1(w1) && |word| > 0 && All(word, Letter) && Spaces1(w2)
    requires r == [] || !IsSpace(r[0])
    ensures TargetAndTail(w1 + (word + (w2 + r)), withConstant) == Operand(word, r, withConstant)
  {
    Run1Of(w1, word + (w2 + r), Space);
    Run1Of(word, w2 + r, Letter);
    Run1Of(w2, r, Space);
  }

  lemma OperandComplete(withConstant: bool, t: Target, tail: string)
    requires ValidTarget(t, withConstant) && CommentTail(tail)
    requires tail == [] || IsSpace(tail[0])
    ensures Operand(TargetWord(t), TargetIndex(t) + tail, withConstant) == Some(t)
  {
    match t
    case Pointer(bit) =>
      assert ([bit] + tail)[1..] == tail;
    case Slot(seg, index) =>
      Run1Of(index, tail, Digit);
  }

  lemma TargetAndTailSound(r: string, withConstant: bool) returns (w1: string, w2: string, tail: string)
    requires TargetAndTail(r, withConstant).Some?
    ensures var t := TargetAndTail(r, withConstant).value;
            r == w1 + (TargetWord(t) + (w2 + (TargetIndex(t) + tail)))
            && TargetFields(withConstant, w1, t, w2, tail)
  {
    var r2 := Run1(r, Space).value.1;
    var r3 := Run1(r2, Letter).value.1;
    w1, w2 := Run1(r, Space).value.0, Run1(r3, Space).value.0;
    tail := OperandSound(Run1(r2, Letter).value.0, Run1(r3, Space).value.1, withConstant);
  }

  lemma OperandSound(word: string, r: string, withConstant: bool) returns (tail: string)
    requires Operand(word, r, withConstant).Some?
    ensures var t := Operand(word, r, withConstant).value;
            word == TargetWord(t) && r == TargetIndex(t) + tail && CommentTail(tail)
  {
    if word == "pointer" {
      tail := r[1..];
      assert r == [r[0]] + tail;
    } else {
      tail := Run1(r, Digit).value.1;
    }
  }

  // ---------------------------------------------------------------------------
  // The nine patterns (src/instructions.ts)

  /** An operator word, then the comment tail. */
  function MatchArithmetic(s: string): (r: Option<Instruction>)
    ensures r.Some? ==> r.value.Arithmetic? && r.value.Kind() == ArithmeticKind && OpName(r.value.op) <= s
  {
    match Run1(s, Letter)
    case None => None
    case Some((w, tail)) =>
      match OpNamed(w)
      case None => None
      case Some(op) => if CommentTail(tail) then Some(Arithmetic(op)) else None
  }

  /** `//` and a rest free of line terminators. */
  function MatchComment(s: string): (r: Option<Instruction>)
    ensures r.Some? <==> "//" <= s && All(s[2..], NonTerminator)
    ensures r.Some? ==> r.value == Comment
  {
    if "//" <= s && All(s[2..], NonTerminator) then Some(Comment) else None
  }

  /** `call`, a callee name and an argument count. */
  function MatchCall(s: string): (r: Option<Instruction>)
    ensures r.Some? ==> r.value.Call? && r.value.Kind() == CallKind && WellFormed(r.value) && "call" <= s
  {
    match NameAndCount(s, "call", AToz)
    case None => None
    case Some((name, args)) =>
      Some(Call(name, args))
  }

  /** `function`, a function name and a local-variable count. */
  function MatchFunction(s: string): (r: Option<Instruction>)
    ensures r.Some? ==> r.value.Function? && r.value.Kind() == FunctionKind && WellFormed(r.value) && "function" <= s
  {
    match NameAndCount(s, "function", Letter)
    case None => None
    case Some((name, vars)) =>
      Some(Function(name, vars))
  }

  /** `return` and a spaced tail. */
  function MatchReturn(s: string): (r: Option<Instruction>)
    ensures r.Some? <==> "return" <= s && SpacedTail(s[6..])
    ensures r.Some? ==> r.value == Return
  {
    if "return" <= s && SpacedTail(s[6..]) then Some(Return) else None
  }

  /** `goto` or `if-goto`, then a label operand. */
  function MatchGoto(s: string): (r: Option<Instruction>)
    ensures r.Some? ==> r.value.Goto? && r.value.Kind() == GotoKind && WellFormed(r.value) && GotoName(r.value.cmd) <= s
  {
    var cmd := if "goto" <= s then PlainGoto else IfGoto;
    match AfterPrefix(s, GotoName(cmd))
    case None => None
    case Some(rest) =>
      match LabelAndTail(rest)
      case None => None
      case Some(dest) => Some(Goto(cmd, dest))
  }

  /** `label`, then a label operand. */
  function MatchLabel(s: string): (r: Option<Instruction>)
    ensures r.Some? ==> r.value.Label? && r.value.Kind() == LabelKind && WellFormed(r.value) && "label" <= s
  {
    match AfterPrefix(s, "label")
    case None => None
    case Some(rest) =>
      match LabelAndTail(rest)
      case None => None
      case Some(name) => Some(Label(name))
  }

  /** `pop`, then an operand other than a constant. */
  function MatchPop(s: string): (r: Option<Instruction>)
    ensures r.Some? ==> r.value.Pop? && r.value.Kind() == PopKind && WellFormed(r.value) && "pop" <= s
  {
    match AfterPrefix(s, "pop")
    case None => None
    case Some(rest) =>
      match TargetAndTail(rest, false)
      case None => None
      case Some(t) => Some(Pop(t))
  }

  /** `push`, then an operand. */
  function MatchPush(s: string): (r: Option<Instruction>)
    ensures r.Some? ==> r.value.Push? && r.value.Kind() == PushKind && WellFormed(r.value) && "push" <= s
  {
    match AfterPrefix(s, "push")
    case None => None
    case Some(rest) =>
      match TargetAndTail(rest, true)
      case None => None
      case Some(t) => Some(Push(t))
  }

  /** The pattern of each command kind. */
  function MatchOf(k: Command, s: string): Option<Instruction> {
    match k
    case ArithmeticKind => MatchArithmetic(s)
    case CommentKind => MatchComment(s)
    case CallKind => MatchCall(s)
    case FunctionKind => MatchFunction(s)
    case ReturnKind => MatchReturn(s)
    case GotoKind => MatchGoto(s)
    case LabelKind => MatchLabel(s)
    case PopKind => MatchPop(s)
    case PushKind => MatchPush(s)
  }

  // ---------------------------------------------------------------------------
  // Each recogniser accepts exactly the language of its pattern

  /** Arithmetic pattern: an operator word, then nothing or whitespace and a comment. */
  lemma ArithmeticLanguage(s: string, op: ArithOp)
    ensures MatchArithmetic(s) == Some(Arithmetic(op)) <==>
            exists tail :: s == OpName(op) + tail && CommentTail(tail)
  {
    if MatchArithmetic(s) == Some(Arithmetic(op)) {
      var tail := Run1(s, Letter).value.1;
      assert s == OpName(op) + tail;
    }
    if exists tail :: s == OpName(op) + tail && CommentTail(tail) {
      var tail :| s == OpName(op) + tail && CommentTail(tail);
      ArithmeticComplete(op, tail);
    }
  }

  lemma ArithmeticComplete(op: ArithOp, tail: string)
    requires CommentTail(tail)
    ensures MatchArithmetic(OpName(op) + tail) == Some(Arithmetic(op))
  {
    if tail != [] {
      TailStartsWithSpace(tail);
    }
    Run1Of(OpName(op), tail, Letter);
  }

  /** Call pattern: `call`, a callee name and an argument count. */
  lemma CallLanguage(s: string, name: string, args: string)
    ensures MatchCall(s) == Some(Call(name, args)) <==>
            exists w1, w2, tail :: NameAndCountLine(s, "call", AToz, w1, name, w2, args, tail)
  {
    if MatchCall(s) == Some(Call(name, args)) {
      var w1, w2, tail := NameAndCountSound(s, "call", AToz);
    }
    if exists w1, w2, tail :: NameAndCountLine(s, "call", AToz, w1, name, w2, args, tail) {
      var w1, w2, tail :| NameAndCountLine(s, "call", AToz, w1, name, w2, args, tail);
      NameAndCountComplete(s, "call", AToz, w1, name, w2, args, tail);
    }
  }

  /** Function pattern: `function`, a function name and a local-variable count. */
  lemma FunctionLanguage(s: string, name: string, vars: string)
    ensures MatchFunction(s) == Some(Function(name, vars)) <==>
            exists w1, w2, tail :: NameAndCountLine(s, "function", Letter, w1, name, w2, vars, tail)
  {
    if MatchFunction(s) == Some(Function(name, vars)) {
      var w1, w2, tail := NameAndCountSound(s, "function", Letter);
    }
    if exists w1, w2, tail :: NameAndCountLine(s, "function", Letter, w1, name, w2, vars, tail) {
      var w1, w2, tail :| NameAndCountLine(s, "function", Letter, w1, name, w2, vars, tail);
      NameAndCountComplete(s, "function", Letter, w1, name, w2, vars, tail);
    }
  }

  /** Goto pattern: `goto` or `if-goto`, then a label. */
  lemma GotoLanguage(s: string, cmd: GotoCmd, dest: string)
    ensures MatchGoto(s) == Some(Goto(cmd, dest)) <==>
            exists w, tail :: LabelLine(s, GotoName(cmd), w, dest, tail)
  {
    var kw := GotoName(cmd);
    if MatchGoto(s) == Some(Goto(cmd, dest)) {
      var w, tail := LabelAndTailSound(AfterPrefix(s, kw).value);
      assert LabelLine(s, kw, w, dest, tail);
    }
    if exists w, tail :: LabelLine(s, kw, w, dest, tail) {
      var w, tail :| LabelLine(s, kw, w, dest, tail);
      AfterPrefixOf(kw, w + (dest + tail));
      LabelAndTailComplete(w, dest, tail);
      assert cmd == IfGoto ==> s[0] == 'i';
    }
  }

  /** Label pattern: `label`, then a label. */
  lemma LabelLanguage(s: string, name: string)
    ensures MatchLabel(s) == Some(Label(name)) <==>
            exists w, tail :: LabelLine(s, "label", w, name, tail)
  {
    if MatchLabel(s) == Some(Label(name)) {
      var w, tail := LabelAndTailSound(AfterPrefix(s, "label").value);
      assert LabelLine(s, "label", w, name, tail);
    }
    if exists w, tail :: LabelLine(s, "label", w, name, tail) {
      var w, tail :| LabelLine(s, "label", w, name, tail);
      AfterPrefixOf("label", w + (name + tail));
      LabelAndTailComplete(w, name, tail);
    }
  }

  /** Pop pattern: `pop` and an operand; `constant` is not among its segments. */
  lemma PopLanguage(s: string, t: Target)
    ensures MatchPop(s) == Some(Pop(t)) <==>
            exists w1, w2, tail :: TargetLine(s, "pop", false, w1, t, w2, tail)
  {
    if MatchPop(s) == Some(Pop(t)) {
      var w1, w2, tail := TargetAndTailSound(AfterPrefix(s, "pop").value, false);
      assert TargetLine(s, "pop", false, w1, t, w2, tail);
    }
    if exists w1, w2, tail :: TargetLine(s, "pop", false, w1, t, w2, tail) {
      var w1, w2, tail :| TargetLine(s, "pop", false, w1, t, w2, tail);
      AfterPrefixOf("pop", w1 + (TargetWord(t) + (w2 + (TargetIndex(t) + tail))));
      TargetAndTailComplete(false, w1, t, w2, tail);
    }
  }

  /** Push pattern: `push` and an operand; `constant` is among its segments. */
  lemma PushLanguage(s: string, t: Target)
    ensures MatchPush(s) == Some(Push(t)) <==>
            exists w1, w2, tail :: TargetLine(s, "push", true, w1, t, w2, tail)
  {
    if MatchPush(s) == Some(Push(t)) {
      var w1, w2, tail := TargetAndTailSound(AfterPrefix(s, "push").value, true);
      assert TargetLine(s, "push", true, w1, t, w2, tail);
    }
    if exists w1, w2, tail :: TargetLine(s, "push", true, w1, t, w2, tail) {
      var w1, w2, tail :| TargetLine(s, "push", true, w1, t, w2, tail);
      AfterPrefixOf("push", w1 + (TargetWord(t) + (w2 + (TargetIndex(t) + tail))));
      TargetAndTailComplete(true, w1, t, w2, tail);
    }
  }
}

module InstructionFacts {
  import opened Wrappers
  import opened Strings
  import opened Instructions

  // ---------------------------------------------------------------------------
  // At most one pattern matches a line

  /** The command kind that the first two characters of a line leave possible. */
  function KindByPrefix(c0: char, c1: char): Option<Command> {
    match (c0, c1)
    case ('/', '/') => Some(CommentKind)
    case ('c', 'a') => Some(CallKind)
    case ('f', 'u') => Some(FunctionKind)
    case ('r', 'e') => Some(ReturnKind)
    case ('g', 'o') => Some(GotoKind)
    case ('i', 'f') => Some(GotoKind)
    case ('l', 'a') => Some(LabelKind)
    case ('p', 'o') => Some(PopKind)
    case ('p', 'u') => Some(PushKind)
    case ('a', _) => Some(ArithmeticKind)  // add, and
    case ('s', 'u') => Some(ArithmeticKind)
    case ('n', _) => Some(ArithmeticKind)  // neg, not
    case ('e', 'q') => Some(ArithmeticKind)
    case ('o', 'r') => Some(ArithmeticKind)
    case ('l', 't') => Some(ArithmeticKind)
    case ('g', 't') => Some(ArithmeticKind)
    case _ => None
  }

  /** The first two characters of a line decide which pattern can accept it. */
  lemma MatchAnnouncesKind(k: Command, s: string)
    requires MatchOf(k, s).Some?
    ensures |s| >= 2 && KindByPrefix(s[0], s[1]) == Some(k)
  {
    var kw := match k
      case ArithmeticKind => OpName(MatchArithmetic(s).value.op)
      case CommentKind => "//"
      case CallKind => "call"
      case FunctionKind => "function"
      case ReturnKind => "return"
      case GotoKind => GotoName(MatchGoto(s).value.cmd)
      case LabelKind => "label"
      case PopKind => "pop"
      case PushKind => "push";
    assert kw <= s;
    if k == ArithmeticKind {
      OperatorAnnounces(MatchArithmetic(s).value.op, s);
    } else {
      KeywordAnnounces(k, kw, s);
    }
  }

  lemma OperatorAnnounces(op: ArithOp, s: string)
    requires OpName(op) <= s
    ensures |s| >= 2 && KindByPrefix(s[0], s[1]) == Some(ArithmeticKind)
  {
    assert s[0] == OpName(op)[0] && s[1] == OpName(op)[1];
  }

  /** The keyword of each kind fixes the first two characters. */
  lemma KeywordAnnounces(k: Command, kw: string, s: string)
    requires kw <= s && k != ArithmeticKind
    requires k == CommentKind ==> kw == "//"
    requires k == CallKind ==> kw == "call"
    requires k == FunctionKind ==> kw == "function"
    requires k == ReturnKind ==> kw == "return"
    requires k == GotoKind ==> kw == "goto" || kw == "if-goto"
    requires k == LabelKind ==> kw == "label"
    requires k == PopKind ==> kw == "pop"
    requires k == PushKind ==> kw == "push"
    ensures |s| >= 2 && KindByPrefix(s[0], s[1]) == Some(k)
  {
    assert s[0] == kw[0] && s[1] == kw[1];
  }

  /** No line matches the patterns of two different command kinds, so the order in which
      the patterns are tried never decides the outcome. */
  lemma PatternsExclusive(s: string, k1: Command, k2: Command)
    requires MatchOf(k1, s).Some? && MatchOf(k2, s).Some?
    ensures k1 == k2
  {
    MatchAnnouncesKind(k1, s);
    MatchAnnouncesKind(k2, s);
  }

  // ---------------------------------------------------------------------------
  // Every well-formed instruction has a text that parses back to it

  /** The instruction written with single spaces and no comment. */
  function Canonical(i: Instruction): string {
    match i
    case Arithmetic(op) => OpName(op)
    case Comment => "//"
    case Call(name, args) => "call" + (" " + (name + (" " + args)))
    case Function(name, vars) => "function" + (" " + (name + (" " + vars)))
    case Return => "return"
    case Goto(cmd, dest) => GotoName(cmd) + (" " + dest)
    case Label(name) => "label" + (" " + name)
    case Pop(t) => "pop" + (" " + (TargetWord(t) + (" " + TargetIndex(t))))
    case Push(t) => "push" + (" " + (TargetWord(t) + (" " + TargetIndex(t))))
  }

  /** Each pattern accepts the canonical text of a well-formed instruction of its kind and
      captures exactly its fields: the captured fields are all the information a line keeps. */
  lemma CanonicalArithmetic(op: ArithOp)
    ensures MatchArithmetic(OpName(op)) == Some(Arithmetic(op))
  {
    assert OpName(op) + [] == OpName(op);
    ArithmeticComplete(op, []);
  }

  lemma CanonicalCall(name: string, args: string)
    requires CallName(name) && Digits1(args)
    ensures MatchCall(Canonical(Call(name, args))) == Some(Call(name, args))
  {
    assert args + [] == args;
    NameAndCountComplete(Canonical(Call(name, args)), "call", AToz, " ", name, " ", args, []);
  }

  lemma CanonicalFunction(name: string, vars: string)
    requires FunctionName(name) && Digits1(vars)
    ensures MatchFunction(Canonical(Function(name, vars))) == Some(Function(name, vars))
  {
    assert vars + [] == vars;
    NameAndCountComplete(Canonical(Function(name, vars)), "function", Letter, " ", name, " ", vars, []);
  }

  lemma CanonicalGoto(cmd: GotoCmd, dest: string)
    requires LabelName(dest)
    ensures MatchGoto(Canonical(Goto(cmd, dest))) == Some(Goto(cmd, dest))
  {
    var s := Canonical(Goto(cmd, dest));
    assert dest + [] == dest;
    assert LabelLine(s, GotoName(cmd), " ", dest, []);
    GotoLanguage(s, cmd, dest);
  }

  lemma CanonicalLabel(name: string)
    requires LabelName(name)
    ensures MatchLabel(Canonical(Label(name))) == Some(Label(name))
  {
    var s := Canonical(Label(name));
    assert name + [] == name;
    assert LabelLine(s, "label", " ", name, []);
    LabelLanguage(s, name);
  }

  lemma CanonicalPop(t: Target)
    requires ValidTarget(t, false)
    ensures MatchPop(Canonical(Pop(t))) == Some(Pop(t))
  {
    var s := Canonical(Pop(t));
    assert TargetIndex(t) + [] == TargetIndex(t);
    assert TargetLine(s, "pop", false, " ", t, " ", []);
    PopLanguage(s, t);
  }

  lemma CanonicalPush(t: Target)
    requires ValidTarget(t, true)
    ensures MatchPush(Canonical(Push(t))) == Some(Push(t))
  {
    var s := Canonical(Push(t));
    assert TargetIndex(t) + [] == TargetIndex(t);
    assert TargetLine(s, "push", true, " ", t, " ", []);
    PushLanguage(s, t);
  }
}
