/**
 * Reading one trimmed line (`parse` in src/translator.ts): the patterns are
 * tried in a fixed order and the first that matches gives the token. A line no
 * pattern matches gives a token without a type, here `None`.
 */
module Parser {
  import opened Wrappers
  import opened Strings
  import opened Instructions
  import opened InstructionFacts

  /** The order in which `parse` tries the patterns. */
  const PatternOrder: seq<Command> :=
    [ArithmeticKind, CommentKind, CallKind, FunctionKind, ReturnKind, GotoKind, LabelKind, PopKind, PushKind]

  /** The match of the first pattern in `order` that accepts `line`; a token is always
      the match of the pattern of its own kind. */
  function FirstMatch(order: seq<Command>, line: string): (r: Option<Instruction>)
    ensures r.Some? ==> MatchOf(r.value.Kind(), line) == r
    ensures r.Some? ==> WellFormed(r.value)
    decreases |order|
  {
    if order == [] then None
    else if MatchOf(order[0], line).Some? then
      MatchKind(order[0], line);
      MatchOf(order[0], line)
    else FirstMatch(order[1..], line)
  }

  /** The token of a line: the match of the first pattern in `PatternOrder` that accepts it. */
  function Parse(line: string): (r: Option<Instruction>)
    ensures r.Some? ==> WellFormed(r.value)
  {
    FirstMatch(PatternOrder, line)
  }

  /** A token is the match of the pattern of its own kind. */
  lemma ParseSound(line: string)
    requires Parse(line).Some?
    ensures MatchOf(Parse(line).value.Kind(), line) == Parse(line)
  {
  }

  /** The pattern of a kind only yields instructions of that kind. */
  lemma MatchKind(k: Command, line: string)
    requires MatchOf(k, line).Some?
    ensures MatchOf(k, line).value.Kind() == k
  {
  }

  /** Whichever pattern of `order` accepts a line, its match is the first match: no line
      matches the patterns of two kinds. */
  lemma {:induction false} FirstMatchComplete(order: seq<Command>, line: string, k: Command)
    requires k in order && MatchOf(k, line).Some?
    ensures FirstMatch(order, line) == MatchOf(k, line)
    decreases |order|
  {
    if order[0] != k {
      MatchAnnouncesKind(k, line);
      KindAnnounced(order[0], line);
      FirstMatchComplete(order[1..], line, k);
    }
  }

  /** A pattern accepts a line only if the line's first two characters announce its kind. */
  lemma KindAnnounced(k: Command, line: string)
    ensures MatchOf(k, line).Some? ==> |line| >= 2 && KindByPrefix(line[0], line[1]) == Some(k)
  {
    if MatchOf(k, line).Some? {
      MatchAnnouncesKind(k, line);
    }
  }

  /** Whichever pattern accepts a line, its match is the token: since no line matches two
      patterns, the order of the tests never changes the result. */
  lemma ParseComplete(line: string, k: Command)
    requires MatchOf(k, line).Some?
    ensures Parse(line) == MatchOf(k, line)
  {
    assert k in PatternOrder;
    FirstMatchComplete(PatternOrder, line, k);
  }

  /** A line gives no token exactly when no pattern accepts it. */
  lemma ParseNone(line: string)
    ensures Parse(line).None? <==> forall k: Command :: MatchOf(k, line).None?
  {
    if Parse(line).None? {
      forall k: Command ensures MatchOf(k, line).None? {
        if MatchOf(k, line).Some? {
          ParseComplete(line, k);
        }
      }
    } else {
      ParseSound(line);
    }
  }

  /** Every well-formed instruction, written canonically, reads back as itself. */
  lemma ParseCanonical(i: Instruction)
    requires WellFormed(i)
    ensures Parse(Canonical(i)) == Some(i)
  {
    CanonicalMatches(i);
    ParseComplete(Canonical(i), i.Kind());
  }

  /** The pattern of its kind accepts the canonical text of an instruction. */
  lemma CanonicalMatches(i: Instruction)
    requires WellFormed(i)
    ensures MatchOf(i.Kind(), Canonical(i)) == Some(i)
  {
    match i
    case Arithmetic(op) => ArithmeticCanonical(op);
    case Comment => CommentCanonical();
    case Call(name, args) => CallCanonical(name, args);
    case Function(name, vars) => FunctionCanonical(name, vars);
    case Return => ReturnCanonical();
    case Goto(cmd, dest) => GotoCanonical(cmd, dest);
    case Label(name) => LabelCanonical(name);
    case Pop(t) => PopCanonical(t);
    case Push(t) => PushCanonical(t);
  }

  lemma ArithmeticCanonical(op: ArithOp)
    ensures MatchOf(ArithmeticKind, Canonical(Arithmetic(op))) == Some(Arithmetic(op))
  {
    ArithmeticPattern(Canonical(Arithmetic(op)));
    CanonicalArithmetic(op);
  }

  lemma CommentCanonical()
    ensures MatchOf(CommentKind, Canonical(Comment)) == Some(Comment)
  {
    CommentPattern(Canonical(Comment));
  }

  lemma CallCanonical(name: string, args: string)
    requires CallName(name) && Digits1(args)
    ensures MatchOf(CallKind, Canonical(Call(name, args))) == Some(Call(name, args))
  {
    CallPattern(Canonical(Call(name, args)));
    CanonicalCall(name, args);
  }

  lemma FunctionCanonical(name: string, vars: string)
    requires FunctionName(name) && Digits1(vars)
    ensures MatchOf(FunctionKind, Canonical(Function(name, vars))) == Some(Function(name, vars))
  {
    FunctionPattern(Canonical(Function(name, vars)));
    CanonicalFunction(name, vars);
  }

  lemma ReturnCanonical()
    ensures MatchOf(ReturnKind, Canonical(Return)) == Some(Return)
  {
    ReturnPattern(Canonical(Return));
  }

  lemma GotoCanonical(cmd: GotoCmd, dest: string)
    requires LabelName(dest)
    ensures MatchOf(GotoKind, Canonical(Goto(cmd, dest))) == Some(Goto(cmd, dest))
  {
    GotoPattern(Canonical(Goto(cmd, dest)));
    CanonicalGoto(cmd, dest);
  }

  lemma LabelCanonical(name: string)
    requires LabelName(name)
    ensures MatchOf(LabelKind, Canonical(Label(name))) == Some(Label(name))
  {
    LabelPattern(Canonical(Label(name)));
    CanonicalLabel(name);
  }

  lemma PopCanonical(t: Target)
    requires ValidTarget(t, false)
    ensures MatchOf(PopKind, Canonical(Pop(t))) == Some(Pop(t))
  {
    PopPattern(Canonical(Pop(t)));
    CanonicalPop(t);
  }

  lemma PushCanonical(t: Target)
    requires ValidTarget(t, true)
    ensures MatchOf(PushKind, Canonical(Push(t))) == Some(Push(t))
  {
    PushPattern(Canonical(Push(t)));
    CanonicalPush(t);
  }

  // Each kind's pattern is its recogniser.
  lemma ArithmeticPattern(s: string)
    ensures MatchOf(ArithmeticKind, s) == MatchArithmetic(s)
  {
  }

  lemma CommentPattern(s: string)
    ensures MatchOf(CommentKind, s) == MatchComment(s)
  {
  }

  lemma CallPattern(s: string)
    ensures MatchOf(CallKind, s) == MatchCall(s)
  {
  }

  lemma FunctionPattern(s: string)
    ensures MatchOf(FunctionKind, s) == MatchFunction(s)
  {
  }

  lemma ReturnPattern(s: string)
    ensures MatchOf(ReturnKind, s) == MatchReturn(s)
  {
  }

  lemma GotoPattern(s: string)
    ensures MatchOf(GotoKind, s) == MatchGoto(s)
  {
  }

  lemma LabelPattern(s: string)
    ensures MatchOf(LabelKind, s) == MatchLabel(s)
  {
  }

  lemma PopPattern(s: string)
    ensures MatchOf(PopKind, s) == MatchPop(s)
  {
  }

  lemma PushPattern(s: string)
    ensures MatchOf(PushKind, s) == MatchPush(s)
  {
  }
}

/**
 * The two patterns that capture no groups, seen through `parse`: the earlier
 * patterns in its order never take their lines.
 */
module ParseFacts {
  import opened Wrappers
  import opened Strings
  import opened Instructions
  import opened Parser

  /** A line reads as a comment exactly when it is `//` followed by no line terminator:
      no pattern tried before the comment pattern takes such a line. */
  lemma ParseComment(line: string)
    ensures Parse(line) == Some(Comment) <==> "//" <= line && All(line[2..], NonTerminator)
  {
    CommentPattern(line);
    if "//" <= line && All(line[2..], NonTerminator) {
      ParseComplete(line, CommentKind);
    }
    if Parse(line) == Some(Comment) {
      ParseSound(line);
    }
  }

  /** A line reads as a return exactly when it is `return` followed by optional
      whitespace and an optional whitespace-led comment. */
  lemma ParseReturn(line: string)
    ensures Parse(line) == Some(Return) <==> "return" <= line && SpacedTail(line[6..])
  {
    ReturnPattern(line);
    if "return" <= line && SpacedTail(line[6..]) {
      ParseComplete(line, ReturnKind);
    }
    if Parse(line) == Some(Return) {
      ParseSound(line);
    }
  }
}
