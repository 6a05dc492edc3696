/**
 * The two passes of `translate` over the lines of a source file, as functions
 * of the lines read so far: `scan` builds the table of declared functions or
 * stops at the first line no pattern accepts, and the emitting pass
 * concatenates the code of every line that is neither blank nor a comment.
 * The `Translator` class runs the same passes as loops; these functions are
 * what its loops are proved against, and the lemmas below are what the
 * output of a whole file satisfies.
 */
module Translation {
  import opened Wrappers
  import opened Strings
  import opened Instructions
  import opened Asm
  import opened Codegen
  import opened CodegenFacts
  import opened Parser

  // ---------------------------------------------------------------------------
  // Lines

  /** A token the patterns can yield: its fields have the shapes they capture. */
  type Token = i: Instruction | WellFormed(i) witness Comment

  /** A source line as both passes see it: empty once trimmed, or its trimmed text with
      the token `parse` gives for that text. */
  datatype Line = BlankLine | TextLine(text: string, token: Option<Token>)

  /** How both passes read a line: trim it, skip it if empty, otherwise parse it. */
  function Lex(data: string): (l: Line)
    ensures l.BlankLine? <==> Trim(data) == ""
    ensures l.TextLine? ==> l.text == Trim(data) && l.token == Parse(Trim(data))
  {
    var t := Trim(data);
    if t == "" then BlankLine
    else
      match Parse(t)
      case None => TextLine(t, None)
      case Some(i) => TextLine(t, Some(i))
  }

  /** The lines of a file, read one by one. */
  function LexLines(lines: seq<string>): (r: seq<Line>)
    ensures |r| == |lines|
    decreases |lines|
  {
    if lines == [] then [] else LexLines(lines[..|lines| - 1]) + [Lex(lines[|lines| - 1])]
  }

  /** A line no pattern accepts. */
  predicate IsInvalid(l: Line) {
    l.TextLine? && l.token.None?
  }

  /** A `function` line declaring `name`. */
  predicate DeclaresFunction(l: Line, name: string) {
    l.TextLine? && l.token.Some? && l.token.value.Function? && l.token.value.name == name
  }

  /** A `call` line calling `name`. */
  predicate CallsFunction(l: Line, name: string) {
    l.TextLine? && l.token.Some? && l.token.value.Call? && l.token.value.name == name
  }

  /** A line whose code takes a value of the label counter. */
  predicate IsStamping(l: Line) {
    l.TextLine? && l.token.Some? && Stamps(l.token.value)
  }

  // ---------------------------------------------------------------------------
  // The scanning pass

  /** One line of `scan`: a blank line is skipped, a line no pattern accepts is a syntax
      error reported with its trimmed text and its 1-based number, and a function line
      records its local-variable count under its name. */
  function ScanLine(l: Line, lineNum: nat, srcFile: string, scope: Scope): (r: Result<Scope, Error>)
    requires ScopeValid(scope)
    ensures r.Ok? ==> ScopeValid(r.value)
    ensures r.Err? <==> IsInvalid(l)
    ensures r.Err? ==> r.error == SyntaxError(l.text, lineNum, srcFile)
  {
    if l.BlankLine? then Ok(scope)
    else
      match l.token
      case None => Err(SyntaxError(l.text, lineNum, srcFile))
      case Some(Function(name, vars)) => Ok(scope[name := vars])
      case Some(_) => Ok(scope)
  }

  /** The table after scanning `lines` from `scope`, or the first error. */
  function ScanLines(lines: seq<Line>, srcFile: string, scope: Scope): (r: Result<Scope, Error>)
    requires ScopeValid(scope)
    ensures r.Ok? ==> ScopeValid(r.value)
    ensures r.Err? ==> r.error.SyntaxError? && 1 <= r.error.lineNum <= |lines|
    decreases |lines|
  {
    if lines == [] then Ok(scope)
    else
      match ScanLines(lines[..|lines| - 1], srcFile, scope)
      case Err(e) => Err(e)
      case Ok(sc) => ScanLine(lines[|lines| - 1], |lines|, srcFile, sc)
  }

  /** Scanning fails exactly at the first line no pattern accepts. */
  lemma {:induction false} ScanFailsAtFirstInvalid(lines: seq<Line>, srcFile: string, scope: Scope, j: nat)
    requires ScopeValid(scope)
    requires j < |lines| && IsInvalid(lines[j])
    requires forall k :: 0 <= k < j ==> !IsInvalid(lines[k])
    ensures ScanLines(lines, srcFile, scope) == Err(SyntaxError(lines[j].text, j + 1, srcFile))
    decreases |lines|
  {
    var init := lines[..|lines| - 1];
    if j == |lines| - 1 {
      assert forall k :: 0 <= k < |init| ==> init[k] == lines[k];
      ScanSucceeds(init, srcFile, scope);
    } else {
      ScanFailsAtFirstInvalid(init, srcFile, scope, j);
    }
  }

  /** Scanning succeeds when every line is blank or accepted by a pattern. */
  lemma {:induction false} ScanSucceeds(lines: seq<Line>, srcFile: string, scope: Scope)
    requires ScopeValid(scope)
    requires forall k :: 0 <= k < |lines| ==> !IsInvalid(lines[k])
    ensures ScanLines(lines, srcFile, scope).Ok?
    decreases |lines|
  {
    if lines != [] {
      var init := lines[..|lines| - 1];
      assert forall k :: 0 <= k < |init| ==> init[k] == lines[k];
      ScanSucceeds(init, srcFile, scope);
    }
  }

  /** A successful scan means that no line is invalid. */
  lemma ScanSucceedsOnlyIfValid(lines: seq<Line>, srcFile: string, scope: Scope)
    requires ScopeValid(scope)
    requires ScanLines(lines, srcFile, scope).Ok?
    ensures forall k :: 0 <= k < |lines| ==> !IsInvalid(lines[k])
  {
    if exists i :: 0 <= i < |lines| && IsInvalid(lines[i]) {
      var i :| 0 <= i < |lines| && IsInvalid(lines[i]);
      var j := FirstInvalid(lines, i);
      ScanFailsAtFirstInvalid(lines, srcFile, scope, j);
    }
  }

  /** The first line no pattern accepts, given one that none accepts. */
  lemma FirstInvalid(lines: seq<Line>, i: nat) returns (j: nat)
    requires i < |lines| && IsInvalid(lines[i])
    ensures j <= i && IsInvalid(lines[j])
    ensures forall k :: 0 <= k < j ==> !IsInvalid(lines[k])
    decreases i
  {
    if forall k :: 0 <= k < i ==> !IsInvalid(lines[k]) {
      j := i;
    } else {
      var k :| 0 <= k < i && IsInvalid(lines[k]);
      j := FirstInvalid(lines, k);
    }
  }

  /** A name no line declares keeps its entry, or its absence, from before the scan. */
  lemma {:induction false} ScanKeepsUndeclared(lines: seq<Line>, srcFile: string, scope: Scope, name: string)
    requires ScopeValid(scope)
    requires ScanLines(lines, srcFile, scope).Ok?
    requires forall k :: 0 <= k < |lines| ==> !DeclaresFunction(lines[k], name)
    ensures var sc := ScanLines(lines, srcFile, scope).value;
      (name in sc <==> name in scope) && (name in scope ==> sc[name] == scope[name])
    decreases |lines|
  {
    if lines != [] {
      var init := lines[..|lines| - 1];
      assert forall k :: 0 <= k < |init| ==> init[k] == lines[k];
      ScanKeepsUndeclared(init, srcFile, scope, name);
    }
  }

  /** After a successful scan, a declared name maps to the count of its last declaration. */
  lemma {:induction false} ScanLastDeclarationWins(lines: seq<Line>, srcFile: string, scope: Scope, name: string, j: nat)
    requires ScopeValid(scope)
    requires ScanLines(lines, srcFile, scope).Ok?
    requires j < |lines| && DeclaresFunction(lines[j], name)
    requires forall k :: j < k < |lines| ==> !DeclaresFunction(lines[k], name)
    ensures var sc := ScanLines(lines, srcFile, scope).value;
      name in sc && sc[name] == lines[j].token.value.vars
    decreases |lines|
  {
    var init := lines[..|lines| - 1];
    if j < |lines| - 1 {
      assert forall k :: j < k < |init| ==> init[k] == lines[k];
      ScanLastDeclarationWins(init, srcFile, scope, name, j);
    }
  }

  // ---------------------------------------------------------------------------
  // The emitting pass

  /** One line of `translate`: blank and comment lines give no code; any other line,
      including one without a token, goes to the generator. */
  function EmitLine(l: Line, fileName: string, counter: nat, scope: Scope): Result<Block, Error>
    requires ScopeValid(scope)
  {
    if l.BlankLine? || l.token == Some(Comment) then Ok(Block([], counter))
    else Generate(l.token, fileName, counter, scope)
  }

  /** The code of `lines` and the counter after them, or the first error. */
  function EmitLines(lines: seq<Line>, fileName: string, counter: nat, scope: Scope): Result<Block, Error>
    requires ScopeValid(scope)
    decreases |lines|
  {
    if lines == [] then Ok(Block([], counter))
    else
      match EmitLines(lines[..|lines| - 1], fileName, counter, scope)
      case Err(e) => Err(e)
      case Ok(b) =>
        match EmitLine(lines[|lines| - 1], fileName, b.next, scope)
        case Err(e) => Err(e)
        case Ok(b2) => Ok(Block(b.code + b2.code, b2.next))
  }

  /** The number of lines that take a counter value. */
  function StampCount(lines: seq<Line>): nat {
    if lines == [] then 0
    else StampCount(lines[..|lines| - 1]) + if IsStamping(lines[|lines| - 1]) then 1 else 0
  }

  /** The code of a whole file moves the counter on by one for each comparison and call. */
  lemma {:induction false} EmitCounter(lines: seq<Line>, fileName: string, counter: nat, scope: Scope)
    requires ScopeValid(scope)
    ensures var r := EmitLines(lines, fileName, counter, scope);
      r.Ok? ==> r.value.next == counter + StampCount(lines)
    decreases |lines|
  {
    if lines != [] {
      var init, last := lines[..|lines| - 1], lines[|lines| - 1];
      EmitCounter(init, fileName, counter, scope);
      var r := EmitLines(init, fileName, counter, scope);
      if r.Ok? && !last.BlankLine? && last.token.Some? {
        GenerateCounter(last.token.value, fileName, r.value.next, scope);
      }
    }
  }

  /** After a successful scan of the same lines, the emitting pass can only fail on a
      call of a function that no line of the file declares and that was not declared
      before: every line has a token, and every other token has code. */
  lemma {:induction false} EmitFailsOnlyOnUndeclaredCalls(lines: seq<Line>, srcFile: string, scope: Scope, fileName: string, counter: nat)
    requires ScopeValid(scope)
    requires ScanLines(lines, srcFile, scope).Ok?
    ensures var sc := ScanLines(lines, srcFile, scope).value;
      var r := EmitLines(lines, fileName, counter, sc);
      r.Err? ==>
        && r.error.ReferenceError? && r.error.name !in scope
        && (exists k :: 0 <= k < |lines| && CallsFunction(lines[k], r.error.name))
        && (forall k :: 0 <= k < |lines| ==> !DeclaresFunction(lines[k], r.error.name))
  {
    var sc := ScanLines(lines, srcFile, scope).value;
    var r := EmitLines(lines, fileName, counter, sc);
    if r.Err? {
      ScanSucceedsOnlyIfValid(lines, srcFile, scope);
      var k := EmitErrorLine(lines, fileName, counter, sc);
      var name := r.error.name;
      if exists i :: 0 <= i < |lines| && DeclaresFunction(lines[i], name) {
        var i :| 0 <= i < |lines| && DeclaresFunction(lines[i], name);
        var j := LastDeclaration(lines, name, i);
        ScanLastDeclarationWins(lines, srcFile, scope, name, j);
        assert false;
      }
      ScanKeepsUndeclared(lines, srcFile, scope, name);
    }
  }

  /** The last line declaring `name`, given one that declares it. */
  lemma LastDeclaration(lines: seq<Line>, name: string, i: nat) returns (j: nat)
    requires i < |lines| && DeclaresFunction(lines[i], name)
    ensures i <= j < |lines| && DeclaresFunction(lines[j], name)
    ensures forall k :: j < k < |lines| ==> !DeclaresFunction(lines[k], name)
    decreases |lines| - i
  {
    if forall k :: i < k < |lines| ==> !DeclaresFunction(lines[k], name) {
      j := i;
    } else {
      var k :| i < k < |lines| && DeclaresFunction(lines[k], name);
      j := LastDeclaration(lines, name, k);
    }
  }

  /** When no line is invalid, a failing emitting pass fails at a call line whose callee
      the table does not hold. */
  lemma {:induction false} EmitErrorLine(lines: seq<Line>, fileName: string, counter: nat, scope: Scope) returns (k: nat)
    requires ScopeValid(scope)
    requires forall k :: 0 <= k < |lines| ==> !IsInvalid(lines[k])
    requires EmitLines(lines, fileName, counter, scope).Err?
    ensures var e := EmitLines(lines, fileName, counter, scope).error;
      e.ReferenceError? && e.name !in scope && k < |lines| && CallsFunction(lines[k], e.name)
    decreases |lines|
  {
    var init, last := lines[..|lines| - 1], lines[|lines| - 1];
    var r := EmitLines(init, fileName, counter, scope);
    if r.Err? {
      assert forall k :: 0 <= k < |init| ==> init[k] == lines[k];
      k := EmitErrorLine(init, fileName, counter, scope);
    } else {
      k := |lines| - 1;
      GenerateFails(last.token, fileName, r.value.next, scope);
    }
  }

  // ---------------------------------------------------------------------------
  // Lines without code

  /** A blank or comment line: the emitting pass writes nothing for it. */
  predicate IsQuiet(l: Line) {
    l.BlankLine? || l.token == Some(Comment)
  }

  /** The lines that are neither blank nor comments, in order. */
  function Significant(lines: seq<Line>): (r: seq<Line>)
    ensures |r| <= |lines|
    ensures forall k :: 0 <= k < |r| ==> !IsQuiet(r[k])
    decreases |lines|
  {
    if lines == [] then []
    else if IsQuiet(lines[|lines| - 1]) then Significant(lines[..|lines| - 1])
    else Significant(lines[..|lines| - 1]) + [lines[|lines| - 1]]
  }

  /** Blank lines and comments change neither the output nor the counter: a file
      translates exactly as the same file with them removed. */
  lemma {:induction false} EmitIgnoresQuietLines(lines: seq<Line>, fileName: string, counter: nat, scope: Scope)
    requires ScopeValid(scope)
    ensures EmitLines(lines, fileName, counter, scope) == EmitLines(Significant(lines), fileName, counter, scope)
    decreases |lines|
  {
    if lines != [] {
      var init, last := lines[..|lines| - 1], lines[|lines| - 1];
      var r := EmitLines(init, fileName, counter, scope);
      assert r == EmitLines(Significant(init), fileName, counter, scope) by {
        EmitIgnoresQuietLines(init, fileName, counter, scope);
      }
      if IsQuiet(last) {
        assert EmitLines(lines, fileName, counter, scope) == r by {
          if r.Ok? {
            assert r.value.code + [] == r.value.code;
          }
        }
      } else {
        assert EmitLines(Significant(lines), fileName, counter, scope) == EmitLines(Significant(init) + [last], fileName, counter, scope);
        EmitSnoc(Significant(init), last, fileName, counter, scope);
      }
    }
  }

  // ---------------------------------------------------------------------------
  // Labels of a whole file

  /** The labels declared by the code of one line when the counter stands at `n`. */
  function LineLabels(l: Line, n: nat): seq<Name> {
    if l.BlankLine? || l.token.None? then [] else BlockLabels(l.token.value, n)
  }

  /** The labels declared by the code of `lines`, each line seeing the counter value
      left by the lines before it. */
  function Labels(lines: seq<Line>, counter: nat): seq<Name>
    decreases |lines|
  {
    if lines == [] then []
    else
      var init := lines[..|lines| - 1];
      Labels(init, counter) + LineLabels(lines[|lines| - 1], counter + StampCount(init))
  }

  /** The output of a file declares exactly the labels of its lines, in order. */
  lemma {:induction false} EmitDeclares(lines: seq<Line>, fileName: string, counter: nat, scope: Scope)
    requires ScopeValid(scope)
    ensures var r := EmitLines(lines, fileName, counter, scope);
      r.Ok? ==> Declared(r.value.code) == Labels(lines, counter)
    decreases |lines|
  {
    var r := EmitLines(lines, fileName, counter, scope);
    if lines != [] && r.Ok? {
      var init, last := lines[..|lines| - 1], lines[|lines| - 1];
      var b, b2 := EmitStep(lines, fileName, counter, scope);
      assert Labels(lines, counter) == Labels(init, counter) + LineLabels(last, b.next) by {
        EmitCounter(init, fileName, counter, scope);
        LabelsSnoc(lines, counter);
      }
      assert Declared(b.code) == Labels(init, counter) by {
        EmitDeclares(init, fileName, counter, scope);
      }
      assert Declared(b2.code) == LineLabels(last, b.next) by {
        EmitLineDeclares(last, fileName, b.next, scope);
      }
      DeclaredJoin(b.code, b2.code, Labels(init, counter), LineLabels(last, b.next));
    }
  }

  /** A successful emitting pass over a non-empty file is the pass over all lines but the
      last, followed by the last line at the counter left by the others. */
  lemma EmitStep(lines: seq<Line>, fileName: string, counter: nat, scope: Scope) returns (b: Block, b2: Block)
    requires ScopeValid(scope)
    requires lines != [] && EmitLines(lines, fileName, counter, scope).Ok?
    ensures EmitLines(lines[..|lines| - 1], fileName, counter, scope) == Ok(b)
    ensures EmitLine(lines[|lines| - 1], fileName, b.next, scope) == Ok(b2)
    ensures EmitLines(lines, fileName, counter, scope) == Ok(Block(b.code + b2.code, b2.next))
  {
    b := EmitLines(lines[..|lines| - 1], fileName, counter, scope).value;
    b2 := EmitLine(lines[|lines| - 1], fileName, b.next, scope).value;
  }

  /** The labels of a file are those of all its lines but the last, then the last's. */
  lemma LabelsSnoc(lines: seq<Line>, counter: nat)
    requires lines != []
    ensures var init := lines[..|lines| - 1];
      Labels(lines, counter) == Labels(init, counter) + LineLabels(lines[|lines| - 1], counter + StampCount(init))
  {
  }

  /** The labels of two pieces of code joined are the labels of each, in order. */
  lemma DeclaredJoin(a: seq<AsmLine>, b: seq<AsmLine>, la: seq<Name>, lb: seq<Name>)
    requires Declared(a) == la && Declared(b) == lb
    ensures Declared(a + b) == la + lb
  {
    DeclaredAppend(a, b);
  }

  /** The code of one line declares exactly the labels of that line. */
  lemma EmitLineDeclares(l: Line, fileName: string, n: nat, scope: Scope)
    requires ScopeValid(scope)
    ensures var r := EmitLine(l, fileName, n, scope);
      r.Ok? ==> Declared(r.value.code) == LineLabels(l, n)
  {
    if !IsQuiet(l) && l.token.Some? {
      GenerateDeclares(l.token.value, fileName, n, scope);
    }
  }

  /** The counter labels of one line carry the counter value it sees, occur once, and
      exist only on a line that takes a counter value. */
  lemma LineLabelsStamped(l: Line, n: nat)
    ensures forall x :: x in LineLabels(l, n) && x.IsStamped() ==> x.stamp == n && IsStamping(l)
    ensures forall a, b :: 0 <= a < b < |LineLabels(l, n)| ==> LineLabels(l, n)[a] != LineLabels(l, n)[b]
  {
    if !l.BlankLine? && l.token.Some? {
      BlockLabelsStamped(l.token.value, n);
    }
  }

  /** Every counter label of a file carries a stamp from the range its lines used. */
  lemma {:induction false} LabelStampRange(lines: seq<Line>, counter: nat)
    ensures forall x :: x in Labels(lines, counter) && x.IsStamped() ==>
      counter <= x.stamp < counter + StampCount(lines)
    decreases |lines|
  {
    if lines != [] {
      var init, last := lines[..|lines| - 1], lines[|lines| - 1];
      LabelStampRange(init, counter);
      LineLabelsStamped(last, counter + StampCount(init));
    }
  }

  /** No counter label occurs twice in a sequence of labels. */
  ghost predicate CounterLabelsDistinct(names: seq<Name>) {
    forall a, b :: 0 <= a < b < |names| && names[a].IsStamped() ==> names[a] != names[b]
  }

  /** The labels of a file never declare one counter label twice: each comparison and
      each call takes a fresh counter value. */
  lemma {:induction false} LabelsDistinct(lines: seq<Line>, counter: nat)
    ensures CounterLabelsDistinct(Labels(lines, counter))
    decreases |lines|
  {
    if lines != [] {
      var init, last := lines[..|lines| - 1], lines[|lines| - 1];
      var n := counter + StampCount(init);
      var left, right := Labels(init, counter), LineLabels(last, n);
      LabelsDistinct(init, counter);
      LabelStampRange(init, counter);
      LineLabelsStamped(last, n);
      DistinctAppend(left, right, n);
    }
  }

  /** Joining labels whose counter labels are all older than `n` to labels whose counter
      labels all carry `n` and occur once keeps counter labels distinct. */
  lemma DistinctAppend(left: seq<Name>, right: seq<Name>, n: nat)
    requires CounterLabelsDistinct(left)
    requires forall x :: x in left && x.IsStamped() ==> x.stamp < n
    requires forall x :: x in right && x.IsStamped() ==> x.stamp == n
    requires forall a, b :: 0 <= a < b < |right| ==> right[a] != right[b]
    ensures CounterLabelsDistinct(left + right)
  {
    var all := left + right;
    forall a, b | 0 <= a < b < |all| && all[a].IsStamped()
      ensures all[a] != all[b]
    {
      if b < |left| {
        assert all[a] == left[a] && all[b] == left[b];
      } else if a < |left| {
        assert all[a] == left[a] && all[b] == right[b - |left|];
      } else {
        assert all[a] == right[a - |left|] && all[b] == right[b - |left|];
      }
    }
  }

  /** Written out, the counter labels a file declares are pairwise different lines of
      text, so the assembler sees each of them declared once. */
  lemma EmitLabelTextsDistinct(lines: seq<Line>, fileName: string, counter: nat, scope: Scope)
    requires ScopeValid(scope)
    ensures var r := EmitLines(lines, fileName, counter, scope);
      r.Ok? ==>
        var names := Declared(r.value.code);
        forall a, b :: 0 <= a < b < |names| && names[a].IsStamped() && names[b].IsStamped() ==>
          NameText(names[a]) != NameText(names[b])
  {
    var r := EmitLines(lines, fileName, counter, scope);
    if r.Ok? {
      EmitDeclares(lines, fileName, counter, scope);
      LabelsDistinct(lines, counter);
      var names := Declared(r.value.code);
      forall a, b | 0 <= a < b < |names| && names[a].IsStamped() && names[b].IsStamped()
        ensures NameText(names[a]) != NameText(names[b])
      {
        if NameText(names[a]) == NameText(names[b]) {
          StampedTextInjective(names[a], names[b]);
        }
      }
    }
  }

  /** Every jump to a counter label in the output of a file lands on a label the same
      output declares. */
  lemma {:induction false} EmitJumpsResolve(lines: seq<Line>, fileName: string, counter: nat, scope: Scope)
    requires ScopeValid(scope)
    ensures var r := EmitLines(lines, fileName, counter, scope);
      r.Ok? ==> forall x :: At(x) in r.value.code && x.IsStamped() ==> Declare(x) in r.value.code
    decreases |lines|
  {
    var r := EmitLines(lines, fileName, counter, scope);
    if lines != [] && r.Ok? {
      var init, last := lines[..|lines| - 1], lines[|lines| - 1];
      EmitJumpsResolve(init, fileName, counter, scope);
      var b := EmitLines(init, fileName, counter, scope).value;
      var b2 := EmitLine(last, fileName, b.next, scope).value;
      if !IsQuiet(last) {
        GenerateMentions(last.token.value, fileName, b.next, scope);
        GenerateDeclares(last.token.value, fileName, b.next, scope);
      }
      forall x | At(x) in b.code + b2.code && x.IsStamped()
        ensures Declare(x) in b.code + b2.code
      {
        if At(x) in b2.code {
          assert Mentions(b2.code, x);
          assert x in Declared(b2.code);
        }
      }
    }
  }

  // ---------------------------------------------------------------------------
  // One line more

  /** Reading one line more appends its reading. */
  lemma LexSnoc(lines: seq<string>, i: nat)
    requires i < |lines|
    ensures LexLines(lines[..i + 1]) == LexLines(lines[..i]) + [Lex(lines[i])]
  {
    assert lines[..i + 1][..i] == lines[..i];
  }

  /** Reading a prefix of a file gives a prefix of its reading. */
  lemma {:induction false} LexPrefix(lines: seq<string>, k: nat)
    requires k <= |lines|
    ensures LexLines(lines[..k]) == LexLines(lines)[..k]
    decreases |lines|
  {
    if k < |lines| {
      var init := lines[..|lines| - 1];
      assert init[..k] == lines[..k];
      LexPrefix(init, k);
    } else {
      assert lines[..k] == lines;
    }
  }

  /** Scanning one line more scans that line from the table so far. */
  lemma ScanSnoc(lines: seq<Line>, l: Line, srcFile: string, scope: Scope)
    requires ScopeValid(scope)
    ensures ScanLines(lines + [l], srcFile, scope) ==
      match ScanLines(lines, srcFile, scope)
      case Err(e) => Err(e)
      case Ok(sc) => ScanLine(l, |lines| + 1, srcFile, sc)
  {
    assert (lines + [l])[..|lines|] == lines;
  }

  /** Once a prefix fails to scan, the whole file fails with the same error. */
  lemma {:induction false} ScanPrefixError(lines: seq<Line>, k: nat, srcFile: string, scope: Scope)
    requires ScopeValid(scope)
    requires k <= |lines| && ScanLines(lines[..k], srcFile, scope).Err?
    ensures ScanLines(lines, srcFile, scope) == ScanLines(lines[..k], srcFile, scope)
    decreases |lines|
  {
    if k < |lines| {
      var init := lines[..|lines| - 1];
      assert init[..k] == lines[..k];
      ScanPrefixError(init, k, srcFile, scope);
    } else {
      assert lines[..k] == lines;
    }
  }

  /** The `k`-th line read is the reading of the `k`-th raw line. */
  lemma LexAt(lines: seq<string>, k: nat)
    requires k < |lines|
    ensures |LexLines(lines)| == |lines| && LexLines(lines)[k] == Lex(lines[k])
  {
    LexPrefix(lines, k + 1);
    LexSnoc(lines, k);
    assert LexLines(lines)[k] == LexLines(lines)[..k + 1][k];
  }

  /** Scanning the first `k + 1` lines continues from the table left by the first `k`. */
  lemma ScanAdvance(lines: seq<Line>, k: nat, srcFile: string, scope0: Scope, scope: Scope)
    requires ScopeValid(scope0) && ScopeValid(scope) && k < |lines|
    requires ScanLines(lines[..k], srcFile, scope0) == Ok(scope)
    ensures ScanLines(lines[..k + 1], srcFile, scope0) == ScanLine(lines[k], k + 1, srcFile, scope)
  {
    assert lines[..k + 1] == lines[..k] + [lines[k]];
    ScanSnoc(lines[..k], lines[k], srcFile, scope0);
  }

  /** Emitting one line more emits that line at the counter left so far. */
  lemma EmitSnoc(lines: seq<Line>, l: Line, fileName: string, counter: nat, scope: Scope)
    requires ScopeValid(scope)
    ensures EmitLines(lines + [l], fileName, counter, scope) ==
      match EmitLines(lines, fileName, counter, scope)
      case Err(e) => Err(e)
      case Ok(b) =>
        match EmitLine(l, fileName, b.next, scope)
        case Err(e) => Err(e)
        case Ok(b2) => Ok(Block(b.code + b2.code, b2.next))
  {
    assert (lines + [l])[..|lines|] == lines;
  }

    /** Emitting the first `k + 1` lines continues from the block of the first `k`. */
  lemma EmitAdvance(lines: seq<Line>, k: nat, fileName: string, counter: nat, scope: Scope, b: Block)
    requires ScopeValid(scope) && k < |lines|
    requires EmitLines(lines[..k], fileName, counter, scope) == Ok(b)
    ensures EmitLines(lines[..k + 1], fileName, counter, scope) ==
      match EmitLine(lines[k], fileName, b.next, scope)
      case Err(e) => Err(e)
      case Ok(b2) => Ok(Block(b.code + b2.code, b2.next))
  {
    assert lines[..k + 1] == lines[..k] + [lines[k]];
    EmitSnoc(lines[..k], lines[k], fileName, counter, scope);
  }

/** Once a prefix fails to emit, the whole file fails with the same error. */
  lemma {:induction false} EmitPrefixError(lines: seq<Line>, k: nat, fileName: string, counter: nat, scope: Scope)
    requires ScopeValid(scope)
    requires k <= |lines| && EmitLines(lines[..k], fileName, counter, scope).Err?
    ensures EmitLines(lines, fileName, counter, scope) == EmitLines(lines[..k], fileName, counter, scope)
    decreases |lines|
  {
    if k < |lines| {
      var init := lines[..|lines| - 1];
      assert init[..k] == lines[..k];
      EmitPrefixError(init, k, fileName, counter, scope);
    } else {
      assert lines[..k] == lines;
    }
  }
}
