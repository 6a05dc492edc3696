/**
 * The translator object (class `Translator` of src/translator.ts). It keeps the
 * label counter and the table of declared functions across lines and across
 * files. `Scan` and `Translate` take the lines of a file as the line reader
 * delivers them and loop over them; each loop is proved against the pass
 * functions of the `Translation` module.
 */
module Translator {
  import opened Wrappers
  import opened Strings
  import opened Instructions
  import opened Asm
  import opened Codegen
  import opened Parser
  import opened Translation

  /** What `translate` writes: the path of the output file and its text. */
  datatype Output = Output(outFile: string, text: string)

  /** The prefix of `static` variables: the base name of the source with its first
      `.vm` removed. */
  function StaticPrefix(srcFile: string): (r: string)
    ensures IndexOf(Basename(srcFile), ".vm").None? ==> r == Basename(srcFile)
    ensures IndexOf(Basename(srcFile), ".vm").Some? ==>
      var b, k := Basename(srcFile), IndexOf(Basename(srcFile), ".vm").value;
      k + 3 <= |b| && r == b[..k] + b[k + 3..]
  {
    ReplaceFirst(Basename(srcFile), ".vm", "")
  }

  /** The output path: the source path with its first `.vm` changed to `.asm`. */
  function OutFile(srcFile: string): (r: string)
    ensures IndexOf(srcFile, ".vm").Some? ==>
      var k := IndexOf(srcFile, ".vm").value;
      k + 3 <= |srcFile| && r == srcFile[..k] + ".asm" + srcFile[k + 3..]
    ensures IndexOf(srcFile, ".vm").None? ==> r == srcFile
  {
    ReplaceFirst(srcFile, ".vm", ".asm")
  }

  class Translator {
    var labelCounter: nat
    var scope: Scope

    /** The table holds a digit string for each declared function. */
    ghost predicate Valid()
      reads this
    {
      ScopeValid(scope)
    }

    /** A fresh translator: counter at zero, no function declared. */
    constructor()
      ensures Valid() && labelCounter == 0 && scope == map[]
    {
      labelCounter := 0;
      scope := map[];
    }

    /** The code of one token (`generateCode`): comparisons and calls take the
        current counter value and move the counter on. */
    method GenerateCode(tok: Option<Instruction>, fileName: string) returns (r: Result<seq<AsmLine>, Error>)
      requires tok.Some? ==> WellFormed(tok.value)
      requires Valid()
      modifies this
      ensures Valid() && scope == old(scope)
      ensures var g := Generate(tok, fileName, old(labelCounter), scope);
        && (g.Ok? ==> r == Ok(g.value.code) && labelCounter == g.value.next)
        && (g.Err? ==> r == Err(g.error) && labelCounter == old(labelCounter))
    {
      match tok
      case None =>
        r := Err(TypeError(None));
      case Some(i) =>
        match i
        case Arithmetic(op) =>
          r := Ok(ArithmeticCode(op, labelCounter));
          if IsCompare(op) {
            labelCounter := labelCounter + 1;
          }
        case Comment =>
          r := Err(TypeError(Some(CommentKind)));
        case Call(name, args) =>
          if name in scope && scope[name] != "" {
            r := Ok(CallCode(name, args, scope[name], labelCounter));
            labelCounter := labelCounter + 1;
          } else {
            r := Err(ReferenceError(name));
          }
        case Function(name, _) =>
          r := Ok([Declare(Text(name))]);
        case Return =>
          r := Ok(ReturnCode());
        case Goto(cmd, dest) =>
          r := Ok(GotoCode(cmd, dest));
        case Label(name) =>
          r := Ok([Declare(Text(name))]);
        case Pop(t) =>
          r := Ok(PopCode(t, fileName));
        case Push(t) =>
          r := Ok(PushCode(t, fileName));
    }

    /** One iteration of `scan`: a blank line changes nothing, a line no pattern accepts
        is reported, a function declaration is recorded in the table. */
    method ScanLineOf(lines: seq<string>, k: nat, srcFile: string) returns (err: Option<Error>)
      requires Valid() && k < |lines|
      modifies this
      ensures Valid() && labelCounter == old(labelCounter)
      ensures var s := ScanLine(LexLines(lines)[k], k + 1, srcFile, old(scope));
        && (s.Ok? ==> err.None? && scope == s.value)
        && (s.Err? ==> err == Some(s.error) && scope == old(scope))
    {
      LexAt(lines, k);
      var lineNum := k + 1;
      err := None;
      var line := Trim(lines[k]);
      if line != "" {
        var token := Parse(line);
        if token.None? {
          err := Some(SyntaxError(line, lineNum, srcFile));
          return;
        }
        if token.value.Function? {
          scope := scope[token.value.name := token.value.vars];
        }
      }
    }

    /** The first pass (`scan`): records every function declaration in the table, and
        stops at the first line no pattern accepts, reporting its trimmed text and its
        1-based number; the table then holds the declarations before that line. */
    method Scan(srcFile: string, lines: seq<string>) returns (err: Option<Error>)
      requires Valid()
      modifies this
      ensures Valid() && labelCounter == old(labelCounter)
      ensures var s := ScanLines(LexLines(lines), srcFile, old(scope));
        && (s.Ok? ==> err.None? && scope == s.value)
        && (s.Err? ==>
              && err == Some(s.error)
              && ScanLines(LexLines(lines)[..s.error.lineNum - 1], srcFile, old(scope)) == Ok(scope))
    {
      ghost var read := LexLines(lines);
      var lineNum := 1;
      while lineNum <= |lines|
        invariant 1 <= lineNum <= |lines| + 1
        invariant Valid() && labelCounter == old(labelCounter)
        invariant ScanLines(read[..lineNum - 1], srcFile, old(scope)) == Ok(scope)
      {
        ghost var before := scope;
        var e := ScanLineOf(lines, lineNum - 1, srcFile);
        ScanAdvance(read, lineNum - 1, srcFile, old(scope), before);
        if e.Some? {
          ScanPrefixError(read, lineNum, srcFile, old(scope));
          err := e;
          return;
        }
        lineNum := lineNum + 1;
      }
      err := None;
      assert read[..lineNum - 1] == read;
    }

    /** What `translate` does with one line: nothing for a blank or comment line, the
        code of its token otherwise. */
    method TranslateLine(lines: seq<string>, k: nat, fileName: string) returns (r: Result<seq<AsmLine>, Error>)
      requires Valid() && k < |lines|
      modifies this
      ensures Valid() && scope == old(scope)
      ensures var e := EmitLine(LexLines(lines)[k], fileName, old(labelCounter), scope);
        && (e.Ok? ==> r == Ok(e.value.code) && labelCounter == e.value.next)
        && (e.Err? ==> r == Err(e.error) && labelCounter == old(labelCounter))
    {
      LexAt(lines, k);
      var line := Trim(lines[k]);
      if line != "" {
        var token := Parse(line);
        if token != Some(Comment) {
          r := GenerateCode(token, fileName);
          return;
        }
      }
      r := Ok([]);
    }

    /** `translate`: scans the file, then writes the code of every line that is neither
        blank nor a comment, in order, to the output path; the first error of either
        pass is thrown instead. */
    method Translate(srcFile: string, lines: seq<string>) returns (r: Result<Output, Error>)
      requires Valid()
      modifies this
      ensures Valid()
      ensures var s := ScanLines(LexLines(lines), srcFile, old(scope));
        && (s.Err? ==>
              && r == Err(s.error) && labelCounter == old(labelCounter)
              && ScanLines(LexLines(lines)[..s.error.lineNum - 1], srcFile, old(scope)) == Ok(scope))
        && (s.Ok? ==>
              var fileName, e := StaticPrefix(srcFile), EmitLines(LexLines(lines), StaticPrefix(srcFile), old(labelCounter), s.value);
              && scope == s.value
              && (e.Ok? ==> r == Ok(Output(OutFile(srcFile), Render(e.value.code))) && labelCounter == e.value.next)
              && (e.Err? ==>
                    && r == Err(e.error)
                    // the counter is where the lines before the failing one left it
                    && exists j :: 0 <= j < |lines|
                         && EmitLines(LexLines(lines)[..j], fileName, old(labelCounter), scope).Ok?
                         && EmitLines(LexLines(lines)[..j], fileName, old(labelCounter), scope).value.next == labelCounter
                         && EmitLine(LexLines(lines)[j], fileName, labelCounter, scope).Err?))
    {
      var err := Scan(srcFile, lines);
      if err.Some? {
        return Err(err.value);
      }
      var fileName := ReplaceFirst(Basename(srcFile), ".vm", "");
      var outFile := ReplaceFirst(srcFile, ".vm", ".asm");
      var text := "";
      ghost var read := LexLines(lines);
      ghost var code: seq<AsmLine> := [];
      ghost var start := labelCounter;
      ghost var table := scope;
      var i := 0;
      while i < |lines|
        invariant 0 <= i <= |lines|
        invariant Valid() && scope == table
        invariant EmitLines(read[..i], fileName, start, scope) == Ok(Block(code, labelCounter))
        invariant text == Render(code)
      {
        EmitAdvance(read, i, fileName, start, scope, Block(code, labelCounter));
        var c := TranslateLine(lines, i, fileName);
        if c.Err? {
          EmitPrefixError(read, i + 1, fileName, start, scope);
          assert EmitLine(read[i], fileName, labelCounter, scope).Err?;
          return Err(c.error);
        }
        RenderAppend(code, c.value);
        text := text + Render(c.value);
        code := code + c.value;
        i := i + 1;
      }
      assert read[..i] == read;
      r := Ok(Output(outFile, text));
    }
  }
}
