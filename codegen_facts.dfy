/**
 * What `generateCode` guarantees about the code of one token: when it fails,
 * how it moves the label counter, which labels a block declares, and that the
 * labels it makes from the counter are both stamped with the current value and
 * declared in the same block that jumps to them.
 */
module CodegenFacts {
  import opened Wrappers
  import opened Strings
  import opened Instructions
  import opened Asm
  import opened Codegen

  /** The tokens whose code uses the label counter: comparisons and calls. */
  predicate Stamps(i: Instruction) {
    (i.Arithmetic? && IsCompare(i.op)) || i.Call?
  }

  /** Generation fails exactly for a missing token, a comment token, and a call of a
      function the table does not hold; the call fails with a ReferenceError naming the
      function and the other two with a TypeError naming the token's type. */
  lemma GenerateFails(tok: Option<Instruction>, fileName: string, counter: nat, scope: Scope)
    requires tok.Some? ==> WellFormed(tok.value)
    requires ScopeValid(scope)
    ensures var r := Generate(tok, fileName, counter, scope);
      r.Err? <==> tok.None? || tok.value.Comment? || (tok.value.Call? && tok.value.name !in scope)
    ensures var r := Generate(tok, fileName, counter, scope);
      r.Err? && tok.Some? && tok.value.Call? ==> r.error == ReferenceError(tok.value.name)
    ensures var r := Generate(tok, fileName, counter, scope);
      r.Err? && !(tok.Some? && tok.value.Call?) ==>
        r.error == TypeError(if tok.Some? then Some(tok.value.Kind()) else None)
  {
    if tok.Some? && tok.value.Call? && tok.value.name in scope {
      assert Digits1(scope[tok.value.name]);
    }
  }

  /** The counter moves on by one exactly for a comparison or a call. */
  lemma GenerateCounter(i: Instruction, fileName: string, counter: nat, scope: Scope)
    requires WellFormed(i) && ScopeValid(scope)
    ensures var r := Generate(Some(i), fileName, counter, scope);
      r.Ok? ==> r.value.next == if Stamps(i) then counter + 1 else counter
  {
  }

  // ---------------------------------------------------------------------------
  // Labels

  /** The labels the block of `i` declares, in order, at counter value `n`. */
  function BlockLabels(i: Instruction, n: nat): seq<Name> {
    match i
    case Function(name, _) => [Text(name)]
    case Label(name) => [Text(name)]
    case Call(name, _) => [ReturnAddr(name, n)]
    case Arithmetic(op) =>
      (match Classify(op)
       case Compare(t) => [IfTrue(t, n), IfFalse(t, n), Done(n)]
       case _ => [])
    case _ => []
  }

  /** Code that declares no label. */
  ghost predicate Unlabelled(code: seq<AsmLine>) {
    forall n :: Declare(n) !in code
  }

  lemma {:induction false} UnlabelledDeclares(code: seq<AsmLine>)
    requires Unlabelled(code)
    ensures Declared(code) == []
    decreases |code|
  {
    if code != [] {
      var init := code[..|code| - 1];
      assert code == init + [code[|code| - 1]];
      UnlabelledDeclares(init);
    }
  }

  lemma DeclaredOne(l: AsmLine)
    ensures Declared([l]) == if l.Declare? then [l.name] else []
  {
    assert [l][..0] == [];
  }

  lemma CompareTrueDeclares(t: Test, n: nat)
    ensures Declared(CompareTrue(t, n)) == [IfTrue(t, n)]
  {
    var rest := [At(Reg(SP)), Assign(A, MMinusOne), Assign(M, MinusOne), At(Done(n)), Branch(Zero, JMP)];
    assert CompareTrue(t, n) == [Declare(IfTrue(t, n))] + rest;
    UnlabelledDeclares(rest);
    DeclaredOne(Declare(IfTrue(t, n)));
    DeclaredAppend([Declare(IfTrue(t, n))], rest);
  }

  lemma CompareFalseDeclares(t: Test, n: nat)
    ensures Declared(CompareFalse(t, n)) == [IfFalse(t, n), Done(n)]
  {
    var store := [At(Reg(SP)), Assign(A, MMinusOne), Assign(M, Zero)];
    var head := [Declare(IfFalse(t, n))] + store;
    assert CompareFalse(t, n) == head + [Declare(Done(n)), Blank];
    UnlabelledDeclares(store);
    DeclaredOne(Declare(IfFalse(t, n)));
    DeclaredAppend([Declare(IfFalse(t, n))], store);
    assert Declared(head + [Declare(Done(n)), Blank])
      == Declared(head + [Declare(Done(n))]) == Declared(head) + [Done(n)] by {
      assert head + [Declare(Done(n)), Blank] == head + [Declare(Done(n))] + [Blank];
    }
  }

  lemma CompareTestDeclares(t: Test, n: nat)
    ensures Declared(CompareTest(t, n)) == []
  {
    UnlabelledDeclares(CompareTest(t, n));
  }

  /** The labels of a compare block. */
  lemma CompareDeclares(t: Test, n: nat)
    ensures Declared(CompareCode(t, n)) == [IfTrue(t, n), IfFalse(t, n), Done(n)]
  {
    CompareTestDeclares(t, n);
    CompareTrueDeclares(t, n);
    CompareFalseDeclares(t, n);
    DeclaredAppend(CompareTest(t, n), CompareTrue(t, n));
    DeclaredAppend(CompareTest(t, n) + CompareTrue(t, n), CompareFalse(t, n));
  }

  /** The labels of a call block: only its return address. */
  lemma CallDeclares(name: string, args: string, vars: string, n: nat)
    requires All(args, Digit) && All(vars, Digit)
    ensures Declared(CallCode(name, args, vars, n)) == [ReturnAddr(name, n)]
  {
    var ret := ReturnAddr(name, n);
    var setup := CallSetup(DigitsValue(args), DigitsValue(vars), ret);
    var tail := [At(Text(name)), Branch(Zero, JMP), Declare(ret), Blank];
    assert Declared(setup) == [] by {
      UnlabelledSetup(DigitsValue(args), DigitsValue(vars), ret);
      UnlabelledDeclares(setup);
    }
    JumpBackDeclares(At(Text(name)), Branch(Zero, JMP), ret);
    assert CallCode(name, args, vars, n) == setup + tail;
    DeclaredAppend(setup, tail);
  }

  /** Two unlabelled lines, then a label and a blank line, declare only that label. */
  lemma JumpBackDeclares(l0: AsmLine, l1: AsmLine, ret: Name)
    requires !l0.Declare? && !l1.Declare?
    ensures Declared([l0, l1, Declare(ret), Blank]) == [ret]
  {
    var code := [l0, l1, Declare(ret), Blank];
    assert code[..3][..2][..1][..0] == [];
    assert Declared(code[..3][..2][..1]) == [];
    assert Declared(code[..3][..2]) == [];
    assert Declared(code[..3]) == [ret];
  }

  lemma {:induction false} UnlabelledRepeat(code: seq<AsmLine>, k: nat)
    requires Unlabelled(code)
    ensures Unlabelled(Repeat(code, k))
  {
    if k > 0 {
      UnlabelledRepeat(code, k - 1);
    }
  }

  lemma {:induction false} UnlabelledPushRegisters(regs: seq<Builtin>)
    ensures Unlabelled(PushRegisters(regs))
    decreases |regs|
  {
    if regs != [] {
      UnlabelledPushRegisters(regs[..|regs| - 1]);
    }
  }

  lemma UnlabelledSetup(args: nat, locals: nat, ret: Name)
    ensures Unlabelled(CallSetup(args, locals, ret))
  {
    UnlabelledPushRegisters(SavedPointers);
    UnlabelledRepeat(PushZero(), locals);
  }

  lemma {:induction false} UnlabelledRestoreRegisters(regs: seq<Builtin>)
    ensures Unlabelled(RestoreRegisters(regs))
    decreases |regs|
  {
    if regs != [] {
      UnlabelledRestoreRegisters(regs[..|regs| - 1]);
    }
  }

  lemma PushUnlabelled(t: Target, fileName: string)
    requires t.Slot? ==> All(t.index, Digit)
    ensures Declared(PushCode(t, fileName)) == []
  {
    UnlabelledDeclares(PushCode(t, fileName));
  }

  lemma PopUnlabelled(t: Target, fileName: string)
    requires t.Slot? ==> All(t.index, Digit)
    ensures Declared(PopCode(t, fileName)) == []
  {
    UnlabelledDeclares(PopCode(t, fileName));
  }

  lemma ReturnUnlabelled()
    ensures Declared(ReturnCode()) == []
  {
    UnlabelledRestoreRegisters(RestoredFirst);
    UnlabelledDeclares(ReturnCode());
  }

  lemma ArithmeticUnlabelled(op: ArithOp, n: nat)
    requires !IsCompare(op)
    ensures Declared(ArithmeticCode(op, n)) == []
  {
    UnlabelledDeclares(ArithmeticCode(op, n));
  }

  lemma GotoUnlabelled(cmd: GotoCmd, dest: string)
    ensures Declared(GotoCode(cmd, dest)) == []
  {
    UnlabelledDeclares(GotoCode(cmd, dest));
  }

  /** The labels a block declares: a function or label line its own name, a comparison
      its three stamped labels, a call its return address, and no other block any. */
  lemma GenerateDeclares(i: Instruction, fileName: string, counter: nat, scope: Scope)
    requires WellFormed(i) && ScopeValid(scope)
    ensures var r := Generate(Some(i), fileName, counter, scope);
      r.Ok? ==> Declared(r.value.code) == BlockLabels(i, counter)
  {
    match i
    case Arithmetic(op) =>
      if IsCompare(op) {
        CompareDeclares(Classify(op).test, counter);
      } else {
        ArithmeticUnlabelled(op, counter);
      }
    case Call(name, args) =>
      if name in scope {
        CallDeclares(name, args, scope[name], counter);
      }
    case Function(name, _) =>
      DeclaredOne(Declare(Text(name)));
    case Label(name) =>
      DeclaredOne(Declare(Text(name)));
    case Return =>
      ReturnUnlabelled();
    case Goto(cmd, dest) =>
      GotoUnlabelled(cmd, dest);
    case Pop(t) =>
      PopUnlabelled(t, fileName);
    case Push(t) =>
      PushUnlabelled(t, fileName);
    case Comment =>
  }

  // ---------------------------------------------------------------------------
  // Labels made from the counter

  /** `code` names `x`, in an `@` line or a label declaration. */
  ghost predicate Mentions(code: seq<AsmLine>, x: Name) {
    At(x) in code || Declare(x) in code
  }

  /** `code` names no label made from the counter. */
  ghost predicate StampFree(code: seq<AsmLine>) {
    forall x :: Mentions(code, x) ==> !x.IsStamped()
  }

  lemma {:induction false} StampFreeRepeat(code: seq<AsmLine>, k: nat)
    requires StampFree(code)
    ensures StampFree(Repeat(code, k))
  {
    if k > 0 {
      StampFreeRepeat(code, k - 1);
    }
  }

  lemma {:induction false} StampFreePushRegisters(regs: seq<Builtin>)
    ensures StampFree(PushRegisters(regs))
    decreases |regs|
  {
    if regs != [] {
      StampFreePushRegisters(regs[..|regs| - 1]);
    }
  }

  lemma {:induction false} StampFreeRestoreRegisters(regs: seq<Builtin>)
    ensures StampFree(RestoreRegisters(regs))
    decreases |regs|
  {
    if regs != [] {
      StampFreeRestoreRegisters(regs[..|regs| - 1]);
    }
  }

  /** The only counter label the code of a call names is its return address. */
  lemma CallMentions(name: string, args: string, vars: string, n: nat)
    requires All(args, Digit) && All(vars, Digit)
    ensures forall x :: Mentions(CallCode(name, args, vars, n), x) && x.IsStamped() ==> x == ReturnAddr(name, n)
  {
    StampFreePushRegisters(SavedPointers);
    StampFreeRepeat(PushZero(), DigitsValue(vars));
  }

  /** The counter labels a compare block names are its own three. */
  lemma CompareMentions(t: Test, n: nat)
    ensures forall x :: Mentions(CompareCode(t, n), x) && x.IsStamped() ==> x in [IfTrue(t, n), IfFalse(t, n), Done(n)]
  {
  }

  lemma StampFreeAppend(a: seq<AsmLine>, b: seq<AsmLine>)
    requires StampFree(a) && StampFree(b)
    ensures StampFree(a + b)
  {
  }

  lemma ReturnStampFree()
    ensures StampFree(ReturnCode())
  {
    var head := SaveArgument() + FrameBase();
    var tail := RestoreLast() + MoveResult() + ResetStack() + [At(Reg(R15)), Assign(A, OfM), Branch(Zero, JMP)];
    assert StampFree(head);
    assert StampFree(tail);
    StampFreeRestoreRegisters(RestoredFirst);
    StampFreeAppend(head, RestoreRegisters(RestoredFirst));
    StampFreeAppend(head + RestoreRegisters(RestoredFirst), tail);
    assert ReturnCode() == head + RestoreRegisters(RestoredFirst) + tail;
  }

  lemma PushStampFree(t: Target, fileName: string)
    requires t.Slot? ==> All(t.index, Digit)
    ensures StampFree(PushCode(t, fileName))
  {
  }

  lemma PopStampFree(t: Target, fileName: string)
    requires t.Slot? ==> All(t.index, Digit)
    ensures StampFree(PopCode(t, fileName))
  {
  }

  lemma ArithmeticStampFree(op: ArithOp, n: nat)
    requires !IsCompare(op)
    ensures StampFree(ArithmeticCode(op, n))
  {
  }

  lemma GotoStampFree(cmd: GotoCmd, dest: string)
    ensures StampFree(GotoCode(cmd, dest))
  {
  }

  /** Every label made from the counter that a block names, in a jump or a declaration,
      is one the block itself declares: the code of one command never jumps to a counter
      label of another. */
  lemma GenerateMentions(i: Instruction, fileName: string, counter: nat, scope: Scope)
    requires WellFormed(i) && ScopeValid(scope)
    ensures var r := Generate(Some(i), fileName, counter, scope);
      r.Ok? ==> forall x :: Mentions(r.value.code, x) && x.IsStamped() ==> x in BlockLabels(i, counter)
  {
    match i
    case Arithmetic(op) =>
      if IsCompare(op) {
        CompareMentions(Classify(op).test, counter);
      } else {
        ArithmeticStampFree(op, counter);
      }
    case Call(name, args) =>
      if name in scope {
        CallMentions(name, args, scope[name], counter);
      }
    case Goto(cmd, dest) =>
      GotoStampFree(cmd, dest);
    case Return =>
      ReturnStampFree();
    case Pop(t) =>
      PopStampFree(t, fileName);
    case Push(t) =>
      PushStampFree(t, fileName);
    case _ =>
  }

  /** The counter labels of a block carry the counter value it was generated with. */
  lemma BlockLabelsStamped(i: Instruction, n: nat)
    ensures forall x :: x in BlockLabels(i, n) && x.IsStamped() ==> x.stamp == n
    ensures |BlockLabels(i, n)| > 0 && BlockLabels(i, n)[0].IsStamped() <==> Stamps(i)
    ensures forall x :: x in BlockLabels(i, n) && x.IsStamped() ==> Stamps(i)
    ensures forall a, b :: 0 <= a < b < |BlockLabels(i, n)| ==> BlockLabels(i, n)[a] != BlockLabels(i, n)[b]
  {
  }
}
