/**
 * What the code for `call` and `return` does on the Hack computer, up to the
 * jump each ends with: the frame a call builds on the stack, the frame a
 * return takes down, and the calling convention the two implement together.
 */
module CallEffects {
  import opened Strings
  import opened Asm
  import opened Hack
  import opened Codegen
  import opened Effects

  /** The `k` zeros a call pushes for the local variables. */
  function Zeros(k: nat): (r: seq<int>)
    ensures |r| == k && forall j :: 0 <= j < k ==> r[j] == 0
  {
    if k == 0 then [] else Zeros(k - 1) + [0]
  }

  /** `m2` is `m` with `vals` pushed: SP advanced by their number, the values in the
      cells from the old SP on, and every other cell unchanged. */
  ghost predicate Pushed(m: Machine, m2: Machine, vals: seq<int>) {
    var sp := SP0(m);
    SP0(m2) == sp + |vals|
    && (forall j :: 0 <= j < |vals| ==> Get(m2.ram, sp + j) == vals[j])
    && (forall i :: i != 0 && !(sp <= i < sp + |vals|) ==> Get(m2.ram, i) == Get(m.ram, i))
  }

  /** Pushing `a` and then `b` pushes `a + b`. */
  lemma PushedAppend(m: Machine, m1: Machine, m2: Machine, a: seq<int>, b: seq<int>)
    requires SP0(m) > 0
    requires Pushed(m, m1, a) && Pushed(m1, m2, b)
    ensures Pushed(m, m2, a + b)
  {
    var sp := SP0(m);
    forall j | 0 <= j < |a + b| ensures Get(m2.ram, sp + j) == (a + b)[j] {
      if j >= |a| {
        assert Get(m2.ram, SP0(m1) + (j - |a|)) == b[j - |a|];
      }
    }
  }

  /** Storing `v` at SP and advancing SP pushes `v`. */
  lemma PushedOne(m: Machine, m2: Machine, v: int)
    requires SP0(m) != 0
    requires m2.ram == m.ram[0 := SP0(m) + 1][SP0(m) := v]
    ensures Pushed(m, m2, [v])
  {
  }

  lemma PushFromEffect(n: Name, c: Comp, m: Machine, env: string -> int)
    requires SP0(m) > 0
    ensures Straight(PushFrom(n, c))
    ensures Pushed(m, Exec(PushFrom(n, c), m, env), [Alu(c, m.(a := Addr(n, env)))])
  {
    var m1 := Exec([At(n), Assign(D, c)], m, env);
    Exec2(At(n), Assign(D, c), m, env);
    assert m1.ram == m.ram && m1.d == Alu(c, m.(a := Addr(n, env)));
    PushDEffect(m1, env);
    ExecAppend([At(n), Assign(D, c)], PushD(), m, env);
    PushedOne(m, Exec(PushFrom(n, c), m, env), m1.d);
  }

  /** The frame a call saves: the return address and the caller's LCL, ARG, THIS, THAT. */
  function SavedFrame(ret: Name, m: Machine, env: string -> int): seq<int> {
    [Addr(ret, env), Get(m.ram, 1), Get(m.ram, 2), Get(m.ram, 3), Get(m.ram, 4)]
  }

  /** After pushing `vals` from `m`, pushing one of the pointer registers pushes its
      value in `m`, provided the stack lies above them. */
  lemma PushRegisterAfter(m: Machine, mk: Machine, vals: seq<int>, b: Builtin, env: string -> int)
    requires SP0(m) > 4 && 1 <= BuiltinAddr(b) <= 4
    requires Pushed(m, mk, vals)
    ensures Pushed(m, Exec(PushFrom(Reg(b), OfM), mk, env), vals + [Get(m.ram, BuiltinAddr(b))])
  {
    PushFromEffect(Reg(b), OfM, mk, env);
    assert Alu(OfM, mk.(a := BuiltinAddr(b))) == Get(m.ram, BuiltinAddr(b));
    PushedAppend(m, mk, Exec(PushFrom(Reg(b), OfM), mk, env), vals, [Get(m.ram, BuiltinAddr(b))]);
  }

  /** The values of registers `regs` in `m`. */
  function RegisterValues(regs: seq<Builtin>, m: Machine): (vals: seq<int>)
    ensures |vals| == |regs|
    ensures forall j :: 0 <= j < |regs| ==> vals[j] == Get(m.ram, BuiltinAddr(regs[j]))
  {
    if regs == [] then []
    else RegisterValues(regs[..|regs| - 1], m) + [Get(m.ram, BuiltinAddr(regs[|regs| - 1]))]
  }

  /** Pushing pointer registers one after another pushes their values in `m`. */
  lemma {:induction false} PushRegistersEffect(m: Machine, mk: Machine, vals: seq<int>, regs: seq<Builtin>, env: string -> int)
    requires SP0(m) > 4
    requires forall j :: 0 <= j < |regs| ==> 1 <= BuiltinAddr(regs[j]) <= 4
    requires Pushed(m, mk, vals)
    ensures Straight(PushRegisters(regs))
    ensures Pushed(m, Exec(PushRegisters(regs), mk, env), vals + RegisterValues(regs, m))
    decreases |regs|
  {
    if regs == [] {
      assert vals + [] == vals;
    } else {
      var init, b := regs[..|regs| - 1], regs[|regs| - 1];
      PushRegistersEffect(m, mk, vals, init, env);
      var mi := Exec(PushRegisters(init), mk, env);
      PushRegisterAfter(m, mi, vals + RegisterValues(init, m), b, env);
      PushFromEffect(Reg(b), OfM, mi, env);
      ExecAppend(PushRegisters(init), PushFrom(Reg(b), OfM), mk, env);
      assert vals + RegisterValues(init, m) + [Get(m.ram, BuiltinAddr(b))] == vals + RegisterValues(regs, m);
    }
  }

  lemma SaveFrameEffect(ret: Name, m: Machine, env: string -> int)
    requires SP0(m) > 4
    ensures Straight(SaveFrame(ret))
    ensures Pushed(m, Exec(SaveFrame(ret), m, env), SavedFrame(ret, m, env))
  {
    assert [Addr(ret, env)] + RegisterValues(SavedPointers, m) == SavedFrame(ret, m, env);
    assert forall j :: 0 <= j < |SavedPointers| ==> 1 <= BuiltinAddr(SavedPointers[j]) <= 4;
    assert Alu(OfA, m.(a := Addr(ret, env))) == Addr(ret, env);
    PushFromEffect(ret, OfA, m, env);
    var m1 := Exec(PushFrom(ret, OfA), m, env);
    PushRegistersEffect(m, m1, [Addr(ret, env)], SavedPointers, env);
    ExecAppend(PushFrom(ret, OfA), PushRegisters(SavedPointers), m, env);
  }

  /** Pushing the constant zero. */
  lemma PushZeroEffect(m: Machine, env: string -> int)
    requires SP0(m) != 0
    ensures Straight(PushZero())
    ensures Pushed(m, Exec(PushZero(), m, env), [0])
  {
    Exec4(At(Reg(SP)), Assign(M, MPlusOne), Assign(A, MMinusOne), Assign(M, Zero), m, env);
    PushedOne(m, Exec(PushZero(), m, env), 0);
  }

  /** The local variables a call pushes: `k` zeros. */
  lemma {:induction false} PushZerosEffect(k: nat, m: Machine, env: string -> int)
    requires SP0(m) > 0
    ensures Straight(Repeat(PushZero(), k))
    ensures Pushed(m, Exec(Repeat(PushZero(), k), m, env), Zeros(k))
  {
    if k == 0 {
    } else {
      PushZerosEffect(k - 1, m, env);
      var mk := Exec(Repeat(PushZero(), k - 1), m, env);
      PushZeroEffect(mk, env);
      ExecAppend(Repeat(PushZero(), k - 1), PushZero(), m, env);
      PushedAppend(m, mk, Exec(PushZero(), mk, env), Zeros(k - 1), [0]);
      assert Zeros(k - 1) + [0] == Zeros(k);
    }
  }

  /** LCL := SP. */
  lemma SetLocalEffect(m: Machine, env: string -> int)
    ensures Straight(SetLocal())
    ensures Exec(SetLocal(), m, env).ram == m.ram[1 := SP0(m)]
  {
    Exec4(At(Reg(SP)), Assign(D, OfM), At(Reg(LCL)), Assign(M, OfD), m, env);
  }

  /** ARG := SP - offset. */
  lemma SetArgumentEffect(offset: nat, m: Machine, env: string -> int)
    ensures Straight(SetArgument(offset))
    ensures Exec(SetArgument(offset), m, env).ram == m.ram[2 := SP0(m) - offset]
  {
    Exec6(At(Reg(SP)), Assign(D, OfM), At(Num(offset)), Assign(D, DMinusA), At(Reg(ARG)), Assign(M, OfD), m, env);
  }

  /** `m2` is the state a call with `args` arguments to a function with `locals` local
      variables sets up from `m`: the frame `frame` pushed, followed by `locals` zeros;
      LCL pointing just above the frame, ARG at the first argument, SP above the locals;
      everything else as it was. */
  ghost predicate Called(m: Machine, m2: Machine, frame: seq<int>, args: nat, locals: nat) {
    var sp := SP0(m);
    var lcl := sp + |frame|;
    SP0(m2) == lcl + locals
    && Get(m2.ram, 1) == lcl
    && Get(m2.ram, 2) == sp - args
    && (forall j :: 0 <= j < |frame| ==> Get(m2.ram, sp + j) == frame[j])
    && (forall i :: lcl <= i < lcl + locals ==> Get(m2.ram, i) == 0)
    && (forall i :: !(0 <= i <= 2) && !(sp <= i < lcl + locals) ==> Get(m2.ram, i) == Get(m.ram, i))
  }

  /** What a call does before it jumps to the callee: it saves the caller's frame and
      sets up the callee's, with ARG `args` cells below the old SP. */
  lemma CallSetupEffect(args: nat, locals: nat, ret: Name, m: Machine, env: string -> int)
    requires SP0(m) > 4
    ensures Straight(CallSetup(args, locals, ret))
    ensures Called(m, Exec(CallSetup(args, locals, ret), m, env), SavedFrame(ret, m, env), args, locals)
  {
    var m1, m2, m3, m4 := CallSetupStates(args, locals, ret, m, env);
    CalledFrom(m, m1, m2, m3, m4, SavedFrame(ret, m, env), args, locals);
  }

  /** The states the call set-up passes through, one piece of its code at a time. */
  lemma CallSetupStates(args: nat, locals: nat, ret: Name, m: Machine, env: string -> int)
    returns (m1: Machine, m2: Machine, m3: Machine, m4: Machine)
    requires SP0(m) > 4
    ensures Pushed(m, m1, SavedFrame(ret, m, env))
    ensures m2.ram == m1.ram[1 := SP0(m1)]
    ensures Pushed(m2, m3, Zeros(locals))
    ensures m4.ram == m3.ram[2 := SP0(m3) - (FrameSize + args + locals)]
    ensures Straight(CallSetup(args, locals, ret)) && Exec(CallSetup(args, locals, ret), m, env) == m4
  {
    CallSetupRuns(args, locals, ret, m, env);
    m1 := Exec(SaveFrame(ret), m, env);
    m2 := Exec(SetLocal(), m1, env);
    m3 := Exec(Repeat(PushZero(), locals), m2, env);
    m4 := Exec(SetArgument(FrameSize + args + locals), m3, env);
    assert Pushed(m, m1, SavedFrame(ret, m, env)) by {
      SaveFrameEffect(ret, m, env);
    }
    assert m2.ram == m1.ram[1 := SP0(m1)] by {
      SetLocalEffect(m1, env);
    }
    assert Pushed(m2, m3, Zeros(locals)) by {
      PushZerosEffect(locals, m2, env);
    }
    assert m4.ram == m3.ram[2 := SP0(m3) - (FrameSize + args + locals)] by {
      SetArgumentEffect(FrameSize + args + locals, m3, env);
    }
  }

  /** The call set-up runs as its four pieces in turn. */
  lemma CallSetupRuns(args: nat, locals: nat, ret: Name, m: Machine, env: string -> int)
    requires SP0(m) > 4
    ensures Straight(SaveFrame(ret)) && Straight(SetLocal())
    ensures Straight(Repeat(PushZero(), locals)) && Straight(SetArgument(FrameSize + args + locals))
    ensures Straight(CallSetup(args, locals, ret))
    ensures Exec(CallSetup(args, locals, ret), m, env) ==
      Exec(SetArgument(FrameSize + args + locals),
        Exec(Repeat(PushZero(), locals), Exec(SetLocal(), Exec(SaveFrame(ret), m, env), env), env), env)
  {
    var save, zeros, setArg := SaveFrame(ret), Repeat(PushZero(), locals), SetArgument(FrameSize + args + locals);
    assert Straight(save) && Straight(SetLocal()) && Straight(zeros) && Straight(setArg) by {
      SaveFrameEffect(ret, m, env);
      SetLocalEffect(m, env);
      PushZerosEffect(locals, m, env);
      SetArgumentEffect(FrameSize + args + locals, m, env);
    }
    ExecAppend(save, SetLocal(), m, env);
    ExecAppend(save + SetLocal(), zeros, m, env);
    ExecAppend(save + SetLocal() + zeros, setArg, m, env);
  }

  /** The bookkeeping of `CallSetupEffect`, one piece of the code at a time. */
  lemma CalledFrom(m: Machine, m1: Machine, m2: Machine, m3: Machine, m4: Machine, frame: seq<int>, args: nat, locals: nat)
    requires SP0(m) > 4 && |frame| == 5
    requires Pushed(m, m1, frame)
    requires m2.ram == m1.ram[1 := SP0(m1)]
    requires Pushed(m2, m3, Zeros(locals))
    requires m4.ram == m3.ram[2 := SP0(m3) - (FrameSize + args + locals)]
    ensures Called(m, m4, frame, args, locals)
  {
    var sp, zeros := SP0(m), Zeros(locals);
    assert SP0(m2) == sp + 5;
    forall j | 0 <= j < 5 ensures Get(m4.ram, sp + j) == frame[j] {
      assert Get(m3.ram, sp + j) == Get(m2.ram, sp + j);
    }
    assert Get(m3.ram, 1) == Get(m2.ram, 1) == sp + 5;
    var lcl := sp + |frame|;
    forall i | lcl <= i < lcl + locals ensures Get(m4.ram, i) == 0 {
      assert Get(m3.ram, SP0(m2) + (i - lcl)) == zeros[i - lcl] == 0;
    }
    forall i | !(0 <= i <= 2) && !(sp <= i < lcl + locals)
      ensures Get(m4.ram, i) == Get(m.ram, i)
    {
      assert Get(m3.ram, i) == Get(m2.ram, i) == Get(m1.ram, i);
    }
  }

  // ---------------------------------------------------------------------------
  // Return

  lemma SaveArgumentEffect(m: Machine, env: string -> int)
    ensures Straight(SaveArgument())
    ensures Exec(SaveArgument(), m, env).ram == m.ram[13 := Get(m.ram, 2)]
  {
    Exec4(At(Reg(ARG)), Assign(D, OfM), At(Reg(R13)), Assign(M, OfD), m, env);
  }

  lemma FrameBaseEffect(m: Machine, env: string -> int)
    ensures Straight(FrameBase())
    ensures Exec(FrameBase(), m, env).ram == m.ram[14 := Get(m.ram, 1) - 5]
  {
    Exec6(At(Reg(LCL)), Assign(D, OfM), At(Num(5)), Assign(D, DMinusA), At(Reg(R14)), Assign(M, OfD), m, env);
  }

  /** Copy the frame slot R14 points at into `b`, and step R14 on. */
  lemma RestoreNextEffect(b: Builtin, m: Machine, env: string -> int)
    requires BuiltinAddr(b) != 14
    ensures Straight(RestoreNext(b))
    ensures var p := Get(m.ram, 14);
      Exec(RestoreNext(b), m, env).ram == m.ram[BuiltinAddr(b) := Get(m.ram, p)][14 := p + 1]
  {
    Exec7(At(Reg(R14)), Assign(A, OfM), Assign(D, OfM), At(Reg(b)), Assign(M, OfD),
      At(Reg(R14)), Assign(M, MPlusOne), m, env);
  }

  lemma RestoreLastEffect(m: Machine, env: string -> int)
    ensures Straight(RestoreLast())
    ensures Exec(RestoreLast(), m, env).ram == m.ram[4 := Get(m.ram, Get(m.ram, 14))]
  {
    Exec5(At(Reg(R14)), Assign(A, OfM), Assign(D, OfM), At(Reg(THAT)), Assign(M, OfD), m, env);
  }

  lemma MoveResultEffect(m: Machine, env: string -> int)
    ensures Straight(MoveResult())
    ensures Exec(MoveResult(), m, env).ram == m.ram[Get(m.ram, 13) := Top(m)]
  {
    assert MoveResult() == [At(Reg(SP)), Assign(A, MMinusOne), Assign(D, OfM),
      At(Reg(R13)), Assign(A, OfM), Assign(M, OfD)];
    Exec6(At(Reg(SP)), Assign(A, MMinusOne), Assign(D, OfM),
      At(Reg(R13)), Assign(A, OfM), Assign(M, OfD), m, env);
  }

  lemma ResetStackEffect(m: Machine, env: string -> int)
    ensures Straight(ResetStack())
    ensures Exec(ResetStack(), m, env).ram == m.ram[0 := Get(m.ram, 13) + 1]
  {
    Exec4(At(Reg(R13)), Assign(D, OfM), At(Reg(SP)), Assign(M, DPlusOne), m, env);
  }

  /** The addresses of registers `regs`. */
  function Addrs(regs: seq<Builtin>): set<int> {
    set j | 0 <= j < |regs| :: BuiltinAddr(regs[j]) as int
  }

  /** `m2` is `m` with registers `regs` loaded from the slots from `p` on, and R14
      stepped past them. */
  ghost predicate Restored(m: Machine, m2: Machine, regs: seq<Builtin>, p: int) {
    Get(m2.ram, 14) == p + |regs|
    && (forall j :: 0 <= j < |regs| ==> Get(m2.ram, BuiltinAddr(regs[j])) == Get(m.ram, p + j))
    && (forall i :: i != 14 && i !in Addrs(regs) ==> Get(m2.ram, i) == Get(m.ram, i))
  }

  /** Restoring distinct registers, other than R14, from slots above the registers. */
  lemma {:induction false} RestoreRegistersEffect(regs: seq<Builtin>, m: Machine, env: string -> int)
    requires Get(m.ram, 14) > 15
    requires forall j :: 0 <= j < |regs| ==> BuiltinAddr(regs[j]) != 14
    requires forall j, k :: 0 <= j < k < |regs| ==> BuiltinAddr(regs[j]) != BuiltinAddr(regs[k])
    ensures Straight(RestoreRegisters(regs))
    ensures Restored(m, Exec(RestoreRegisters(regs), m, env), regs, Get(m.ram, 14))
    decreases |regs|
  {
    var p := Get(m.ram, 14);
    if regs != [] {
      var init, b := regs[..|regs| - 1], regs[|regs| - 1];
      assert init + [b] == regs;
      RestoreRegistersEffect(init, m, env);
      var mi := Exec(RestoreRegisters(init), m, env);
      assert Straight(RestoreNext(b)) by {
        RestoreNextEffect(b, mi, env);
      }
      var m2 := Exec(RestoreNext(b), mi, env);
      assert Straight(RestoreRegisters(regs)) && Exec(RestoreRegisters(regs), m, env) == m2 by {
        RestoreNextEffect(b, mi, env);
        ExecAppend(RestoreRegisters(init), RestoreNext(b), m, env);
      }
      assert m2.ram == mi.ram[BuiltinAddr(b) := Get(mi.ram, p + |init|)][14 := p + |init| + 1] by {
        RestoreNextEffect(b, mi, env);
      }
      RestoredSnoc(m, mi, m2, init, b, p);
    }
  }

  /** One more register restored after `regs`. */
  lemma RestoredSnoc(m: Machine, mi: Machine, m2: Machine, regs: seq<Builtin>, b: Builtin, p: int)
    requires p > 15 && BuiltinAddr(b) != 14
    requires forall j :: 0 <= j < |regs| ==> BuiltinAddr(regs[j]) != BuiltinAddr(b) && BuiltinAddr(regs[j]) != 14
    requires Restored(m, mi, regs, p)
    requires m2.ram == mi.ram[BuiltinAddr(b) := Get(mi.ram, p + |regs|)][14 := p + |regs| + 1]
    ensures Restored(m, m2, regs + [b], p)
  {
    var all := regs + [b];
    assert Get(mi.ram, p + |regs|) == Get(m.ram, p + |regs|);
    forall j | 0 <= j < |all| ensures Get(m2.ram, BuiltinAddr(all[j])) == Get(m.ram, p + j) {
      if j < |regs| {
        assert all[j] == regs[j];
      }
    }
    forall i | i != 14 && i !in Addrs(all) ensures Get(m2.ram, i) == Get(m.ram, i) {
      forall j | 0 <= j < |regs| ensures BuiltinAddr(regs[j]) as int != i {
        assert all[j] == regs[j];
        assert BuiltinAddr(all[j]) as int in Addrs(all);
      }
      assert i != BuiltinAddr(b) as int by {
        assert b == all[|regs|];
      }
    }
  }

  /** The code of a return before it moves the result: R13 := ARG, and the caller's
      return address and pointers copied from the five slots below LCL. */
  function UnwindCode(): seq<AsmLine> {
    SaveArgument() + FrameBase() + RestoreRegisters(RestoredFirst) + RestoreLast()
  }

  /** `m2` is `m` with the frame below LCL unwound: R13 holds the old ARG, R15 the
      return address, LCL, ARG, THIS and THAT the saved pointers; R14 is scratch and
      every other cell is unchanged. */
  ghost predicate Unwound(m: Machine, m2: Machine) {
    var base := Get(m.ram, 1) - 5;
    Get(m2.ram, 13) == Get(m.ram, 2)
    && Get(m2.ram, 15) == Get(m.ram, base)
    && (forall j :: 1 <= j <= 4 ==> Get(m2.ram, j) == Get(m.ram, base + j))
    && (forall i :: !(1 <= i <= 4) && !(13 <= i <= 15) ==> Get(m2.ram, i) == Get(m.ram, i))
  }

  lemma UnwindEffect(m: Machine, env: string -> int)
    requires Get(m.ram, 1) - 5 > 15
    ensures Straight(UnwindCode())
    ensures Unwound(m, Exec(UnwindCode(), m, env))
  {
    SaveArgumentEffect(m, env);
    var m1 := Exec(SaveArgument(), m, env);
    FrameBaseEffect(m1, env);
    var m2 := Exec(FrameBase(), m1, env);
    RestoreRegistersEffect(RestoredFirst, m2, env);
    var m3 := Exec(RestoreRegisters(RestoredFirst), m2, env);
    RestoreLastEffect(m3, env);
    var m4 := Exec(RestoreLast(), m3, env);
    ExecAppend(SaveArgument(), FrameBase(), m, env);
    ExecAppend(SaveArgument() + FrameBase(), RestoreRegisters(RestoredFirst), m, env);
    ExecAppend(SaveArgument() + FrameBase() + RestoreRegisters(RestoredFirst), RestoreLast(), m, env);
    UnwoundFrom(m, m1, m2, m3, m4);
  }

  /** The bookkeeping of `UnwindEffect`. */
  lemma UnwoundFrom(m: Machine, m1: Machine, m2: Machine, m3: Machine, m4: Machine)
    requires Get(m.ram, 1) - 5 > 15
    requires m1.ram == m.ram[13 := Get(m.ram, 2)]
    requires m2.ram == m1.ram[14 := Get(m1.ram, 1) - 5]
    requires Restored(m2, m3, RestoredFirst, Get(m2.ram, 14))
    requires m4.ram == m3.ram[4 := Get(m3.ram, Get(m3.ram, 14))]
    ensures Unwound(m, m4)
  {
    var base := Get(m.ram, 1) - 5;
    assert Get(m3.ram, 14) == base + 4;
    forall j | 0 <= j < |RestoredFirst| ensures BuiltinAddr(RestoredFirst[j]) as int != 13 {
    }
    assert Get(m3.ram, 13) == Get(m2.ram, 13);
    assert Get(m3.ram, BuiltinAddr(RestoredFirst[0])) == Get(m2.ram, base);
    forall j | 1 <= j <= 4 ensures Get(m4.ram, j) == Get(m.ram, base + j) {
      if j < 4 {
        assert Get(m3.ram, BuiltinAddr(RestoredFirst[j])) == Get(m2.ram, base + j);
      }
    }
    UnwoundKeeps(m, m1, m2, m3, m4);
  }

  /** The cells an unwind does not touch. */
  lemma UnwoundKeeps(m: Machine, m1: Machine, m2: Machine, m3: Machine, m4: Machine)
    requires m1.ram == m.ram[13 := Get(m.ram, 2)]
    requires m2.ram == m1.ram[14 := Get(m1.ram, 1) - 5]
    requires Restored(m2, m3, RestoredFirst, Get(m2.ram, 14))
    requires m4.ram == m3.ram[4 := Get(m3.ram, Get(m3.ram, 14))]
    ensures forall i :: !(1 <= i <= 4) && !(13 <= i <= 15) ==> Get(m4.ram, i) == Get(m.ram, i)
  {
    forall i | !(1 <= i <= 4) && !(13 <= i <= 15) ensures Get(m4.ram, i) == Get(m.ram, i) {
      forall j | 0 <= j < |RestoredFirst| ensures BuiltinAddr(RestoredFirst[j]) as int != i {
      }
      assert Get(m3.ram, i) == Get(m2.ram, i);
    }
  }

  /** The arguments, the saved frame and the stack all lie above the registers, as they
      do on the Hack platform. */
  predicate ReturnReady(m: Machine) {
    Get(m.ram, 1) - 5 > 15 && Get(m.ram, 2) > 15 && AboveRegisters(m)
  }

  /** `m2` is the state a return leaves from `m` before it jumps: the top of the stack
      moved to where ARG pointed, SP just above it, R15 holding the return address and
      LCL, ARG, THIS, THAT the caller's, from the five slots below LCL; R13 and R14 are
      scratch and every other cell is unchanged. */
  ghost predicate Returned(m: Machine, m2: Machine) {
    var base, arg := Get(m.ram, 1) - 5, Get(m.ram, 2);
    SP0(m2) == arg + 1
    && Get(m2.ram, arg) == Top(m)
    && Get(m2.ram, 15) == Get(m.ram, base)
    && (forall j :: 1 <= j <= 4 ==> Get(m2.ram, j) == Get(m.ram, base + j))
    && (forall i :: !(0 <= i <= 4) && !(13 <= i <= 15) && i != arg ==> Get(m2.ram, i) == Get(m.ram, i))
  }

  /** What a return does before it jumps back to the caller. */
  lemma ReturnSetupEffect(m: Machine, env: string -> int)
    requires ReturnReady(m)
    ensures Straight(ReturnSetup())
    ensures Returned(m, Exec(ReturnSetup(), m, env))
  {
    UnwindEffect(m, env);
    var m1 := Exec(UnwindCode(), m, env);
    MoveResultEffect(m1, env);
    var m2 := Exec(MoveResult(), m1, env);
    ResetStackEffect(m2, env);
    ExecAppend(UnwindCode(), MoveResult(), m, env);
    ExecAppend(UnwindCode() + MoveResult(), ResetStack(), m, env);
    ReturnedFrom(m, m1, m2, Exec(ResetStack(), m2, env));
  }

  /** The bookkeeping of `ReturnSetupEffect`. */
  lemma ReturnedFrom(m: Machine, m1: Machine, m2: Machine, m3: Machine)
    requires ReturnReady(m)
    requires Unwound(m, m1)
    requires m2.ram == m1.ram[Get(m1.ram, 13) := Top(m1)]
    requires m3.ram == m2.ram[0 := Get(m2.ram, 13) + 1]
    ensures Returned(m, m3)
  {
    assert SP0(m1) == SP0(m);
    assert Top(m1) == Top(m);
    var base, arg := Get(m.ram, 1) - 5, Get(m.ram, 2);
    forall j | 1 <= j <= 4 ensures Get(m3.ram, j) == Get(m.ram, base + j) {
      assert Get(m3.ram, j) == Get(m1.ram, j);
    }
  }

  // ---------------------------------------------------------------------------
  // The calling convention

  /** A call and the return that ends the callee cooperate: whatever the callee does
      in between, as long as it leaves LCL, ARG and the saved frame as the call set
      them up, the return puts its result where the first argument was, sets SP just
      above it, gives the caller back its LCL, ARG, THIS and THAT, and leaves the
      call's return address in R15 for the jump back. */
  lemma CallThenReturn(args: nat, locals: nat, ret: Name, m: Machine, m1: Machine, callee: Machine, env: string -> int)
    requires SP0(m) - args > 15
    requires Called(m, m1, SavedFrame(ret, m, env), args, locals)
    requires Get(callee.ram, 1) == Get(m1.ram, 1) && Get(callee.ram, 2) == Get(m1.ram, 2)
    requires forall i :: SP0(m) <= i < SP0(m) + 5 ==> Get(callee.ram, i) == Get(m1.ram, i)
    requires AboveRegisters(callee)
    ensures Straight(ReturnSetup())
    ensures var m2 := Exec(ReturnSetup(), callee, env);
      SP0(m2) == SP0(m) - args + 1
      && Get(m2.ram, SP0(m) - args) == Top(callee)
      && Get(m2.ram, 15) == Addr(ret, env)
      && forall j :: 1 <= j <= 4 ==> Get(m2.ram, j) == Get(m.ram, j)
  {
    var sp, frame := SP0(m), SavedFrame(ret, m, env);
    ReturnSetupEffect(callee, env);
    var m2 := Exec(ReturnSetup(), callee, env);
    assert Get(m1.ram, sp + 0) == frame[0];
    forall j | 1 <= j <= 4 ensures Get(m2.ram, j) == Get(m.ram, j) {
      assert Get(m1.ram, sp + j) == frame[j];
    }
  }

  /** The state right after the call code satisfies what `CallThenReturn` needs of it. */
  lemma CallReturnsToCaller(args: nat, locals: nat, ret: Name, m: Machine, env: string -> int)
    requires SP0(m) - args > 15
    ensures Straight(CallSetup(args, locals, ret)) && Straight(ReturnSetup())
    ensures var m2 := Exec(ReturnSetup(), Exec(CallSetup(args, locals, ret), m, env), env);
      SP0(m2) == SP0(m) - args + 1
      && Get(m2.ram, 15) == Addr(ret, env)
      && forall j :: 1 <= j <= 4 ==> Get(m2.ram, j) == Get(m.ram, j)
  {
    CallSetupEffect(args, locals, ret, m, env);
    var m1 := Exec(CallSetup(args, locals, ret), m, env);
    CallThenReturn(args, locals, ret, m, m1, m1, env);
  }
}
