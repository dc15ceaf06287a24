/**
 Every operation of the protocol is balanced: when control first comes back to where it was
 called, the caller holds the locks it held before, plus or minus scopes opened and closed.
 `ScopeStack.Run` moreover gives its thread back as it found it.
 */
module ThreadAffinityRun {
  import opened Prelude
  import opened ThreadAffinity
  import opened ThreadAffinityInvariant
  import opened ThreadAffinitySteps
  import Theorems = ThreadAffinityTheorems

  ghost function Height(frames: Frames): nat {
    if frames.Base? then 0 else 1 + Height(frames.below)
  }

  /**
   The goroutine is inside an operation that began on top of `base`; with `run == Some(entry)`,
   the operation is a `Run` that found its thread bound to `entry`.
   */
  ghost predicate Inside(frames: Frames, run: Option<Binding>, base: Frames) {
    frames.On? &&
    if frames.below == base then run.Some? ==> frames.top.Run? && frames.top.entry == run.value
    else Inside(frames.below, run, base)
  }

  lemma {:induction false} InsideIsHigher(frames: Frames, run: Option<Binding>, base: Frames)
    requires Inside(frames, run, base)
    ensures Height(frames) > Height(base)
    ensures run.Some? ==> FramesLocks(frames) > 0
  {
    if frames.below != base { InsideIsHigher(frames.below, run, base); }
  }

  /** The step leaves the operation properly, or not at all. */
  ghost predicate StaysOrLeaves(c: View, c': View, run: Option<Binding>, base: Frames)
    requires c.x.frames.On?
  {
    Inside(c'.x.frames, run, base)
    || (&& c'.x.frames == base
        && (run.Some? ==> c'.t == c.t && c.x.frames.top.Run? && c.x.frames.top.run.Leaving?
                          && c.x.frames.top.entry == run.value))
  }

  lemma OtherStepInside(g: Goroutine, c: View, a: Action, run: Option<Binding>, base: Frames)
    requires CanAct(c, a) && !a.Continue? && Nested(c.x.frames) && Inside(c.x.frames, run, base) && UserMode(base)
    ensures Inside(Act(g, c, a).x.frames, run, base)
  {
    InsideIsHigher(c.x.frames, run, base);
    if c.x.frames.below != base { InsideIsHigher(c.x.frames.below, run, base); }
  }

  lemma ContinueInside(g: Goroutine, c: View, run: Option<Binding>, base: Frames)
    requires CanAct(c, Continue) && Nested(c.x.frames) && Inside(c.x.frames, run, base) && UserMode(base)
    ensures StaysOrLeaves(c, Act(g, c, Continue), run, base)
  {
    if c.x.frames.top.Call? {
      CallInside(g, c, run, base);
    } else {
      InsideIsHigher(c.x.frames, run, base);
      if c.x.frames.below != base { InsideIsHigher(c.x.frames.below, run, base); }
    }
  }

  lemma CallInside(g: Goroutine, c: View, run: Option<Binding>, base: Frames)
    requires CanAct(c, Continue) && c.x.frames.top.Call? && Nested(c.x.frames)
    requires Inside(c.x.frames, run, base) && UserMode(base)
    ensures StaysOrLeaves(c, Act(g, c, Continue), run, base)
  {
    var frames := c.x.frames;
    InsideIsHigher(frames, run, base);
    if frames.below != base {
      InsideIsHigher(frames.below, run, base);
      if frames.below.below != base {
        InsideIsHigher(frames.below.below, run, base);
      }
    }
  }

  /** No step leaves the operation except its own last one. */
  lemma StepInside(g: Goroutine, c: View, a: Action, run: Option<Binding>, base: Frames)
    requires CanAct(c, a) && Nested(c.x.frames) && Inside(c.x.frames, run, base) && UserMode(base)
    ensures StaysOrLeaves(c, Act(g, c, a), run, base)
    ensures Act(g, c, a).x.place == c.x.place
  {
    if a.Continue? { ContinueInside(g, c, run, base); } else { OtherStepInside(g, c, a, run, base); }
  }

  /** `ls` takes `g` to the first state in which its frames are no higher than `base`. */
  ghost predicate UntilExit(s: State, ls: seq<Label>, g: Goroutine, base: Frames)
    requires IsRun(s, ls)
    decreases |ls|
  {
    && g in s.goroutines
    && (ls == [] <==> Height(s.goroutines[g].frames) <= Height(base))
    && (ls != [] ==> UntilExit(Apply(s, ls[0]), ls[1..], g, base))
  }

  /** One step of the system, seen from inside the operation. */
  lemma SystemStepInside(s: State, l: Label, g: Goroutine, run: Option<Binding>, base: Frames)
    requires Inv(s) && Enabled(s, l) && UserMode(base)
    requires g in s.goroutines && Inside(s.goroutines[g].frames, run, base)
    ensures var s' := Apply(s, l);
            && g in s'.goroutines
            && (run.Some? ==> Running(s, g) && Running(s', g) && s'.goroutines[g].place == s.goroutines[g].place)
            && (Inside(s'.goroutines[g].frames, run, base)
                || (&& s'.goroutines[g].frames == base
                    && (run.Some? ==>
                          && s'.threads[s'.goroutines[g].place.value] == s.threads[s.goroutines[g].place.value]
                          && s.goroutines[g].frames.top.Run? && s.goroutines[g].frames.top.run.Leaving?
                          && s.goroutines[g].frames.top.entry == run.value)))
  {
    var x := s.goroutines[g];
    assert Nested(x.frames) && LocksOk(s.shared, g, x) by { assert GoroutineOk(s.shared, g, x); }
    InsideIsHigher(x.frames, run, base);
    if l.Step? && l.g == g {
      StepInside(g, ViewOf(s, g), l.action, run, base);
    }
  }

  /** What holds when a `Run` that is leaving takes its last step. */
  lemma LeavingFacts(s: State, g: Goroutine)
    requires Inv(s) && Running(s, g)
    requires s.goroutines[g].frames.On? && s.goroutines[g].frames.top.Run? && s.goroutines[g].frames.top.run.Leaving?
    ensures var f := s.goroutines[g].frames.top;
            && (f.run.unrestored.None? ==> s.threads[s.goroutines[g].place.value].binding == f.entry)
            && (!f.run.panicking ==> f.run.unrestored.None?)
  {
    assert ThreadOk(s, g);
    assert GoroutineOk(s.shared, g, s.goroutines[g]);
  }

  /** How the run leaves: the phase of the `Run` frame in the state before the last. */
  ghost function ExitPhase(s: State, ls: seq<Label>, g: Goroutine): RunPhase
    requires IsRun(s, ls)
    decreases |ls|
  {
    if |ls| > 1 then ExitPhase(Apply(s, ls[0]), ls[1..], g)
    else if g in s.goroutines && s.goroutines[g].frames.On? && s.goroutines[g].frames.top.Run?
    then s.goroutines[g].frames.top.run
    else Capturing
  }

  /** `Run` ended in the phase `exit`: its goroutine is where it was, and its thread bound as before, if restored. */
  ghost predicate Left(s: State, g: Goroutine, entry: Binding, place: Option<Thread>, exit: RunPhase) {
    && Running(s, g) && s.goroutines[g].place == place && exit.Leaving?
    && (exit.unrestored.None? ==> s.threads[s.goroutines[g].place.value].binding == entry)
    && (!exit.panicking ==> exit.unrestored.None?)
  }

  lemma {:induction false} FromInside(s: State, ls: seq<Label>, g: Goroutine, run: Option<Binding>, base: Frames)
    requires Inv(s) && IsRun(s, ls) && UntilExit(s, ls, g, base) && UserMode(base)
    requires Inside(s.goroutines[g].frames, run, base)
    ensures var s' := After(s, ls); Inv(s') && g in s'.goroutines && s'.goroutines[g].frames == base
    ensures run.Some? ==> Running(s, g) && Left(After(s, ls), g, run.value, s.goroutines[g].place, ExitPhase(s, ls, g))
    decreases |ls|
  {
    InsideIsHigher(s.goroutines[g].frames, run, base);
    var s1 := Apply(s, ls[0]);
    StepKept(s, ls[0]);
    SystemStepInside(s, ls[0], g, run, base);
    if Inside(s1.goroutines[g].frames, run, base) {
      InsideIsHigher(s1.goroutines[g].frames, run, base);
      FromInside(s1, ls[1..], g, run, base);
    } else {
      assert ls[1..] == [] && After(s, ls) == s1;
      if run.Some? { LastStep(s, s1, g, run.value); }
    }
  }

  /** The last step of a `Run` leaves its thread as it is. */
  lemma LastStep(s: State, s1: State, g: Goroutine, entry: Binding)
    requires Inv(s) && Running(s, g) && Running(s1, g) && s1.goroutines[g].place == s.goroutines[g].place
    requires s1.threads[s1.goroutines[g].place.value] == s.threads[s.goroutines[g].place.value]
    requires s.goroutines[g].frames.On? && s.goroutines[g].frames.top.Run? && s.goroutines[g].frames.top.run.Leaving?
    requires s.goroutines[g].frames.top.entry == entry
    ensures Left(s1, g, entry, s.goroutines[g].place, s.goroutines[g].frames.top.run)
  {
    LeavingFacts(s, g);
  }

  ghost predicate Begins(a: Action) {
    a.BeginCall? || a.BeginPush? || a.BeginPop? || a.BeginRun?
  }

  lemma BeginsInside(s: State, g: Goroutine, a: Action)
    requires Begins(a) && Enabled(s, Step(g, a)) && Apply(s, Step(g, a)) != s
    ensures UserMode(s.goroutines[g].frames)
    ensures Inside(Apply(s, Step(g, a)).goroutines[g].frames, None, s.goroutines[g].frames)
  {
    assert s.goroutines[g := s.goroutines[g]] == s.goroutines;
  }

  /** Locks and captures are accounted for by the frames alone. */
  lemma SameFramesSameAccount(s: State, s': State, g: Goroutine)
    requires GoroutinesOk(s) && GoroutinesOk(s') && g in s.goroutines && g in s'.goroutines
    requires s'.goroutines[g].frames == s.goroutines[g].frames
    ensures s'.goroutines[g].depth - |Owned(s'.shared, g)| == s.goroutines[g].depth - |Owned(s.shared, g)|
    ensures forall h :: LiveFor(s'.shared, g, h) <==> LiveFor(s.shared, g, h)
  {
    assert LocksOk(s.shared, g, s.goroutines[g]) && HeldOk(s.shared, g, s.goroutines[g]) by {
      assert GoroutineOk(s.shared, g, s.goroutines[g]);
    }
    assert LocksOk(s'.shared, g, s'.goroutines[g]) && HeldOk(s'.shared, g, s'.goroutines[g]) by {
      assert GoroutineOk(s'.shared, g, s'.goroutines[g]);
    }
    forall h ensures LiveFor(s'.shared, g, h) <==> LiveFor(s.shared, g, h) {
      assert FramesHeld(s.goroutines[g].frames, h) == FramesHeld(s'.goroutines[g].frames, h);
    }
  }

  /**
   When a call, `PushScope`, `PopScope` or `Run` is over, with success, an error or a panic and
   whatever callbacks and other goroutines did meanwhile, the goroutine is back in its caller with
   exactly the locks of its callers and of the scopes it owns now, and no capture leaked or lost.
   */
  lemma OperationIsBalanced(s: State, g: Goroutine, a: Action, ls: seq<Label>)
    requires Inv(s) && Begins(a) && Enabled(s, Step(g, a)) && Apply(s, Step(g, a)) != s
    requires var s1 := Apply(s, Step(g, a)); IsRun(s1, ls) && UntilExit(s1, ls, g, s.goroutines[g].frames)
    ensures var s' := After(Apply(s, Step(g, a)), ls);
            && g in s'.goroutines
            && s'.goroutines[g].frames == s.goroutines[g].frames
            && s'.goroutines[g].depth - |Owned(s'.shared, g)| == s.goroutines[g].depth - |Owned(s.shared, g)|
            && forall h :: LiveFor(s'.shared, g, h) <==> LiveFor(s.shared, g, h)
  {
    StepKept(s, Step(g, a));
    BeginsInside(s, g, a);
    FromInside(Apply(s, Step(g, a)), ls, g, None, s.goroutines[g].frames);
    SameFramesSameAccount(s, After(Apply(s, Step(g, a)), ls), g);
  }

  /**
   `ScopeStack.Run` keeps its goroutine on one thread and, unless the restore itself failed (which
   panics), leaves that thread bound as it was before; a `Run` that returns normally always did.
   */
  lemma RunRestoresThread(s: State, g: Goroutine, stack: StackId, ls: seq<Label>)
    requires Inv(s) && Enabled(s, Step(g, BeginRun(stack)))
    requires var s1 := Apply(s, Step(g, BeginRun(stack)));
             IsRun(s1, ls) && UntilExit(s1, ls, g, s.goroutines[g].frames)
    ensures var s1 := Apply(s, Step(g, BeginRun(stack)));
            var s' := After(s1, ls);
            && Running(s', g) && s'.goroutines[g].place == s.goroutines[g].place
            && ExitPhase(s1, ls, g).Leaving?
            && (ExitPhase(s1, ls, g).unrestored.None? ==>
                  s'.threads[s'.goroutines[g].place.value].binding == s.threads[s.goroutines[g].place.value].binding)
            && (!ExitPhase(s1, ls, g).panicking ==> ExitPhase(s1, ls, g).unrestored.None?)
  {
    StepKept(s, Step(g, BeginRun(stack)));
    FromInside(Apply(s, Step(g, BeginRun(stack))), ls, g,
               Some(s.threads[s.goroutines[g].place.value].binding), s.goroutines[g].frames);
  }

  /** Native code gets each capture back at most once, and never while it is still in use. */
  lemma CapturesFreedOnce(s: State, h: CaptureId)
    requires Inv(s)
    ensures s.shared.freed[h] <= 1
    ensures h in s.shared.freed ==> h !in s.shared.captures
    ensures forall g :: g in s.goroutines && h in s.shared.freed ==> FramesHeld(s.goroutines[g].frames, h) == 0
  {
    forall g | g in s.goroutines && h in s.shared.freed ensures FramesHeld(s.goroutines[g].frames, h) == 0 {
      assert GoroutineOk(s.shared, g, s.goroutines[g]);
    }
  }

  // ----- A capture is consumed exactly once ---------------------------------------------

  lemma {:induction false} Split(s: State, a: seq<Label>, b: seq<Label>)
    requires IsRun(s, a + b)
    ensures IsRun(s, a) && IsRun(After(s, a), b) && After(s, a + b) == After(After(s, a), b)
    decreases |a|
  {
    if a == [] {
      assert a + b == b;
    } else {
      assert (a + b)[1..] == a[1..] + b;
      Split(Apply(s, a[0]), a[1..], b);
    }
  }

  /** `g` still has to hand the capture `h` back, or it was handed back once. */
  ghost predicate HeldOrFreed(sh: Shared, g: Goroutine, h: CaptureId) {
    LiveFor(sh, g, h) || sh.freed[h] == 1
  }

  lemma CapturesKept(g: Goroutine, c: View, a: Action)
    requires CanAct(c, a) && !a.NativeReturn?
    ensures Act(g, c, a).sh.captures == c.sh.captures && Act(g, c, a).sh.freed == c.sh.freed
  {
  }

  lemma HeldOrFreedReply(g: Goroutine, c: View, op: Op, outcome: Outcome, k: Goroutine, h: CaptureId)
    requires c.x.place.Some? && Possible(c, op, outcome) && HeldOrFreed(c.sh, k, h)
    requires h in c.sh.freed ==> h !in c.sh.captures
    requires NativeShared(g, c, op, outcome).freed[h] <= 1
    ensures HeldOrFreed(NativeShared(g, c, op, outcome), k, h)
  {
  }

  lemma HeldOrFreedStep(g: Goroutine, c: View, a: Action, k: Goroutine, h: CaptureId)
    requires CanAct(c, a) && HeldOrFreed(c.sh, k, h) && (h in c.sh.freed ==> h !in c.sh.captures)
    requires Act(g, c, a).sh.freed[h] <= 1
    ensures HeldOrFreed(Act(g, c, a).sh, k, h)
  {
    if a.NativeReturn? {
      assert Act(g, c, a).sh == NativeShared(g, c, c.x.frames.top.op, a.outcome);
      HeldOrFreedReply(g, c, c.x.frames.top.op, a.outcome, k, h);
    } else {
      CapturesKept(g, c, a);
    }
  }

  lemma {:induction false} HeldOrFreedRun(s: State, ls: seq<Label>, g: Goroutine, h: CaptureId)
    requires Inv(s) && IsRun(s, ls) && HeldOrFreed(s.shared, g, h)
    ensures Inv(After(s, ls)) && HeldOrFreed(After(s, ls).shared, g, h)
    decreases |ls|
  {
    if ls != [] {
      StepKept(s, ls[0]);
      CapturesFreedOnce(s, h);
      CapturesFreedOnce(Apply(s, ls[0]), h);
      if ls[0].Step? { HeldOrFreedStep(ls[0].g, ViewOf(s, ls[0].g), ls[0].action, g, h); }
      HeldOrFreedRun(Apply(s, ls[0]), ls[1..], g, h);
    }
  }

  /**
   A capture that an operation takes on its way, directly or in a nested `Run`, is handed back
   exactly once by the time the operation is over, on every way out.
   */
  lemma CaptureConsumed(s: State, g: Goroutine, a: Action, first: seq<Label>, rest: seq<Label>, h: CaptureId)
    requires Inv(s) && Begins(a) && Enabled(s, Step(g, a)) && Apply(s, Step(g, a)) != s
    requires var s1 := Apply(s, Step(g, a));
             IsRun(s1, first + rest) && UntilExit(s1, first + rest, g, s.goroutines[g].frames)
             && IsRun(s1, first) && LiveFor(After(s1, first).shared, g, h) && !LiveFor(s.shared, g, h)
    ensures var s' := After(Apply(s, Step(g, a)), first + rest);
            s'.shared.freed[h] == 1 && h !in s'.shared.captures
  {
    var s1 := Apply(s, Step(g, a));
    StepKept(s, Step(g, a));
    OperationIsBalanced(s, g, a, first + rest);
    Split(s1, first, rest);
    Theorems.RunKeepsInv(s1, first);
    HeldOrFreedRun(After(s1, first), rest, g, h);
    CapturesFreedOnce(After(s1, first + rest), h);
  }
}
