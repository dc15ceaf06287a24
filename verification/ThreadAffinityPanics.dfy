/** What a call reports to its caller, and when `ScopeStack.Run` panics, read off the labels of a run. */
module ThreadAffinityPanics {
  import opened Prelude
  import opened ThreadAffinity
  import opened ThreadAffinityInvariant
  import opened ThreadAffinitySteps
  import opened ThreadAffinityTheorems
  import opened ThreadAffinityRun

  // ----- The error of one call ----------------------------------------------------------

  /** Native code has answered the call on top of `rest`, which has not returned yet. */
  ghost predicate Answered(frames: Frames, rest: Frames) {
    frames.On? && frames.below == rest && frames.top.Call? && (frames.top.call.Returned? || frames.top.call.Reported?)
  }

  lemma AnsweredStep(g: Goroutine, c: View, a: Action, rest: Frames)
    requires CanAct(c, a) && Nested(c.x.frames) && Answered(c.x.frames, rest)
    ensures a.Continue?
    ensures var frames := Act(g, c, a).x.frames;
            Answered(frames, rest) || (Unread(frames) == [] && Height(frames) <= Height(rest))
  {
  }

  /** Until the call returns, nothing else reaches `g`. */
  lemma AnsweredOn(s: State, l: Label, g: Goroutine, rest: Frames)
    requires Inv(s) && Enabled(s, l) && g in s.goroutines && Answered(s.goroutines[g].frames, rest)
    ensures Failure(l, g) == [] && g in Apply(s, l).goroutines
    ensures var frames := Apply(s, l).goroutines[g].frames;
            Answered(frames, rest) || (Unread(frames) == [] && Height(frames) <= Height(rest))
  {
    if l.Step? && l.g == g {
      assert Nested(s.goroutines[g].frames) by { assert GoroutineOk(s.shared, g, s.goroutines[g]); }
      AnsweredStep(g, ViewOf(s, g), l.action, rest);
    }
  }

  lemma {:induction false} AnsweredRun(s: State, ls: seq<Label>, g: Goroutine, rest: Frames)
    requires Inv(s) && IsRun(s, ls) && UntilExit(s, ls, g, rest) && Answered(s.goroutines[g].frames, rest)
    ensures Failures(ls, g) == [] && g in After(s, ls).goroutines && Unread(After(s, ls).goroutines[g].frames) == []
    decreases |ls|
  {
    assert Height(s.goroutines[g].frames) == 1 + Height(rest);
    var s1 := Apply(s, ls[0]);
    StepKept(s, ls[0]);
    AnsweredOn(s, ls[0], g, rest);
    if Answered(s1.goroutines[g].frames, rest) {
      AnsweredRun(s1, ls[1..], g, rest);
    } else {
      assert ls[1..] == [];
    }
  }

  lemma ToldAfterAnswer(s: State, ls: seq<Label>, g: Goroutine, rest: Frames)
    requires Inv(s) && IsRun(s, ls) && UntilExit(s, ls, g, rest) && Answered(s.goroutines[g].frames, rest)
    ensures Errors(After(s, ls).shared.reports, g) == Reached(s, g)
  {
    AnsweredRun(s, ls, g, rest);
    ReachedInRun(s, ls, g);
    AllRead(After(s, ls), g);
    assert Reached(s, g) + [] == Reached(s, g);
  }

  lemma AllRead(s: State, g: Goroutine)
    requires g in s.goroutines && Unread(s.goroutines[g].frames) == []
    ensures Reached(s, g) == Errors(s.shared.reports, g)
  {
  }

  lemma Replied(s: State, g: Goroutine, outcome: Outcome, left: Option<Message>)
    requires Enabled(s, Step(g, NativeReturn(outcome, left)))
    ensures var s1 := Apply(s, Step(g, NativeReturn(outcome, left)));
            Answered(s1.goroutines[g].frames, s.goroutines[g].frames.below)
    ensures Unread(s.goroutines[g].frames) == []
  {
  }

  /**
   The call that native code answers with `outcome` hands its caller exactly the message of that
   answer if it is a failure, and no error otherwise; callbacks before the answer, and whatever other
   goroutines do until the call returns, make no difference.
   */
  lemma AnswerIsTold(s: State, g: Goroutine, outcome: Outcome, left: Option<Message>, ls: seq<Label>)
    requires Inv(s) && Enabled(s, Step(g, NativeReturn(outcome, left)))
    requires var s1 := Apply(s, Step(g, NativeReturn(outcome, left)));
             IsRun(s1, ls) && UntilExit(s1, ls, g, s.goroutines[g].frames.below)
    ensures var s' := After(Apply(s, Step(g, NativeReturn(outcome, left))), ls);
            Errors(s'.shared.reports, g)
              == Errors(s.shared.reports, g) + if outcome.Failed? then [outcome.wrote] else []
  {
    var l := Step(g, NativeReturn(outcome, left));
    StepKept(s, l);
    ReachedAfter(s, l, g);
    Replied(s, g, outcome, left);
    AllRead(s, g);
    ToldAfterAnswer(Apply(s, l), ls, g, s.goroutines[g].frames.below);
  }

  lemma ToldInBetween(s: State, s1: State, ls: seq<Label>, g: Goroutine)
    requires Inv(s1) && IsRun(s1, ls) && g in s.goroutines && g in After(s1, ls).goroutines
    requires Reached(s1, g) == Reached(s, g) && UserMode(s.goroutines[g].frames)
    requires After(s1, ls).goroutines[g].frames == s.goroutines[g].frames
    ensures Errors(After(s1, ls).shared.reports, g) == Errors(s.shared.reports, g) + Failures(ls, g)
  {
    ReachedInRun(s1, ls, g);
    AllRead(s, g);
    AllRead(After(s1, ls), g);
  }

  /** An operation hands on the messages of all failed native calls it made, in order, callbacks included. */
  lemma OperationErrors(s: State, g: Goroutine, a: Action, ls: seq<Label>)
    requires Inv(s) && Begins(a) && Enabled(s, Step(g, a)) && Apply(s, Step(g, a)) != s
    requires var s1 := Apply(s, Step(g, a)); IsRun(s1, ls) && UntilExit(s1, ls, g, s.goroutines[g].frames)
    ensures Errors(After(Apply(s, Step(g, a)), ls).shared.reports, g) == Errors(s.shared.reports, g) + Failures(ls, g)
  {
    StepKept(s, Step(g, a));
    BeginsInside(s, g, a);
    OperationIsBalanced(s, g, a, ls);
    ReachedAfter(s, Step(g, a), g);
    ToldInBetween(s, Apply(s, Step(g, a)), ls, g);
  }

  // ----- Which steps make a `Run` panic -------------------------------------------------

  /** The call has been answered with a failure. */
  ghost predicate AnsweredBadly(f: Frame) {
    f.Call? && (f.call.Reported? || (f.call.Returned? && f.call.outcome.Failed?))
  }

  /** The `Run` on top of `base` gets a failure from its capture, its bind or its restore, or its body panics. */
  ghost predicate Spoils(frames: Frames, a: Action, base: Frames) {
    || (a == EndBody(true) && frames.On? && frames.below == base)
    || (&& a.NativeReturn? && a.outcome.Failed? && frames.On? && frames.below.On? && frames.below.below == base
        && frames.top.Call? && (frames.top.op.Capture? || frames.top.op.Bind? || frames.top.op.Restore?))
  }

  /** The body of the `Run` on top of `base` returns. */
  ghost predicate EndsBody(frames: Frames, a: Action, base: Frames) {
    a == EndBody(false) && frames.On? && frames.below == base
  }

  /** The `Run` on top of `base` is bound to panic: it has noted so, or its own call has failed. */
  ghost predicate Doomed(frames: Frames, base: Frames) {
    frames.On? &&
    if frames.below == base then
      frames.top.Run? &&
      match frames.top.run
      case Restoring(_, panicking) => panicking
      case Leaving(panicking, _) => panicking
      case _ => false
    else
      frames.below.On? && frames.below.below == base && frames.below.top.Run? &&
      match frames.below.top.run
      case Capturing => AnsweredBadly(frames.top)
      case Captured(_) => AnsweredBadly(frames.top)
      case AwaitRestore(_, panicking) => panicking || AnsweredBadly(frames.top)
      case _ => false
  }

  /** The body of the `Run` on top of `base` has ended. */
  ghost predicate BodyOver(frames: Frames, base: Frames) {
    frames.On? &&
    if frames.below == base then frames.top.Run? && (frames.top.run.Restoring? || frames.top.run.Leaving?)
    else frames.below.On? && frames.below.below == base && frames.below.top.Run? && frames.below.top.run.AwaitRestore?
  }

  /** `Run` waits for its restore only while that call is on top. */
  ghost predicate Waited(frames: Frames) {
    frames.On? ==> !(frames.top.Run? && frames.top.run.AwaitRestore?)
  }

  lemma WaitedStep(g: Goroutine, c: View, a: Action)
    requires CanAct(c, a) && Nested(c.x.frames) && Waited(c.x.frames)
    ensures Waited(Act(g, c, a).x.frames)
  {
  }

  lemma DoomedByOther(g: Goroutine, c: View, a: Action, entry: Binding, base: Frames)
    requires CanAct(c, a) && !a.Continue? && Nested(c.x.frames) && Waited(c.x.frames)
    requires Inside(c.x.frames, Some(entry), base) && UserMode(base) && Inside(Act(g, c, a).x.frames, Some(entry), base)
    ensures Doomed(Act(g, c, a).x.frames, base) <==> Doomed(c.x.frames, base) || Spoils(c.x.frames, a, base)
    ensures BodyOver(Act(g, c, a).x.frames, base) && !Doomed(Act(g, c, a).x.frames, base) ==>
              (BodyOver(c.x.frames, base) && !Doomed(c.x.frames, base)) || EndsBody(c.x.frames, a, base)
  {
    InsideIsHigher(c.x.frames, Some(entry), base);
    if c.x.frames.below != base { InsideIsHigher(c.x.frames.below, Some(entry), base); }
  }

  lemma DoomedByCall(g: Goroutine, c: View, entry: Binding, base: Frames)
    requires CanAct(c, Continue) && c.x.frames.top.Call? && Nested(c.x.frames)
    requires Inside(c.x.frames, Some(entry), base) && UserMode(base)
    ensures var frames := Act(g, c, Continue).x.frames;
            && (Doomed(frames, base) <==> Doomed(c.x.frames, base))
            && (BodyOver(frames, base) && !Doomed(frames, base) ==> BodyOver(c.x.frames, base))
  {
    var frames := c.x.frames;
    InsideIsHigher(frames, Some(entry), base);
    if frames.below != base {
      InsideIsHigher(frames.below, Some(entry), base);
      assert Nested(frames.below);
      if frames.below.below != base {
        InsideIsHigher(frames.below.below, Some(entry), base);
        assert Nested(frames.below.below);
      }
    }
  }

  lemma DoomedByContinue(g: Goroutine, c: View, entry: Binding, base: Frames)
    requires CanAct(c, Continue) && !c.x.frames.top.Call? && Nested(c.x.frames)
    requires Inside(c.x.frames, Some(entry), base) && UserMode(base)
    requires Inside(Act(g, c, Continue).x.frames, Some(entry), base)
    ensures var frames := Act(g, c, Continue).x.frames;
            && (Doomed(frames, base) <==> Doomed(c.x.frames, base))
            && (BodyOver(frames, base) && !Doomed(frames, base) ==> BodyOver(c.x.frames, base))
  {
    var frames := c.x.frames;
    InsideIsHigher(frames, Some(entry), base);
    InsideIsHigher(Act(g, c, Continue).x.frames, Some(entry), base);
    if frames.below != base {
      InsideIsHigher(frames.below, Some(entry), base);
      assert Nested(frames.below);
      if frames.below.below != base { InsideIsHigher(frames.below.below, Some(entry), base); }
    }
  }

  /** One step inside a `Run`: it is doomed exactly if it was before or the step spoils it. */
  lemma DoomedStep(g: Goroutine, c: View, a: Action, entry: Binding, base: Frames)
    requires CanAct(c, a) && Nested(c.x.frames) && Waited(c.x.frames)
    requires Inside(c.x.frames, Some(entry), base) && UserMode(base) && Inside(Act(g, c, a).x.frames, Some(entry), base)
    ensures Doomed(Act(g, c, a).x.frames, base) <==> Doomed(c.x.frames, base) || Spoils(c.x.frames, a, base)
    ensures BodyOver(Act(g, c, a).x.frames, base) && !Doomed(Act(g, c, a).x.frames, base) ==>
              (BodyOver(c.x.frames, base) && !Doomed(c.x.frames, base)) || EndsBody(c.x.frames, a, base)
  {
    if !a.Continue? {
      DoomedByOther(g, c, a, entry, base);
    } else if c.x.frames.top.Call? {
      DoomedByCall(g, c, entry, base);
    } else {
      DoomedByContinue(g, c, entry, base);
    }
  }

  // ----- Whole runs ---------------------------------------------------------------------

  /** Some step of `g` in the run makes the `Run` on top of `base` panic. */
  ghost predicate SpoilsIn(s: State, ls: seq<Label>, g: Goroutine, base: Frames)
    requires IsRun(s, ls)
    decreases |ls|
  {
    ls != [] &&
    ((ls[0].Step? && ls[0].g == g && Spoils(s.goroutines[g].frames, ls[0].action, base))
     || SpoilsIn(Apply(s, ls[0]), ls[1..], g, base))
  }

  /** The body of the `Run` on top of `base` returns in the run. */
  ghost predicate ReturnsIn(s: State, ls: seq<Label>, g: Goroutine, base: Frames)
    requires IsRun(s, ls)
    decreases |ls|
  {
    ls != [] &&
    ((ls[0].Step? && ls[0].g == g && EndsBody(s.goroutines[g].frames, ls[0].action, base))
     || ReturnsIn(Apply(s, ls[0]), ls[1..], g, base))
  }

  /** What is followed along the run: `g` is inside a `Run` on top of `base`. */
  ghost predicate InRun(s: State, g: Goroutine, entry: Binding, base: Frames) {
    g in s.goroutines && Waited(s.goroutines[g].frames) && Inside(s.goroutines[g].frames, Some(entry), base)
  }

  /** A step after which `g` is still inside. */
  lemma DoomedOn(s: State, l: Label, g: Goroutine, entry: Binding, base: Frames)
    requires Inv(s) && Enabled(s, l) && InRun(s, g, entry, base) && UserMode(base)
    requires g in Apply(s, l).goroutines && Inside(Apply(s, l).goroutines[g].frames, Some(entry), base)
    ensures InRun(Apply(s, l), g, entry, base)
    ensures var x, x' := s.goroutines[g].frames, Apply(s, l).goroutines[g].frames;
            var own := l.Step? && l.g == g;
            && (Doomed(x', base) <==> Doomed(x, base) || (own && Spoils(x, l.action, base)))
            && (BodyOver(x', base) && !Doomed(x', base) ==>
                  (BodyOver(x, base) && !Doomed(x, base)) || (own && EndsBody(x, l.action, base)))
  {
    if l.Step? && l.g == g {
      assert Nested(s.goroutines[g].frames) by { assert GoroutineOk(s.shared, g, s.goroutines[g]); }
      WaitedStep(g, ViewOf(s, g), l.action);
      DoomedStep(g, ViewOf(s, g), l.action, entry, base);
    }
  }

  /** The step that leaves a `Run`. */
  lemma LeavesRun(g: Goroutine, c: View, a: Action, entry: Binding, base: Frames)
    requires CanAct(c, a) && Nested(c.x.frames) && Inside(c.x.frames, Some(entry), base) && UserMode(base)
    requires Act(g, c, a).x.frames == base
    ensures c.x.frames.below == base && c.x.frames.top.Run? && c.x.frames.top.run.Leaving?
    ensures !Spoils(c.x.frames, a, base) && !EndsBody(c.x.frames, a, base)
    ensures Doomed(c.x.frames, base) <==> c.x.frames.top.run.panicking
    ensures BodyOver(c.x.frames, base)
  {
    StepInside(g, c, a, Some(entry), base);
    InsideIsHigher(c.x.frames, Some(entry), base);
    if Inside(base, Some(entry), base) { InsideIsHigher(base, Some(entry), base); }
  }

  /** The last step: `g` comes back to `base`. */
  lemma LeavesOn(s: State, l: Label, g: Goroutine, entry: Binding, base: Frames)
    requires Inv(s) && Enabled(s, l) && InRun(s, g, entry, base) && UserMode(base)
    requires g in Apply(s, l).goroutines && Apply(s, l).goroutines[g].frames == base
    ensures var x := s.goroutines[g].frames;
            && l.Step? && l.g == g && x.top.Run? && x.top.run.Leaving? && BodyOver(x, base)
            && (Doomed(x, base) <==> x.top.run.panicking)
            && !Spoils(x, l.action, base) && !EndsBody(x, l.action, base)
  {
    InsideIsHigher(s.goroutines[g].frames, Some(entry), base);
    if l.Step? && l.g == g {
      assert Nested(s.goroutines[g].frames) by { assert GoroutineOk(s.shared, g, s.goroutines[g]); }
      LeavesRun(g, ViewOf(s, g), l.action, entry, base);
    }
  }

  lemma {:induction false} DoomedRun(s: State, ls: seq<Label>, g: Goroutine, entry: Binding, base: Frames)
    requires Inv(s) && IsRun(s, ls) && UntilExit(s, ls, g, base) && UserMode(base) && InRun(s, g, entry, base)
    ensures ExitPhase(s, ls, g).Leaving?
    ensures ExitPhase(s, ls, g).panicking <==> Doomed(s.goroutines[g].frames, base) || SpoilsIn(s, ls, g, base)
    ensures !ExitPhase(s, ls, g).panicking ==> BodyOver(s.goroutines[g].frames, base) || ReturnsIn(s, ls, g, base)
    decreases |ls|
  {
    InsideIsHigher(s.goroutines[g].frames, Some(entry), base);
    var s1 := Apply(s, ls[0]);
    StepKept(s, ls[0]);
    SystemStepInside(s, ls[0], g, Some(entry), base);
    if Inside(s1.goroutines[g].frames, Some(entry), base) {
      InsideIsHigher(s1.goroutines[g].frames, Some(entry), base);
      DoomedOn(s, ls[0], g, entry, base);
      DoomedRun(s1, ls[1..], g, entry, base);
    } else {
      LeavesOn(s, ls[0], g, entry, base);
      assert ls[1..] == [];
    }
  }

  /**
   `ScopeStack.Run` panics exactly if its capture, its bind or its restore is answered with a failure,
   or its body panics. So a `Run` that returns normally entered its body, and the body returned.
   */
  lemma RunPanicsExactly(s: State, g: Goroutine, stack: StackId, ls: seq<Label>)
    requires Inv(s) && Enabled(s, Step(g, BeginRun(stack)))
    requires var s1 := Apply(s, Step(g, BeginRun(stack)));
             IsRun(s1, ls) && UntilExit(s1, ls, g, s.goroutines[g].frames)
    ensures var s1, base := Apply(s, Step(g, BeginRun(stack))), s.goroutines[g].frames;
            && ExitPhase(s1, ls, g).Leaving?
            && (ExitPhase(s1, ls, g).panicking <==> SpoilsIn(s1, ls, g, base))
            && (!ExitPhase(s1, ls, g).panicking ==> ReturnsIn(s1, ls, g, base))
  {
    StepKept(s, Step(g, BeginRun(stack)));
    RunBegun(s, g, stack);
    DoomedRun(Apply(s, Step(g, BeginRun(stack))), ls, g, s.threads[s.goroutines[g].place.value].binding,
              s.goroutines[g].frames);
  }

  lemma RunBegun(s: State, g: Goroutine, stack: StackId)
    requires Enabled(s, Step(g, BeginRun(stack)))
    ensures var s1, base := Apply(s, Step(g, BeginRun(stack))), s.goroutines[g].frames;
            && InRun(s1, g, s.threads[s.goroutines[g].place.value].binding, base) && UserMode(base)
            && !Doomed(s1.goroutines[g].frames, base) && !BodyOver(s1.goroutines[g].frames, base)
  {
  }
}
