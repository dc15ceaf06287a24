/**
 Which scope stack the operations inside a `ScopeStack.Run` body use: the stack that `works` names,
 which is the body's own until a nested `Run` fails to restore.
 */
module ThreadAffinityBodies {
  import opened Prelude
  import opened ThreadAffinity
  import opened ThreadAffinityInvariant
  import opened ThreadAffinitySteps
  import opened ThreadAffinityTheorems
  import opened ThreadAffinityBinding

  // ----- The stack of a body ------------------------------------------------------------

  /** The stack of the `Run` whose body the goroutine is executing, directly or in a callback. */
  ghost function BodyStack(frames: Frames): Option<StackId> {
    match frames
    case Base => None
    case On(Run(stack, _, phase), _) => if phase.Body? then Some(stack) else None
    case On(_, rest) => BodyStack(rest)
  }

  lemma {:induction false} BodyExpects(frames: Frames, works: BodyStacks)
    requires Nested(frames) && BodiesBound(frames, works) && BodyHandle(frames).Some?
    ensures BodyStack(frames).Some? && BodyHandle(frames).value in works
    ensures Expected(frames, works) == Some(Bound(works[BodyHandle(frames).value]))
  {
    if !frames.top.Run? { BodyExpects(frames.below, works); }
  }

  ghost function CurrentStack(s: State, g: Goroutine): StackId
    requires Running(s, g)
  {
    s.threads[s.goroutines[g].place.value].binding.Current()
  }

  lemma BodyIsBound(s: State, g: Goroutine)
    requires Inv(s) && BindingInv(s) && Running(s, g) && BodyHandle(s.goroutines[g].frames).Some?
    ensures BodyHandle(s.goroutines[g].frames).value in s.shared.works
    ensures CurrentStack(s, g) == s.shared.works[BodyHandle(s.goroutines[g].frames).value]
  {
    assert GoroutineBound(s, g) && GoroutineOk(s.shared, g, s.goroutines[g]);
    BodyExpects(s.goroutines[g].frames, s.shared.works);
  }

  /**
   In every reachable state, the thread of a goroutine that executes the body of a `Run`, including
   the scope calls it makes, callbacks out of native code and the time between nested `Run`s, works
   on the stack that `works` names, so on the body's own stack exactly if that is the one named.
   */
  lemma BodyUsesItsStack(s: State, ls: seq<Label>, g: Goroutine)
    requires Init(s) && IsRun(s, ls) && Running(After(s, ls), g) && BodyHandle(After(s, ls).goroutines[g].frames).Some?
    ensures var s' := After(s, ls);
            var h := BodyHandle(s'.goroutines[g].frames).value;
            h in s'.shared.works && CurrentStack(s', g) == s'.shared.works[h]
  {
    ReachableInv(s, ls);
    ReachableInv(s, []);
    RunKeepsBinding(s, ls);
    BodyIsBound(After(s, ls), g);
  }

  /** A nested `Run` whose restore failed ends directly in the body of `h`, on another stack. */
  ghost predicate Disturbs(s: State, l: Label, h: CaptureId) {
    && l.Step? && l.action.Continue? && Running(s, l.g)
    && var frames := s.goroutines[l.g].frames;
    && frames.On? && frames.top.Run? && frames.top.run.Leaving? && frames.top.run.unrestored.Some?
    && var k := frames.top.run.unrestored.value;
    && BodyHandle(frames.below) == Some(h) && k in s.shared.works && h in s.shared.works
    && s.shared.works[k] != s.shared.works[h]
  }

  ghost predicate Leaves(frames: Frames, a: Action) {
    a.Continue? && frames.On? && frames.top.Run? && frames.top.run.Leaving?
  }

  lemma StackStays(g: Goroutine, c: View, a: Action, h: CaptureId)
    requires CanAct(c, a) && Nested(c.x.frames) && EntersOk(c.x.frames, c.sh.works) && h in c.sh.works
    requires !Leaves(c.x.frames, a)
    ensures h in Act(g, c, a).sh.works && Act(g, c, a).sh.works[h] == c.sh.works[h]
  {
    if a.NativeReturn? && c.x.frames.top.op.Bind? {
      assert Entering(c.x.frames).Some? && Entering(c.x.frames).value != h;
    }
  }

  lemma LeaveMoves(g: Goroutine, c: View)
    requires CanAct(c, Continue) && Leaves(c.x.frames, Continue)
    ensures Act(g, c, Continue).sh.works == Moved(c.sh.works, c.x.frames.below, c.x.frames.top.run.unrestored)
  {
  }

  /** A body is moved to another stack exactly by a nested `Run` that worked there and did not restore. */
  lemma StackMoves(s: State, l: Label, h: CaptureId)
    requires Inv(s) && BindingInv(s) && Enabled(s, l) && h in s.shared.works
    ensures var works' := Apply(s, l).shared.works;
            h in works' && (works'[h] != s.shared.works[h] <==> Disturbs(s, l, h))
  {
    if l.Step? {
      assert GoroutineBound(s, l.g) && GoroutineOk(s.shared, l.g, s.goroutines[l.g]);
      var c := ViewOf(s, l.g);
      if Leaves(c.x.frames, l.action) { LeaveMoves(l.g, c); } else { StackStays(l.g, c, l.action, h); }
    }
  }

  // ----- Runs that do not disturb a body ------------------------------------------------

  /** If the body of `h` is on the stack of frames, `h` names its own stack. */
  ghost predicate OnOwn(frames: Frames, works: BodyStacks, h: CaptureId) {
    match frames
    case Base => true
    case On(f, rest) => OnOwn(rest, works, h) && (f.Run? && f.run == Body(h) ==> h in works && works[h] == f.stack)
  }

  ghost predicate AllOnOwn(s: State, h: CaptureId) {
    forall g :: g in s.goroutines ==> OnOwn(s.goroutines[g].frames, s.shared.works, h)
  }

  lemma {:induction false} OnOwnKept(frames: Frames, works: BodyStacks, works': BodyStacks, h: CaptureId)
    requires OnOwn(frames, works, h) && (h in works ==> h in works' && works'[h] == works[h])
    ensures OnOwn(frames, works', h)
  {
    if frames.On? { OnOwnKept(frames.below, works, works', h); }
  }

  lemma OnOwnStep(g: Goroutine, c: View, a: Action, h: CaptureId)
    requires CanAct(c, a) && Nested(c.x.frames) && EntersOk(c.x.frames, c.sh.works) && OnOwn(c.x.frames, c.sh.works, h)
    ensures OnOwn(Act(g, c, a).x.frames, c.sh.works, h)
  {
    if c.x.frames.On? {
      assert OnOwn(c.x.frames.below, c.sh.works, h);
      if c.x.frames.below.On? { assert OnOwn(c.x.frames.below.below, c.sh.works, h); }
    }
  }

  lemma AllOnOwnStep(s: State, l: Label, h: CaptureId)
    requires Inv(s) && BindingInv(s) && Enabled(s, l) && AllOnOwn(s, h) && !Disturbs(s, l, h)
    ensures AllOnOwn(Apply(s, l), h)
  {
    OnOwnFrames(s, l, h);
    if h in s.shared.works { StackMoves(s, l, h); }
    OnOwnEverywhere(Apply(s, l), s.shared.works, h);
  }

  /** The frames after the step agree with the stacks before it. */
  lemma OnOwnFrames(s: State, l: Label, h: CaptureId)
    requires Inv(s) && BindingInv(s) && Enabled(s, l) && AllOnOwn(s, h)
    ensures forall g :: g in Apply(s, l).goroutines ==> OnOwn(Apply(s, l).goroutines[g].frames, s.shared.works, h)
  {
    if l.Step? {
      assert EntersOk(s.goroutines[l.g].frames, s.shared.works) by { assert GoroutineBound(s, l.g); }
      assert Nested(s.goroutines[l.g].frames) by { assert GoroutineOk(s.shared, l.g, s.goroutines[l.g]); }
      OnOwnStep(l.g, ViewOf(s, l.g), l.action, h);
    }
  }

  lemma OnOwnEverywhere(s': State, works: BodyStacks, h: CaptureId)
    requires forall g :: g in s'.goroutines ==> OnOwn(s'.goroutines[g].frames, works, h)
    requires h in works ==> h in s'.shared.works && s'.shared.works[h] == works[h]
    ensures AllOnOwn(s', h)
  {
    forall g | g in s'.goroutines ensures OnOwn(s'.goroutines[g].frames, s'.shared.works, h) {
      OnOwnKept(s'.goroutines[g].frames, works, s'.shared.works, h);
    }
  }

  ghost predicate Undisturbed(s: State, ls: seq<Label>, h: CaptureId)
    requires IsRun(s, ls)
    decreases |ls|
  {
    ls == [] || (!Disturbs(s, ls[0], h) && Undisturbed(Apply(s, ls[0]), ls[1..], h))
  }

  lemma {:induction false} UndisturbedRun(s: State, ls: seq<Label>, h: CaptureId)
    requires Inv(s) && BindingInv(s) && IsRun(s, ls) && AllOnOwn(s, h) && Undisturbed(s, ls, h)
    ensures AllOnOwn(After(s, ls), h)
    decreases |ls|
  {
    if ls != [] {
      StepKept(s, ls[0]);
      BindingStep(s, ls[0]);
      AllOnOwnStep(s, ls[0], h);
      UndisturbedRun(Apply(s, ls[0]), ls[1..], h);
    }
  }

  lemma {:induction false} InnermostOwn(frames: Frames, works: BodyStacks)
    requires BodyHandle(frames).Some? && OnOwn(frames, works, BodyHandle(frames).value)
    ensures BodyHandle(frames).value in works && BodyStack(frames) == Some(works[BodyHandle(frames).value])
  {
    if !frames.top.Run? { InnermostOwn(frames.below, works); }
  }

  /** While no nested `Run` of a body has failed to restore, the body works on its own stack. */
  lemma UndisturbedBody(s: State, ls: seq<Label>, g: Goroutine)
    requires Init(s) && IsRun(s, ls) && Running(After(s, ls), g) && BodyHandle(After(s, ls).goroutines[g].frames).Some?
    requires Undisturbed(s, ls, BodyHandle(After(s, ls).goroutines[g].frames).value)
    ensures BodyStack(After(s, ls).goroutines[g].frames) == Some(CurrentStack(After(s, ls), g))
  {
    var frames := After(s, ls).goroutines[g].frames;
    ReachableInv(s, []);
    UndisturbedRun(s, ls, BodyHandle(frames).value);
    BodyUsesItsStack(s, ls, g);
    InnermostOwn(frames, After(s, ls).shared.works);
  }

  // ----- Native code that restores every capture ----------------------------------------

  /** Native code refuses to restore a capture. */
  ghost predicate RefusesRestore(s: State, l: Label) {
    && l.Step? && l.action.NativeReturn? && l.action.outcome.Failed? && Running(s, l.g)
    && s.goroutines[l.g].frames.On? && s.goroutines[l.g].frames.top.Call? && s.goroutines[l.g].frames.top.op.Restore?
  }

  ghost predicate RestoresAll(s: State, ls: seq<Label>)
    requires IsRun(s, ls)
    decreases |ls|
  {
    ls == [] || (!RefusesRestore(s, ls[0]) && RestoresAll(Apply(s, ls[0]), ls[1..]))
  }

  ghost predicate NoRefusal(frames: Frames) {
    frames.On? ==>
      && (frames.top.Run? && frames.top.run.Leaving? ==> frames.top.run.unrestored.None?)
      && (frames.top.Call? && frames.top.op.Restore? && !DoneCall(frames.top) ==>
            frames.top.call.Locked? || frames.top.call.InNative?)
  }

  ghost predicate NobodyRefused(s: State) {
    forall g :: g in s.goroutines ==> NoRefusal(s.goroutines[g].frames)
  }

  lemma NoRefusalStep(g: Goroutine, c: View, a: Action)
    requires CanAct(c, a) && Nested(c.x.frames) && NoRefusal(c.x.frames)
    requires !(a.NativeReturn? && a.outcome.Failed? && c.x.frames.top.op.Restore?)
    ensures NoRefusal(Act(g, c, a).x.frames)
  {
  }

  lemma NoRefusalKept(s: State, l: Label)
    requires Inv(s) && Enabled(s, l) && !RefusesRestore(s, l) && NobodyRefused(s)
    ensures NobodyRefused(Apply(s, l))
  {
    if l.Step? {
      assert Nested(s.goroutines[l.g].frames) by { assert GoroutineOk(s.shared, l.g, s.goroutines[l.g]); }
      NoRefusalStep(l.g, ViewOf(s, l.g), l.action);
    }
  }

  lemma {:induction false} NothingDisturbs(s: State, ls: seq<Label>, h: CaptureId)
    requires Inv(s) && IsRun(s, ls) && RestoresAll(s, ls) && NobodyRefused(s)
    ensures Undisturbed(s, ls, h)
    decreases |ls|
  {
    if ls != [] {
      StepKept(s, ls[0]);
      NoRefusalKept(s, ls[0]);
      NothingDisturbs(Apply(s, ls[0]), ls[1..], h);
    }
  }

  /** If native code restores every capture, all scope operations inside a body use its stack, always. */
  lemma RunKeepsItsPromise(s: State, ls: seq<Label>, g: Goroutine)
    requires Init(s) && IsRun(s, ls) && RestoresAll(s, ls)
    requires Running(After(s, ls), g) && BodyHandle(After(s, ls).goroutines[g].frames).Some?
    ensures BodyStack(After(s, ls).goroutines[g].frames) == Some(CurrentStack(After(s, ls), g))
  {
    ReachableInv(s, []);
    NothingDisturbs(s, ls, BodyHandle(After(s, ls).goroutines[g].frames).value);
    UndisturbedBody(s, ls, g);
  }
}
