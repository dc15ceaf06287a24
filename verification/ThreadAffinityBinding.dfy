/** What the frames of a goroutine say about the binding of its thread, kept by every step. */
module ThreadAffinityBinding {
  import opened Prelude
  import opened ThreadAffinity
  import opened ThreadAffinityInvariant
  import opened ThreadAffinitySteps
  import opened ThreadAffinityTheorems

  type BodyStacks = map<CaptureId, StackId>

  function Bound(stack: StackId): Binding {
    Binding(stack, true, Some(stack))
  }

  /** The binding inside a `Run` that has captured `h`: its entry binding until it bound a stack. */
  function Now(works: BodyStacks, h: CaptureId, entry: Binding): Binding {
    if h in works then Bound(works[h]) else entry
  }

  // ----- What the frames of a goroutine say about its thread ----------------------------

  ghost function RunExpects(works: BodyStacks, entry: Binding, phase: RunPhase): Binding {
    match phase
    case Capturing => entry
    case Captured(_) => entry
    case Body(h) => Now(works, h, entry)
    case Restoring(h, _) => Now(works, h, entry)
    case AwaitRestore(h, _) => Now(works, h, entry)
    case Leaving(_, unrestored) => if unrestored.Some? then Now(works, unrestored.value, entry) else entry
  }

  /** The binding that the innermost functions of a goroutine rely on, if any. */
  ghost function Expected(frames: Frames, works: BodyStacks): Option<Binding> {
    match frames
    case Base => None
    case On(Run(_, entry, phase), _) => Some(RunExpects(works, entry, phase))
    case On(Call(op, phase), rest) =>
      if op.Bind? && DoneCall(frames.top) then Some(Bound(op.stack))
      else if op.Restore? && DoneCall(frames.top) && rest.On? && rest.top.Run? then Some(rest.top.entry)
      else Expected(rest, works)
    case On(_, rest) => Expected(rest, works)
  }

  /** Every `Run` began with the binding that its caller relies on. */
  ghost predicate Chained(frames: Frames, works: BodyStacks) {
    match frames
    case Base => true
    case On(f, rest) =>
      Chained(rest, works) && (f.Run? && Expected(rest, works).Some? ==> Expected(rest, works) == Some(f.entry))
  }

  /** Every body has bound a stack. */
  ghost predicate BodiesBound(frames: Frames, works: BodyStacks) {
    match frames
    case Base => true
    case On(f, rest) => BodiesBound(rest, works) && (f.Run? && f.run.Body? ==> f.run.handle in works)
  }

  /** A `Run` on its way into its body has not bound its stack, or just did. */
  ghost predicate EntersOk(frames: Frames, works: BodyStacks) {
    frames.On? ==>
      && (frames.top.Run? && frames.top.run.Captured? ==> frames.top.run.handle !in works)
      && (frames.top.Call? && frames.top.op.Capture? && DoneCall(frames.top)
          ==> frames.top.call.outcome.value !in works)
      && (frames.top.Call? && frames.top.op.Bind? && Entering(frames).Some? ==>
            if DoneCall(frames.top)
            then Entering(frames).value in works && works[Entering(frames).value] == frames.top.op.stack
            else Entering(frames).value !in works)
  }

  ghost predicate BoundOk(frames: Frames, works: BodyStacks, t: ThreadState) {
    && Chained(frames, works) && BodiesBound(frames, works) && EntersOk(frames, works)
    && (Expected(frames, works).Some? ==> Expected(frames, works) == Some(t.binding))
  }

  /** `Run` waits for its restore only while the call is on top, and the answer takes the capture over. */
  ghost predicate AnsweredOk(sh: Shared, frames: Frames) {
    frames.On? ==>
      && !(frames.top.Run? && frames.top.run.AwaitRestore?)
      && (frames.top.Run? && frames.top.run.Leaving? && frames.top.run.unrestored.Some?
          ==> frames.top.run.unrestored.value in sh.freed)
      && (frames.top.Call? && frames.top.op.Restore? && (frames.top.call.Returned? || frames.top.call.Reported?)
          ==> frames.top.op.handle in sh.freed)
  }

  /** Only captures that native code made have a stack. */
  ghost predicate WorksKnown(sh: Shared) {
    forall h :: h in sh.works ==> h in sh.captures || h in sh.freed
  }

  // ----- Frames that are not on top -----------------------------------------------------

  /** Frames under a callback, a call or another operation: every `Run` executes its body. */
  ghost predicate Steady(frames: Frames) {
    match frames
    case Base => true
    case On(f, rest) => Steady(rest) && (f.Run? ==> f.run.Body?) && (f.Call? ==> Reentrant(f.op))
  }

  lemma {:induction false} UserIsSteady(frames: Frames)
    requires Nested(frames) && (UserMode(frames) || frames.top.Push? || frames.top.Pop?)
    ensures Steady(frames)
  {
    if frames.On? { UserIsSteady(frames.below); }
  }

  /** What a steady stack of frames relies on is the stack of its innermost body. */
  lemma {:induction false} SteadyExpects(frames: Frames, works: BodyStacks)
    requires Steady(frames) && BodiesBound(frames, works)
    ensures match BodyHandle(frames)
            case None => Expected(frames, works).None?
            case Some(h) => h in works && Expected(frames, works) == Some(Bound(works[h])) && FramesHeld(frames, h) > 0
  {
    if frames.On? && !frames.top.Run? { SteadyExpects(frames.below, works); }
  }

  /** A steady stack does not depend on captures that it does not hold. */
  lemma {:induction false} SteadyLocal(frames: Frames, works: BodyStacks, h: CaptureId, stack: StackId)
    requires Steady(frames) && FramesHeld(frames, h) == 0
    ensures Expected(frames, works[h := stack]) == Expected(frames, works)
    ensures Chained(frames, works) ==> Chained(frames, works[h := stack])
    ensures BodiesBound(frames, works) ==> BodiesBound(frames, works[h := stack])
  {
    if frames.On? { SteadyLocal(frames.below, works, h, stack); }
  }

  /** Moving the innermost body to another stack breaks no link of the chain. */
  lemma {:induction false} BodyMoves(frames: Frames, works: BodyStacks, stack: StackId)
    requires Steady(frames) && Chained(frames, works) && BodiesBound(frames, works) && BodyHandle(frames).Some?
    requires FramesHeld(frames, BodyHandle(frames).value) <= 1
    ensures var works' := works[BodyHandle(frames).value := stack];
            Chained(frames, works') && BodiesBound(frames, works') && Expected(frames, works') == Some(Bound(stack))
  {
    if frames.top.Run? {
      SteadyLocal(frames.below, works, BodyHandle(frames).value, stack);
    } else {
      BodyMoves(frames.below, works, stack);
    }
  }

  // ----- Steps of the goroutine itself --------------------------------------------------

  lemma BoundKeptByUser(g: Goroutine, c: View, a: Action)
    requires CanAct(c, a) && Nested(c.x.frames) && BoundOk(c.x.frames, c.sh.works, c.t)
    requires !a.Continue? && !a.NativeReturn?
    ensures BoundOk(Act(g, c, a).x.frames, Act(g, c, a).sh.works, Act(g, c, a).t)
  {
  }

  lemma BoundKeptByBind(g: Goroutine, c: View, a: Action)
    requires CanAct(c, a) && Nested(c.x.frames) && BoundOk(c.x.frames, c.sh.works, c.t) && HeldOk(c.sh, g, c.x)
    requires a.NativeReturn? && a.outcome.Done? && c.x.frames.top.op.Bind?
    ensures BoundOk(Act(g, c, a).x.frames, Act(g, c, a).sh.works, Act(g, c, a).t)
  {
    var On(call, On(run, base)) := c.x.frames;
    var h := run.run.handle;
    assert FramesHeld(c.x.frames, h) == 1 + FramesHeld(base, h) && FramesHeld(c.x.frames, h) <= 1;
    assert Nested(On(run, base));
    UserIsSteady(base);
    SteadyLocal(base, c.sh.works, h, call.op.stack);
    assert Chained(On(run, base), c.sh.works) && BodiesBound(On(run, base), c.sh.works);
  }

  lemma BoundKeptByReturn(g: Goroutine, c: View, a: Action)
    requires CanAct(c, a) && Nested(c.x.frames) && BoundOk(c.x.frames, c.sh.works, c.t) && WorksKnown(c.sh)
    requires a.NativeReturn? && !(a.outcome.Done? && c.x.frames.top.op.Bind?)
    requires EntryOk(Act(g, c, a).x.frames, Act(g, c, a).t)
    ensures BoundOk(Act(g, c, a).x.frames, Act(g, c, a).sh.works, Act(g, c, a).t)
  {
    var On(Call(op, _), below) := c.x.frames;
    var c' := Act(g, c, a);
    assert c'.x.frames == On(Call(op, Returned(a.outcome)), below) && c'.sh.works == c.sh.works;
    assert Chained(below, c.sh.works) && BodiesBound(below, c.sh.works);
    if !op.Restore? { assert c'.t.binding == c.t.binding; }
  }

  lemma BoundAfterRunCall(run: Frame, base: Frames, op: Op, outcome: Outcome, phase: CallPhase, works: BodyStacks,
                          t: ThreadState)
    requires run.Run? && !op.Plain?
    requires Nested(On(Call(op, phase), On(run, base))) && BoundOk(On(Call(op, phase), On(run, base)), works, t)
    requires phase == Returned(outcome) || (phase.Reported? && outcome.Failed?)
    ensures BoundOk(Resume(On(run, base), op, outcome), works, t)
  {
    var after := Run(run.stack, run.entry, ResumeRun(run.run, outcome));
    assert Resume(On(run, base), op, outcome) == On(after, base);
    assert Chained(On(run, base), works) && BodiesBound(On(run, base), works);
    assert Chained(On(after, base), works);
    match op
    case Bind(_) => if outcome.Failed? { assert Expected(On(run, base), works) == Some(run.entry); }
    case Capture => assert Expected(On(run, base), works) == Some(run.entry);
    case Restore(h) =>
      assert run.run == AwaitRestore(h, run.run.panicking);
      if outcome.Failed? { assert Expected(On(run, base), works) == Some(Now(works, h, run.entry)); }
    case _ =>
  }

  /** A call that returns hands its caller the binding that the caller relies on. */
  lemma BoundAfterCall(below: Frames, op: Op, outcome: Outcome, phase: CallPhase, works: BodyStacks, t: ThreadState)
    requires Nested(On(Call(op, phase), below)) && BoundOk(On(Call(op, phase), below), works, t)
    requires phase == Returned(outcome) || (phase.Reported? && outcome.Failed?)
    ensures BoundOk(Resume(below, op, outcome), works, t)
  {
    if below.On? {
      assert Nested(below) && Chained(below, works) && BodiesBound(below, works);
      match below.top
      case Call(_, _) =>
      case Run(_, _, _) => if !op.Plain? { BoundAfterRunCall(below.top, below.below, op, outcome, phase, works, t); }
      case _ =>
        assert Nested(below.below) && Chained(below.below, works) && BodiesBound(below.below, works);
        assert Expected(below, works) == Expected(below.below, works);
    }
  }

  lemma BoundKeptByCall(g: Goroutine, c: View)
    requires CanAct(c, Continue) && Nested(c.x.frames) && BoundOk(c.x.frames, c.sh.works, c.t) && c.x.frames.top.Call?
    ensures BoundOk(Act(g, c, Continue).x.frames, Act(g, c, Continue).sh.works, Act(g, c, Continue).t)
  {
    var On(Call(op, phase), below) := c.x.frames;
    match phase
    case Returned(outcome) => BoundAfterCall(below, op, outcome, phase, c.sh.works, c.t);
    case Reported(wrote, _) => BoundAfterCall(below, op, Failed(wrote), phase, c.sh.works, c.t);
    case _ =>
  }

  lemma BoundKeptByLeave(g: Goroutine, c: View)
    requires CanAct(c, Continue) && Nested(c.x.frames) && BoundOk(c.x.frames, c.sh.works, c.t) && HeldOk(c.sh, g, c.x)
    requires c.x.frames.top.Run? && c.x.frames.top.run.Leaving?
    ensures BoundOk(Act(g, c, Continue).x.frames, Act(g, c, Continue).sh.works, Act(g, c, Continue).t)
  {
    var On(Run(_, entry, phase), base) := c.x.frames;
    var works := c.sh.works;
    UserIsSteady(base);
    SteadyExpects(base, works);
    if BodyHandle(base).Some? && phase.unrestored.Some? && phase.unrestored.value in works {
      var h := BodyHandle(base).value;
      assert FramesHeld(base, h) <= FramesHeld(c.x.frames, h) <= 1;
      BodyMoves(base, works, works[phase.unrestored.value]);
    }
  }

  lemma BoundKeptByOthers(g: Goroutine, c: View)
    requires CanAct(c, Continue) && Nested(c.x.frames) && BoundOk(c.x.frames, c.sh.works, c.t)
    requires c.x.frames.top.Push? || c.x.frames.top.Pop?
    ensures BoundOk(Act(g, c, Continue).x.frames, Act(g, c, Continue).sh.works, Act(g, c, Continue).t)
  {
    var below, works := c.x.frames.below, c.sh.works;
    assert Chained(below, works) && BodiesBound(below, works) && Expected(below, works) == Expected(c.x.frames, works);
    assert EntersOk(below, works);
  }

  lemma BoundKeptByRun(g: Goroutine, c: View)
    requires CanAct(c, Continue) && Nested(c.x.frames) && BoundOk(c.x.frames, c.sh.works, c.t)
    requires c.x.frames.top.Run? && !c.x.frames.top.run.Leaving?
    ensures BoundOk(Act(g, c, Continue).x.frames, Act(g, c, Continue).sh.works, Act(g, c, Continue).t)
  {
    var below, works := c.x.frames.below, c.sh.works;
    assert Chained(below, works) && BodiesBound(below, works);
  }

  lemma BoundKept(g: Goroutine, c: View, a: Action)
    requires CanAct(c, a) && Nested(c.x.frames) && HeldOk(c.sh, g, c.x) && WorksKnown(c.sh)
    requires BoundOk(c.x.frames, c.sh.works, c.t) && EntryOk(Act(g, c, a).x.frames, Act(g, c, a).t)
    ensures BoundOk(Act(g, c, a).x.frames, Act(g, c, a).sh.works, Act(g, c, a).t)
  {
    match a
    case NativeReturn(outcome, _) =>
      if outcome.Done? && c.x.frames.top.op.Bind? { BoundKeptByBind(g, c, a); } else { BoundKeptByReturn(g, c, a); }
    case Continue =>
      if c.x.frames.top.Call? { BoundKeptByCall(g, c); }
      else if !c.x.frames.top.Run? { BoundKeptByOthers(g, c); }
      else if c.x.frames.top.run.Leaving? { BoundKeptByLeave(g, c); }
      else { BoundKeptByRun(g, c); }
    case _ => BoundKeptByUser(g, c, a);
  }

  lemma AnsweredKept(g: Goroutine, c: View, a: Action)
    requires CanAct(c, a) && Nested(c.x.frames) && AnsweredOk(c.sh, c.x.frames)
    ensures AnsweredOk(Act(g, c, a).sh, Act(g, c, a).x.frames)
  {
  }

  // ----- Steps of other goroutines ------------------------------------------------------

  /** A step gives a stack to at most one capture, and the acting goroutine holds it. */
  lemma WorksStep(g: Goroutine, c: View, a: Action) returns (h: CaptureId, stack: StackId)
    requires CanAct(c, a) && Nested(c.x.frames) && BodiesBound(c.x.frames, c.sh.works)
    ensures Act(g, c, a).sh.works == c.sh.works
            || (Act(g, c, a).sh.works == c.sh.works[h := stack] && FramesHeld(c.x.frames, h) > 0)
  {
    h, stack := 0, 0;
    if a.NativeReturn? && c.x.frames.top.op.Bind? {
      h, stack := Entering(c.x.frames).value, c.x.frames.top.op.stack;
    } else if a.Continue? && c.x.frames.top.Run? && c.x.frames.top.run.Leaving? {
      var base, k := c.x.frames.below, c.x.frames.top.run.unrestored;
      UserIsSteady(base);
      SteadyExpects(base, c.sh.works);
      if BodyHandle(base).Some? && k.Some? && k.value in c.sh.works {
        h, stack := BodyHandle(base).value, c.sh.works[k.value];
      }
    }
  }

  lemma CallLocal(sh: Shared, op: Op, phase: CallPhase, run: Frame, base: Frames, h: CaptureId, stack: StackId,
                  t: ThreadState)
    requires !Reentrant(op) && Nested(On(Call(op, phase), On(run, base)))
    requires BoundOk(On(Call(op, phase), On(run, base)), sh.works, t)
    requires AnsweredOk(sh, On(Call(op, phase), On(run, base)))
    requires FramesHeld(On(Call(op, phase), On(run, base)), h) == 0 && h !in sh.freed
    ensures BoundOk(On(Call(op, phase), On(run, base)), sh.works[h := stack], t)
  {
    var works, works' := sh.works, sh.works[h := stack];
    var under := On(run, base);
    assert FramesHeld(On(Call(op, phase), under), h) >= FramesHeld(under, h) >= FramesHeld(base, h);
    assert Nested(under) && Chained(under, works) && BodiesBound(under, works);
    UserIsSteady(base);
    SteadyLocal(base, works, h, stack);
    assert Chained(under, works') && BodiesBound(under, works');
    assert Expected(under, works') == Expected(under, works) by {
      match op
      case Restore(k) => assert DoneCall(Call(op, phase)) || k != h;
      case _ =>
    }
  }

  /** A goroutine does not notice the stacks of captures that it neither holds nor held. */
  lemma BoundLocal(sh: Shared, frames: Frames, h: CaptureId, stack: StackId, t: ThreadState)
    requires Nested(frames) && BoundOk(frames, sh.works, t) && AnsweredOk(sh, frames)
    requires FramesHeld(frames, h) == 0 && h !in sh.freed
    ensures BoundOk(frames, sh.works[h := stack], t)
  {
    if frames.On? {
      var below := frames.below;
      if frames.top.Call? && !Reentrant(frames.top.op) {
        CallLocal(sh, frames.top.op, frames.top.call, below.top, below.below, h, stack, t);
      } else {
        UserIsSteady(below);
        SteadyLocal(below, sh.works, h, stack);
      }
    }
  }

  // ----- Lifting to runs ----------------------------------------------------------------

  ghost predicate GoroutineBound(s: State, g: Goroutine)
    requires g in s.goroutines
  {
    && AnsweredOk(s.shared, s.goroutines[g].frames)
    && (Running(s, g) ==> BoundOk(s.goroutines[g].frames, s.shared.works, s.threads[s.goroutines[g].place.value]))
  }

  ghost predicate BindingInv(s: State) {
    WorksKnown(s.shared) && forall g :: g in s.goroutines ==> GoroutineBound(s, g)
  }

  lemma {:induction false} UnlockedExpectsNothing(frames: Frames, works: BodyStacks)
    requires FramesLocks(frames) == 0
    ensures Expected(frames, works).None? && Chained(frames, works)
    ensures BodiesBound(frames, works) && EntersOk(frames, works)
  {
    if frames.On? { UnlockedExpectsNothing(frames.below, works); }
  }

  lemma OtherBound(s: State, g: Goroutine, a: Action, h: CaptureId, stack: StackId, k: Goroutine)
    requires Inv(s) && BindingInv(s) && Enabled(s, Step(g, a)) && k in s.goroutines && k != g
    requires var works' := Apply(s, Step(g, a)).shared.works;
             works' == s.shared.works || (works' == s.shared.works[h := stack] &&
                                          FramesHeld(s.goroutines[g].frames, h) > 0)
    requires forall j :: j in s.shared.freed ==> j in Apply(s, Step(g, a)).shared.freed
    requires Act(g, ViewOf(s, g), a).x.place == s.goroutines[g].place
    ensures GoroutineBound(Apply(s, Step(g, a)), k)
  {
    var s' := Apply(s, Step(g, a));
    var y := s.goroutines[k];
    assert GoroutineBound(s, k) && GoroutineOk(s.shared, g, s.goroutines[g]) && GoroutineOk(s.shared, k, y);
    assert s'.goroutines[k] == y;
    if Running(s', k) {
      assert y.place != s.goroutines[g].place;
      if s'.shared.works != s.shared.works {
        assert LiveFor(s.shared, g, h) && !LiveFor(s.shared, k, h) && FramesHeld(y.frames, h) == 0;
        BoundLocal(s.shared, y.frames, h, stack, s.threads[y.place.value]);
      }
    }
  }

  lemma FreedGrows(g: Goroutine, c: View, a: Action)
    requires CanAct(c, a)
    ensures forall h :: h in c.sh.freed ==> h in Act(g, c, a).sh.freed
    ensures Act(g, c, a).x.place == c.x.place
  {
  }

  lemma WorksKnownKept(g: Goroutine, c: View, a: Action)
    requires CanAct(c, a) && WorksKnown(c.sh) && Nested(c.x.frames) && HeldOk(c.sh, g, c.x)
    requires BodiesBound(c.x.frames, c.sh.works)
    ensures WorksKnown(Act(g, c, a).sh)
  {
    var h, stack := WorksStep(g, c, a);
    assert FramesHeld(c.x.frames, h) > 0 ==> LiveFor(c.sh, g, h);
    forall k | k in Act(g, c, a).sh.works ensures k in Act(g, c, a).sh.captures || k in Act(g, c, a).sh.freed {
      assert k in c.sh.captures || k in c.sh.freed;
    }
  }

  lemma GoroutineBindingStep(s: State, g: Goroutine, a: Action)
    requires Inv(s) && BindingInv(s) && Enabled(s, Step(g, a))
    ensures BindingInv(Apply(s, Step(g, a)))
  {
    var s' := Apply(s, Step(g, a));
    var c := ViewOf(s, g);
    assert GoroutineOk(s.shared, g, s.goroutines[g]) && ThreadOk(s, g) && GoroutineBound(s, g);
    ThreadKept(g, c, a);
    BoundKept(g, c, a);
    AnsweredKept(g, c, a);
    WorksKnownKept(g, c, a);
    FreedGrows(g, c, a);
    var h, stack := WorksStep(g, c, a);
    forall k | k in s'.goroutines ensures GoroutineBound(s', k) {
      if k != g { OtherBound(s, g, a, h, stack, k); }
    }
  }

  lemma BindingStep(s: State, l: Label)
    requires Inv(s) && BindingInv(s) && Enabled(s, l)
    ensures BindingInv(Apply(s, l))
  {
    var s' := Apply(s, l);
    if l.Step? {
      GoroutineBindingStep(s, l.g, l.action);
    } else {
      forall g | g in s'.goroutines ensures GoroutineBound(s', g) {
        if g in s.goroutines {
          assert GoroutineBound(s, g);
          assert LocksOk(s.shared, g, s.goroutines[g]) by { assert GoroutineOk(s.shared, g, s.goroutines[g]); }
          if g == l.g { UnlockedExpectsNothing(s.goroutines[g].frames, s.shared.works); }
        }
      }
    }
  }

  lemma {:induction false} RunKeepsBinding(s: State, ls: seq<Label>)
    requires Inv(s) && BindingInv(s) && IsRun(s, ls)
    ensures BindingInv(After(s, ls))
    decreases |ls|
  {
    if ls != [] {
      StepKept(s, ls[0]);
      BindingStep(s, ls[0]);
      RunKeepsBinding(Apply(s, ls[0]), ls[1..]);
    }
  }
}
