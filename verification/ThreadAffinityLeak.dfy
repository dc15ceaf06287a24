/**
 How long a pushed scope lives in native code.

 An owned scope stays on its native stack until its owner pops it, unless some `PopScope` looked
 the scope up in `scopeOwners` between the native push and `claimScope`. That lookup finds no
 owner, so its native pop can remove the scope under the owner's feet; the owner is then pinned
 to its thread for good.
 */
module ThreadAffinityLeak {
  import opened Prelude
  import opened ThreadAffinity
  import opened ThreadAffinityInvariant
  import opened ThreadAffinitySteps
  import opened ThreadAffinityTheorems

  ghost predicate OnStack(sh: Shared, u: Uuid) {
    exists id :: id in sh.stacks && u in sh.stacks[id]
  }

  /** Every scope that was made and not popped is on some native stack. */
  ghost predicate AllStacked(sh: Shared) {
    forall u :: !FreshScope(sh, u) && u !in sh.popped ==> OnStack(sh, u)
  }

  lemma StackedAfter(sh: Shared, sh': Shared, id: StackId, u: Uuid)
    requires OnStack(sh, u)
    requires forall j :: j in sh.stacks && j != id ==> j in sh'.stacks && sh'.stacks[j] == sh.stacks[j]
    requires u in StackAt(sh, id) ==> id in sh'.stacks && u in sh'.stacks[id]
    ensures OnStack(sh', u)
  {
    var j :| j in sh.stacks && u in sh.stacks[j];
    assert j in sh'.stacks && u in sh'.stacks[j];
  }

  lemma AllStackedKept(g: Goroutine, c: View, a: Action)
    requires CanAct(c, a) && AllStacked(c.sh)
    ensures AllStacked(Act(g, c, a).sh)
  {
    var sh' := Act(g, c, a).sh;
    var id := c.t.binding.Current();
    if !a.NativeReturn? && !a.ManagedPush? { StacksLeft(g, c, a); }
    forall u | !FreshScope(sh', u) && u !in sh'.popped ensures OnStack(sh', u) {
      if FreshScope(c.sh, u) {
        assert u in sh'.stacks[id];
      } else if sh' != c.sh {
        StackedAfter(c.sh, sh', id, u);
      }
    }
  }

  lemma {:induction false} RunKeepsStacked(s: State, ls: seq<Label>)
    requires AllStacked(s.shared) && IsRun(s, ls)
    ensures AllStacked(After(s, ls).shared)
    decreases |ls|
  {
    if ls != [] {
      if ls[0].Step? { AllStackedKept(ls[0].g, ViewOf(s, ls[0].g), ls[0].action); }
      RunKeepsStacked(Apply(s, ls[0]), ls[1..]);
    }
  }

  /**
   In every reachable state an owned scope that no `PopScope` looked up while its push was in
   flight is still on a native stack, or its owner is inside the `PopScope` that removed it.
   */
  lemma OwnedScopeSurvives(s: State, ls: seq<Label>, u: Uuid)
    requires Init(s) && IsRun(s, ls)
    requires u in After(s, ls).shared.owners && u !in After(s, ls).shared.looked
    ensures var s' := After(s, ls);
            var g := s'.shared.owners[u];
            OnStack(s'.shared, u) || (g in s'.goroutines && Finishing(s'.goroutines[g].frames, u))
  {
    ReachableInv(s, ls);
    RunKeepsStacked(s, ls);
    var s' := After(s, ls);
    assert OwnedBy(s'.shared, u, s'.shared.owners[u]);
    assert GoroutineOk(s'.shared, s'.shared.owners[u], s'.goroutines[s'.shared.owners[u]]);
  }

  /** The scope is gone from native code, but its owner, which is in `frames`, is not releasing it. */
  ghost predicate Lost(sh: Shared, frames: Frames, u: Uuid, g: Goroutine) {
    OwnedBy(sh, u, g) && u in sh.popped && !Finishing(frames, u)
  }

  ghost predicate Stranded(s: State, u: Uuid, g: Goroutine) {
    g in s.goroutines && Lost(s.shared, s.goroutines[g].frames, u, g)
  }

  // ----- Exactly which steps strand a scope ---------------------------------------------

  /** The native pop of a `PopScope` whose lookup found no owner removes `u`. */
  ghost predicate PopsUnowned(frames: Frames, a: Action, u: Uuid) {
    && a.NativeReturn? && a.outcome.Done? && frames.On? && frames.top == Call(PopNative(u), InNative)
    && frames.below.On? && frames.below.top.Pop? && !frames.below.top.pinned
  }

  /** `claimScope` of a scope that native code has popped already. */
  ghost predicate ClaimsPopped(sh: Shared, frames: Frames, a: Action, u: Uuid) {
    a.Continue? && frames.On? && frames.top == Push(Pushed(u)) && u in sh.popped
  }

  /** The step pops `u` under its owner `g`, or makes `g` the owner of a scope popped before. */
  ghost predicate Strands(s: State, l: Label, u: Uuid, g: Goroutine) {
    && l.Step? && l.g in s.goroutines
    && var frames := s.goroutines[l.g].frames;
    || (OwnedBy(s.shared, u, g) && PopsUnowned(frames, l.action, u))
    || (l.g == g && ClaimsPopped(s.shared, frames, l.action, u))
  }

  lemma LostByReply(g: Goroutine, c: View, a: Action, u: Uuid)
    requires CanAct(c, a) && a.NativeReturn? && Nested(c.x.frames) && PopsOk(c.sh, g, c.x.frames) && StacksOk(c.sh)
    ensures Lost(Act(g, c, a).sh, Act(g, c, a).x.frames, u, g)
       <==> Lost(c.sh, c.x.frames, u, g) || (OwnedBy(c.sh, u, g) && PopsUnowned(c.x.frames, a, u))
  {
  }

  lemma LostByAction(g: Goroutine, c: View, a: Action, u: Uuid)
    requires CanAct(c, a) && !a.NativeReturn? && Nested(c.x.frames)
    requires PopsOk(c.sh, g, c.x.frames) && FlightOk(c.sh, c.x)
    ensures Lost(Act(g, c, a).sh, Act(g, c, a).x.frames, u, g)
       <==> Lost(c.sh, c.x.frames, u, g) || ClaimsPopped(c.sh, c.x.frames, a, u)
  {
  }

  /** A step of another goroutine pops an owned scope only after a lookup that found no owner. */
  lemma PoppedByOther(g: Goroutine, c: View, a: Action, u: Uuid, h: Goroutine)
    requires CanAct(c, a) && Nested(c.x.frames) && PopsOk(c.sh, g, c.x.frames)
    requires StacksOk(c.sh) && OwnedBy(c.sh, u, h) && h != g
    ensures u in Act(g, c, a).sh.popped <==> u in c.sh.popped || PopsUnowned(c.x.frames, a, u)
  {
    if a.NativeReturn? && a.outcome.Done? && c.x.frames.top.op.PopNative? {
      assert FramesOk(c.sh, g, c.x.frames.below);
    }
  }

  lemma StrandedByOwner(s: State, g: Goroutine, a: Action, u: Uuid)
    requires Inv(s) && Enabled(s, Step(g, a))
    ensures Stranded(Apply(s, Step(g, a)), u, g) <==> Stranded(s, u, g) || Strands(s, Step(g, a), u, g)
  {
    var c := ViewOf(s, g);
    assert GoroutineOk(s.shared, g, s.goroutines[g]);
    if a.NativeReturn? { LostByReply(g, c, a, u); } else { LostByAction(g, c, a, u); }
  }

  lemma LostByOther(h: Goroutine, c: View, a: Action, u: Uuid, g: Goroutine, frames: Frames)
    requires CanAct(c, a) && ViewOk(h, c) && h != g && PopsOk(c.sh, g, frames)
    ensures Lost(Act(h, c, a).sh, frames, u, g)
       <==> Lost(c.sh, frames, u, g) || (OwnedBy(c.sh, u, g) && PopsUnowned(c.x.frames, a, u))
  {
    OwnedBeside(h, c, a, u, g);
    if OwnedBy(c.sh, u, g) {
      PoppedByOther(h, c, a, u, g);
      assert Finishing(frames, u) ==> u in c.sh.popped;
    }
  }

  lemma StrandedByOther(s: State, h: Goroutine, a: Action, u: Uuid, g: Goroutine)
    requires Inv(s) && Enabled(s, Step(h, a)) && h != g
    ensures Stranded(Apply(s, Step(h, a)), u, g) <==> Stranded(s, u, g) || Strands(s, Step(h, a), u, g)
  {
    if g in s.goroutines {
      assert ViewOk(h, ViewOf(s, h)) by { assert GoroutineOk(s.shared, h, s.goroutines[h]) && ThreadOk(s, h); }
      assert PopsOk(s.shared, g, s.goroutines[g].frames) by { assert GoroutineOk(s.shared, g, s.goroutines[g]); }
      LostByOther(h, ViewOf(s, h), a, u, g, s.goroutines[g].frames);
      StrandedIn(s, h, Act(h, ViewOf(s, h), a), s.goroutines[h].place.value, u, g);
    }
  }

  /** What a step of `h` to the view `c'` means for the scopes of `g`. */
  lemma StrandedIn(s: State, h: Goroutine, c': View, t: Thread, u: Uuid, g: Goroutine)
    requires h != g && g in s.goroutines
    ensures Stranded(State(s.goroutines[h := c'.x], s.threads[t := c'.t], c'.sh), u, g)
       <==> Lost(c'.sh, s.goroutines[g].frames, u, g)
  {
  }

  /** A scope becomes stranded exactly by these two kinds of step, and stays so. */
  lemma StrandedByStep(s: State, l: Label, u: Uuid, g: Goroutine)
    requires Inv(s) && Enabled(s, l)
    ensures Stranded(Apply(s, l), u, g) <==> Stranded(s, u, g) || Strands(s, l, u, g)
  {
    if l.Step? {
      if l.g == g { StrandedByOwner(s, g, l.action, u); } else { StrandedByOther(s, l.g, l.action, u, g); }
    }
  }

  ghost predicate StrandsIn(s: State, ls: seq<Label>, u: Uuid, g: Goroutine)
    requires IsRun(s, ls)
    decreases |ls|
  {
    ls != [] && (Strands(s, ls[0], u, g) || StrandsIn(Apply(s, ls[0]), ls[1..], u, g))
  }

  lemma {:induction false} StrandedAfter(s: State, ls: seq<Label>, u: Uuid, g: Goroutine)
    requires Inv(s) && IsRun(s, ls)
    ensures Stranded(After(s, ls), u, g) <==> Stranded(s, u, g) || StrandsIn(s, ls, u, g)
    decreases |ls|
  {
    if ls != [] {
      StepKept(s, ls[0]);
      StrandedByStep(s, ls[0], u, g);
      StrandedAfter(Apply(s, ls[0]), ls[1..], u, g);
    }
  }

  /**
   A run strands a scope exactly if it contains a step in which a `PopScope` that found no owner
   pops a scope owned by now, or in which a scope that was popped in flight is claimed.
   */
  lemma StrandedExactly(s: State, ls: seq<Label>, u: Uuid, g: Goroutine)
    requires Init(s) && IsRun(s, ls)
    ensures Stranded(After(s, ls), u, g) <==> StrandsIn(s, ls, u, g)
  {
    ReachableInv(s, []);
    StrandedAfter(s, ls, u, g);
  }

  /** A stranded scope pins its owner to its thread in every continuation of the run. */
  lemma {:induction false} PinLeaks(s: State, ls: seq<Label>, u: Uuid, g: Goroutine)
    requires Inv(s) && IsRun(s, ls) && Stranded(s, u, g)
    ensures var s' := After(s, ls);
            && Stranded(s', u, g) && Running(s', g) && s'.goroutines[g].depth > 0
            && s'.goroutines[g].place == Some(s.shared.home[u])
    decreases |ls|
  {
    if ls == [] {
      assert GoroutineOk(s.shared, g, s.goroutines[g]);
      assert u in Owned(s.shared, g);
    } else {
      StepKept(s, ls[0]);
      OnlyOwnerReleases(s, ls[0], u);
      StrandedByStep(s, ls[0], u, g);
      PinLeaks(Apply(s, ls[0]), ls[1..], u, g);
    }
  }

  // ----- A run that strands a scope -----------------------------------------------------

  lemma {:induction false} Append(s: State, a: seq<Label>, b: seq<Label>)
    requires IsRun(s, a) && IsRun(After(s, a), b)
    ensures IsRun(s, a + b) && After(s, a + b) == After(After(s, a), b)
    decreases |a|
  {
    if a == [] {
      assert a + b == b;
    } else {
      Append(Apply(s, a[0]), a[1..], b);
      assert (a + b)[1..] == a[1..] + b;
    }
  }

  lemma Extend(s: State, ls: seq<Label>, l: Label)
    requires IsRun(s, ls) && Enabled(After(s, ls), l)
    ensures IsRun(s, ls + [l]) && After(s, ls + [l]) == Apply(After(s, ls), l)
  {
    assert IsRun(After(s, ls), [l]);
    assert After(After(s, ls), [l]) == Apply(After(s, ls), l);
    Append(s, ls, [l]);
  }

  /** Nobody enters `ScopeStack.Run`. */
  ghost predicate StartsNoRun(ls: seq<Label>) {
    forall i :: 0 <= i < |ls| && ls[i].Step? ==> !ls[i].action.BeginRun?
  }

  /** `u` is on top of the stack that native calls of `g` work on. */
  ghost predicate OnTop(s: State, g: Goroutine, u: Uuid) {
    Running(s, g) &&
    var st := StackAt(s.shared, ViewOf(s, g).t.binding.Current());
    st != [] && st[|st| - 1] == u
  }

  /** A foreign lookup of a scope in flight passes, and the claim that follows does not undo that. */
  lemma LookupThenClaim(s: State, g: Goroutine, h: Goroutine, u: Uuid, base: Frames)
    returns (ls: seq<Label>)
    requires g != h && Running(s, g) && Running(s, h) && UserMode(s.goroutines[h].frames)
    requires s.goroutines[g].place != s.goroutines[h].place && FlightOk(s.shared, s.goroutines[g])
    requires s.goroutines[g].frames == On(Push(Pushed(u)), base) && OnTop(s, h, u)
    ensures IsRun(s, ls) && StartsNoRun(ls)
    ensures var s' := After(s, ls);
            && Running(s', h) && s'.goroutines[h].frames == On(Pop(u, false, Checked), s.goroutines[h].frames)
            && g in s'.goroutines && s'.goroutines[g].frames == base && OwnedBy(s'.shared, u, g) && OnTop(s', h, u)
  {
    ls := [];
    Extend(s, ls, Step(h, BeginPop(u)));
    ls := ls + [Step(h, BeginPop(u))];
    var s1 := After(s, ls);
    assert Running(s1, g) && s1.goroutines[g] == s.goroutines[g];
    assert s1.goroutines[h].frames == On(Pop(u, false, Checked), s.goroutines[h].frames);
    Extend(s, ls, Step(g, Continue));
    ls := ls + [Step(g, Continue)];
  }

  /** The native pop of a lookup that found no owner succeeds although the scope is owned by now. */
  lemma PopUnderOwner(s: State, g: Goroutine, h: Goroutine, u: Uuid, rest: Frames) returns (ls: seq<Label>)
    requires g != h && g in s.goroutines && UserMode(s.goroutines[g].frames) && OwnedBy(s.shared, u, g)
    requires OnTop(s, h, u) && s.goroutines[h].frames == On(Pop(u, false, Checked), rest)
    ensures IsRun(s, ls) && Stranded(After(s, ls), u, g) && StartsNoRun(ls)
  {
    ls := [];
    Extend(s, ls, Step(h, Continue));
    ls := ls + [Step(h, Continue)];
    var s1 := After(s, ls);
    assert s1.goroutines[h].frames == On(Call(PopNative(u), Locked), On(Pop(u, false, Checked), rest)) &&
           OnTop(s1, h, u);
    assert s1.goroutines[g] == s.goroutines[g] && OwnedBy(s1.shared, u, g);
    Extend(s, ls, Step(h, Continue));
    ls := ls + [Step(h, Continue)];
    var s2 := After(s, ls);
    assert s2.goroutines[h].frames == On(Call(PopNative(u), InNative), On(Pop(u, false, Checked), rest)) &&
           OnTop(s2, h, u);
    assert s2.goroutines[g] == s.goroutines[g] && OwnedBy(s2.shared, u, g);
    Extend(s, ls, Step(h, NativeReturn(Done(0), None)));
    ls := ls + [Step(h, NativeReturn(Done(0), None))];
  }

  /**
   Whenever a scope in flight is on top of a stack that another goroutine in user code is bound
   to as well, the run can go on so that the scope is stranded.
   */
  lemma SharedStackCanLeak(s: State, g: Goroutine, h: Goroutine, u: Uuid, base: Frames)
    requires Inv(s) && g != h && Running(s, g) && Running(s, h) && UserMode(s.goroutines[h].frames)
    requires s.goroutines[g].frames == On(Push(Pushed(u)), base) && OnTop(s, h, u)
    ensures exists ls :: IsRun(s, ls) && Stranded(After(s, ls), u, g) && StartsNoRun(ls)
  {
    assert UserMode(base) && FlightOk(s.shared, s.goroutines[g]) by {
      assert GoroutineOk(s.shared, g, s.goroutines[g]);
    }
    var first := LookupThenClaim(s, g, h, u, base);
    var second := PopUnderOwner(After(s, first), g, h, u, s.goroutines[h].frames);
    Append(s, first, second);
    assert IsRun(s, first + second) && Stranded(After(s, first + second), u, g) && StartsNoRun(first + second);
  }
}
