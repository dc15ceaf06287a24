/**
 What a caller can do about stranded scopes: a rule about which thread may work on which stack keeps
 every scope with its owner exactly if it gives each stack to one thread.
 */
module ThreadAffinityDiscipline {
  import opened Prelude
  import opened ThreadAffinity
  import opened ThreadAffinityInvariant
  import opened ThreadAffinitySteps
  import opened ThreadAffinityTheorems
  import opened ThreadAffinityLeak
  import opened ThreadAffinityBodies
  import opened ThreadAffinityScenario

  /** Which thread may work on which stack. */
  type Rule = (StackId, Thread) -> bool

  ghost predicate OneThreadPerStack(allows: Rule) {
    forall id, t, t' :: allows(id, t) && allows(id, t') ==> t == t'
  }

  /** Every running goroutine works on a stack that its thread is allowed. */
  ghost predicate Obeys(s: State, allows: Rule) {
    forall g :: Running(s, g) ==> allows(CurrentStack(s, g), s.goroutines[g].place.value)
  }

  ghost predicate AlwaysObeys(s: State, ls: seq<Label>, allows: Rule)
    requires IsRun(s, ls)
    decreases |ls|
  {
    Obeys(s, allows) && (ls != [] ==> AlwaysObeys(Apply(s, ls[0]), ls[1..], allows))
  }

  /** No run that obeys the rule strands a scope. */
  ghost predicate Safe(allows: Rule) {
    forall s, ls, u, g :: Init(s) && IsRun(s, ls) && AlwaysObeys(s, ls, allows) ==> !Stranded(After(s, ls), u, g)
  }

  // ----- What holds while the rule is obeyed --------------------------------------------

  /** A pushed scope is on a stack that belongs to the thread it was pushed on. */
  ghost predicate PushedAtHome(sh: Shared, allows: Rule) {
    forall id, i :: id in sh.stacks && 0 <= i < |sh.stacks[id]| && sh.stacks[id][i] in sh.home ==>
      allows(id, sh.home[sh.stacks[id][i]])
  }

  /** A scope in flight is still on its native stack. */
  ghost predicate FlightsStay(s: State) {
    forall g :: g in s.goroutines && InFlight(s.goroutines[g].frames).Some? ==>
      InFlight(s.goroutines[g].frames).value !in s.shared.popped
  }

  /** Some `PopScope` of these frames looked `u` up and found no owner. */
  ghost predicate Unpinned(frames: Frames, u: Uuid) {
    match frames
    case Base => false
    case On(f, rest) => (f.Pop? && !f.pinned && f.uuid == u) || Unpinned(rest, u)
  }

  /** What `g` looked up without finding an owner exists, and is not its own. */
  ghost predicate LookupsForeign(sh: Shared, g: Goroutine, frames: Frames) {
    forall u: Uuid :: Unpinned(frames, u) ==> !FreshScope(sh, u) && !OwnedBy(sh, u, g) && InFlight(frames) != Some(u)
  }

  ghost predicate AllForeign(s: State) {
    forall g :: g in s.goroutines ==> LookupsForeign(s.shared, g, s.goroutines[g].frames)
  }

  ghost predicate DisciplineInv(s: State, allows: Rule) {
    PushedAtHome(s.shared, allows) && FlightsStay(s) && AllForeign(s)
  }

  // ----- Each part is kept --------------------------------------------------------------

  lemma PushedAtHomeKept(g: Goroutine, c: View, a: Action, allows: Rule)
    requires CanAct(c, a) && StacksOk(c.sh) && PushedAtHome(c.sh, allows)
    requires allows(c.t.binding.Current(), c.x.place.value)
    ensures PushedAtHome(Act(g, c, a).sh, allows)
  {
    if a.NativeReturn? {
      PushedAtHomeByReply(g, c, c.x.frames.top.op, a.outcome, allows);
    } else if !a.ManagedPush? {
      StacksLeft(g, c, a);
    }
  }

  lemma PushedAtHomeByReply(g: Goroutine, c: View, op: Op, outcome: Outcome, allows: Rule)
    requires c.x.place.Some? && Possible(c, op, outcome) && StacksOk(c.sh) && PushedAtHome(c.sh, allows)
    requires allows(c.t.binding.Current(), c.x.place.value)
    ensures PushedAtHome(NativeShared(g, c, op, outcome), allows)
  {
  }

  /** The native pop of a pushed scope happens on the thread that pushed it. */
  lemma PopsAtHome(c: View, u: Uuid, allows: Rule)
    requires c.x.place.Some? && PushedAtHome(c.sh, allows) && OneThreadPerStack(allows)
    requires allows(c.t.binding.Current(), c.x.place.value) && Possible(c, PopNative(u), Done(0)) && u in c.sh.home
    ensures c.x.place == Some(c.sh.home[u])
  {
    var id := c.t.binding.Current();
    var st := StackAt(c.sh, id);
    assert id in c.sh.stacks && c.sh.stacks[id][|st| - 1] == u;
  }

  lemma UnpinnedStep(g: Goroutine, c: View, a: Action, u: Uuid)
    requires CanAct(c, a) && Nested(c.x.frames) && Unpinned(Act(g, c, a).x.frames, u)
    ensures Unpinned(c.x.frames, u) || (a == BeginPop(u) && u !in c.sh.owners)
  {
    if c.x.frames.On? && c.x.frames.below.On? {
      assert Unpinned(c.x.frames.below.below, u) ==> Unpinned(c.x.frames.below, u);
    }
  }

  lemma FreshStep(g: Goroutine, c: View, a: Action, u: Uuid)
    requires CanAct(c, a)
    ensures FreshScope(Act(g, c, a).sh, u) ==> FreshScope(c.sh, u)
  {
    if !a.NativeReturn? && !a.ManagedPush? { StacksLeft(g, c, a); }
  }

  lemma FlightStep(g: Goroutine, c: View, a: Action, u: Uuid)
    requires CanAct(c, a) && Nested(c.x.frames) && InFlight(Act(g, c, a).x.frames) == Some(u)
    ensures InFlight(c.x.frames) == Some(u) || FreshScope(c.sh, u)
  {
  }

  lemma OwnStep(g: Goroutine, c: View, a: Action, u: Uuid)
    requires CanAct(c, a) && OwnedBy(Act(g, c, a).sh, u, g)
    ensures OwnedBy(c.sh, u, g) || InFlight(c.x.frames) == Some(u)
  {
    if a.NativeReturn? { ReplyKeepsOwners(g, c, a); }
  }

  lemma LookupsForeignStep(g: Goroutine, c: View, a: Action)
    requires CanAct(c, a) && Nested(c.x.frames) && LookupsForeign(c.sh, g, c.x.frames)
    ensures LookupsForeign(Act(g, c, a).sh, g, Act(g, c, a).x.frames)
  {
    var c' := Act(g, c, a);
    forall u: Uuid | Unpinned(c'.x.frames, u)
      ensures !FreshScope(c'.sh, u) && !OwnedBy(c'.sh, u, g) && InFlight(c'.x.frames) != Some(u)
    {
      UnpinnedStep(g, c, a, u);
      FreshStep(g, c, a, u);
      if OwnedBy(c'.sh, u, g) { OwnStep(g, c, a, u); }
      if InFlight(c'.x.frames) == Some(u) { FlightStep(g, c, a, u); }
    }
  }

  lemma LookupsForeignBeside(h: Goroutine, c: View, a: Action, g: Goroutine, frames: Frames)
    requires CanAct(c, a) && ViewOk(h, c) && h != g && LookupsForeign(c.sh, g, frames)
    ensures LookupsForeign(Act(h, c, a).sh, g, frames)
  {
    forall u: Uuid | Unpinned(frames, u) ensures !FreshScope(Act(h, c, a).sh, u) && !OwnedBy(Act(h, c, a).sh, u, g) {
      FreshStep(h, c, a, u);
      OwnedBeside(h, c, a, u, g);
    }
  }

  lemma AllForeignKept(s: State, g: Goroutine, a: Action)
    requires Inv(s) && Enabled(s, Step(g, a)) && AllForeign(s)
    ensures AllForeign(Apply(s, Step(g, a)))
  {
    var c := ViewOf(s, g);
    assert GoroutineOk(s.shared, g, s.goroutines[g]) && ThreadOk(s, g);
    LookupsForeignStep(g, c, a);
    forall k | k in s.goroutines && k != g ensures LookupsForeign(Act(g, c, a).sh, k, s.goroutines[k].frames) {
      LookupsForeignBeside(g, c, a, k, s.goroutines[k].frames);
    }
  }

  lemma PoppedStep(g: Goroutine, c: View, a: Action, u: Uuid)
    requires CanAct(c, a) && Nested(c.x.frames) && u in Act(g, c, a).sh.popped && u !in c.sh.popped
    ensures a.NativeReturn? && a.outcome.Done? && c.x.frames.top == Call(PopNative(u), InNative)
    ensures Possible(c, PopNative(u), Done(0)) && InFlight(Act(g, c, a).x.frames).None?
  {
    if !a.NativeReturn? && !a.ManagedPush? { StacksLeft(g, c, a); }
  }

  /** A scope that is popped in the step of `g` is not in flight anywhere else. */
  lemma FlightStays(s: State, g: Goroutine, a: Action, allows: Rule, k: Goroutine, u: Uuid)
    requires Inv(s) && Enabled(s, Step(g, a)) && FlightsStay(s) && k in s.goroutines && k != g
    requires PushedAtHome(s.shared, allows) && OneThreadPerStack(allows) && Obeys(s, allows)
    requires InFlight(s.goroutines[k].frames) == Some(u)
    ensures u !in Act(g, ViewOf(s, g), a).sh.popped
  {
    var c := ViewOf(s, g);
    assert Nested(c.x.frames) by { assert GoroutineOk(s.shared, g, s.goroutines[g]); }
    assert FlightOk(s.shared, s.goroutines[k]) by { assert GoroutineOk(s.shared, k, s.goroutines[k]); }
    if u in Act(g, c, a).sh.popped {
      PoppedStep(g, c, a, u);
      PopsAtHome(c, u, allows);
    }
  }

  /** The flights of a state in which `g` has come to the view `c'`. */
  lemma FlightsIn(s: State, g: Goroutine, c': View, t: Thread)
    requires InFlight(c'.x.frames).Some? ==> InFlight(c'.x.frames).value !in c'.sh.popped
    requires forall k :: k in s.goroutines && k != g && InFlight(s.goroutines[k].frames).Some? ==>
               InFlight(s.goroutines[k].frames).value !in c'.sh.popped
    ensures FlightsStay(State(s.goroutines[g := c'.x], s.threads[t := c'.t], c'.sh))
  {
  }

  lemma FlightsStayKept(s: State, g: Goroutine, a: Action, allows: Rule)
    requires Inv(s) && Enabled(s, Step(g, a)) && FlightsStay(s)
    requires PushedAtHome(s.shared, allows) && OneThreadPerStack(allows) && Obeys(s, allows)
    ensures FlightsStay(Apply(s, Step(g, a)))
  {
    var c := ViewOf(s, g);
    var c' := Act(g, c, a);
    assert Nested(c.x.frames) by { assert GoroutineOk(s.shared, g, s.goroutines[g]); }
    forall k | k in s.goroutines && k != g && InFlight(s.goroutines[k].frames).Some?
      ensures InFlight(s.goroutines[k].frames).value !in c'.sh.popped
    {
      FlightStays(s, g, a, allows, k, InFlight(s.goroutines[k].frames).value);
    }
    if InFlight(c'.x.frames).Some? { OwnFlightStays(g, c, a); }
    FlightsIn(s, g, c', s.goroutines[g].place.value);
  }

  lemma OwnFlightStays(g: Goroutine, c: View, a: Action)
    requires CanAct(c, a) && Nested(c.x.frames) && StacksOk(c.sh) && InFlight(Act(g, c, a).x.frames).Some?
    requires InFlight(c.x.frames).Some? ==> InFlight(c.x.frames).value !in c.sh.popped
    ensures InFlight(Act(g, c, a).x.frames).value !in Act(g, c, a).sh.popped
  {
    var u := InFlight(Act(g, c, a).x.frames).value;
    FlightStep(g, c, a, u);
    if u in Act(g, c, a).sh.popped && u !in c.sh.popped { PoppedStep(g, c, a, u); }
  }

  lemma DisciplineKept(s: State, l: Label, allows: Rule)
    requires Inv(s) && Enabled(s, l) && DisciplineInv(s, allows) && OneThreadPerStack(allows) && Obeys(s, allows)
    ensures DisciplineInv(Apply(s, l), allows)
  {
    if l.Step? {
      PushedAtHomeKept(l.g, ViewOf(s, l.g), l.action, allows);
      FlightsStayKept(s, l.g, l.action, allows);
      AllForeignKept(s, l.g, l.action);
    }
  }

  // ----- One thread per stack is safe ---------------------------------------------------

  /** A goroutine on the thread that an owned scope was pushed on is its owner. */
  lemma OwnerIsAtHome(s: State, h: Goroutine, u: Uuid, g: Goroutine)
    requires Inv(s) && h in s.goroutines && OwnedBy(s.shared, u, g) && u in s.shared.home
    requires s.goroutines[h].place == Some(s.shared.home[u])
    ensures h == g
  {
    assert HomeOk(s.shared, g, s.goroutines[g]) by { assert GoroutineOk(s.shared, g, s.goroutines[g]); }
  }

  lemma ReplyAtHome(c: View, a: Action, u: Uuid, allows: Rule)
    requires CanAct(c, a) && PopsUnowned(c.x.frames, a, u) && PushedAtHome(c.sh, allows) && OneThreadPerStack(allows)
    requires allows(c.t.binding.Current(), c.x.place.value) && u in c.sh.home
    ensures c.x.place == Some(c.sh.home[u])
  {
    PopsAtHome(c, u, allows);
  }

  lemma UnpinnedIsForeign(s: State, h: Goroutine, a: Action, u: Uuid)
    requires AllForeign(s) && h in s.goroutines && PopsUnowned(s.goroutines[h].frames, a, u)
    requires Nested(s.goroutines[h].frames)
    ensures !OwnedBy(s.shared, u, h)
  {
    assert Unpinned(s.goroutines[h].frames.below, u);
    assert LookupsForeign(s.shared, h, s.goroutines[h].frames);
  }

  /** Only its owner pops an owned scope, so not after a lookup that found no owner. */
  lemma NoUnownedPop(s: State, h: Goroutine, a: Action, allows: Rule, u: Uuid, g: Goroutine)
    requires Inv(s) && Enabled(s, Step(h, a)) && DisciplineInv(s, allows)
    requires OneThreadPerStack(allows) && Obeys(s, allows)
    requires PopsUnowned(s.goroutines[h].frames, a, u)
    ensures !OwnedBy(s.shared, u, g)
  {
    assert Nested(s.goroutines[h].frames) by { assert GoroutineOk(s.shared, h, s.goroutines[h]); }
    if OwnedBy(s.shared, u, g) {
      ReplyAtHome(ViewOf(s, h), a, u, allows);
      OwnerIsAtHome(s, h, u, g);
      UnpinnedIsForeign(s, h, a, u);
    }
  }

  lemma NothingStrands(s: State, l: Label, allows: Rule, u: Uuid, g: Goroutine)
    requires Inv(s) && Enabled(s, l) && DisciplineInv(s, allows) && OneThreadPerStack(allows) && Obeys(s, allows)
    ensures !Strands(s, l, u, g)
  {
    if l.Step? && PopsUnowned(s.goroutines[l.g].frames, l.action, u) { NoUnownedPop(s, l.g, l.action, allows, u, g); }
  }

  lemma {:induction false} ObeyingRun(s: State, ls: seq<Label>, allows: Rule, u: Uuid, g: Goroutine)
    requires Inv(s) && DisciplineInv(s, allows) && OneThreadPerStack(allows)
    requires IsRun(s, ls) && AlwaysObeys(s, ls, allows)
    requires !Stranded(s, u, g)
    ensures !Stranded(After(s, ls), u, g)
    decreases |ls|
  {
    if ls != [] {
      StepKept(s, ls[0]);
      NothingStrands(s, ls[0], allows, u, g);
      StrandedByStep(s, ls[0], u, g);
      DisciplineKept(s, ls[0], allows);
      ObeyingRun(Apply(s, ls[0]), ls[1..], allows, u, g);
    }
  }

  /** If every stack belongs to one thread throughout a run, the run strands no scope. */
  lemma OneThreadIsSafe(s: State, ls: seq<Label>, allows: Rule, u: Uuid, g: Goroutine)
    requires Init(s) && IsRun(s, ls) && AlwaysObeys(s, ls, allows) && OneThreadPerStack(allows)
    ensures !Stranded(After(s, ls), u, g)
  {
    ReachableInv(s, []);
    ObeyingRun(s, ls, allows, u, g);
  }

  // ----- A stack for two threads is not -------------------------------------------------

  ghost predicate RunFree(frames: Frames) {
    frames.On? ==> !frames.top.Run? && RunFree(frames.below)
  }

  ghost predicate NobodyRuns(s: State) {
    forall g :: g in s.goroutines ==> RunFree(s.goroutines[g].frames)
  }

  ghost predicate ThreadsAllowed(s: State, allows: Rule) {
    forall t :: t in s.threads ==> allows(s.threads[t].binding.Current(), t)
  }

  /** Without `Run` nothing binds a thread. */
  lemma RunFreeStep(g: Goroutine, c: View, a: Action)
    requires CanAct(c, a) && Nested(c.x.frames) && RunFree(c.x.frames) && !a.BeginRun?
    ensures RunFree(Act(g, c, a).x.frames)
    ensures Act(g, c, a).t.binding == c.t.binding && Act(g, c, a).x.place == c.x.place
  {
    if c.x.frames.On? && c.x.frames.below.On? {
      assert RunFree(c.x.frames.below) && RunFree(c.x.frames.below.below);
    }
  }

  lemma NobodyRunsStep(s: State, l: Label, allows: Rule)
    requires Inv(s) && Enabled(s, l) && NobodyRuns(s) && ThreadsAllowed(s, allows) && StartsNoRun([l])
    ensures NobodyRuns(Apply(s, l)) && ThreadsAllowed(Apply(s, l), allows)
  {
    if l.Step? {
      assert [l][0] == l;
      assert Nested(s.goroutines[l.g].frames) by { assert GoroutineOk(s.shared, l.g, s.goroutines[l.g]); }
      RunFreeStep(l.g, ViewOf(s, l.g), l.action);
    }
  }

  lemma {:induction false} NobodyRunsObeys(s: State, ls: seq<Label>, allows: Rule)
    requires Inv(s) && IsRun(s, ls) && NobodyRuns(s) && ThreadsAllowed(s, allows) && StartsNoRun(ls)
    ensures AlwaysObeys(s, ls, allows)
    decreases |ls|
  {
    if ls != [] {
      StepKept(s, ls[0]);
      NobodyRunsStep(s, ls[0], allows);
      NobodyRunsObeys(Apply(s, ls[0]), ls[1..], allows);
    }
  }

  function TwoThreads(id: StackId, t: Thread, t': Thread): State {
    var bound := ThreadState(None, Binding(id, false, None));
    State(map[], map[t := bound, t' := bound], Shared(map[], map[], map[], [], map[], {}, {}, {}, multiset{}, map[]))
  }

  /** Goroutine 0 has pushed scope 0 and not claimed it, and goroutine 1 has it on top of its stack. */
  ghost predicate InWindow(s: State) {
    && Running(s, 0) && Running(s, 1) && UserMode(s.goroutines[1].frames) && OnTop(s, 1, 0)
    && s.goroutines[0].frames == On(Push(Pushed(0)), Base)
  }

  lemma TwoThreadsPush(id: StackId, t: Thread, t': Thread) returns (ls: seq<Label>)
    requires t != t'
    ensures IsRun(TwoThreads(id, t, t'), ls) && StartsNoRun(ls) && InWindow(After(TwoThreads(id, t, t'), ls))
  {
    var s := TwoThreads(id, t, t');
    var first := TwoStart(s, 0, 1, t, t');
    var s1 := After(s, first);
    assert UsesStack(s1, 0, id) && UsesStack(s1, 1, id);
    var second := PushOnShared(s1, 0, 1, id, 0);
    Append(s, first, second);
    ls := first + second;
  }

  /** From two threads bound to one stack, a run without any `Run` strands a scope. */
  lemma TwoThreadsLeak(id: StackId, t: Thread, t': Thread) returns (ls: seq<Label>)
    requires t != t'
    ensures IsRun(TwoThreads(id, t, t'), ls) && StartsNoRun(ls) && Stranded(After(TwoThreads(id, t, t'), ls), 0, 0)
  {
    var s := TwoThreads(id, t, t');
    var first := TwoThreadsPush(id, t, t');
    ReachableInv(s, first);
    SharedStackCanLeak(After(s, first), 0, 1, 0, Base);
    var s1 := After(s, first);
    var second :| IsRun(s1, second) && Stranded(After(s1, second), 0, 0) && StartsNoRun(second);
    Append(s, first, second);
    ls := first + second;
  }

  /** A rule about threads and stacks prevents stranded scopes exactly if it gives every stack to one thread. */
  lemma SafeExactly(allows: Rule)
    ensures Safe(allows) <==> OneThreadPerStack(allows)
  {
    if OneThreadPerStack(allows) {
      forall s, ls, u, g | Init(s) && IsRun(s, ls) && AlwaysObeys(s, ls, allows) ensures !Stranded(After(s, ls), u, g) {
        OneThreadIsSafe(s, ls, allows, u, g);
      }
    } else {
      var id, t, t' :| allows(id, t) && allows(id, t') && t != t';
      var s := TwoThreads(id, t, t');
      var ls := TwoThreadsLeak(id, t, t');
      ReachableInv(s, []);
      NobodyRunsObeys(s, ls, allows);
    }
  }
}
