/** Every step of the thread-affinity protocol keeps its invariant. */
module ThreadAffinitySteps {
  import opened Prelude
  import opened ThreadAffinity
  import opened ThreadAffinityInvariant

  // ----- The acting goroutine -----------------------------------------------------------

  lemma ShapeKept(g: Goroutine, c: View, a: Action)
    requires CanAct(c, a) && Nested(c.x.frames)
    ensures Nested(Act(g, c, a).x.frames)
  {
  }

  /** Claiming a scope moves its lock from the frame to the map, releasing moves it back. */
  lemma OwnedCounts(sh: Shared, g: Goroutine, u: Uuid)
    ensures u !in sh.owners ==> |Owned(sh.(owners := sh.owners[u := g]), g)| == |Owned(sh, g)| + 1
    ensures OwnedBy(sh, u, g) ==> |Owned(sh.(owners := sh.owners - {u}), g)| == |Owned(sh, g)| - 1
  {
    if u !in sh.owners {
      assert Owned(sh.(owners := sh.owners[u := g]), g) == Owned(sh, g) + {u};
    }
    if OwnedBy(sh, u, g) {
      assert Owned(sh.(owners := sh.owners - {u}), g) == Owned(sh, g) - {u};
    }
  }

  lemma LocksKeptByReturn(g: Goroutine, c: View)
    requires CanAct(c, Continue) && Nested(c.x.frames) && LocksOk(c.sh, g, c.x)
    requires c.x.frames.top.Call?
    ensures LocksOk(Act(g, c, Continue).sh, g, Act(g, c, Continue).x)
  {
    assert Owned(Act(g, c, Continue).sh, g) == Owned(c.sh, g);
    if c.x.frames.below.On? {
      assert FramesLocks(c.x.frames.below) == FrameLocks(c.x.frames.below.top) + FramesLocks(c.x.frames.below.below);
    }
  }

  lemma LocksKeptByEntry(g: Goroutine, c: View)
    requires CanAct(c, Continue) && LocksOk(c.sh, g, c.x) && FlightOk(c.sh, c.x)
    requires PopsOk(c.sh, g, c.x.frames) && (c.x.frames.top.Push? || c.x.frames.top.Pop?)
    ensures LocksOk(Act(g, c, Continue).sh, g, Act(g, c, Continue).x)
  {
    var f := c.x.frames.top;
    if f.Push? && f.push.Pushed? {
      OwnedCounts(c.sh, g, f.push.uuid);
    } else if f.Pop? && f.pop.Popped? && f.pinned {
      assert Finishing(c.x.frames, f.uuid);
      OwnedCounts(c.sh, g, f.uuid);
    } else {
      assert Owned(Act(g, c, Continue).sh, g) == Owned(c.sh, g);
    }
  }

  lemma LocksKept(g: Goroutine, c: View, a: Action)
    requires CanAct(c, a) && Nested(c.x.frames)
    requires LocksOk(c.sh, g, c.x) && FlightOk(c.sh, c.x) && PopsOk(c.sh, g, c.x.frames)
    ensures LocksOk(Act(g, c, a).sh, g, Act(g, c, a).x)
  {
    if a.Continue? && c.x.frames.top.Call? {
      LocksKeptByReturn(g, c);
    } else if a.Continue? && !c.x.frames.top.Run? {
      LocksKeptByEntry(g, c);
    } else {
      assert Owned(Act(g, c, a).sh, g) == Owned(c.sh, g);
    }
  }

  /** Only a native capture and a native restore change which captures are live. */
  lemma HeldKeptByReply(g: Goroutine, c: View, a: Action, h: CaptureId)
    requires CanAct(c, a) && a.NativeReturn? && HeldOk(c.sh, g, c.x)
    ensures FramesHeld(Act(g, c, a).x.frames, h) == if LiveFor(Act(g, c, a).sh, g, h) then 1 else 0
  {
    assert FramesHeld(c.x.frames, h) == if LiveFor(c.sh, g, h) then 1 else 0;
  }

  lemma HeldKeptByReturn(g: Goroutine, c: View, h: CaptureId)
    requires CanAct(c, Continue) && c.x.frames.top.Call? && Nested(c.x.frames)
    ensures FramesHeld(Act(g, c, Continue).x.frames, h) == FramesHeld(c.x.frames, h)
  {
    if c.x.frames.below.On? {
      assert FramesHeld(c.x.frames.below, h) >= FramesHeld(c.x.frames.below.below, h);
    }
  }

  lemma HeldKept(g: Goroutine, c: View, a: Action)
    requires CanAct(c, a) && Nested(c.x.frames) && HeldOk(c.sh, g, c.x)
    ensures HeldOk(Act(g, c, a).sh, g, Act(g, c, a).x)
  {
    forall h: CaptureId
      ensures FramesHeld(Act(g, c, a).x.frames, h) == if LiveFor(Act(g, c, a).sh, g, h) then 1 else 0
    {
      if a.NativeReturn? {
        HeldKeptByReply(g, c, a, h);
      } else {
        assert FramesHeld(c.x.frames, h) == if LiveFor(c.sh, g, h) then 1 else 0;
        if a.Continue? && c.x.frames.top.Call? { HeldKeptByReturn(g, c, h); }
      }
    }
  }

  // ----- Facts about frames -------------------------------------------------------------

  lemma {:induction false} FramesOkGrow(sh: Shared, sh': Shared, g: Goroutine, frames: Frames)
    requires FramesOk(sh, g, frames)
    requires forall f :: FrameOk(sh, g, f) ==> FrameOk(sh', g, f)
    ensures FramesOk(sh', g, frames)
  {
    match frames
    case Base =>
    case On(f, rest) => FramesOkGrow(sh, sh', g, rest);
  }

  /** No frame loses its ground: history grows, and only popped scopes lose their owner. */
  ghost predicate Grows(sh: Shared, sh': Shared, g: Goroutine) {
    && sh.managed <= sh'.managed && sh.popped <= sh'.popped && sh.looked <= sh'.looked
    && (forall u :: OwnedBy(sh, u, g) ==> OwnedBy(sh', u, g) || u in sh'.popped)
    && (forall h :: h in sh.captures ==> (h in sh'.captures && sh'.captures[h] == sh.captures[h]) || h in sh'.freed)
    && (forall h :: h in sh.freed ==> h in sh'.freed)
  }

  lemma ReplyGrows(g: Goroutine, c: View, a: Action, h: Goroutine)
    requires CanAct(c, a) && a.NativeReturn?
    ensures Grows(c.sh, Act(g, c, a).sh, h)
  {
    assert Act(g, c, a).sh == NativeShared(g, c, c.x.frames.top.op, a.outcome);
  }

  lemma ContinueGrows(g: Goroutine, c: View, h: Goroutine)
    requires CanAct(c, Continue) && PopsOk(c.sh, g, c.x.frames) && FlightOk(c.sh, c.x)
    ensures Grows(c.sh, Act(g, c, Continue).sh, h)
  {
  }

  lemma ActGrows(g: Goroutine, c: View, a: Action, h: Goroutine)
    requires CanAct(c, a) && PopsOk(c.sh, g, c.x.frames) && FlightOk(c.sh, c.x)
    ensures Grows(c.sh, Act(g, c, a).sh, h)
  {
    if a.NativeReturn? { ReplyGrows(g, c, a, h); } else if a.Continue? { ContinueGrows(g, c, h); }
  }

  lemma GrowsFrames(sh: Shared, sh': Shared, g: Goroutine, frames: Frames)
    requires Grows(sh, sh', g) && FramesOk(sh, g, frames)
    ensures FramesOk(sh', g, frames)
  {
    forall f | FrameOk(sh, g, f) ensures FrameOk(sh', g, f) {
      if f.Pop? {
        assert OwnedBy(sh, f.uuid, g) ==> OwnedBy(sh', f.uuid, g) || f.uuid in sh'.popped;
      }
    }
    FramesOkGrow(sh, sh', g, frames);
  }

  lemma PopsKeptByReply(g: Goroutine, c: View, a: Action)
    requires CanAct(c, a) && a.NativeReturn? && Nested(c.x.frames) && PopsOk(c.sh, g, c.x.frames) && StacksOk(c.sh)
    requires Grows(c.sh, Act(g, c, a).sh, g)
    ensures PopsOk(Act(g, c, a).sh, g, Act(g, c, a).x.frames)
  {
    var c' := Act(g, c, a);
    var op, below := c.x.frames.top.op, c.x.frames.below;
    GrowsFrames(c.sh, c'.sh, g, below);
    if op.PopNative? && a.outcome.Done? {
      assert FramesOk(c.sh, g, below);
      assert op.uuid !in c.sh.popped;
    }
  }

  lemma PopsKeptByReturn(g: Goroutine, c: View)
    requires CanAct(c, Continue) && c.x.frames.top.Call?
    requires Nested(c.x.frames) && PopsOk(c.sh, g, c.x.frames) && ErrorOk(c.x.frames, c.t) && MovedOk(c.sh, c.x.frames)
    ensures PopsOk(Act(g, c, Continue).sh, g, Act(g, c, Continue).x.frames)
  {
    var sh' := Act(g, c, Continue).sh;
    var frames := c.x.frames;
    GrowsFrames(c.sh, sh', g, frames);
    if frames.below.On? && frames.below.top.Pop? && frames.top.op.PopNative? && DoneCall(frames.top) {
      assert frames.below.top.pinned ==> Finishing(frames, frames.top.op.uuid);
    }
  }

  lemma PopsKept(g: Goroutine, c: View, a: Action)
    requires CanAct(c, a) && Nested(c.x.frames) && PopsOk(c.sh, g, c.x.frames) && FlightOk(c.sh, c.x)
    requires StacksOk(c.sh) && ErrorOk(c.x.frames, c.t) && MovedOk(c.sh, c.x.frames)
    ensures PopsOk(Act(g, c, a).sh, g, Act(g, c, a).x.frames)
  {
    ActGrows(g, c, a, g);
    if a.NativeReturn? {
      PopsKeptByReply(g, c, a);
    } else if a.Continue? && c.x.frames.top.Call? {
      PopsKeptByReturn(g, c);
    } else {
      GrowsFrames(c.sh, Act(g, c, a).sh, g, c.x.frames);
    }
  }

  lemma MovedKept(g: Goroutine, c: View, a: Action)
    requires CanAct(c, a) && Nested(c.x.frames) && MovedOk(c.sh, c.x.frames) && FramesOk(c.sh, g, c.x.frames)
    requires EntryOk(c.x.frames, c.t)
    ensures MovedOk(Act(g, c, a).sh, Act(g, c, a).x.frames)
  {
  }

  lemma FlightKept(g: Goroutine, c: View, a: Action)
    requires CanAct(c, a) && Nested(c.x.frames) && FlightOk(c.sh, c.x) && StacksOk(c.sh) && KnownScopes(c.sh)
    ensures FlightOk(Act(g, c, a).sh, Act(g, c, a).x)
  {
  }

  lemma HomeKept(g: Goroutine, c: View, a: Action)
    requires CanAct(c, a) && HomeOk(c.sh, g, c.x) && FlightOk(c.sh, c.x)
    ensures HomeOk(Act(g, c, a).sh, g, Act(g, c, a).x)
  {
    var c' := Act(g, c, a);
    forall u | OwnedBy(c'.sh, u, g) ensures u in c'.sh.home && c'.x.place == Some(c'.sh.home[u]) {
      assert OwnedBy(c.sh, u, g) || InFlight(c.x.frames) == Some(u);
    }
  }

  lemma ThreadKept(g: Goroutine, c: View, a: Action)
    requires CanAct(c, a) && Nested(c.x.frames) && ErrorOk(c.x.frames, c.t) && EntryOk(c.x.frames, c.t)
    requires MovedOk(c.sh, c.x.frames) && HeldOk(c.sh, g, c.x) && FreedOk(c.sh)
    ensures ErrorOk(Act(g, c, a).x.frames, Act(g, c, a).t)
    ensures EntryOk(Act(g, c, a).x.frames, Act(g, c, a).t)
  {
    if a.NativeReturn? && c.x.frames.top.op.Restore? {
      assert FramesHeld(c.x.frames, c.x.frames.top.op.handle) > 0;
    }
  }

  /** Who may pop: the owner, or a goroutine whose lookup met the scope in flight. */
  lemma PopJustified(g: Goroutine, c: View, a: Action)
    requires CanAct(c, a) && a.NativeReturn? && a.outcome.Done? && c.x.frames.top.op.PopNative?
    requires Nested(c.x.frames) && FramesOk(c.sh, g, c.x.frames) && StacksOk(c.sh)
    ensures var u := c.x.frames.top.op.uuid;
            u in c.sh.looked || u in c.sh.managed || (OwnedBy(c.sh, u, g) && c.x.frames.below.top.pinned)
  {
    assert FramesOk(c.sh, g, c.x.frames.below);
  }

  lemma SurvivalKept(g: Goroutine, c: View, a: Action)
    requires CanAct(c, a) && Nested(c.x.frames) && PopsOk(c.sh, g, c.x.frames) && StacksOk(c.sh)
    requires KnownScopes(c.sh) && FlightOk(c.sh, c.x) && SurvivalOk(c.sh, g, c.x)
    ensures SurvivalOk(Act(g, c, a).sh, g, Act(g, c, a).x)
  {
    var c' := Act(g, c, a);
    if a.NativeReturn? && a.outcome.Done? && c.x.frames.top.op.PopNative? {
      PopJustified(g, c, a);
    }
    forall u | OwnedBy(c'.sh, u, g) && u in c'.sh.popped && u !in c'.sh.looked ensures Finishing(c'.x.frames, u) {
      assert u in c.sh.popped && OwnedBy(c.sh, u, g) ==> Finishing(c.x.frames, u);
    }
  }

  // ----- Shared memory ------------------------------------------------------------------

  /** A native stack gains a scope that nobody has seen before. */
  lemma StackGrows(sh: Shared, sh': Shared, id: StackId, u: Uuid)
    requires StacksOk(sh) && FreshScope(sh, u)
    requires sh'.stacks == sh.stacks[id := StackAt(sh, id) + [u]] && sh'.popped == sh.popped
    requires (sh'.managed == sh.managed + {u} && sh'.home == sh.home)
             || (sh'.managed == sh.managed && sh'.home.Keys == sh.home.Keys + {u})
    ensures StacksOk(sh')
  {
    forall j, i | j in sh'.stacks && 0 <= i < |sh'.stacks[j]|
      ensures !FreshScope(sh', sh'.stacks[j][i]) && sh'.stacks[j][i] !in sh'.popped
      ensures sh'.stacks[j][i] == u || (j in sh.stacks && i < |sh.stacks[j]| && sh.stacks[j][i] == sh'.stacks[j][i])
      ensures sh'.stacks[j][i] == u ==> j == id && i == |StackAt(sh, id)|
    {
    }
  }

  /** A native stack loses its top. */
  lemma StackShrinks(sh: Shared, sh': Shared, id: StackId)
    requires StacksOk(sh) && StackAt(sh, id) != []
    requires var st := StackAt(sh, id);
             sh' == sh.(stacks := sh.stacks[id := st[..|st| - 1]], popped := sh.popped + {st[|st| - 1]})
    ensures StacksOk(sh')
  {
    var st := StackAt(sh, id);
    forall j, i | j in sh'.stacks && 0 <= i < |sh'.stacks[j]|
      ensures j in sh.stacks && i < |sh.stacks[j]| && sh.stacks[j][i] == sh'.stacks[j][i]
      ensures sh'.stacks[j][i] != st[|st| - 1]
    {
    }
  }

  lemma StacksKeptByReply(g: Goroutine, c: View, op: Op, outcome: Outcome)
    requires c.x.place.Some? && Possible(c, op, outcome) && StacksOk(c.sh)
    ensures StacksOk(NativeShared(g, c, op, outcome))
  {
    var id := c.t.binding.Current();
    if outcome.Done? && op.PushNative? {
      StackGrows(c.sh, NativeShared(g, c, op, outcome), id, outcome.value);
    } else if outcome.Done? && op.PopNative? {
      StackShrinks(c.sh, NativeShared(g, c, op, outcome), id);
    }
  }

  /** Both memories have the same scopes in the same places. */
  ghost predicate SameScopes(sh: Shared, sh': Shared) {
    sh'.stacks == sh.stacks && sh'.popped == sh.popped && sh'.managed == sh.managed && sh'.home == sh.home
  }

  lemma StacksLeftByContinue(g: Goroutine, c: View)
    requires CanAct(c, Continue)
    ensures SameScopes(c.sh, Act(g, c, Continue).sh)
  {
    match c.x.frames.top
    case Call(_, _) => assert Act(g, c, Continue) == ContinueCall(g, c);
    case Push(_) => assert Act(g, c, Continue) == ContinuePush(g, c);
    case Pop(_, _, _) => assert Act(g, c, Continue) == ContinuePop(c);
    case Run(_, _, _) => assert Act(g, c, Continue) == ContinueRun(c);
  }

  lemma StacksLeft(g: Goroutine, c: View, a: Action)
    requires CanAct(c, a) && !a.NativeReturn? && !a.ManagedPush?
    ensures SameScopes(c.sh, Act(g, c, a).sh)
  {
    if a.Continue? { StacksLeftByContinue(g, c); }
  }

  lemma StacksKept(g: Goroutine, c: View, a: Action)
    requires CanAct(c, a) && StacksOk(c.sh)
    ensures StacksOk(Act(g, c, a).sh)
  {
    var id := c.t.binding.Current();
    if a.ManagedPush? {
      StackGrows(c.sh, Act(g, c, a).sh, id, a.uuid);
    } else if a.NativeReturn? {
      StacksKeptByReply(g, c, c.x.frames.top.op, a.outcome);
    } else {
      StacksLeft(g, c, a);
    }
  }

  lemma SharedKept(g: Goroutine, c: View, a: Action)
    requires CanAct(c, a) && SharedOk(c.sh) && HeldOk(c.sh, g, c.x) && FlightOk(c.sh, c.x)
    requires FramesOk(c.sh, g, c.x.frames)
    ensures SharedOk(Act(g, c, a).sh)
  {
    StacksKept(g, c, a);
    var sh' := Act(g, c, a).sh;
    if a.NativeReturn? && c.x.frames.top.op.Restore? {
      assert FramesHeld(c.x.frames, c.x.frames.top.op.handle) > 0;
    }
    assert FreedOk(sh');
    assert ReportsOk(sh');
    assert KnownScopes(sh');
  }

  // ----- The other goroutines -----------------------------------------------------------

  /** A step of `g`, whose scope `flight` was in flight, leaves what belongs to others alone. */
  ghost predicate Beside(sh: Shared, sh': Shared, g: Goroutine, flight: Option<Uuid>) {
    && (forall u, h :: h != g ==> (OwnedBy(sh, u, h) <==> OwnedBy(sh', u, h)))
    && (forall u :: u in sh'.owners && u !in sh.owners ==> flight == Some(u))
    && (forall u :: u in sh.home ==> u in sh'.home && sh'.home[u] == sh.home[u])
    && (forall u :: u in sh'.popped && u !in sh.popped ==> u in sh.looked || u in sh.managed || OwnedBy(sh, u, g))
    && (forall k, h :: h != g ==> (LiveFor(sh, h, k) <==> LiveFor(sh', h, k)))
  }

  lemma ReplyBeside(g: Goroutine, c: View, a: Action)
    requires CanAct(c, a) && a.NativeReturn?
    requires Nested(c.x.frames) && FramesOk(c.sh, g, c.x.frames) && StacksOk(c.sh) && HeldOk(c.sh, g, c.x)
    ensures Beside(c.sh, Act(g, c, a).sh, g, InFlight(c.x.frames))
  {
    if a.outcome.Done? && c.x.frames.top.op.PopNative? {
      PopJustified(g, c, a);
    }
    if c.x.frames.top.op.Restore? {
      assert FramesHeld(c.x.frames, c.x.frames.top.op.handle) > 0;
    }
  }

  lemma ActBeside(g: Goroutine, c: View, a: Action)
    requires CanAct(c, a) && !a.NativeReturn? && PopsOk(c.sh, g, c.x.frames) && FlightOk(c.sh, c.x)
    ensures Beside(c.sh, Act(g, c, a).sh, g, InFlight(c.x.frames))
  {
    if a.Continue? && c.x.frames.top.Pop? {
      assert c.x.frames.top == Pop(c.x.frames.top.uuid, true, Popped) ==> Finishing(c.x.frames, c.x.frames.top.uuid);
    }
  }

  lemma OthersKept(sh: Shared, sh': Shared, g: Goroutine, flight: Option<Uuid>, h: Goroutine, y: GoroutineState)
    requires h != g && GoroutineOk(sh, h, y) && SharedOk(sh)
    requires Beside(sh, sh', g, flight) && Grows(sh, sh', h)
    requires InFlight(y.frames).Some? ==> InFlight(y.frames) != flight
    ensures GoroutineOk(sh', h, y)
  {
    assert Owned(sh, h) == Owned(sh', h) by {
      forall u ensures u in Owned(sh, h) <==> u in Owned(sh', h) {
        assert OwnedBy(sh, u, h) <==> OwnedBy(sh', u, h);
      }
    }
    assert HeldOk(sh', h, y);
    GrowsFrames(sh, sh', h, y.frames);
    assert PopsOk(sh', h, y.frames);
    assert MovedOk(sh', y.frames);
    assert FlightOk(sh', y);
    assert HomeOk(sh', h, y);
    assert SurvivalOk(sh', h, y);
  }

  // ----- Whole steps --------------------------------------------------------------------

  /** All that a step of one goroutine does, seen from that goroutine. */
  lemma ViewKept(g: Goroutine, c: View, a: Action)
    requires CanAct(c, a) && ViewOk(g, c)
    ensures ViewOk(g, Act(g, c, a))
    ensures Beside(c.sh, Act(g, c, a).sh, g, InFlight(c.x.frames))
  {
    ShapeKept(g, c, a);
    LocksKept(g, c, a);
    HeldKept(g, c, a);
    PopsKept(g, c, a);
    MovedKept(g, c, a);
    FlightKept(g, c, a);
    HomeKept(g, c, a);
    SurvivalKept(g, c, a);
    ThreadKept(g, c, a);
    SharedKept(g, c, a);
    if a.NativeReturn? { ReplyBeside(g, c, a); } else { ActBeside(g, c, a); }
  }

  /** What another goroutine owns is not affected. */
  lemma OwnedBeside(h: Goroutine, c: View, a: Action, u: Uuid, g: Goroutine)
    requires CanAct(c, a) && ViewOk(h, c) && h != g
    ensures OwnedBy(c.sh, u, g) <==> OwnedBy(Act(h, c, a).sh, u, g)
  {
    ViewKept(h, c, a);
  }

  lemma NewFlight(g: Goroutine, c: View, a: Action)
    requires CanAct(c, a) && Nested(c.x.frames)
    ensures Act(g, c, a).x.place == c.x.place
    ensures var u := InFlight(Act(g, c, a).x.frames);
            u.Some? ==> u == InFlight(c.x.frames) || u.value !in c.sh.home
  {
  }

  /** Steps of one goroutine keep the invariant of every other. */
  lemma OthersKeptByStep(s: State, g: Goroutine, a: Action, h: Goroutine)
    requires Inv(s) && Enabled(s, Step(g, a)) && h in s.goroutines && h != g
    requires Beside(s.shared, Apply(s, Step(g, a)).shared, g, InFlight(s.goroutines[g].frames))
    ensures GoroutineOk(Apply(s, Step(g, a)).shared, h, s.goroutines[h])
  {
    var c := ViewOf(s, g);
    ActGrows(g, c, a, h);
    OthersKept(s.shared, Act(g, c, a).sh, g, InFlight(c.x.frames), h, s.goroutines[h]);
  }

  lemma FlightsKept(s: State, g: Goroutine, a: Action)
    requires Enabled(s, Step(g, a)) && FlightsDistinct(s)
    requires forall h :: h in s.goroutines ==> FlightOk(s.shared, s.goroutines[h])
    requires Nested(s.goroutines[g].frames)
    ensures FlightsDistinct(Apply(s, Step(g, a)))
  {
    NewFlight(g, ViewOf(s, g), a);
  }

  lemma PlacedKept(s: State, g: Goroutine, a: Action)
    requires Enabled(s, Step(g, a)) && Placed(s) && Nested(s.goroutines[g].frames)
    ensures Placed(Apply(s, Step(g, a)))
  {
    NewFlight(g, ViewOf(s, g), a);
  }

  lemma KnownKept(s: State, s': State, g: Goroutine)
    requires KnownOwners(s) && g in s'.goroutines && s.goroutines.Keys <= s'.goroutines.Keys
    requires forall u, h :: h != g ==> (OwnedBy(s.shared, u, h) <==> OwnedBy(s'.shared, u, h))
    requires forall k, h :: h != g ==> (LiveFor(s.shared, h, k) <==> LiveFor(s'.shared, h, k))
    ensures KnownOwners(s')
  {
    forall u | u in s'.shared.owners ensures s'.shared.owners[u] in s'.goroutines {
      assert OwnedBy(s'.shared, u, s'.shared.owners[u]);
    }
    forall k | k in s'.shared.captures ensures s'.shared.captures[k].holder in s'.goroutines {
      assert LiveFor(s'.shared, s'.shared.captures[k].holder, k);
    }
  }

  lemma GoroutinesKept(s: State, g: Goroutine, a: Action)
    requires Inv(s) && Enabled(s, Step(g, a))
    requires Beside(s.shared, Apply(s, Step(g, a)).shared, g, InFlight(s.goroutines[g].frames))
    requires GoroutineOk(Apply(s, Step(g, a)).shared, g, Apply(s, Step(g, a)).goroutines[g])
    ensures GoroutinesOk(Apply(s, Step(g, a)))
  {
    var s' := Apply(s, Step(g, a));
    forall h | h in s'.goroutines ensures GoroutineOk(s'.shared, h, s'.goroutines[h]) {
      if h != g { OthersKeptByStep(s, g, a, h); }
    }
  }

  /** Threads are private: a step on one thread does not reach the goroutine of another. */
  lemma ThreadsKept(s: State, s': State, g: Goroutine, x: GoroutineState, t: ThreadState)
    requires Placed(s) && ThreadsOk(s) && Running(s, g) && x.place == s.goroutines[g].place
    requires s'.goroutines == s.goroutines[g := x] && s'.threads == s.threads[x.place.value := t]
    requires ErrorOk(x.frames, t) && EntryOk(x.frames, t)
    ensures ThreadsOk(s')
  {
    forall h | Running(s', h) ensures ThreadOk(s', h) {
      if h != g {
        assert Running(s, h) && ThreadOk(s, h);
      }
    }
  }

  lemma GoroutineStepKept(s: State, g: Goroutine, a: Action)
    requires Inv(s) && Enabled(s, Step(g, a))
    ensures Inv(Apply(s, Step(g, a)))
  {
    var s' := Apply(s, Step(g, a));
    var c' := Act(g, ViewOf(s, g), a);
    assert ThreadOk(s, g);
    ViewKept(g, ViewOf(s, g), a);
    NewFlight(g, ViewOf(s, g), a);
    FlightsKept(s, g, a);
    PlacedKept(s, g, a);
    KnownKept(s, s', g);
    GoroutinesKept(s, g, a);
    ThreadsKept(s, s', g, c'.x, c'.t);
  }

  // ----- Scheduler steps ----------------------------------------------------------------

  /** A goroutine that holds no lock has nothing that depends on its thread. */
  lemma UnlockedIsFree(sh: Shared, g: Goroutine, x: GoroutineState, place: Option<Thread>)
    requires GoroutineOk(sh, g, x) && x.depth == 0
    ensures GoroutineOk(sh, g, x.(place := place))
    ensures forall t :: ErrorOk(x.frames, t) && EntryOk(x.frames, t)
  {
    assert forall u :: OwnedBy(sh, u, g) ==> u in Owned(sh, g);
    assert InFlight(x.frames).None?;
  }

  lemma MoveKept(s: State, g: Goroutine, place: Option<Thread>)
    requires Inv(s) && g in s.goroutines && s.goroutines[g].depth == 0
    requires place.Some? ==> place.value in s.threads
    requires place.Some? ==> forall h :: h in s.goroutines ==> s.goroutines[h].place != place
    ensures Inv(s.(goroutines := s.goroutines[g := s.goroutines[g].(place := place)]))
  {
    var x := s.goroutines[g].(place := place);
    var s' := s.(goroutines := s.goroutines[g := x]);
    UnlockedIsFree(s.shared, g, s.goroutines[g], place);
    assert Placed(s');
    assert KnownOwners(s');
    assert FlightsDistinct(s');
    MovedGoroutines(s, g, x);
    MovedThreads(s, g, x);
  }

  lemma MovedGoroutines(s: State, g: Goroutine, x: GoroutineState)
    requires GoroutinesOk(s) && GoroutineOk(s.shared, g, x)
    ensures GoroutinesOk(s.(goroutines := s.goroutines[g := x]))
  {
  }

  lemma MovedThreads(s: State, g: Goroutine, x: GoroutineState)
    requires ThreadsOk(s) && forall t :: ErrorOk(x.frames, t) && EntryOk(x.frames, t)
    ensures ThreadsOk(s.(goroutines := s.goroutines[g := x]))
  {
    var s' := s.(goroutines := s.goroutines[g := x]);
    forall h | Running(s', h) ensures ThreadOk(s', h) {
      if h != g { assert ThreadOk(s, h); }
    }
  }

  lemma SpawnKept(s: State, g: Goroutine)
    requires Inv(s) && g !in s.goroutines
    ensures Inv(Apply(s, Spawn(g)))
  {
    var s' := Apply(s, Spawn(g));
    var x := s'.goroutines[g];
    assert Owned(s.shared, g) == {};
    assert GoroutineOk(s.shared, g, x);
    assert FlightsDistinct(s');
    forall h | Running(s', h) ensures ThreadOk(s', h) {
      assert ThreadOk(s, h);
    }
  }

  lemma StepKept(s: State, l: Label)
    requires Inv(s) && Enabled(s, l)
    ensures Inv(Apply(s, l))
  {
    match l
    case Spawn(g) => SpawnKept(s, g);
    case Schedule(g, t) => MoveKept(s, g, Some(t));
    case Deschedule(g) => MoveKept(s, g, None);
    case Step(g, a) => GoroutineStepKept(s, g, a);
  }
}
