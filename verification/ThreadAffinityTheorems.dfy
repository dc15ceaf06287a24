/** What the thread-affinity protocol guarantees over whole runs. */
module ThreadAffinityTheorems {
  import opened Prelude
  import opened ThreadAffinity
  import opened ThreadAffinityInvariant
  import opened ThreadAffinitySteps

  lemma {:induction false} RunKeepsInv(s: State, ls: seq<Label>)
    requires Inv(s) && IsRun(s, ls)
    ensures Inv(After(s, ls))
    decreases |ls|
  {
    if ls != [] {
      StepKept(s, ls[0]);
      RunKeepsInv(Apply(s, ls[0]), ls[1..]);
    }
  }

  lemma ReachableInv(s: State, ls: seq<Label>)
    requires Init(s) && IsRun(s, ls)
    ensures Inv(After(s, ls))
  {
    RunKeepsInv(s, ls);
  }

  // ----- Lock conservation and error attribution ----------------------------------------

  /**
   In every reachable state the lock depth of a goroutine is the number of its entries in
   `scopeOwners` plus one for each push in flight, half-done release, open `Run` and open call;
   and a goroutine with any of these is on a thread of its own.
   */
  lemma LockConservation(s: State, ls: seq<Label>, g: Goroutine)
    requires Init(s) && IsRun(s, ls) && g in After(s, ls).goroutines
    ensures var s' := After(s, ls);
            && s'.goroutines[g].depth == FramesLocks(s'.goroutines[g].frames) + |Owned(s'.shared, g)|
            && (s'.goroutines[g].depth > 0 ==> Running(s', g))
            && (forall h :: h in s'.goroutines && h != g && Running(s', g)
                            ==> s'.goroutines[h].place != s'.goroutines[g].place)
  {
    ReachableInv(s, ls);
    assert GoroutineOk(After(s, ls).shared, g, After(s, ls).goroutines[g]);
  }

  // ----- Error attribution --------------------------------------------------------------

  /** The messages with which native code answered the failed calls of `g`, in order. */
  ghost function Failures(ls: seq<Label>, g: Goroutine): seq<Option<Message>> {
    if ls == [] then [] else Failure(ls[0], g) + Failures(ls[1..], g)
  }

  ghost function Failure(l: Label, g: Goroutine): seq<Option<Message>> {
    if l.Step? && l.g == g && l.action.NativeReturn? && l.action.outcome.Failed? then [l.action.outcome.wrote] else []
  }

  /** The error messages that calls of `g` have handed to their callers, in order. */
  ghost function Errors(reports: seq<Report>, g: Goroutine): seq<Option<Message>> {
    if reports == [] then []
    else
      var last := reports[|reports| - 1];
      Errors(reports[..|reports| - 1], g) + if last.caller == g then [last.read] else []
  }

  /** The message of a failed call that is not handed to its caller yet. */
  ghost function Unread(frames: Frames): seq<Option<Message>> {
    if frames.On? && frames.top.Call? && frames.top.call.Returned? && frames.top.call.outcome.Failed?
    then [frames.top.call.outcome.wrote]
    else if frames.On? && frames.top.Call? && frames.top.call.Reported? then [frames.top.call.wrote]
    else []
  }

  /** All messages that have reached `g` so far. */
  ghost function Reached(s: State, g: Goroutine): seq<Option<Message>> {
    Errors(s.shared.reports, g) + if g in s.goroutines then Unread(s.goroutines[g].frames) else []
  }

  lemma ErrorsGrow(reports: seq<Report>, r: Report, g: Goroutine)
    ensures Errors(reports + [r], g) == Errors(reports, g) + if r.caller == g then [r.read] else []
  {
    assert (reports + [r])[..|reports|] == reports;
  }

  lemma ReachedByReport(g: Goroutine, c: View)
    requires CanAct(c, Continue) && Nested(c.x.frames) && FramesOk(c.sh, g, c.x.frames)
    requires c.x.frames.top.Call? && c.x.frames.top.call.Reported?
    ensures Errors(Act(g, c, Continue).sh.reports, g) + Unread(Act(g, c, Continue).x.frames)
         == Errors(c.sh.reports, g) + Unread(c.x.frames)
  {
    var Call(op, Reported(w, r)) := c.x.frames.top;
    ErrorsGrow(c.sh.reports, Report(g, w, r), g);
    assert Unread(Act(g, c, Continue).x.frames) == [] && w == r;
  }

  lemma NothingByCall(g: Goroutine, c: View)
    requires CanAct(c, Continue) && Nested(c.x.frames) && c.x.frames.top.Call? && !c.x.frames.top.call.Reported?
    ensures Act(g, c, Continue).sh.reports == c.sh.reports
    ensures Unread(Act(g, c, Continue).x.frames) == Unread(c.x.frames)
  {
  }

  lemma NothingByOthers(g: Goroutine, c: View)
    requires CanAct(c, Continue) && Nested(c.x.frames) && !c.x.frames.top.Call?
    ensures Act(g, c, Continue).sh.reports == c.sh.reports
    ensures Unread(Act(g, c, Continue).x.frames) == Unread(c.x.frames)
  {
  }

  lemma NothingReported(g: Goroutine, c: View, a: Action)
    requires CanAct(c, a) && Nested(c.x.frames)
    requires !(a.Continue? && c.x.frames.top.Call? && c.x.frames.top.call.Reported?)
    ensures Act(g, c, a).sh.reports == c.sh.reports
    ensures Unread(Act(g, c, a).x.frames) == Unread(c.x.frames) + Failure(Step(g, a), g)
  {
    if a.Continue? {
      if c.x.frames.top.Call? { NothingByCall(g, c); } else { NothingByOthers(g, c); }
    }
  }

  /** In any state at all, a native call starts with no error on its thread, and the error is read from the thread. */
  lemma ErrorIsOfTheThread(g: Goroutine, c: View)
    requires CanAct(c, Continue) && c.x.frames.top.Call?
    ensures c.x.frames.top.call.Locked? ==> Act(g, c, Continue).t.lastError == None
    ensures c.x.frames.top.call.Returned? && c.x.frames.top.call.outcome.Failed? ==>
              var top := Act(g, c, Continue).x.frames.top;
              top.Call? && top.call.Reported? && top.call.read == c.t.lastError
  {
  }

  /** A native call outside `callStatus` can leave any message there. */
  lemma UnguardedOverwrites(g: Goroutine, c: View, left: Option<Message>)
    requires CanAct(c, UnguardedNative(left))
    ensures Act(g, c, UnguardedNative(left)).t.lastError == left
  {
  }

  /** A step of `g` passes on the message of its own native reply, and no other. */
  lemma ReachedByStep(g: Goroutine, c: View, a: Action)
    requires CanAct(c, a) && Nested(c.x.frames) && FramesOk(c.sh, g, c.x.frames)
    ensures Errors(Act(g, c, a).sh.reports, g) + Unread(Act(g, c, a).x.frames)
         == Errors(c.sh.reports, g) + Unread(c.x.frames) + Failure(Step(g, a), g)
  {
    if a.Continue? && c.x.frames.top.Call? && c.x.frames.top.call.Reported? {
      ReachedByReport(g, c);
    } else {
      NothingReported(g, c, a);
    }
  }

  lemma ReportsBeside(h: Goroutine, c: View, a: Action, g: Goroutine)
    requires CanAct(c, a) && h != g
    ensures Errors(Act(h, c, a).sh.reports, g) == Errors(c.sh.reports, g)
  {
    if a.Continue? && c.x.frames.top.Call? && c.x.frames.top.call.Reported? {
      ErrorsGrow(c.sh.reports, Report(h, c.x.frames.top.call.wrote, c.x.frames.top.call.read), g);
    } else {
      assert Act(h, c, a).sh.reports == c.sh.reports;
    }
  }

  lemma ReachedByOwn(s: State, a: Action, g: Goroutine)
    requires Inv(s) && Enabled(s, Step(g, a))
    ensures Reached(Apply(s, Step(g, a)), g) == Reached(s, g) + Failure(Step(g, a), g)
  {
    assert Nested(s.goroutines[g].frames) && FramesOk(s.shared, g, s.goroutines[g].frames) by {
      assert GoroutineOk(s.shared, g, s.goroutines[g]);
    }
    ReachedByStep(g, ViewOf(s, g), a);
  }

  lemma ReachedAfter(s: State, l: Label, g: Goroutine)
    requires Inv(s) && Enabled(s, l)
    ensures Reached(Apply(s, l), g) == Reached(s, g) + Failure(l, g)
  {
    if l.Step? && l.g == g {
      ReachedByOwn(s, l.action, g);
    } else if l.Step? {
      ReportsBeside(l.g, ViewOf(s, l.g), l.action, g);
    }
  }

  lemma Regroup<T>(a: seq<T>, b: seq<T>, c: seq<T>)
    ensures a + b + c == a + (b + c)
  {
  }

  lemma {:induction false} ReachedInRun(s: State, ls: seq<Label>, g: Goroutine)
    requires Inv(s) && IsRun(s, ls)
    ensures Reached(After(s, ls), g) == Reached(s, g) + Failures(ls, g)
    decreases |ls|
  {
    if ls != [] {
      StepKept(s, ls[0]);
      ReachedAfter(s, ls[0], g);
      ReachedInRun(Apply(s, ls[0]), ls[1..], g);
      Regroup(Reached(s, g), Failure(ls[0], g), Failures(ls[1..], g));
    }
  }

  /**
   In every run, whatever other goroutines and callbacks did meanwhile, the errors that the calls of
   a goroutine have handed to their callers are exactly, and in this order, the messages with which
   native code answered its own failed calls, but for the one that is just being read.
   */
  lemma ErrorAttribution(s: State, ls: seq<Label>, g: Goroutine)
    requires Init(s) && IsRun(s, ls)
    ensures var s' := After(s, ls);
            Errors(s'.shared.reports, g) + (if g in s'.goroutines then Unread(s'.goroutines[g].frames) else [])
              == Failures(ls, g)
  {
    ReachedInRun(s, ls, g);
  }

  // ----- Scope affinity -----------------------------------------------------------------

  /** `u` was released, or never belonged to a push: it can no longer get an owner. */
  ghost predicate Retired(s: State, u: Uuid) {
    && u in s.shared.home && u !in s.shared.owners
    && forall g :: g in s.goroutines ==> InFlight(s.goroutines[g].frames) != Some(u)
  }

  lemma ReplyKeepsOwners(g: Goroutine, c: View, a: Action)
    requires CanAct(c, a) && a.NativeReturn?
    ensures Act(g, c, a).sh.owners == c.sh.owners
  {
  }

  /** The only step that takes an entry out of `scopeOwners` is `releaseScope`. */
  lemma EntryLeaves(g: Goroutine, c: View, a: Action, u: Uuid)
    requires CanAct(c, a) && u in c.sh.owners && FlightOk(c.sh, c.x)
    ensures (u in Act(g, c, a).sh.owners && Act(g, c, a).sh.owners[u] == c.sh.owners[u])
            || (u !in Act(g, c, a).sh.owners && a.Continue? && c.x.frames.top == Pop(u, true, Popped)
                && Act(g, c, a).x.frames == On(Pop(u, true, Released), c.x.frames.below))
    ensures u in c.sh.home ==> u in Act(g, c, a).sh.home && Act(g, c, a).sh.home[u] == c.sh.home[u]
  {
    if a.NativeReturn? { ReplyKeepsOwners(g, c, a); }
  }

  lemma OwnedIsLanded(s: State, u: Uuid, g: Goroutine)
    requires Inv(s) && u in s.shared.owners && g in s.goroutines
    ensures InFlight(s.goroutines[g].frames) != Some(u)
  {
    assert GoroutineOk(s.shared, g, s.goroutines[g]);
  }

  /** Only the owner of a scope gets as far as `releaseScope`. */
  lemma ReleaserOwns(s: State, g: Goroutine, u: Uuid)
    requires Inv(s) && g in s.goroutines && s.goroutines[g].frames.On?
    requires s.goroutines[g].frames.top == Pop(u, true, Popped)
    ensures OwnedBy(s.shared, u, g)
  {
    assert GoroutineOk(s.shared, g, s.goroutines[g]);
    assert Finishing(s.goroutines[g].frames, u);
  }

  /** `g` releases `u`: when the entry is gone, nobody is about to claim the scope. */
  lemma ReleaseRetires(s: State, g: Goroutine, u: Uuid, c': View, t: Thread)
    requires Inv(s) && g in s.goroutines && u in s.shared.owners && u !in c'.sh.owners && u in c'.sh.home
    requires s.goroutines[g].frames.On? && s.goroutines[g].frames.top == Pop(u, true, Popped)
    requires c'.x.frames == On(Pop(u, true, Released), s.goroutines[g].frames.below)
    ensures s.shared.owners[u] == g && Retired(State(s.goroutines[g := c'.x], s.threads[t := c'.t], c'.sh), u)
  {
    ReleaserOwns(s, g, u);
    forall h | h in s.goroutines ensures InFlight(s.goroutines[h].frames) != Some(u) {
      OwnedIsLanded(s, u, h);
    }
  }

  /** A step of anybody but the owner leaves an entry of `scopeOwners` as it is. */
  lemma OnlyOwnerReleases(s: State, l: Label, u: Uuid)
    requires Inv(s) && Enabled(s, l) && u in s.shared.owners
    ensures (u in Apply(s, l).shared.owners && Apply(s, l).shared.owners[u] == s.shared.owners[u])
            || (l.Step? && l.g == s.shared.owners[u] && l.action.Continue?
                && s.goroutines[l.g].frames.top == Pop(u, true, Popped) && Retired(Apply(s, l), u))
    ensures u in Apply(s, l).shared.home && Apply(s, l).shared.home[u] == s.shared.home[u]
  {
    if l.Step? {
      var x := s.goroutines[l.g];
      assert FlightOk(s.shared, x) by { assert GoroutineOk(s.shared, l.g, x); }
      EntryLeaves(l.g, ViewOf(s, l.g), l.action, u);
      var c' := Act(l.g, ViewOf(s, l.g), l.action);
      if u !in c'.sh.owners { ReleaseRetires(s, l.g, u, c', x.place.value); }
    }
  }

  /** In particular, `PopScope` of a scope that another goroutine owns changes nothing at all. */
  lemma ForeignPopRefused(s: State, g: Goroutine, u: Uuid)
    requires Enabled(s, Step(g, BeginPop(u))) && u in s.shared.owners && s.shared.owners[u] != g
    ensures Apply(s, Step(g, BeginPop(u))) == s
  {
    assert s.goroutines[g := s.goroutines[g]] == s.goroutines;
  }

  lemma RetiredStays(s: State, l: Label, u: Uuid)
    requires Inv(s) && Enabled(s, l) && Retired(s, u)
    ensures Retired(Apply(s, l), u)
  {
    if l.Step? {
      assert ThreadOk(s, l.g);
      assert GoroutineOk(s.shared, l.g, s.goroutines[l.g]);
      ViewKept(l.g, ViewOf(s, l.g), l.action);
      NewFlight(l.g, ViewOf(s, l.g), l.action);
    }
  }

  lemma {:induction false} RetiredForever(s: State, ls: seq<Label>, u: Uuid)
    requires Inv(s) && IsRun(s, ls) && Retired(s, u)
    ensures Retired(After(s, ls), u)
    decreases |ls|
  {
    if ls != [] {
      StepKept(s, ls[0]);
      RetiredStays(s, ls[0], u);
      RetiredForever(Apply(s, ls[0]), ls[1..], u);
    }
  }

  /**
   From `claimScope` to `releaseScope` a scope has one owner, and that goroutine stays on the
   thread it pushed the scope on, whatever else happens; a released scope is never owned again.
   */
  lemma {:induction false} ScopeAffinity(s: State, ls: seq<Label>, u: Uuid)
    requires Inv(s) && IsRun(s, ls) && u in s.shared.owners
    ensures var s' := After(s, ls);
            u in s'.shared.owners ==>
              && s'.shared.owners[u] == s.shared.owners[u]
              && Running(s', s'.shared.owners[u])
              && s'.goroutines[s'.shared.owners[u]].place == s.goroutines[s.shared.owners[u]].place
              && s'.goroutines[s'.shared.owners[u]].place == Some(s.shared.home[u])
    decreases |ls|
  {
    var g := s.shared.owners[u];
    assert OwnedBy(s.shared, u, g);
    assert GoroutineOk(s.shared, g, s.goroutines[g]);
    if ls != [] {
      StepKept(s, ls[0]);
      OnlyOwnerReleases(s, ls[0], u);
      if u in Apply(s, ls[0]).shared.owners {
        ScopeAffinity(Apply(s, ls[0]), ls[1..], u);
        assert GoroutineOk(Apply(s, ls[0]).shared, g, Apply(s, ls[0]).goroutines[g]);
      } else {
        RetiredForever(Apply(s, ls[0]), ls[1..], u);
      }
    }
  }
}
