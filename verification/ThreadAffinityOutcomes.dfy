/**
 What a push or a pop does to the locks and the entries of its caller: nothing if its native call
 failed, and exactly one lock with one entry of `scopeOwners` if it succeeded.
 */
module ThreadAffinityOutcomes {
  import opened Prelude
  import opened ThreadAffinity
  import opened ThreadAffinityInvariant
  import opened ThreadAffinitySteps
  import opened ThreadAffinityTheorems
  import opened ThreadAffinityRun

  // ----- Where entries come from --------------------------------------------------------

  lemma Claims(g: Goroutine, c: View, a: Action, u: Uuid)
    requires CanAct(c, a) && u !in c.sh.owners && u in Act(g, c, a).sh.owners
    ensures a.Continue? && c.x.frames.top == Push(Pushed(u)) && Act(g, c, a).sh.owners[u] == g
  {
    if a.NativeReturn? { ReplyKeepsOwners(g, c, a); }
  }

  /** An entry of `scopeOwners` comes only by the claim of a scope whose native push succeeded. */
  lemma EntryComes(s: State, l: Label, u: Uuid)
    requires Inv(s) && Enabled(s, l) && u !in s.shared.owners && u in Apply(s, l).shared.owners
    ensures l == Step(Apply(s, l).shared.owners[u], Continue) && s.goroutines[l.g].frames.top == Push(Pushed(u))
    ensures u in s.shared.home && s.goroutines[l.g].place == Some(s.shared.home[u])
  {
    Claims(l.g, ViewOf(s, l.g), l.action, u);
    assert FlightOk(s.shared, s.goroutines[l.g]) by { assert GoroutineOk(s.shared, l.g, s.goroutines[l.g]); }
  }

  // ----- Operations without callbacks ---------------------------------------------------

  /** `g` starts nothing of its own: native code does not call back, and a `Run` has an empty body. */
  ghost predicate Quiet(ls: seq<Label>, g: Goroutine) {
    forall i :: 0 <= i < |ls| && ls[i].Step? && ls[i].g == g ==>
      ls[i].action.Continue? || ls[i].action.NativeReturn? || ls[i].action.EndBody?
  }

  /** What native code replied to `g`. */
  ghost function Replies(ls: seq<Label>, g: Goroutine): seq<Outcome> {
    if ls == [] then []
    else (if ls[0].Step? && ls[0].g == g && ls[0].action.NativeReturn? then [ls[0].action.outcome]
          else []) + Replies(ls[1..], g)
  }

  /** The scopes that `g` owns after the native call `op` replied `o`. */
  ghost function Effect(op: Op, pinned: bool, o: Outcome, owned: set<Uuid>): set<Uuid> {
    if o.Failed? then owned
    else if op.PushNative? then owned + {o.value}
    else if op.PopNative? && pinned then owned - {op.uuid}
    else owned
  }

  predicate ScopeOp(op: Op) {
    op.PushNative? || op.PopNative?
  }

  function Waiting(op: Op, pinned: bool): Frame
    requires ScopeOp(op)
  {
    if op.PushNative? then Push(Pinned) else Pop(op.uuid, pinned, Checked)
  }

  /** The operation runs on top of `base`, native code has replied `o`, and `now` is what `g` owns. */
  ghost predicate Working(frames: Frames, base: Frames, op: Op, pinned: bool, o: Option<Outcome>, owned: set<Uuid>,
                          now: set<Uuid>)
    requires ScopeOp(op)
  {
    var start := On(Waiting(op, pinned), base);
    frames.On? &&
    match o
    case None => now == owned && (frames == start || frames == On(Call(op, Locked), start) ||
                                  frames == On(Call(op, InNative), start))
    case Some(reply) =>
      if frames.top.Call? then
        && now == owned && frames.below == start && frames.top.op == op
        && (frames.top.call == Returned(reply) || (frames.top.call.Reported? && reply.Failed?))
      else
        && frames.below == base
        && if op.PushNative?
           then now == owned && frames.top == Push(if reply.Done? then Pushed(reply.value) else PushFailed)
           else
             && reply.Done?
             && ((frames.top == Pop(op.uuid, pinned, Popped) && now == owned)
                 || (frames.top == Pop(op.uuid, true, Released) && pinned && now == owned - {op.uuid}))
  }

  ghost function Next(a: Action, o: Option<Outcome>): Option<Outcome> {
    if a.NativeReturn? then Some(a.outcome) else o
  }

  lemma WorkingStep(g: Goroutine, c: View, a: Action, base: Frames, op: Op, pinned: bool, o: Option<Outcome>,
                    owned: set<Uuid>)
    requires CanAct(c, a) && (a.Continue? || a.NativeReturn? || a.EndBody?) && ScopeOp(op)
    requires Working(c.x.frames, base, op, pinned, o, owned, Owned(c.sh, g)) && FlightOk(c.sh, c.x)
    ensures a.NativeReturn? ==> o.None?
    ensures var c' := Act(g, c, a);
            || Working(c'.x.frames, base, op, pinned, Next(a, o), owned, Owned(c'.sh, g))
            || (&& c'.x.frames == base && o.Some? && !a.NativeReturn?
                && Owned(c'.sh, g) == Effect(op, pinned, o.value, owned)
                && (op.PushNative? && o.value.Done? ==> o.value.value !in owned))
  {
    var c' := Act(g, c, a);
    if op.PopNative? && pinned && c.x.frames.top == Pop(op.uuid, true, Popped) {
      assert Owned(c'.sh, g) == Owned(c.sh, g) - {op.uuid};
    } else if op.PushNative? && o.Some? && o.value.Done? && c.x.frames.top == Push(Pushed(o.value.value)) {
      assert Owned(c'.sh, g) == Owned(c.sh, g) + {o.value.value};
    } else {
      assert Owned(c'.sh, g) == Owned(c.sh, g);
    }
  }

  /** What a goroutine owns changes in its own steps only. */
  lemma OwnedAlone(s: State, l: Label, g: Goroutine)
    requires Inv(s) && Enabled(s, l) && g in s.goroutines && !(l.Step? && l.g == g)
    ensures Owned(Apply(s, l).shared, g) == Owned(s.shared, g)
    ensures g in Apply(s, l).goroutines && Apply(s, l).goroutines[g].frames == s.goroutines[g].frames
  {
    if l.Step? {
      assert GoroutineOk(s.shared, l.g, s.goroutines[l.g]) && ThreadOk(s, l.g);
      forall u ensures u in Owned(Apply(s, l).shared, g) <==> u in Owned(s.shared, g) {
        OwnedBeside(l.g, ViewOf(s, l.g), l.action, u, g);
      }
    }
  }

  ghost function Told(o: Option<Outcome>): seq<Outcome> {
    if o.Some? then [o.value] else []
  }

  lemma {:induction false} WorkingHeight(frames: Frames, base: Frames, op: Op, pinned: bool, o: Option<Outcome>,
                                         owned: set<Uuid>, now: set<Uuid>)
    requires ScopeOp(op) && Working(frames, base, op, pinned, o, owned, now)
    ensures Height(frames) > Height(base)
  {
    assert Height(On(Waiting(op, pinned), base)) == 1 + Height(base);
  }

  lemma QuietRest(ls: seq<Label>, g: Goroutine)
    requires ls != [] && Quiet(ls, g)
    ensures Quiet(ls[1..], g)
  {
  }

  lemma RepliesGrow(ls: seq<Label>, g: Goroutine, o: Option<Outcome>)
    requires ls != [] && ls[0].Step? && ls[0].g == g && (ls[0].action.NativeReturn? ==> o.None?)
    ensures Told(o) + Replies(ls, g) == Told(Next(ls[0].action, o)) + Replies(ls[1..], g)
  {
  }

  /** The operation is over, and `g` owns what the reply implies. */
  ghost predicate Settled(frames: Frames, base: Frames, op: Op, pinned: bool, o: Option<Outcome>, owned: set<Uuid>,
                          now: set<Uuid>) {
    && frames == base && o.Some? && now == Effect(op, pinned, o.value, owned)
    && (op.PushNative? && o.value.Done? ==> o.value.value !in owned)
  }

  lemma OwnStep(s: State, g: Goroutine, a: Action, base: Frames, op: Op, pinned: bool, o: Option<Outcome>,
                owned: set<Uuid>)
    requires Inv(s) && Enabled(s, Step(g, a)) && (a.Continue? || a.NativeReturn? || a.EndBody?) && ScopeOp(op)
    requires Working(s.goroutines[g].frames, base, op, pinned, o, owned, Owned(s.shared, g))
    ensures a.NativeReturn? ==> o.None?
    ensures var s' := Apply(s, Step(g, a));
            || Working(s'.goroutines[g].frames, base, op, pinned, Next(a, o), owned, Owned(s'.shared, g))
            || (!a.NativeReturn? && Settled(s'.goroutines[g].frames, base, op, pinned, o, owned, Owned(s'.shared, g)))
  {
    assert FlightOk(s.shared, s.goroutines[g]) by { assert GoroutineOk(s.shared, g, s.goroutines[g]); }
    WorkingStep(g, ViewOf(s, g), a, base, op, pinned, o, owned);
  }

  lemma {:induction false} WorkingRun(s: State, ls: seq<Label>, g: Goroutine, base: Frames, op: Op, pinned: bool,
                                      o: Option<Outcome>, owned: set<Uuid>)
    requires Inv(s) && IsRun(s, ls) && UntilExit(s, ls, g, base) && Quiet(ls, g) && ScopeOp(op)
    requires Working(s.goroutines[g].frames, base, op, pinned, o, owned, Owned(s.shared, g))
    ensures g in After(s, ls).goroutines && |Told(o) + Replies(ls, g)| == 1
    ensures Settled(After(s, ls).goroutines[g].frames, base, op, pinned, Some((Told(o) + Replies(ls, g))[0]), owned,
                    Owned(After(s, ls).shared, g))
    decreases |ls|
  {
    WorkingHeight(s.goroutines[g].frames, base, op, pinned, o, owned, Owned(s.shared, g));
    var l, rest := ls[0], ls[1..];
    var s' := Apply(s, l);
    StepKept(s, l);
    QuietRest(ls, g);
    if l.Step? && l.g == g {
      OwnStep(s, g, l.action, base, op, pinned, o, owned);
      if Working(s'.goroutines[g].frames, base, op, pinned, Next(l.action, o), owned, Owned(s'.shared, g)) {
        WorkingRun(s', rest, g, base, op, pinned, Next(l.action, o), owned);
        RepliesGrow(ls, g, o);
      } else {
        assert rest == [] && Replies(ls, g) == [];
      }
    } else {
      OwnedAlone(s, l, g);
      WorkingRun(s', rest, g, base, op, pinned, o, owned);
      assert Replies(ls, g) == Replies(rest, g);
    }
  }

  /** The first step of a push or a pop. */
  function Begin(op: Op): Action
    requires ScopeOp(op)
  {
    if op.PushNative? then BeginPush else BeginPop(op.uuid)
  }

  lemma Begun(s: State, g: Goroutine, op: Op)
    requires ScopeOp(op) && Enabled(s, Step(g, Begin(op))) && (op.PopNative? ==> !Foreign(s.shared, op.uuid, g))
    ensures var s1 := Apply(s, Step(g, Begin(op)));
            var pinned := op.PopNative? && op.uuid in s.shared.owners;
            Working(s1.goroutines[g].frames, s.goroutines[g].frames, op, pinned, None, Owned(s.shared, g),
                    Owned(s1.shared, g))
  {
    var s1 := Apply(s, Step(g, Begin(op)));
    assert Owned(s1.shared, g) == Owned(s.shared, g);
  }

  /** `s1` is `s` with the operation begun. */
  lemma ScopeOutcome(s: State, s1: State, g: Goroutine, op: Op, pinned: bool, ls: seq<Label>)
    requires Inv(s) && Inv(s1) && ScopeOp(op) && g in s.goroutines && g in s1.goroutines
    requires Working(s1.goroutines[g].frames, s.goroutines[g].frames, op, pinned, None, Owned(s.shared, g),
                     Owned(s1.shared, g))
    requires IsRun(s1, ls) && UntilExit(s1, ls, g, s.goroutines[g].frames) && Quiet(ls, g)
    ensures var s' := After(s1, ls);
            && |Replies(ls, g)| == 1 && g in s'.goroutines
            && Settled(s'.goroutines[g].frames, s.goroutines[g].frames, op, pinned, Some(Replies(ls, g)[0]),
                       Owned(s.shared, g), Owned(s'.shared, g))
            && s'.goroutines[g].depth - |Owned(s'.shared, g)| == s.goroutines[g].depth - |Owned(s.shared, g)|
  {
    WorkingRun(s1, ls, g, s.goroutines[g].frames, op, pinned, None, Owned(s.shared, g));
    assert Told(None) + Replies(ls, g) == Replies(ls, g);
    RunKeepsInv(s1, ls);
    SameFramesSameAccount(s, After(s1, ls), g);
  }

  lemma SizeAfter(op: Op, pinned: bool, o: Outcome, owned: set<Uuid>)
    ensures op.PushNative? && o.Done? && o.value !in owned ==> |Effect(op, pinned, o, owned)| == |owned| + 1
    ensures op.PopNative? && o.Done? && pinned && op.uuid in owned ==> |Effect(op, pinned, o, owned)| == |owned| - 1
  {
  }

  /**
   `PushScope` without callbacks gets one native reply. If it is a failure, the goroutine has the
   locks and scopes it had; if it is a new scope, exactly one lock and that scope more.
   */
  lemma PushOutcome(s: State, g: Goroutine, ls: seq<Label>)
    requires Inv(s) && Enabled(s, Step(g, BeginPush)) && Quiet(ls, g)
    requires var s1 := Apply(s, Step(g, BeginPush)); IsRun(s1, ls) && UntilExit(s1, ls, g, s.goroutines[g].frames)
    ensures var s' := After(Apply(s, Step(g, BeginPush)), ls);
            && |Replies(ls, g)| == 1 && g in s'.goroutines
            && var reply := Replies(ls, g)[0];
            && Owned(s'.shared, g) == (if reply.Done? then Owned(s.shared, g) + {reply.value} else Owned(s.shared, g))
            && s'.goroutines[g].depth == s.goroutines[g].depth + if reply.Done? then 1 else 0
  {
    StepKept(s, Step(g, BeginPush));
    Begun(s, g, PushNative);
    ScopeOutcome(s, Apply(s, Step(g, BeginPush)), g, PushNative, false, ls);
    SizeAfter(PushNative, false, Replies(ls, g)[0], Owned(s.shared, g));
  }

  /**
   `PopScope` without callbacks, of a scope that nobody else owns, gets one native reply. The lock and
   the entry of the scope go exactly if the reply is a success and the goroutine owned the scope.
   */
  lemma PopOutcome(s: State, g: Goroutine, u: Uuid, ls: seq<Label>)
    requires Inv(s) && Enabled(s, Step(g, BeginPop(u))) && (u in s.shared.owners ==> s.shared.owners[u] == g)
    requires Quiet(ls, g)
    requires var s1 := Apply(s, Step(g, BeginPop(u))); IsRun(s1, ls) && UntilExit(s1, ls, g, s.goroutines[g].frames)
    ensures var s' := After(Apply(s, Step(g, BeginPop(u))), ls);
            && |Replies(ls, g)| == 1 && g in s'.goroutines
            && var gone := Replies(ls, g)[0].Done? && u in s.shared.owners;
            && Owned(s'.shared, g) == (if gone then Owned(s.shared, g) - {u} else Owned(s.shared, g))
            && s'.goroutines[g].depth == s.goroutines[g].depth - if gone then 1 else 0
  {
    StepKept(s, Step(g, BeginPop(u)));
    Begun(s, g, PopNative(u));
    PopEnds(s, Apply(s, Step(g, BeginPop(u))), g, u, ls);
  }

  /** `s1` is `s` with the pop begun. */
  lemma PopEnds(s: State, s1: State, g: Goroutine, u: Uuid, ls: seq<Label>)
    requires Inv(s) && Inv(s1) && g in s.goroutines && g in s1.goroutines && !Foreign(s.shared, u, g)
    requires Working(s1.goroutines[g].frames, s.goroutines[g].frames, PopNative(u), u in s.shared.owners, None,
                     Owned(s.shared, g), Owned(s1.shared, g))
    requires IsRun(s1, ls) && UntilExit(s1, ls, g, s.goroutines[g].frames) && Quiet(ls, g)
    ensures var s' := After(s1, ls);
            && |Replies(ls, g)| == 1 && g in s'.goroutines
            && var gone := Replies(ls, g)[0].Done? && u in s.shared.owners;
            && Owned(s'.shared, g) == (if gone then Owned(s.shared, g) - {u} else Owned(s.shared, g))
            && s'.goroutines[g].depth == s.goroutines[g].depth - if gone then 1 else 0
  {
    ScopeOutcome(s, s1, g, PopNative(u), u in s.shared.owners, ls);
    SizeAfter(PopNative(u), u in s.shared.owners, Replies(ls, g)[0], Owned(s.shared, g));
  }
}
