/**
 Runs from the very start: two goroutines share a stack through `ScopeStack.Run` and strand a scope,
 and a body is moved to the stack of a nested `Run` that could not restore.
 */
module ThreadAffinityScenario {
  import opened Prelude
  import opened ThreadAffinity
  import opened ThreadAffinityTheorems
  import opened ThreadAffinityLeak
  import opened ThreadAffinityBodies

  // ----- What one goroutine does while nobody else moves --------------------------------

  ghost predicate Leads(g: Goroutine, c: View, acts: seq<Action>, c': View)
    decreases |acts|
  {
    if acts == [] then c == c' else CanAct(c, acts[0]) && Leads(g, Act(g, c, acts[0]), acts[1..], c')
  }

  lemma {:induction false} Join(g: Goroutine, c: View, a: seq<Action>, c': View, b: seq<Action>, c'': View)
    requires Leads(g, c, a, c') && Leads(g, c', b, c'')
    ensures Leads(g, c, a + b, c'')
    decreases |a|
  {
    if a == [] {
      assert a + b == b;
    } else {
      Join(g, Act(g, c, a[0]), a[1..], c', b, c'');
      assert (a + b)[1..] == a[1..] + b;
    }
  }

  lemma One(g: Goroutine, c: View, a: Action)
    requires CanAct(c, a)
    ensures Leads(g, c, [a], Act(g, c, a))
  {
    assert Leads(g, Act(g, c, a), [], Act(g, c, a));
    assert [a][1..] == [];
  }

  function Installed(s: State, g: Goroutine, c: View): State
    requires c.x.place.Some?
  {
    State(s.goroutines[g := c.x], s.threads[c.x.place.value := c.t], c.sh)
  }

  lemma PlaceKept(g: Goroutine, c: View, a: Action)
    requires CanAct(c, a)
    ensures Act(g, c, a).x.place == c.x.place
  {
  }

  lemma {:induction false} Enact(s: State, g: Goroutine, acts: seq<Action>, c': View) returns (ls: seq<Label>)
    requires Running(s, g) && Leads(g, ViewOf(s, g), acts, c')
    ensures c'.x.place == s.goroutines[g].place && IsRun(s, ls) && After(s, ls) == Installed(s, g, c')
    ensures (forall i :: 0 <= i < |acts| ==> !acts[i].BeginRun?) ==> StartsNoRun(ls)
    decreases |acts|
  {
    var c := ViewOf(s, g);
    if acts == [] {
      ls := [];
      assert Installed(s, g, c') == s;
    } else {
      PlaceKept(g, c, acts[0]);
      var s' := Apply(s, Step(g, acts[0]));
      assert ViewOf(s', g) == Act(g, c, acts[0]);
      var rest := Enact(s', g, acts[1..], c');
      ls := [Step(g, acts[0])] + rest;
      assert ls[1..] == rest;
      assert Installed(s', g, c') == Installed(s, g, c');
    }
  }

  // ----- The pieces of the scenario -----------------------------------------------------

  /** The view after a successful call of `op`. */
  function Called(g: Goroutine, c: View, op: Op, v: nat, rest: Frames): View
    requires c.x.place.Some?
  {
    View(Leave(c.x, Resume(rest, op, Done(v))), ThreadState(None, NativeBinding(c, op, Done(v))),
         NativeShared(g, c, op, Done(v)))
  }

  lemma CallSucceeds(g: Goroutine, c: View, op: Op, v: nat, rest: Frames)
    requires c.x.place.Some? && c.x.frames == On(Call(op, Locked), rest) && Possible(c, op, Done(v))
    ensures Leads(g, c, [Continue, NativeReturn(Done(v), None), Continue], Called(g, c, op, v, rest))
  {
    var reply := NativeReturn(Done(v), None);
    var c1 := Act(g, c, Continue);
    var c2 := Act(g, c1, reply);
    assert Act(g, c2, Continue) == Called(g, c, op, v, rest);
    One(g, c, Continue);
    One(g, c1, reply);
    One(g, c2, Continue);
    Join(g, c1, [reply], c2, [Continue], Called(g, c, op, v, rest));
    Join(g, c, [Continue], c1, [reply] + [Continue], Called(g, c, op, v, rest));
    assert [Continue] + ([reply] + [Continue]) == [Continue, reply, Continue];
  }

  /** The view of a goroutine that has entered the body of `Run`. */
  function InBody(g: Goroutine, c: View, stack: StackId, h: CaptureId): View {
    View(GoroutineState(c.x.place, c.x.depth + 1, On(Run(stack, c.t.binding, Body(h)), c.x.frames)),
         ThreadState(None, Binding(stack, true, Some(stack))),
         c.sh.(captures := c.sh.captures[h := Saved(c.t.binding, g)], works := c.sh.works[h := stack]))
  }

  lemma EnterBody(g: Goroutine, c: View, stack: StackId, h: CaptureId) returns (acts: seq<Action>)
    requires c.x.place.Some? && UserMode(c.x.frames) && h !in c.sh.captures && h !in c.sh.freed
    ensures Leads(g, c, acts, InBody(g, c, stack, h))
  {
    var run := c.t.binding;
    var c1 := Act(g, c, BeginRun(stack));
    var c2 := Act(g, c1, Continue);
    var c3 := Called(g, c2, Capture, h, c1.x.frames);
    assert c3.x == GoroutineState(c.x.place, c.x.depth + 1, On(Run(stack, run, Captured(h)), c.x.frames)) &&
           c3.t.binding == run;
    var c4 := Act(g, c3, Continue);
    var c5 := Called(g, c4, Bind(stack), 0, c3.x.frames);
    assert c5 == InBody(g, c, stack, h);
    One(g, c, BeginRun(stack));
    One(g, c1, Continue);
    CallSucceeds(g, c2, Capture, h, c1.x.frames);
    One(g, c3, Continue);
    CallSucceeds(g, c4, Bind(stack), 0, c3.x.frames);
    acts := [BeginRun(stack)];
    Join(g, c, acts, c1, [Continue], c2);
    acts := acts + [Continue];
    Join(g, c, acts, c2, [Continue, NativeReturn(Done(h), None), Continue], c3);
    acts := acts + [Continue, NativeReturn(Done(h), None), Continue];
    Join(g, c, acts, c3, [Continue], c4);
    acts := acts + [Continue];
    Join(g, c, acts, c4, [Continue, NativeReturn(Done(0), None), Continue], c5);
    acts := acts + [Continue, NativeReturn(Done(0), None), Continue];
  }

  /** The view of a goroutine whose new scope `u` is pushed but not claimed. */
  function InPush(c: View, u: Uuid): View
    requires c.x.place.Some?
  {
    var id := c.t.binding.Current();
    View(GoroutineState(c.x.place, c.x.depth + 1, On(Push(Pushed(u)), c.x.frames)),
         ThreadState(None, c.t.binding),
         c.sh.(stacks := c.sh.stacks[id := StackAt(c.sh, id) + [u]], home := c.sh.home[u := c.x.place.value]))
  }

  lemma PushInFlight(g: Goroutine, c: View, u: Uuid) returns (acts: seq<Action>)
    requires c.x.place.Some? && UserMode(c.x.frames) && FreshScope(c.sh, u)
    ensures Leads(g, c, acts, InPush(c, u)) && forall i :: 0 <= i < |acts| ==> !acts[i].BeginRun?
  {
    var c1 := Act(g, c, BeginPush);
    var c2 := Act(g, c1, Continue);
    var c3 := Called(g, c2, PushNative, u, c1.x.frames);
    assert c3 == InPush(c, u);
    One(g, c, BeginPush);
    One(g, c1, Continue);
    CallSucceeds(g, c2, PushNative, u, c1.x.frames);
    Join(g, c, [BeginPush], c1, [Continue], c2);
    Join(g, c, [BeginPush] + [Continue], c2, [Continue, NativeReturn(Done(u), None), Continue], c3);
    acts := [BeginPush] + [Continue] + [Continue, NativeReturn(Done(u), None), Continue];
  }

  lemma TwoStart(s: State, g: Goroutine, h: Goroutine, tg: Thread, th: Thread) returns (ls: seq<Label>)
    requires Init(s) && g != h && tg != th && tg in s.threads && th in s.threads
    ensures IsRun(s, ls) && StartsNoRun(ls)
    ensures After(s, ls) == s.(goroutines := map[g := GoroutineState(Some(tg), 0, Base),
                                                 h := GoroutineState(Some(th), 0, Base)])
  {
    ls := [];
    Extend(s, ls, Spawn(g));
    ls := ls + [Spawn(g)];
    Extend(s, ls, Schedule(g, tg));
    ls := ls + [Schedule(g, tg)];
    Extend(s, ls, Spawn(h));
    ls := ls + [Spawn(h)];
    Extend(s, ls, Schedule(h, th));
    ls := ls + [Schedule(h, th)];
  }

  /** `g` is in user code on a thread that works on `stack`. */
  ghost predicate UsesStack(s: State, g: Goroutine, stack: StackId) {
    Running(s, g) && UserMode(s.goroutines[g].frames) && ViewOf(s, g).t.binding.Current() == stack
  }

  lemma BothEnter(s: State, g: Goroutine, h: Goroutine, tg: Thread, th: Thread, stack: StackId) returns (ls: seq<Label>)
    requires Init(s) && g != h && tg != th && tg in s.threads && th in s.threads
    ensures IsRun(s, ls) && UsesStack(After(s, ls), g, stack) && UsesStack(After(s, ls), h, stack)
    ensures var s' := After(s, ls);
            s'.goroutines[g].place == Some(tg) && s'.goroutines[h].place == Some(th) && s'.shared.home == map[] &&
            s'.shared.managed == {}
  {
    ls := TwoStart(s, g, h, tg, th);
    var s1 := After(s, ls);
    var c := ViewOf(s1, g);
    var first := EnterBody(g, c, stack, 0);
    var more := Enact(s1, g, first, InBody(g, c, stack, 0));
    var s2 := After(s1, more);
    Append(s, ls, more);
    ls := ls + more;
    var d := ViewOf(s2, h);
    var second := EnterBody(h, d, stack, 1);
    more := Enact(s2, h, second, InBody(h, d, stack, 1));
    Append(s, ls, more);
    ls := ls + more;
  }

  lemma PushOnShared(s: State, g: Goroutine, h: Goroutine, stack: StackId, u: Uuid) returns (ls: seq<Label>)
    requires g != h && UsesStack(s, g, stack) && UsesStack(s, h, stack) && FreshScope(s.shared, u)
    requires s.goroutines[g].place != s.goroutines[h].place
    ensures IsRun(s, ls) && Running(After(s, ls), g) && UsesStack(After(s, ls), h, stack) && OnTop(After(s, ls), h, u)
    ensures StartsNoRun(ls)
    ensures After(s, ls).goroutines[g].frames == On(Push(Pushed(u)), s.goroutines[g].frames)
  {
    var c := ViewOf(s, g);
    var acts := PushInFlight(g, c, u);
    ls := Enact(s, g, acts, InPush(c, u));
  }

  /**
   From every initial state with two threads, whatever they are bound to, some run strands a scope:
   both goroutines enter `Run` on one stack, one pushes, and the other pops in the window.
   */
  lemma LeakIsReachable(s: State, g: Goroutine, h: Goroutine, tg: Thread, th: Thread, stack: StackId, u: Uuid)
    requires Init(s) && g != h && tg != th && tg in s.threads && th in s.threads
    ensures exists ls :: IsRun(s, ls) && Stranded(After(s, ls), u, g)
  {
    var first := BothEnter(s, g, h, tg, th, stack);
    var s' := After(s, first);
    var second := PushOnShared(s', g, h, stack, u);
    Append(s, first, second);
    ReachableInv(s, first + second);
    var s'' := After(s, first + second);
    SharedStackCanLeak(s'', g, h, u, s'.goroutines[g].frames);
    var third :| IsRun(s'', third) && Stranded(After(s'', third), u, g);
    Append(s, first + second, third);
  }

  // ----- A body that is moved to another stack ------------------------------------------

  /** The view after a failed call of `op` that left no message. */
  function Refused(g: Goroutine, c: View, op: Op, rest: Frames): View
    requires c.x.place.Some?
  {
    var sh := NativeShared(g, c, op, Failed(None));
    View(Leave(c.x, Resume(rest, op, Failed(None))), ThreadState(None, c.t.binding),
         sh.(reports := sh.reports + [Report(g, None, None)]))
  }

  lemma CallFails(g: Goroutine, c: View, op: Op, rest: Frames) returns (acts: seq<Action>)
    requires c.x.place.Some? && c.x.frames == On(Call(op, Locked), rest)
    ensures Leads(g, c, acts, Refused(g, c, op, rest))
  {
    var refusal := NativeReturn(Failed(None), None);
    var c1 := Act(g, c, Continue);
    var c2 := Act(g, c1, refusal);
    var c3 := Act(g, c2, Continue);
    assert Act(g, c3, Continue) == Refused(g, c, op, rest);
    One(g, c, Continue);
    One(g, c1, refusal);
    One(g, c2, Continue);
    One(g, c3, Continue);
    acts := [Continue] + [refusal];
    Join(g, c, [Continue], c1, [refusal], c2);
    Join(g, c, acts, c2, [Continue], c3);
    acts := acts + [Continue];
    Join(g, c, acts, c3, [Continue], Refused(g, c, op, rest));
    acts := acts + [Continue];
  }

  /** A body ends, and native code refuses to restore. */
  lemma FailToRestore(g: Goroutine, c: View, h: CaptureId) returns (acts: seq<Action>, c': View)
    requires c.x.place.Some? && c.x.frames.On? && c.x.frames.top.Run? && c.x.frames.top.run == Body(h)
    ensures Leads(g, c, acts, c') && c'.x.frames == c.x.frames.below && c'.t.binding == c.t.binding
  {
    var On(Run(stack, entry, _), base) := c.x.frames;
    var c1 := Act(g, c, EndBody(false));
    var c2 := Act(g, c1, Continue);
    var under := On(Run(stack, entry, AwaitRestore(h, false)), base);
    assert c2.x.frames == On(Call(Restore(h), Locked), under);
    var c3 := Refused(g, c2, Restore(h), under);
    assert c3.x.frames == On(Run(stack, entry, Leaving(true, Some(h))), base);
    c' := Act(g, c3, Continue);
    One(g, c, EndBody(false));
    One(g, c1, Continue);
    var refused := CallFails(g, c2, Restore(h), under);
    One(g, c3, Continue);
    acts := [EndBody(false)] + [Continue];
    Join(g, c, [EndBody(false)], c1, [Continue], c2);
    Join(g, c, acts, c2, refused, c3);
    acts := acts + refused;
    Join(g, c, acts, c3, [Continue], c');
    acts := acts + [Continue];
  }

  lemma OneStarts(s: State, g: Goroutine, t: Thread) returns (ls: seq<Label>)
    requires Init(s) && t in s.threads
    ensures IsRun(s, ls) && After(s, ls) == s.(goroutines := map[g := GoroutineState(Some(t), 0, Base)])
  {
    ls := [];
    Extend(s, ls, Spawn(g));
    ls := ls + [Spawn(g)];
    Extend(s, ls, Schedule(g, t));
    ls := ls + [Schedule(g, t)];
  }

  /** If native code may refuse to restore, a body can find itself on the stack of a nested `Run`. */
  lemma BodyCanBeMoved(s: State, g: Goroutine, t: Thread, outer: StackId, inner: StackId)
    requires Init(s) && t in s.threads
    ensures exists ls ::
              && IsRun(s, ls) && Running(After(s, ls), g)
              && BodyStack(After(s, ls).goroutines[g].frames) == Some(outer) && CurrentStack(After(s, ls), g) == inner
  {
    var start := OneStarts(s, g, t);
    var s' := After(s, start);
    var c := ViewOf(s', g);
    var first := EnterBody(g, c, outer, 0);
    var c1 := InBody(g, c, outer, 0);
    var second := EnterBody(g, c1, inner, 1);
    var c2 := InBody(g, c1, inner, 1);
    var third, c3 := FailToRestore(g, c2, 1);
    Join(g, c, first, c1, second, c2);
    Join(g, c, first + second, c2, third, c3);
    var rest := Enact(s', g, first + second + third, c3);
    Append(s, start, rest);
    assert After(s, start + rest).goroutines[g].frames == c1.x.frames;
  }
}
