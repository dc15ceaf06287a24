/**
 Callback-scoped codec capabilities (`go/nemo_relay/callbacks.go`).

 A trampoline makes an invocation, hands the callback codecs that point into native memory, and
 invalidates the invocation in a deferred call, so also when the callback panics. The callback may
 leak its codecs to any goroutine; every codec method takes the invocation's read lock, checks that
 it is still active, and holds the lock while it uses the native pointer. The native memory is only
 good until the trampoline returns. A run is any interleaving of the labels below.
 */
module CodecCapability {
  import opened Prelude

  type InvocationId = nat
  type CallId = nat

  /** Where the trampoline that made an invocation is. */
  datatype Trampoline =
    | Calling            // the callback runs
    | Deferred           // the callback returned or panicked; `invalidate` wants the write lock
    | Locked             // `invalidate` has the write lock
    | Cleared            // the invocation is inactive, the lock is still held
    | Unlocked           // the remaining deferred calls run
    | Returned           // native code has taken its memory back

  /** The read/write lock, the flag, and the trampoline of one invocation. */
  datatype Invocation = Invocation(readers: set<CallId>, writer: bool, active: bool, trampoline: Trampoline)

  /** Where one call of a codec method is. */
  datatype Phase = Waiting | ReadLocked | Holding | Finished | Expired

  datatype Call = Call(invocation: InvocationId, phase: Phase)

  /** A codec as the callback got it: a native pointer or nil, and an invocation or nil. */
  datatype Codec = Codec(pointer: bool, invocation: Option<InvocationId>)

  datatype State = State(invocations: map<InvocationId, Invocation>, calls: map<CallId, Call>)

  datatype Label =
    | Enter(i: InvocationId)                 // a trampoline starts its callback
    | CallbackEnds(i: InvocationId, panicked: bool)
    | WriteLock(i: InvocationId)
    | Clear(i: InvocationId)
    | WriteUnlock(i: InvocationId)
    | Return(i: InvocationId)
    | Begin(c: CallId, codec: Option<Codec>) // Decode or Encode on a possibly nil codec
    | ReadLock(c: CallId)
    | Check(c: CallId)
    | UsePointer(c: CallId)                  // the native codec is called with the pointer
    | Release(c: CallId)

  predicate InPhase(s: State, c: CallId, phase: Phase) {
    c in s.calls && s.calls[c].phase == phase && s.calls[c].invocation in s.invocations
  }

  predicate At(s: State, i: InvocationId, t: Trampoline) {
    i in s.invocations && s.invocations[i].trampoline == t
  }

  predicate Enabled(s: State, l: Label) {
    match l
    case Enter(i) => i !in s.invocations
    case CallbackEnds(i, _) => At(s, i, Calling)
    // The write lock waits until every reader is gone.
    case WriteLock(i) => At(s, i, Deferred) && s.invocations[i].readers == {} && !s.invocations[i].writer
    case Clear(i) => At(s, i, Locked)
    case WriteUnlock(i) => At(s, i, Cleared)
    case Return(i) => At(s, i, Unlocked)
    case Begin(c, codec) =>
      c !in s.calls && (codec.Some? && codec.value.invocation.Some? ==> codec.value.invocation.value in s.invocations)
    case ReadLock(c) => InPhase(s, c, Waiting) && !s.invocations[s.calls[c].invocation].writer
    case Check(c) => InPhase(s, c, ReadLocked)
    case UsePointer(c) => InPhase(s, c, Holding)
    case Release(c) => InPhase(s, c, Holding)
  }

  function WithTrampoline(s: State, i: InvocationId, t: Trampoline): State
    requires i in s.invocations
  {
    s.(invocations := s.invocations[i := s.invocations[i].(trampoline := t)])
  }

  function WithCall(s: State, c: CallId, phase: Phase, readers: set<CallId>): State
    requires c in s.calls && s.calls[c].invocation in s.invocations
  {
    var i := s.calls[c].invocation;
    s.(calls := s.calls[c := Call(i, phase)], invocations := s.invocations[i := s.invocations[i].(readers := readers)])
  }

  function Readers(s: State, c: CallId): set<CallId>
    requires c in s.calls && s.calls[c].invocation in s.invocations
  {
    s.invocations[s.calls[c].invocation].readers
  }

  function Apply(s: State, l: Label): State
    requires Enabled(s, l)
  {
    match l
    case Enter(i) => s.(invocations := s.invocations[i := Invocation({}, false, true, Calling)])
    case CallbackEnds(i, _) => WithTrampoline(s, i, Deferred)
    case WriteLock(i) =>
      s.(invocations := s.invocations[i := s.invocations[i].(trampoline := Locked, writer := true)])
    case Clear(i) =>
      s.(invocations := s.invocations[i := s.invocations[i].(trampoline := Cleared, active := false)])
    case WriteUnlock(i) =>
      s.(invocations := s.invocations[i := s.invocations[i].(trampoline := Unlocked, writer := false)])
    case Return(i) => WithTrampoline(s, i, Returned)
    case Begin(c, codec) =>
      if codec.None? || !codec.value.pointer || codec.value.invocation.None?
      then s.(calls := s.calls[c := Call(0, Expired)])
      else s.(calls := s.calls[c := Call(codec.value.invocation.value, Waiting)])
    case ReadLock(c) => WithCall(s, c, ReadLocked, Readers(s, c) + {c})
    case Check(c) =>
      if s.invocations[s.calls[c].invocation].active then WithCall(s, c, Holding, Readers(s, c))
      else WithCall(s, c, Expired, Readers(s, c) - {c})
    case UsePointer(_) => s
    case Release(c) => WithCall(s, c, Finished, Readers(s, c) - {c})
  }

  predicate IsRun(s: State, ls: seq<Label>)
    decreases |ls|
  {
    ls == [] || (Enabled(s, ls[0]) && IsRun(Apply(s, ls[0]), ls[1..]))
  }

  function After(s: State, ls: seq<Label>): State
    requires IsRun(s, ls)
    decreases |ls|
  {
    if ls == [] then s else After(Apply(s, ls[0]), ls[1..])
  }

  const START: State := State(map[], map[])

  // ----- Invariant ----------------------------------------------------------------------

  ghost predicate Inside(s: State, c: CallId) {
    c in s.calls && (s.calls[c].phase.ReadLocked? || s.calls[c].phase.Holding?)
  }

  /** `invalidate` has set the flag back. */
  ghost predicate Over(v: Invocation) {
    v.trampoline.Cleared? || v.trampoline.Unlocked? || v.trampoline.Returned?
  }

  ghost predicate InvocationOk(v: Invocation) {
    && (v.writer <==> v.trampoline.Locked? || v.trampoline.Cleared?)
    && (v.active <==> !Over(v))
    && (v.writer ==> v.readers == {})
  }

  ghost predicate CallOk(s: State, c: CallId)
    requires c in s.calls
  {
    var k := s.calls[c];
    && (!k.phase.Expired? ==> k.invocation in s.invocations)
    && (k.phase.Holding? ==> s.invocations[k.invocation].active)
    && (forall i :: i in s.invocations ==> (c in s.invocations[i].readers <==> Inside(s, c) && k.invocation == i))
  }

  ghost predicate Inv(s: State) {
    && (forall i :: i in s.invocations ==> InvocationOk(s.invocations[i]))
    && (forall c :: c in s.calls ==> CallOk(s, c))
    && (forall i, c :: i in s.invocations && c in s.invocations[i].readers ==> c in s.calls)
  }

  lemma TrampolineKept(s: State, l: Label)
    requires Inv(s) && Enabled(s, l)
    requires l.Enter? || l.CallbackEnds? || l.WriteLock? || l.Clear? || l.WriteUnlock? || l.Return?
    ensures Inv(Apply(s, l))
  {
    var s' := Apply(s, l);
    forall c | c in s'.calls ensures CallOk(s', c) {
      assert CallOk(s, c);
    }
  }

  lemma CallKept(s: State, l: Label)
    requires Inv(s) && Enabled(s, l)
    requires l.Begin? || l.ReadLock? || l.Check? || l.UsePointer? || l.Release?
    ensures Inv(Apply(s, l))
  {
    var s' := Apply(s, l);
    if l.c in s.calls { assert CallOk(s, l.c); }
    forall c | c in s'.calls ensures CallOk(s', c) {
      if c in s.calls { assert CallOk(s, c); }
    }
  }

  lemma StepKept(s: State, l: Label)
    requires Inv(s) && Enabled(s, l)
    ensures Inv(Apply(s, l))
  {
    if l.Enter? || l.CallbackEnds? || l.WriteLock? || l.Clear? || l.WriteUnlock? || l.Return? {
      TrampolineKept(s, l);
    } else {
      CallKept(s, l);
    }
  }

  lemma {:induction false} RunKeepsInv(s: State, ls: seq<Label>)
    requires Inv(s) && IsRun(s, ls)
    ensures Inv(After(s, ls))
    decreases |ls|
  {
    if ls != [] {
      StepKept(s, ls[0]);
      RunKeepsInv(Apply(s, ls[0]), ls[1..]);
    }
  }

  // ----- The state after a run, read off its labels -------------------------------------

  lemma {:induction false} Prefix(s: State, ls: seq<Label>, k: nat)
    requires IsRun(s, ls) && k < |ls|
    ensures IsRun(s, ls[..k]) && Enabled(After(s, ls[..k]), ls[k]) && IsRun(s, ls[..k + 1])
    ensures After(s, ls[..k + 1]) == Apply(After(s, ls[..k]), ls[k])
    ensures IsRun(After(s, ls[..k + 1]), ls[k + 1..]) && After(s, ls) == After(After(s, ls[..k + 1]), ls[k + 1..])
    decreases |ls|
  {
    if k == 0 {
      assert ls[..0] == [] && ls[..1] == [ls[0]] && ls[..1][1..] == [];
      assert After(Apply(s, ls[0]), []) == Apply(s, ls[0]);
    } else {
      Prefix(Apply(s, ls[0]), ls[1..], k - 1);
      assert ls[..k][1..] == ls[1..][..k - 1] && ls[..k + 1][1..] == ls[1..][..k] && ls[k + 1..] == ls[1..][k..];
    }
  }

  /** How far a trampoline has come. */
  function Stage(t: Trampoline): nat {
    match t
    case Calling => 0
    case Deferred => 1
    case Locked => 2
    case Cleared => 3
    case Unlocked => 4
    case Returned => 5
  }

  /** The trampoline of `i` has taken exactly the steps that are among `ls`. */
  ghost predicate Tracks(s: State, i: InvocationId, ls: seq<Label>) {
    && (i in s.invocations <==> Enter(i) in ls)
    && (WriteLock(i) in ls <==> i in s.invocations && Stage(s.invocations[i].trampoline) >= 2)
    && (Clear(i) in ls <==> i in s.invocations && Stage(s.invocations[i].trampoline) >= 3)
    && (WriteUnlock(i) in ls <==> i in s.invocations && Stage(s.invocations[i].trampoline) >= 4)
    && (Return(i) in ls <==> i in s.invocations && Stage(s.invocations[i].trampoline) >= 5)
  }

  lemma TracksStep(s: State, l: Label, i: InvocationId, ls: seq<Label>)
    requires Enabled(s, l) && Tracks(s, i, ls)
    ensures Tracks(Apply(s, l), i, ls + [l])
  {
    var all := ls + [l];
    assert forall x :: x in all <==> x in ls || x == l;
  }

  lemma {:induction false} TracksRun(ls: seq<Label>, i: InvocationId)
    requires IsRun(START, ls)
    ensures Tracks(After(START, ls), i, ls)
    decreases |ls|
  {
    if ls != [] {
      var n := |ls| - 1;
      Prefix(START, ls, n);
      TracksRun(ls[..n], i);
      TracksStep(After(START, ls[..n]), ls[n], i, ls[..n]);
      assert ls == ls[..n] + [ls[n]] && ls[..n + 1] == ls;
    }
  }

  /** An invocation is inactive exactly after its `Clear`, and write-locked from `WriteLock` to `WriteUnlock`. */
  lemma ActiveExactly(ls: seq<Label>, i: InvocationId)
    requires IsRun(START, ls)
    ensures i in After(START, ls).invocations <==> Enter(i) in ls
    ensures Clear(i) in ls || Return(i) in ls || WriteLock(i) in ls || WriteUnlock(i) in ls ==> Enter(i) in ls
    ensures Enter(i) in ls ==> (After(START, ls).invocations[i].active <==> Clear(i) !in ls)
    ensures Enter(i) in ls ==> (At(After(START, ls), i, Returned) <==> Return(i) in ls)
    ensures Enter(i) in ls ==> (After(START, ls).invocations[i].writer <==> WriteLock(i) in ls && WriteUnlock(i) !in ls)
  {
    TracksRun(ls, i);
    RunKeepsInv(START, ls);
    if Enter(i) in ls { assert InvocationOk(After(START, ls).invocations[i]); }
  }

  /** A codec with a native pointer and an invocation. */
  ghost predicate Usable(codec: Option<Codec>, i: InvocationId) {
    codec == Some(Codec(true, Some(i)))
  }

  /** A call keeps its invocation, and an answered call keeps its answer until it is released. */
  lemma {:induction false} AnswerStays(s: State, ls: seq<Label>, c: CallId)
    requires IsRun(s, ls) && c in s.calls
    ensures c in After(s, ls).calls && After(s, ls).calls[c].invocation == s.calls[c].invocation
    ensures s.calls[c].phase.Expired? ==> After(s, ls).calls[c].phase.Expired?
    ensures s.calls[c].phase.Finished? ==> After(s, ls).calls[c].phase.Finished?
    ensures s.calls[c].phase.Expired? || s.calls[c].phase.Finished? ==> Release(c) !in ls
    ensures s.calls[c].phase.Holding? ==> After(s, ls).calls[c].phase == if Release(c) in ls then Finished else Holding
    decreases |ls|
  {
    if ls != [] {
      AnswerStays(Apply(s, ls[0]), ls[1..], c);
      assert ls == [ls[0]] + ls[1..];
    }
  }

  /** A call that began with a usable codec belongs to its invocation; any other is expired. */
  lemma BeganWith(ls: seq<Label>, b: nat, c: CallId)
    requires IsRun(START, ls) && b < |ls| && ls[b].Begin? && ls[b].c == c
    ensures c in After(START, ls).calls
    ensures forall i :: Usable(ls[b].codec, i) ==> After(START, ls).calls[c].invocation == i
    ensures (forall i :: !Usable(ls[b].codec, i)) ==> After(START, ls).calls[c].phase.Expired?
  {
    Prefix(START, ls, b);
    var s := After(START, ls[..b + 1]);
    AnswerStays(s, ls[b + 1..], c);
    var codec := ls[b].codec;
    if codec.Some? && codec.value.pointer && codec.value.invocation.Some? {
      assert Usable(codec, codec.value.invocation.value);
    }
  }

  lemma {:induction false} CallsBegan(ls: seq<Label>, c: CallId) returns (b: nat)
    requires IsRun(START, ls) && c in After(START, ls).calls
    ensures b < |ls| && ls[b].Begin? && ls[b].c == c
    decreases |ls|
  {
    assert ls != [];
    var n := |ls| - 1;
    Prefix(START, ls, n);
    assert ls[..n + 1] == ls;
    if ls[n].Begin? && ls[n].c == c { b := n; } else { b := CallsBegan(ls[..n], c); }
  }

  /** The state in which label `k` of a run that began the call at `b` happens. */
  lemma AtLabel(ls: seq<Label>, b: nat, c: CallId, i: InvocationId, k: nat)
    requires IsRun(START, ls) && b < |ls| && ls[b].Begin? && ls[b].c == c && Usable(ls[b].codec, i)
    requires k < |ls| && (ls[k] == ReadLock(c) || ls[k] == Check(c) || ls[k] == UsePointer(c) || ls[k] == Release(c))
    ensures IsRun(START, ls[..k]) && Enabled(After(START, ls[..k]), ls[k]) && Inv(After(START, ls[..k])) && b < k
    ensures c in After(START, ls[..k]).calls && After(START, ls[..k]).calls[c].invocation == i && Enter(i) in ls[..k]
  {
    Prefix(START, ls, k);
    RunKeepsInv(START, ls[..k]);
    var b' := CallsBegan(ls[..k], c);
    BeganWith(ls[..k], b', c);
    if b != b' { BeganOnce(ls, b', b, c); }
    ActiveExactly(ls[..k], i);
  }

  lemma BeganOnce(ls: seq<Label>, b: nat, b': nat, c: CallId)
    requires IsRun(START, ls) && b < |ls| && b' < |ls| && ls[b].Begin? && ls[b].c == c && ls[b'].Begin? && ls[b'].c == c
    ensures b == b'
  {
    var lo, hi := if b < b' then b else b', if b < b' then b' else b;
    if lo < hi {
      Prefix(START, ls, hi);
      BeganWith(ls[..hi], lo, c);
    }
  }

  // ----- What the protocol guarantees ---------------------------------------------------

  /**
   A codec call is answered by the state of its invocation: it gets the expired error exactly if
   `invalidate` has set the flag back before the check, and otherwise holds the capability until it
   releases it. A codec without a pointer or an invocation gets the error at once.
   */
  lemma AnsweredExactly(ls: seq<Label>, b: nat, c: CallId, i: InvocationId, k: nat)
    requires IsRun(START, ls) && b < |ls| && ls[b].Begin? && ls[b].c == c && Usable(ls[b].codec, i)
    requires k < |ls| && ls[k] == Check(c)
    ensures c in After(START, ls).calls
    ensures After(START, ls).calls[c].phase
         == if Clear(i) in ls[..k] then Expired else if Release(c) in ls then Finished else Holding
    ensures Clear(i) !in ls[..k] && Release(c) !in ls ==> Enabled(After(START, ls), UsePointer(c))
    ensures Clear(i) !in ls[..k] && Release(c) !in ls ==> Enabled(After(START, ls), Release(c))
  {
    AnswerAt(ls, b, c, i, k);
    Prefix(START, ls, k);
    AnswerStays(After(START, ls[..k + 1]), ls[k + 1..], c);
    NotReleasedBefore(ls, c, k);
    Parts(ls, k, Release(c));
    RunKeepsInv(START, ls);
    assert CallOk(After(START, ls), c);
  }

  lemma AnswerAt(ls: seq<Label>, b: nat, c: CallId, i: InvocationId, k: nat)
    requires IsRun(START, ls) && b < |ls| && ls[b].Begin? && ls[b].c == c && Usable(ls[b].codec, i)
    requires k < |ls| && ls[k] == Check(c)
    ensures IsRun(START, ls[..k + 1]) && c in After(START, ls[..k + 1]).calls
    ensures After(START, ls[..k + 1]).calls[c].phase == if Clear(i) in ls[..k] then Expired else Holding
  {
    AtLabel(ls, b, c, i, k);
    ActiveExactly(ls[..k], i);
    Prefix(START, ls, k);
  }

  lemma Parts(ls: seq<Label>, k: nat, l: Label)
    requires k < |ls|
    ensures l in ls <==> l in ls[..k] || l == ls[k] || l in ls[k + 1..]
  {
    assert ls == ls[..k] + [ls[k]] + ls[k + 1..];
  }

  lemma NotReleasedBefore(ls: seq<Label>, c: CallId, k: nat)
    requires IsRun(START, ls) && k < |ls| && ls[k] == Check(c)
    ensures Release(c) !in ls[..k]
  {
    if Release(c) in ls[..k] {
      var r :| 0 <= r < k && ls[r] == Release(c);
      Prefix(START, ls, k);
      Prefix(START, ls[..k], r);
      AnswerStays(After(START, ls[..k][..r + 1]), ls[..k][r + 1..], c);
    }
  }

  /** The read lock of a codec call waits for a writer and for nothing else, and the check for nothing at all. */
  lemma AcquireWaitsFor(ls: seq<Label>, b: nat, c: CallId, i: InvocationId)
    requires IsRun(START, ls) && b < |ls| && ls[b].Begin? && ls[b].c == c && Usable(ls[b].codec, i)
    ensures Enter(i) in ls
    ensures Enabled(After(START, ls), ReadLock(c))
       <==> ReadLock(c) !in ls && (WriteLock(i) in ls ==> WriteUnlock(i) in ls)
    ensures Enabled(After(START, ls), Check(c)) <==> ReadLock(c) in ls && Check(c) !in ls
  {
    BeganWith(ls, b, c);
    LockedExactly(ls, b, c, i);
    RunKeepsInv(START, ls);
    assert CallOk(After(START, ls), c);
    ActiveExactly(ls, i);
  }

  /** How far a call has come before it is answered. */
  ghost predicate Progress(s: State, c: CallId, i: InvocationId, ls: seq<Label>) {
    && c in s.calls && i in s.invocations && s.calls[c].invocation == i
    && (s.calls[c].phase.Waiting? <==> ReadLock(c) !in ls) && (Check(c) in ls ==> ReadLock(c) in ls)
    && (s.calls[c].phase.ReadLocked? <==> ReadLock(c) in ls && Check(c) !in ls)
  }

  lemma ProgressStep(s: State, l: Label, c: CallId, i: InvocationId, ls: seq<Label>)
    requires Enabled(s, l) && Progress(s, c, i, ls)
    ensures Progress(Apply(s, l), c, i, ls + [l])
  {
    var all := ls + [l];
    assert forall x :: x in all <==> x in ls || x == l;
  }

  lemma {:induction false} LockedExactly(ls: seq<Label>, b: nat, c: CallId, i: InvocationId)
    requires IsRun(START, ls) && b < |ls| && ls[b].Begin? && ls[b].c == c && Usable(ls[b].codec, i)
    ensures Progress(After(START, ls), c, i, ls)
    decreases |ls|
  {
    var n := |ls| - 1;
    Prefix(START, ls, n);
    assert ls == ls[..n] + [ls[n]] && ls[..n + 1] == ls;
    if b == n {
      NothingBefore(ls[..n], c);
    } else {
      LockedExactly(ls[..n], b, c, i);
      ProgressStep(After(START, ls[..n]), ls[n], c, i, ls[..n]);
    }
  }

  lemma {:induction false} NothingBefore(ls: seq<Label>, c: CallId)
    requires IsRun(START, ls) && c !in After(START, ls).calls
    ensures ReadLock(c) !in ls && Check(c) !in ls
    decreases |ls|
  {
    if ls != [] {
      var n := |ls| - 1;
      Prefix(START, ls, n);
      assert ls == ls[..n] + [ls[n]] && ls[..n + 1] == ls;
      NothingBefore(ls[..n], c);
    }
  }

  /**
   In every run a native codec pointer is used only between the entry of the trampoline that handed
   it out and its `invalidate`, so never after the trampoline returned.
   */
  lemma PointersAreLive(ls: seq<Label>, b: nat, c: CallId, k: nat)
    requires IsRun(START, ls) && b < |ls| && ls[b].Begin? && ls[b].c == c && k < |ls| && ls[k] == UsePointer(c)
    ensures exists i :: Usable(ls[b].codec, i) && Enter(i) in ls[..k] && Clear(i) !in ls[..k] && Return(i) !in ls[..k]
  {
    Prefix(START, ls, k);
    RunKeepsInv(START, ls[..k]);
    var b' := CallsBegan(ls[..k], c);
    BeganOnce(ls, b, b', c);
    BeganWith(ls[..k], b, c);
    var s := After(START, ls[..k]);
    assert CallOk(s, c);
    var i :| Usable(ls[b].codec, i);
    ActiveExactly(ls[..k], i);
    assert InvocationOk(s.invocations[i]);
  }

  /** A pointer is used only by a call that was let through and has not been released. */
  lemma UseNeedsAnswer(ls: seq<Label>, c: CallId)
    requires IsRun(START, ls)
    ensures Enabled(After(START, ls), UsePointer(c)) ==> Check(c) in ls && Release(c) !in ls
  {
    if Enabled(After(START, ls), UsePointer(c)) { HeldSince(ls, c); }
  }

  lemma {:induction false} HeldSince(ls: seq<Label>, c: CallId)
    requires IsRun(START, ls) && c in After(START, ls).calls && After(START, ls).calls[c].phase.Holding?
    ensures Check(c) in ls && Release(c) !in ls
    decreases |ls|
  {
    var n := |ls| - 1;
    Prefix(START, ls, n);
    assert ls[..n + 1] == ls;
    Parts(ls, n, Check(c));
    Parts(ls, n, Release(c));
    if ls[n] == Check(c) { NotReleasedBefore(ls, c, n); } else { HeldSince(ls[..n], c); }
  }

  /** From the moment `invalidate` has the lock, nobody holds the capability. */
  lemma InvalidateWaits(s: State, i: InvocationId, c: CallId)
    requires Inv(s) && i in s.invocations && InPhase(s, c, Holding) && s.calls[c].invocation == i
    ensures s.invocations[i].trampoline.Calling? || s.invocations[i].trampoline.Deferred?
    ensures !Enabled(s, WriteLock(i))
  {
    assert CallOk(s, c);
    assert c in s.invocations[i].readers;
  }

  /** `invalidate` waits for nothing but the calls that have the read lock. */
  lemma InvalidateWaitsFor(s: State, i: InvocationId)
    requires Inv(s) && At(s, i, Deferred)
    ensures Enabled(s, WriteLock(i)) <==> forall c :: Inside(s, c) ==> s.calls[c].invocation != i
  {
    assert InvocationOk(s.invocations[i]);
    forall c | c in s.invocations[i].readers ensures Inside(s, c) && s.calls[c].invocation == i {
      assert CallOk(s, c);
    }
    forall c | Inside(s, c) && s.calls[c].invocation == i ensures c in s.invocations[i].readers {
      assert CallOk(s, c);
    }
  }

  /** Once over, an invocation stays over, and no call comes to hold it. */
  lemma OverStays(s: State, l: Label, i: InvocationId)
    requires Inv(s) && Enabled(s, l) && i in s.invocations && Over(s.invocations[i])
    ensures i in Apply(s, l).invocations && Over(Apply(s, l).invocations[i])
    ensures l.UsePointer? ==> s.calls[l.c].invocation != i
    ensures l.Check? && s.calls[l.c].invocation == i ==> Apply(s, l).calls[l.c].phase == Expired
    ensures forall c :: c in Apply(s, l).calls && Apply(s, l).calls[c].invocation == i ==>
              !Apply(s, l).calls[c].phase.Holding?
  {
    var s' := Apply(s, l);
    StepKept(s, l);
    forall c | c in s'.calls && s'.calls[c].invocation == i ensures !s'.calls[c].phase.Holding? {
      assert CallOk(s', c);
    }
    if l.UsePointer? { assert CallOk(s, l.c); }
  }

  /** No step of the run uses a pointer of `i`. */
  ghost predicate NeverUses(s: State, ls: seq<Label>, i: InvocationId)
    requires IsRun(s, ls)
    decreases |ls|
  {
    ls != [] ==>
      && (ls[0].UsePointer? ==> s.calls[ls[0].c].invocation != i)
      && NeverUses(Apply(s, ls[0]), ls[1..], i)
  }

  /**
   After `invalidate`, in every continuation of the run, the pointer is never used again and no
   call ever comes to hold the capability: every acquire returns the expired error.
   */
  lemma {:induction false} ExpiredForever(s: State, ls: seq<Label>, i: InvocationId)
    requires Inv(s) && IsRun(s, ls) && i in s.invocations && Over(s.invocations[i])
    ensures i in After(s, ls).invocations && Over(After(s, ls).invocations[i]) && NeverUses(s, ls, i)
    ensures forall c :: c in After(s, ls).calls && After(s, ls).calls[c].invocation == i ==>
              !After(s, ls).calls[c].phase.Holding?
    decreases |ls|
  {
    if ls == [] {
      forall c | c in s.calls && s.calls[c].invocation == i ensures !s.calls[c].phase.Holding? {
        assert CallOk(s, c);
      }
    } else {
      StepKept(s, ls[0]);
      OverStays(s, ls[0], i);
      ExpiredForever(Apply(s, ls[0]), ls[1..], i);
    }
  }

  /** A trampoline cannot return without `invalidate`, whether or not its callback panicked. */
  lemma {:induction false} ReturnedIsOver(ls: seq<Label>, i: InvocationId)
    requires IsRun(START, ls) && Return(i) in ls
    ensures Clear(i) in ls
    ensures forall c :: c in After(START, ls).calls && After(START, ls).calls[c].invocation == i ==>
              !After(START, ls).calls[c].phase.Holding?
  {
    var s := After(START, ls);
    RunKeepsInv(START, ls);
    ActiveExactly(ls, i);
    assert InvocationOk(s.invocations[i]);
    forall c | c in s.calls && s.calls[c].invocation == i ensures !s.calls[c].phase.Holding? {
      assert CallOk(s, c);
    }
  }
}
