/**
 The global closure registry (`go/nemo_relay/callbacks.go`).

 Registering a closure draws a serial number from an atomic counter, stores the closure in a map
 under the number converted to `uintptr`, and allocates a token in C memory that holds the
 converted number. Callbacks look their closure up through the token; freeing the token removes
 the map entry first. Each of these is several steps, and a run is any interleaving of them.
 Freed token addresses are handed out again. `ids` is the number of different `uintptr` values.
 */
module ClosureRegistry {
  import opened Prelude

  type Address = nat
  type Closure = nat
  type Task = nat

  datatype RegisterPhase = Numbered | Inserted | Done | Panicked

  /** One call of `registerClosure`. */
  datatype Registration = Registration(serial: nat, closure: Closure, phase: RegisterPhase)

  datatype TokenPhase = Live | Dying | Deleted

  /** A token in C memory, with the registration it came from. */
  datatype Token = Token(id: nat, source: Task, phase: TokenPhase)

  /** One call of `lookupClosure`: the id is read from the token, then looked up in the map. */
  datatype Lookup = Reading(token: Address, id: nat) | Found(source: Task, result: Option<Closure>)

  datatype State = State(
    ids: nat,
    counter: nat,
    registry: map<nat, Closure>,
    tokens: map<Address, Token>,
    registrations: map<Task, Registration>,
    lookups: map<Task, Lookup>)

  datatype Label =
    | Draw(r: Task, closure: Closure)
    | Insert(r: Task)
    | Allocate(r: Task, address: Address)
    | AllocationFails(r: Task)
    | ReadToken(l: Task, address: Address)
    | ReadRegistry(l: Task)
    | BeginUnregister(address: Address)
    | Delete(address: Address)
    | Free(address: Address)

  predicate Valid(s: State) {
    s.ids > 0
  }

  /** `uintptr(serial)` */
  function Id(s: State, serial: nat): nat
    requires Valid(s)
  {
    serial % s.ids
  }

  predicate InPhase(s: State, r: Task, phase: RegisterPhase) {
    r in s.registrations && s.registrations[r].phase == phase
  }

  predicate TokenIn(s: State, a: Address, phase: TokenPhase) {
    a in s.tokens && s.tokens[a].phase == phase
  }

  predicate Enabled(s: State, l: Label) {
    Valid(s) &&
    match l
    case Draw(r, _) => r !in s.registrations
    case Insert(r) => InPhase(s, r, Numbered)
    // malloc returns memory that nobody uses.
    case Allocate(r, a) => InPhase(s, r, Inserted) && a !in s.tokens
    case AllocationFails(r) => InPhase(s, r, Inserted)
    case ReadToken(k, a) => k !in s.lookups && TokenIn(s, a, Live)
    case ReadRegistry(k) => k in s.lookups && s.lookups[k].Reading?
    // Native code gives a token back once, and not while a callback is looking its closure up.
    case BeginUnregister(a) =>
      TokenIn(s, a, Live) && forall k :: k in s.lookups && s.lookups[k].Reading? ==> s.lookups[k].token != a
    case Delete(a) => TokenIn(s, a, Dying)
    case Free(a) => TokenIn(s, a, Deleted)
  }

  function WithToken(s: State, a: Address, phase: TokenPhase): State
    requires a in s.tokens
  {
    s.(tokens := s.tokens[a := s.tokens[a].(phase := phase)])
  }

  function WithRegistration(s: State, r: Task, phase: RegisterPhase): State
    requires r in s.registrations
  {
    s.(registrations := s.registrations[r := s.registrations[r].(phase := phase)])
  }

  function Apply(s: State, l: Label): State
    requires Enabled(s, l)
  {
    match l
    case Draw(r, f) =>
      s.(counter := s.counter + 1, registrations := s.registrations[r := Registration(s.counter + 1, f, Numbered)])
    case Insert(r) =>
      var x := s.registrations[r];
      WithRegistration(s, r, Inserted).(registry := s.registry[Id(s, x.serial) := x.closure])
    case Allocate(r, a) =>
      WithRegistration(s, r, Done).(tokens := s.tokens[a := Token(Id(s, s.registrations[r].serial), r, Live)])
    case AllocationFails(r) => WithRegistration(s, r, Panicked)
    case ReadToken(k, a) => s.(lookups := s.lookups[k := Reading(a, s.tokens[a].id)])
    case ReadRegistry(k) =>
      var Reading(a, id) := s.lookups[k];
      var result := if id in s.registry then Some(s.registry[id]) else None;
      s.(lookups := s.lookups[k := Found(if a in s.tokens then s.tokens[a].source else 0, result)])
    case BeginUnregister(a) => WithToken(s, a, Dying)
    case Delete(a) => WithToken(s, a, Deleted).(registry := s.registry - {s.tokens[a].id})
    case Free(a) => s.(tokens := s.tokens - {a})
  }

  predicate IsRun(s: State, ls: seq<Label>)
    decreases |ls|
  {
    ls == [] || (Enabled(s, ls[0]) && IsRun(Apply(s, ls[0]), ls[1..]))
  }

  function After(s: State, ls: seq<Label>): State
    requires IsRun(s, ls)
    decreases |ls|
  {
    if ls == [] then s else After(Apply(s, ls[0]), ls[1..])
  }

  function Start(ids: nat): State {
    State(ids, 0, map[], map[], map[], map[])
  }

  // ----- Invariant while the counter has not wrapped around -----------------------------

  ghost predicate SerialsOk(s: State) {
    && (forall r :: r in s.registrations ==> 1 <= s.registrations[r].serial <= s.counter)
    && (forall r, q :: r in s.registrations && q in s.registrations && r != q ==>
          s.registrations[r].serial != s.registrations[q].serial)
  }

  /** The registration still has its entry in the map. */
  ghost predicate Stored(s: State, r: Task)
    requires Valid(s)
  {
    r in s.registrations &&
    var id := Id(s, s.registrations[r].serial);
    id in s.registry && s.registry[id] == s.registrations[r].closure
  }

  ghost predicate TokenOk(s: State, a: Address)
    requires Valid(s) && a in s.tokens
  {
    var t := s.tokens[a];
    && InPhase(s, t.source, Done) && t.id == Id(s, s.registrations[t.source].serial)
    && (t.phase.Deleted? || Stored(s, t.source))
  }

  ghost predicate TokensOk(s: State)
    requires Valid(s)
  {
    && (forall a :: a in s.tokens ==> TokenOk(s, a))
    && (forall a, b :: a in s.tokens && b in s.tokens && a != b ==> s.tokens[a].source != s.tokens[b].source)
  }

  ghost predicate PendingOk(s: State)
    requires Valid(s)
  {
    forall r :: InPhase(s, r, Inserted) ==> Stored(s, r)
  }

  ghost predicate LookupsOk(s: State) {
    forall k :: k in s.lookups ==>
      match s.lookups[k]
      case Reading(a, id) => TokenIn(s, a, Live) && id == s.tokens[a].id
      case Found(r, result) => r in s.registrations && result == Some(s.registrations[r].closure)
  }

  ghost predicate Inv(s: State) {
    Valid(s) && SerialsOk(s) && TokensOk(s) && PendingOk(s) && LookupsOk(s)
  }

  /** Serial numbers up to the number of ids are converted without clash. */
  lemma IdsApart(s: State, a: nat, b: nat)
    requires Valid(s) && 1 <= a <= s.ids && 1 <= b <= s.ids && a != b
    ensures Id(s, a) != Id(s, b)
  {
  }

  lemma EntryKept(s: State, l: Label, r: Task)
    requires Inv(s) && Enabled(s, l) && s.counter <= s.ids && Stored(s, r)
    requires l.Delete? ==> s.tokens[l.address].source != r
    ensures Stored(Apply(s, l), r)
  {
    var serial := s.registrations[r].serial;
    if l.Insert? && l.r != r {
      IdsApart(s, serial, s.registrations[l.r].serial);
    }
    if l.Delete? {
      assert TokenOk(s, l.address);
      IdsApart(s, serial, s.registrations[s.tokens[l.address].source].serial);
    }
  }

  lemma TokenKept(s: State, l: Label, a: Address)
    requires Inv(s) && Enabled(s, l) && s.counter <= s.ids && a in Apply(s, l).tokens
    ensures TokenOk(Apply(s, l), a)
  {
    if a in s.tokens {
      assert TokenOk(s, a);
      if !Apply(s, l).tokens[a].phase.Deleted? { EntryKept(s, l, s.tokens[a].source); }
    } else {
      EntryKept(s, l, l.r);
    }
  }

  lemma SourcesKept(s: State, l: Label, a: Address, b: Address)
    requires Inv(s) && Enabled(s, l) && a in Apply(s, l).tokens && b in Apply(s, l).tokens && a != b
    ensures Apply(s, l).tokens[a].source != Apply(s, l).tokens[b].source
  {
    if a in s.tokens { assert TokenOk(s, a); }
    if b in s.tokens { assert TokenOk(s, b); }
  }

  lemma TokensKept(s: State, l: Label)
    requires Inv(s) && Enabled(s, l) && s.counter <= s.ids
    ensures TokensOk(Apply(s, l))
  {
    var s' := Apply(s, l);
    forall a | a in s'.tokens ensures TokenOk(s', a) {
      TokenKept(s, l, a);
    }
    forall a, b | a in s'.tokens && b in s'.tokens && a != b ensures s'.tokens[a].source != s'.tokens[b].source {
      SourcesKept(s, l, a, b);
    }
  }

  lemma PendingKept(s: State, l: Label)
    requires Inv(s) && Enabled(s, l) && s.counter <= s.ids
    ensures PendingOk(Apply(s, l))
  {
    var s' := Apply(s, l);
    forall r | InPhase(s', r, Inserted) ensures Stored(s', r) {
      if InPhase(s, r, Inserted) {
        if l.Delete? { assert TokenOk(s, l.address); }
        EntryKept(s, l, r);
      }
    }
  }

  lemma LookupsKept(s: State, l: Label)
    requires Inv(s) && Enabled(s, l)
    ensures LookupsOk(Apply(s, l))
  {
    var s' := Apply(s, l);
    if l.ReadRegistry? {
      assert TokenOk(s, s.lookups[l.l].token);
    }
  }

  lemma StepKept(s: State, l: Label)
    requires Inv(s) && Enabled(s, l) && s.counter <= s.ids
    ensures Inv(Apply(s, l))
  {
    TokensKept(s, l);
    PendingKept(s, l);
    LookupsKept(s, l);
  }

  lemma {:induction false} CounterGrows(s: State, ls: seq<Label>)
    requires IsRun(s, ls)
    ensures s.counter <= After(s, ls).counter && s.ids == After(s, ls).ids
    decreases |ls|
  {
    if ls != [] { CounterGrows(Apply(s, ls[0]), ls[1..]); }
  }

  lemma {:induction false} RunKeepsInv(s: State, ls: seq<Label>)
    requires Inv(s) && IsRun(s, ls) && After(s, ls).counter <= s.ids
    ensures Inv(After(s, ls))
    decreases |ls|
  {
    if ls != [] {
      CounterGrows(s, ls);
      CounterGrows(Apply(s, ls[0]), ls[1..]);
      StepKept(s, ls[0]);
      RunKeepsInv(Apply(s, ls[0]), ls[1..]);
    }
  }

  // ----- What the registry guarantees ---------------------------------------------------

  /** Live tokens hold different ids, as long as no more closures were registered than there are ids. */
  lemma LiveIdsDistinct(ids: nat, ls: seq<Label>, a: Address, b: Address)
    requires ids > 0 && IsRun(Start(ids), ls) && After(Start(ids), ls).counter <= ids
    requires a in After(Start(ids), ls).tokens && b in After(Start(ids), ls).tokens && a != b
    ensures After(Start(ids), ls).tokens[a].id != After(Start(ids), ls).tokens[b].id
  {
    RunKeepsInv(Start(ids), ls);
    CounterGrows(Start(ids), ls);
    var s := After(Start(ids), ls);
    assert TokenOk(s, a) && TokenOk(s, b);
    IdsApart(s, s.registrations[s.tokens[a].source].serial, s.registrations[s.tokens[b].source].serial);
  }

  /** A registration is for the closure that it was begun with. */
  lemma {:induction false} DrawnWith(s: State, ls: seq<Label>, r: Task)
    requires IsRun(s, ls) && r in After(s, ls).registrations
    ensures if r in s.registrations then After(s, ls).registrations[r].closure == s.registrations[r].closure
            else Draw(r, After(s, ls).registrations[r].closure) in ls
    decreases |ls|
  {
    if ls != [] { DrawnWith(Apply(s, ls[0]), ls[1..], r); }
  }

  /**
   A lookup through a live token finds the closure that was registered with that token, whatever
   other registrations, failed allocations, releases and address reuse happen meanwhile.
   */
  lemma LookupFindsItsClosure(ids: nat, ls: seq<Label>, k: Task)
    requires ids > 0 && IsRun(Start(ids), ls) && After(Start(ids), ls).counter <= ids
    requires k in After(Start(ids), ls).lookups && After(Start(ids), ls).lookups[k].Found?
    ensures var s := After(Start(ids), ls);
            var Found(r, result) := s.lookups[k];
            r in s.registrations && result == Some(s.registrations[r].closure) && Draw(r, result.value) in ls
  {
    RunKeepsInv(Start(ids), ls);
    var Found(r, result) := After(Start(ids), ls).lookups[k];
    DrawnWith(Start(ids), ls, r);
  }

  /** Releasing one token, or failing to allocate one, leaves every other live token's closure alone. */
  lemma OthersUntouched(s: State, l: Label, a: Address)
    requires Inv(s) && Enabled(s, l) && s.counter <= s.ids && TokenIn(s, a, Live)
    requires l.Delete? || l.Free? || l.AllocationFails?
    ensures TokenIn(Apply(s, l), a, Live) && Apply(s, l).tokens[a] == s.tokens[a]
    ensures s.tokens[a].id in Apply(s, l).registry
         && Apply(s, l).registry[s.tokens[a].id] == s.registry[s.tokens[a].id]
  {
    assert TokenOk(s, a);
    EntryKept(s, l, s.tokens[a].source);
  }

  /**
   The step takes the map entry of `a` away: a registration that is converted to the same id and
   stores another closure, or the release of a token with the same id.
   */
  ghost predicate TakesEntry(s: State, l: Label, a: Address)
    requires Valid(s) && Enabled(s, l) && TokenIn(s, a, Live) && s.tokens[a].source in s.registrations
  {
    var source := s.registrations[s.tokens[a].source];
    match l
    case Insert(r) => Id(s, s.registrations[r].serial) == Id(s, source.serial) &&
                      s.registrations[r].closure != source.closure
    case Delete(b) => s.tokens[b].id == s.tokens[a].id
    case _ => false
  }

  /** Whatever the counter is, a live token keeps its map entry in a step exactly if the step does not take it. */
  lemma EntrySurvives(s: State, l: Label, a: Address)
    requires Valid(s) && Enabled(s, l) && TokenIn(s, a, Live) && TokenOk(s, a)
    ensures Stored(Apply(s, l), s.tokens[a].source) <==> !TakesEntry(s, l, a)
  {
    var s' := Apply(s, l);
    var source := s.tokens[a].source;
    assert s'.registrations[source].serial == s.registrations[source].serial;
    assert s'.registrations[source].closure == s.registrations[source].closure;
  }

  // ----- The bound on the counter is the best one ---------------------------------------

  lemma {:induction false} Extend(s: State, ls: seq<Label>, l: Label)
    requires IsRun(s, ls) && Enabled(After(s, ls), l)
    ensures IsRun(s, ls + [l]) && After(s, ls + [l]) == Apply(After(s, ls), l)
    decreases |ls|
  {
    if ls == [] {
      assert ls + [l] == [l] && [l][1..] == [];
      assert After(Apply(s, l), []) == Apply(s, l);
    } else {
      Extend(Apply(s, ls[0]), ls[1..], l);
      assert (ls + [l])[1..] == ls[1..] + [l];
    }
  }

  /** `f` has a live token at address 0, and `n` more closures were registered, the last one `f'`. */
  ghost predicate Filled(s: State, ids: nat, f: Closure, f': Closure, n: nat) {
    && s.ids == ids && ids > 0 && s.counter == n + 1 && s.lookups == map[]
    && s.tokens == map[0 := Token(1 % ids, 0, Live)]
    && (forall r :: r in s.registrations ==> r <= n)
    && 0 in s.registrations && s.registrations[0] == Registration(1, f, Done)
    && (n > 0 ==> (n + 1) % ids in s.registry && s.registry[(n + 1) % ids] == f')
  }

  lemma {:induction false} Fill(ids: nat, f: Closure, f': Closure, n: nat) returns (ls: seq<Label>)
    requires ids > 0
    ensures IsRun(Start(ids), ls) && Filled(After(Start(ids), ls), ids, f, f', n)
  {
    if n == 0 {
      ls := [];
      Extend(Start(ids), ls, Draw(0, f));
      ls := ls + [Draw(0, f)];
      Extend(Start(ids), ls, Insert(0));
      ls := ls + [Insert(0)];
      Extend(Start(ids), ls, Allocate(0, 0));
      ls := ls + [Allocate(0, 0)];
    } else {
      ls := Fill(ids, f, f', n - 1);
      Extend(Start(ids), ls, Draw(n, f'));
      ls := ls + [Draw(n, f')];
      Extend(Start(ids), ls, Insert(n));
      ls := ls + [Insert(n)];
    }
  }

  /** A lookup through the token of `f` has found `f'`. */
  ghost predicate Mistaken(s: State, f: Closure, f': Closure) {
    && s.ids > 0 && (forall r :: r in s.registrations ==> r < s.counter)
    && 0 in s.lookups && s.lookups[0] == Found(0, Some(f')) && 0 in s.registrations && s.registrations[0].closure == f
  }

  lemma LookUp(ids: nat, filled: seq<Label>, f: Closure, f': Closure) returns (ls: seq<Label>)
    requires ids > 0 && IsRun(Start(ids), filled) && Filled(After(Start(ids), filled), ids, f, f', ids)
    ensures IsRun(Start(ids), ls) && After(Start(ids), ls).counter == ids + 1
    ensures Mistaken(After(Start(ids), ls), f, f')
  {
    assert (ids + 1) % ids == 1 % ids;
    Extend(Start(ids), filled, ReadToken(0, 0));
    ls := filled + [ReadToken(0, 0)];
    Extend(Start(ids), ls, ReadRegistry(0));
    ls := ls + [ReadRegistry(0)];
  }

  lemma MistakeStays(s: State, f: Closure, f': Closure, r: Task)
    requires Mistaken(s, f, f') && r == s.counter
    ensures Enabled(s, Draw(r, f)) && Apply(s, Draw(r, f)).counter == r + 1 && Mistaken(Apply(s, Draw(r, f)), f, f')
  {
  }

  /** With any number of registrations beyond the ids, a lookup through a live token can find another closure. */
  lemma {:induction false} CanMistake(ids: nat, n: nat, f: Closure, f': Closure) returns (ls: seq<Label>)
    requires 0 < ids < n
    ensures IsRun(Start(ids), ls) && After(Start(ids), ls).counter == n && Mistaken(After(Start(ids), ls), f, f')
    decreases n
  {
    if n == ids + 1 {
      var filled := Fill(ids, f, f', ids);
      ls := LookUp(ids, filled, f, f');
    } else {
      var fewer := CanMistake(ids, n - 1, f, f');
      MistakeStays(After(Start(ids), fewer), f, f', n - 1);
      Extend(Start(ids), fewer, Draw(n - 1, f));
      ls := fewer + [Draw(n - 1, f)];
    }
  }

  /** Every finished lookup found the closure that was registered with its token. */
  ghost predicate LookupsRight(s: State) {
    forall k :: k in s.lookups && s.lookups[k].Found? ==>
      && s.lookups[k].source in s.registrations
      && s.lookups[k].result == Some(s.registrations[s.lookups[k].source].closure)
  }

  /** No run with `n` registrations has a wrong lookup. */
  ghost predicate AlwaysRight(ids: nat, n: nat) {
    forall ls :: IsRun(Start(ids), ls) && After(Start(ids), ls).counter == n ==> LookupsRight(After(Start(ids), ls))
  }

  /** The registry keeps its promise over all runs with `n` registrations exactly if there are that many ids. */
  lemma RightExactly(ids: nat, n: nat)
    requires ids > 0
    ensures AlwaysRight(ids, n) <==> n <= ids
  {
    if n <= ids {
      forall ls | IsRun(Start(ids), ls) && After(Start(ids), ls).counter == n
        ensures LookupsRight(After(Start(ids), ls))
      {
        RunKeepsInv(Start(ids), ls);
      }
    } else {
      var ls := CanMistake(ids, n, 0, 1);
      assert !LookupsRight(After(Start(ids), ls));
    }
  }

  // ----- Nothing is lost or left behind -------------------------------------------------

  /** Every map entry came from a registration that stored its closure. */
  ghost predicate KeysOk(s: State)
    requires Valid(s)
  {
    forall id :: id in s.registry ==>
      exists r :: r in s.registrations && !s.registrations[r].phase.Numbered? && Id(s, s.registrations[r].serial) == id
  }

  lemma KeysKept(s: State, l: Label)
    requires Valid(s) && KeysOk(s) && Enabled(s, l)
    ensures KeysOk(Apply(s, l))
  {
    var s' := Apply(s, l);
    forall id | id in s'.registry
      ensures exists r :: r in s'.registrations && !s'.registrations[r].phase.Numbered? &&
                          Id(s', s'.registrations[r].serial) == id
    {
      var r :| (id in s.registry && r in s.registrations && !s.registrations[r].phase.Numbered? &&
                Id(s, s.registrations[r].serial) == id) ||
               (l == Insert(r) && Id(s, s.registrations[r].serial) == id);
      assert r in s'.registrations && !s'.registrations[r].phase.Numbered?;
    }
  }

  /** A registration stores its closure under an id that no entry has. */
  lemma NewEntry(s: State, r: Task)
    requires Inv(s) && KeysOk(s) && s.counter <= s.ids && InPhase(s, r, Numbered)
    ensures Id(s, s.registrations[r].serial) !in s.registry
  {
    var id := Id(s, s.registrations[r].serial);
    if id in s.registry {
      var q :| q in s.registrations && !s.registrations[q].phase.Numbered? && Id(s, s.registrations[q].serial) == id;
      IdsApart(s, s.registrations[q].serial, s.registrations[r].serial);
    }
  }

  /** The change in the number of entries that a step makes. */
  function EntriesBy(l: Label): int {
    if l.Insert? then 1 else if l.Delete? then -1 else 0
  }

  function TokensBy(l: Label): int {
    if l.Allocate? then 1 else if l.Free? then -1 else 0
  }

  function DrawsBy(l: Label): int {
    if l.Draw? then 1 else 0
  }

  lemma SizeWith<K, V>(m: map<K, V>, k: K, v: V)
    ensures |m[k := v]| == |m| + if k in m then 0 else 1
  {
    assert m[k := v].Keys == m.Keys + {k};
  }

  lemma SizeWithout<K, V>(m: map<K, V>, k: K)
    requires k in m
    ensures |m - {k}| == |m| - 1
  {
    assert (m - {k}).Keys == m.Keys - {k};
  }

  lemma EntriesCount(s: State, l: Label)
    requires Inv(s) && KeysOk(s) && s.counter <= s.ids && Enabled(s, l)
    ensures |Apply(s, l).registry| == |s.registry| + EntriesBy(l)
  {
    if l.Insert? {
      NewEntry(s, l.r);
      SizeWith(s.registry, Id(s, s.registrations[l.r].serial), s.registrations[l.r].closure);
    }
    if l.Delete? {
      assert TokenOk(s, l.address);
      SizeWithout(s.registry, s.tokens[l.address].id);
    }
  }

  lemma TokensCount(s: State, l: Label)
    requires Enabled(s, l)
    ensures |Apply(s, l).tokens| == |s.tokens| + TokensBy(l)
  {
    var tokens' := Apply(s, l).tokens;
    match l
    case Allocate(_, a) => SizeWith(s.tokens, a, tokens'[a]);
    case BeginUnregister(a) => SizeWith(s.tokens, a, tokens'[a]);
    case Delete(a) => SizeWith(s.tokens, a, tokens'[a]);
    case Free(a) => SizeWithout(s.tokens, a);
    case _ =>
  }

  function Sum(ls: seq<Label>, change: Label -> int): int {
    if ls == [] then 0 else change(ls[0]) + Sum(ls[1..], change)
  }

  lemma {:induction false} RunCounts(s: State, ls: seq<Label>)
    requires Inv(s) && KeysOk(s) && IsRun(s, ls) && After(s, ls).counter <= s.ids
    ensures |After(s, ls).registry| == |s.registry| + Sum(ls, EntriesBy)
    ensures |After(s, ls).tokens| == |s.tokens| + Sum(ls, TokensBy)
    ensures After(s, ls).counter == s.counter + Sum(ls, DrawsBy)
    decreases |ls|
  {
    if ls != [] {
      CounterGrows(s, ls);
      CounterGrows(Apply(s, ls[0]), ls[1..]);
      StepKept(s, ls[0]);
      KeysKept(s, ls[0]);
      EntriesCount(s, ls[0]);
      TokensCount(s, ls[0]);
      RunCounts(Apply(s, ls[0]), ls[1..]);
    }
  }

  /**
   After any run the map has one entry for every stored closure whose token was not deleted, failed
   allocations included, C memory holds one token for every allocation that was not freed, and the
   counter is the number of registrations begun.
   */
  lemma Conservation(ids: nat, ls: seq<Label>)
    requires ids > 0 && IsRun(Start(ids), ls) && After(Start(ids), ls).counter <= ids
    ensures |After(Start(ids), ls).registry| == Sum(ls, EntriesBy)
    ensures |After(Start(ids), ls).tokens| == Sum(ls, TokensBy)
    ensures After(Start(ids), ls).counter == Sum(ls, DrawsBy)
  {
    RunCounts(Start(ids), ls);
  }
}
