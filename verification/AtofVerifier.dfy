/**
 The lifecycle-log validator of the quickstart checker (`scripts/check-quickstarts.py`,
 `verify_atof`). Parsing a line and recognizing a UUID are inputs; every exception is a refusal.
 */
module AtofVerifier {
  /** A JSON value as far as the validator looks at it. */
  datatype Value = Null | Str(text: string) | Other(identity: nat)

  type Fields = map<string, Value>

  /** One line of the log after `json.loads`. */
  datatype Line = Malformed | NotAnObject | Object(fields: Fields)

  /** The success criteria of a page; `uuids` are the strings that `UUID` accepts. */
  datatype Criteria = Criteria(version: Value, pairedScopes: seq<Fields>, marks: seq<string>, uuids: set<string>)

  // ----- The rules for one event --------------------------------------------------------

  /** The event has the key, with this value. */
  ghost predicate Carries(event: Fields, key: string, v: Value) {
    key in event && event[key] == v
  }

  /** The event has the key with a value other than null. */
  ghost predicate Sets(event: Fields, key: string) {
    key in event && event[key] != Null
  }

  /** The value under the key is a UUID. */
  ghost predicate CarriesUuid(c: Criteria, event: Fields, key: string) {
    exists uuid :: uuid in c.uuids && Carries(event, key, Str(uuid))
  }

  ghost predicate CarriesText(event: Fields, key: string) {
    key in event && event[key].Str?
  }

  /** Looking up the key gives `v`, where a missing key is as good as null. */
  ghost predicate LooksUp(event: Fields, key: string, v: Value) {
    if v == Null then !Sets(event, key) else Carries(event, key, v)
  }

  ghost predicate ScopeOk(event: Fields) {
    && (Carries(event, "scope_category", Str("start")) || Carries(event, "scope_category", Str("end")))
    && CarriesText(event, "category")
  }

  ghost predicate EventOk(c: Criteria, event: Fields) {
    && LooksUp(event, "atof_version", c.version)
    && (Carries(event, "kind", Str("scope")) || Carries(event, "kind", Str("mark")))
    && CarriesUuid(c, event, "uuid")
    && (Carries(event, "parent_uuid", Null) || CarriesUuid(c, event, "parent_uuid"))
    && CarriesText(event, "name") && !Carries(event, "name", Str(""))
    && Sets(event, "timestamp")
    && (Carries(event, "kind", Str("scope")) ==> ScopeOk(event))
  }

  ghost predicate LineOk(c: Criteria, line: Line) {
    line.Object? && EventOk(c, line.fields)
  }

  /** Both events have the same value under the key, or neither has one. */
  ghost predicate AgreeOn(start: Fields, end: Fields, key: string) {
    forall v: Value :: v != Null ==> (Carries(start, key, v) <==> Carries(end, key, v))
  }

  ghost predicate SameIdentity(start: Fields, end: Fields) {
    AgreeOn(start, end, "name") && AgreeOn(start, end, "category") && AgreeOn(start, end, "parent_uuid")
  }

  ghost predicate Matches(event: Fields, selector: Fields) {
    forall key :: key in selector ==> LooksUp(event, key, selector[key])
  }

  // ----- The rules for a log ------------------------------------------------------------

  /** The line is this phase of the scope `uuid`. */
  ghost predicate ScopeLine(line: Line, phase: string, uuid: string) {
    && line.Object?
    && Carries(line.fields, "kind", Str("scope"))
    && Carries(line.fields, "scope_category", Str(phase))
    && Carries(line.fields, "uuid", Str(uuid))
  }

  /** No two lines are the same phase of the same scope. */
  ghost predicate OncePerPhase(lines: seq<Line>) {
    forall i, j, phase, uuid :: 0 <= i < j < |lines| && ScopeLine(lines[i], phase, uuid)
                                ==> !ScopeLine(lines[j], phase, uuid)
  }

  /** Line `i` starts a scope that line `j` ends. */
  ghost predicate Pair(lines: seq<Line>, i: int, j: int) {
    && 0 <= i < |lines| && 0 <= j < |lines|
    && exists uuid :: ScopeLine(lines[i], "start", uuid) && ScopeLine(lines[j], "end", uuid)
  }

  ghost predicate IdentitiesMatch(lines: seq<Line>) {
    forall i, j :: Pair(lines, i, j) ==> SameIdentity(lines[i].fields, lines[j].fields)
  }

  ghost predicate HasPair(lines: seq<Line>, selector: Fields) {
    exists i, j :: Pair(lines, i, j) && Matches(lines[j].fields, selector)
  }

  ghost predicate IsMark(line: Line, name: string) {
    line.Object? && Carries(line.fields, "kind", Str("mark")) && Carries(line.fields, "name", Str(name))
  }

  ghost predicate HasMark(lines: seq<Line>, name: string) {
    exists i :: 0 <= i < |lines| && IsMark(lines[i], name)
  }

  ghost predicate LogOk(c: Criteria, lines: seq<Line>) {
    && lines != []
    && (forall i :: 0 <= i < |lines| ==> LineOk(c, lines[i]))
    && OncePerPhase(lines) && IdentitiesMatch(lines)
    && (forall k :: 0 <= k < |c.pairedScopes| ==> HasPair(lines, c.pairedScopes[k]))
    && (forall k :: 0 <= k < |c.marks| ==> HasMark(lines, c.marks[k]))
  }

  // ----- verify_atof --------------------------------------------------------------------

  /** `event.get(key)` */
  function Get(event: Fields, key: string): Value {
    if key in event then event[key] else Null
  }

  lemma GetLooksUp(event: Fields, key: string, v: Value)
    ensures LooksUp(event, key, v) <==> Get(event, key) == v
  {
  }

  /** The parent is null or a UUID. */
  method CheckParent(c: Criteria, event: Fields) returns (ok: bool)
    ensures ok <==> Carries(event, "parent_uuid", Null) || CarriesUuid(c, event, "parent_uuid")
  {
    if "parent_uuid" !in event { return false; }
    if event["parent_uuid"] == Null { return true; }
    return event["parent_uuid"].Str? && event["parent_uuid"].text in c.uuids;
  }

  method CheckScope(event: Fields) returns (ok: bool)
    ensures ok <==> ScopeOk(event)
  {
    if Get(event, "scope_category") !in {Str("start"), Str("end")} { return false; }
    return Get(event, "category").Str?;
  }

  /** The body of the first loop, up to the dictionaries. */
  method CheckLine(c: Criteria, line: Line) returns (ok: bool)
    ensures ok <==> LineOk(c, line)
  {
    if !line.Object? { return false; }
    var event := line.fields;
    GetLooksUp(event, "atof_version", c.version);
    if Get(event, "atof_version") != c.version { return false; }
    if Get(event, "kind") !in {Str("scope"), Str("mark")} { return false; }
    if !Get(event, "uuid").Str? { return false; }
    if event["uuid"].text !in c.uuids { return false; }
    var parent := CheckParent(c, event);
    if !parent { return false; }
    if !(Get(event, "name").Str? && event["name"].text != "") { return false; }
    if Get(event, "timestamp") == Null { return false; }
    if event["kind"] == Str("scope") {
      ok := CheckScope(event);
      return;
    }
    return true;
  }

  /** The dictionary holds exactly the events of `phase` among the first `n` lines. */
  ghost predicate Collected(target: map<string, Fields>, lines: seq<Line>, n: int, phase: string)
    requires 0 <= n <= |lines|
  {
    && (forall i, uuid :: 0 <= i < n && ScopeLine(lines[i], phase, uuid) ==>
          uuid in target && target[uuid] == lines[i].fields)
    && (forall uuid :: uuid in target ==> exists i :: 0 <= i < n && ScopeLine(lines[i], phase, uuid))
  }

  lemma CollectOne(target: map<string, Fields>, lines: seq<Line>, n: nat, phase: string, uuid: string)
    requires n < |lines| && Collected(target, lines, n, phase)
    requires ScopeLine(lines[n], phase, uuid) && uuid !in target
    ensures Collected(target[uuid := lines[n].fields], lines, n + 1, phase)
  {
    var target' := target[uuid := lines[n].fields];
    forall u | u in target' ensures exists i :: 0 <= i < n + 1 && ScopeLine(lines[i], phase, u) {
      if u == uuid {
        assert ScopeLine(lines[n], phase, u);
      } else {
        var i :| 0 <= i < n && ScopeLine(lines[i], phase, u);
        assert 0 <= i < n + 1;
      }
    }
  }

  lemma CollectNone(target: map<string, Fields>, lines: seq<Line>, n: nat, phase: string)
    requires n < |lines| && Collected(target, lines, n, phase)
    requires forall uuid :: !ScopeLine(lines[n], phase, uuid)
    ensures Collected(target, lines, n + 1, phase)
  {
    forall u | u in target ensures exists i :: 0 <= i < n + 1 && ScopeLine(lines[i], phase, u) {
      var i :| 0 <= i < n && ScopeLine(lines[i], phase, u);
      assert 0 <= i < n + 1;
    }
  }

  /** The first `n` lines repeat no phase, and their scope events are in the dictionaries. */
  ghost predicate Recorded(lines: seq<Line>, n: nat, starts: map<string, Fields>, ends: map<string, Fields>) {
    && n <= |lines| && OncePerPhase(lines[..n])
    && Collected(starts, lines, n, "start") && Collected(ends, lines, n, "end")
  }

  lemma AllRecorded(lines: seq<Line>, starts: map<string, Fields>, ends: map<string, Fields>)
    requires Recorded(lines, |lines|, starts, ends)
    ensures OncePerPhase(lines)
  {
    assert lines[..|lines|] == lines;
  }

  /** The event of line `n` goes into the dictionary of its phase, where its UUID must be new. */
  method Record(ghost c: Criteria, lines: seq<Line>, n: nat, starts: map<string, Fields>, ends: map<string, Fields>)
    returns (ok: bool, starts': map<string, Fields>, ends': map<string, Fields>)
    requires n < |lines| && LineOk(c, lines[n]) && Recorded(lines, n, starts, ends)
    ensures if ok then Recorded(lines, n + 1, starts', ends') else !OncePerPhase(lines)
  {
    starts', ends' := starts, ends;
    var event := lines[n].fields;
    var uuid := event["uuid"].text;
    if event["kind"] == Str("scope") {
      if event["scope_category"] == Str("start") {
        if uuid in starts {
          Repeated(starts, lines, n, "start", uuid);
          return false, starts, ends;
        }
        CollectOne(starts, lines, n, "start", uuid);
        CollectNone(ends, lines, n, "end");
        starts' := starts[uuid := event];
      } else {
        if uuid in ends {
          Repeated(ends, lines, n, "end", uuid);
          return false, starts, ends;
        }
        CollectOne(ends, lines, n, "end", uuid);
        CollectNone(starts, lines, n, "start");
        ends' := ends[uuid := event];
      }
    } else {
      CollectNone(starts, lines, n, "start");
      CollectNone(ends, lines, n, "end");
    }
    Extended(starts, ends, lines, n);
    return true, starts', ends';
  }

  /** The first loop: every event is checked, and scopes are collected by phase. */
  method Collect(c: Criteria, lines: seq<Line>)
    returns (ok: bool, starts: map<string, Fields>, ends: map<string, Fields>)
    ensures ok <==> (forall i :: 0 <= i < |lines| ==> LineOk(c, lines[i])) && OncePerPhase(lines)
    ensures ok ==> Collected(starts, lines, |lines|, "start") && Collected(ends, lines, |lines|, "end")
  {
    starts, ends := map[], map[];
    var n := 0;
    while n < |lines|
      invariant 0 <= n <= |lines|
      invariant forall i :: 0 <= i < n ==> LineOk(c, lines[i])
      invariant Recorded(lines, n, starts, ends)
    {
      ok := CheckLine(c, lines[n]);
      if !ok { return; }
      ok, starts, ends := Record(c, lines, n, starts, ends);
      if !ok { return; }
      n := n + 1;
    }
    AllRecorded(lines, starts, ends);
    return true, starts, ends;
  }

  lemma Repeated(target: map<string, Fields>, lines: seq<Line>, n: nat, phase: string, uuid: string)
    requires n < |lines| && Collected(target, lines, n, phase)
    requires ScopeLine(lines[n], phase, uuid) && uuid in target
    ensures !OncePerPhase(lines)
  {
    var i :| 0 <= i < n && ScopeLine(lines[i], phase, uuid);
    assert ScopeLine(lines[n], phase, uuid);
  }

  /** A line whose phase was not collected before keeps phases unique. */
  lemma Extended(starts: map<string, Fields>, ends: map<string, Fields>, lines: seq<Line>, n: nat)
    requires n < |lines| && OncePerPhase(lines[..n])
    requires Collected(starts, lines, n, "start") && Collected(ends, lines, n, "end")
    requires forall phase, uuid :: ScopeLine(lines[n], phase, uuid) ==> phase == "start" || phase == "end"
    requires forall uuid :: ScopeLine(lines[n], "start", uuid) ==> uuid !in starts
    requires forall uuid :: ScopeLine(lines[n], "end", uuid) ==> uuid !in ends
    ensures OncePerPhase(lines[..n + 1])
  {
    var prefix := lines[..n + 1];
    forall i, j, p, u | 0 <= i < j < n + 1 && ScopeLine(prefix[i], p, u) ensures !ScopeLine(prefix[j], p, u) {
      if j < n {
        assert lines[..n][i] == prefix[i] && lines[..n][j] == prefix[j];
      } else {
        assert prefix[i] == lines[i] && prefix[j] == lines[n];
      }
    }
  }

  ghost predicate InBoth(starts: map<string, Fields>, ends: map<string, Fields>, uuid: string) {
    uuid in starts && uuid in ends
  }

  /** `end` is the end event of a scope whose start was seen too. */
  ghost predicate Closed(starts: map<string, Fields>, ends: map<string, Fields>, end: Fields) {
    exists uuid :: InBoth(starts, ends, uuid) && ends[uuid] == end
  }

  ghost predicate AllAgree(starts: map<string, Fields>, ends: map<string, Fields>) {
    forall uuid :: InBoth(starts, ends, uuid) ==> SameIdentity(starts[uuid], ends[uuid])
  }

  lemma GetAgrees(start: Fields, end: Fields, key: string)
    ensures AgreeOn(start, end, key) <==> Get(start, key) == Get(end, key)
  {
    if AgreeOn(start, end, key) {
      var a, b := Get(start, key), Get(end, key);
      assert a != Null ==> (Carries(start, key, a) <==> Carries(end, key, a));
      assert b != Null ==> (Carries(start, key, b) <==> Carries(end, key, b));
    }
  }

  method Agree(start: Fields, end: Fields) returns (ok: bool)
    ensures ok <==> SameIdentity(start, end)
  {
    var keys := ["name", "category", "parent_uuid"];
    for i := 0 to |keys|
      invariant forall k :: 0 <= k < i ==> AgreeOn(start, end, keys[k])
    {
      GetAgrees(start, end, keys[i]);
      if Get(start, keys[i]) != Get(end, keys[i]) {
        assert !AgreeOn(start, end, keys[i]);
        return false;
      }
    }
    assert AgreeOn(start, end, keys[0]) && AgreeOn(start, end, keys[1]) && AgreeOn(start, end, keys[2]);
    return true;
  }

  /** The second loop: every end whose start was seen must agree with it. */
  method MatchPairs(starts: map<string, Fields>, ends: map<string, Fields>) returns (ok: bool, closed: seq<Fields>)
    ensures ok <==> AllAgree(starts, ends)
    ensures ok ==> forall event :: event in closed <==> Closed(starts, ends, event)
  {
    closed := [];
    var rest := ends.Keys;
    while rest != {}
      invariant rest <= ends.Keys
      invariant forall uuid :: InBoth(starts, ends, uuid) && uuid !in rest ==> SameIdentity(starts[uuid], ends[uuid])
      invariant forall uuid :: InBoth(starts, ends, uuid) && uuid !in rest ==> ends[uuid] in closed
      invariant forall event :: event in closed ==> Closed(starts, ends, event)
      decreases rest
    {
      var uuid :| uuid in rest;
      if uuid in starts {
        assert InBoth(starts, ends, uuid);
        ok := Agree(starts[uuid], ends[uuid]);
        if !ok { return; }
        closed := closed + [ends[uuid]];
      }
      rest := rest - {uuid};
    }
    return true, closed;
  }

  method MatchesAll(event: Fields, selector: Fields) returns (ok: bool)
    ensures ok <==> Matches(event, selector)
  {
    var rest := selector.Keys;
    while rest != {}
      invariant rest <= selector.Keys
      invariant forall key :: key in selector && key !in rest ==> LooksUp(event, key, selector[key])
      decreases rest
    {
      var key :| key in rest;
      GetLooksUp(event, key, selector[key]);
      if Get(event, key) != selector[key] { return false; }
      rest := rest - {key};
    }
    return true;
  }

  ghost predicate AnyOf(events: seq<Fields>, selector: Fields) {
    exists event :: event in events && Matches(event, selector)
  }

  method AnyMatches(events: seq<Fields>, selector: Fields) returns (found: bool)
    ensures found <==> AnyOf(events, selector)
  {
    for i := 0 to |events|
      invariant forall k :: 0 <= k < i ==> !Matches(events[k], selector)
    {
      found := MatchesAll(events[i], selector);
      if found { return; }
    }
    return false;
  }

  lemma CollectedPair(starts: map<string, Fields>, ends: map<string, Fields>, lines: seq<Line>, uuid: string)
    returns (i: int, j: int)
    requires Collected(starts, lines, |lines|, "start") && Collected(ends, lines, |lines|, "end")
    requires InBoth(starts, ends, uuid)
    ensures Pair(lines, i, j) && lines[i].fields == starts[uuid] && lines[j].fields == ends[uuid]
  {
    i :| 0 <= i < |lines| && ScopeLine(lines[i], "start", uuid);
    j :| 0 <= j < |lines| && ScopeLine(lines[j], "end", uuid);
  }

  lemma PairCollected(starts: map<string, Fields>, ends: map<string, Fields>, c: Criteria, lines: seq<Line>, i: int,
                      j: int)
    returns (uuid: string)
    requires Collected(starts, lines, |lines|, "start") && Collected(ends, lines, |lines|, "end")
    requires Pair(lines, i, j) && LineOk(c, lines[j])
    ensures InBoth(starts, ends, uuid) && lines[i].fields == starts[uuid] && lines[j].fields == ends[uuid]
  {
    uuid :| ScopeLine(lines[i], "start", uuid) && ScopeLine(lines[j], "end", uuid);
  }

  /** What the dictionaries say about the log. */
  lemma DictionariesTell(starts: map<string, Fields>, ends: map<string, Fields>, c: Criteria, lines: seq<Line>)
    requires Collected(starts, lines, |lines|, "start") && Collected(ends, lines, |lines|, "end")
    requires forall i :: 0 <= i < |lines| ==> LineOk(c, lines[i])
    ensures AllAgree(starts, ends) <==> IdentitiesMatch(lines)
  {
    if AllAgree(starts, ends) {
      forall i, j | Pair(lines, i, j) ensures SameIdentity(lines[i].fields, lines[j].fields) {
        var uuid := PairCollected(starts, ends, c, lines, i, j);
      }
    }
    if IdentitiesMatch(lines) {
      forall uuid | InBoth(starts, ends, uuid) ensures SameIdentity(starts[uuid], ends[uuid]) {
        var i, j := CollectedPair(starts, ends, lines, uuid);
      }
    }
  }

  lemma ClosedIsPaired(starts: map<string, Fields>, ends: map<string, Fields>, lines: seq<Line>, selector: Fields,
                       event: Fields)
    requires Collected(starts, lines, |lines|, "start") && Collected(ends, lines, |lines|, "end")
    requires Closed(starts, ends, event) && Matches(event, selector)
    ensures HasPair(lines, selector)
  {
    var uuid :| InBoth(starts, ends, uuid) && ends[uuid] == event;
    var i, j := CollectedPair(starts, ends, lines, uuid);
    assert Pair(lines, i, j) && Matches(lines[j].fields, selector);
  }

  lemma SelectorTells(starts: map<string, Fields>, ends: map<string, Fields>, c: Criteria, lines: seq<Line>,
                      selector: Fields)
    requires Collected(starts, lines, |lines|, "start") && Collected(ends, lines, |lines|, "end")
    requires forall i :: 0 <= i < |lines| ==> LineOk(c, lines[i])
    ensures HasPair(lines, selector) <==> exists event :: Closed(starts, ends, event) && Matches(event, selector)
  {
    if HasPair(lines, selector) {
      var i, j :| Pair(lines, i, j) && Matches(lines[j].fields, selector);
      var uuid := PairCollected(starts, ends, c, lines, i, j);
      assert Closed(starts, ends, lines[j].fields);
    }
    if exists event :: Closed(starts, ends, event) && Matches(event, selector) {
      var event :| Closed(starts, ends, event) && Matches(event, selector);
      ClosedIsPaired(starts, ends, lines, selector, event);
    }
  }

  /** A selector matches a closed event exactly if it matches a pair of the log. */
  ghost predicate ClosedTells(closed: seq<Fields>, lines: seq<Line>) {
    forall selector :: AnyOf(closed, selector) <==> HasPair(lines, selector)
  }

  lemma ClosedEventsTell(starts: map<string, Fields>, ends: map<string, Fields>, c: Criteria, lines: seq<Line>,
                         closed: seq<Fields>)
    requires Collected(starts, lines, |lines|, "start") && Collected(ends, lines, |lines|, "end")
    requires forall i :: 0 <= i < |lines| ==> LineOk(c, lines[i])
    requires forall event :: event in closed <==> Closed(starts, ends, event)
    ensures ClosedTells(closed, lines)
  {
    forall selector ensures AnyOf(closed, selector) <==> HasPair(lines, selector) {
      SelectorTells(starts, ends, c, lines, selector);
    }
  }

  method PairsFound(ghost lines: seq<Line>, closed: seq<Fields>, selectors: seq<Fields>) returns (found: bool)
    requires ClosedTells(closed, lines)
    ensures found <==> forall k :: 0 <= k < |selectors| ==> HasPair(lines, selectors[k])
  {
    for k := 0 to |selectors|
      invariant forall m :: 0 <= m < k ==> HasPair(lines, selectors[m])
    {
      found := AnyMatches(closed, selectors[k]);
      if !found { return; }
    }
    return true;
  }

  method MarkFound(ghost c: Criteria, lines: seq<Line>, name: string) returns (found: bool)
    requires forall i :: 0 <= i < |lines| ==> LineOk(c, lines[i])
    ensures found <==> HasMark(lines, name)
  {
    for i := 0 to |lines|
      invariant forall k :: 0 <= k < i ==> !IsMark(lines[k], name)
    {
      assert LineOk(c, lines[i]);
      var event := lines[i].fields;
      if event["kind"] == Str("mark") && event["name"] == Str(name) {
        assert IsMark(lines[i], name);
        return true;
      }
    }
    return false;
  }

  method MarksFound(ghost c: Criteria, lines: seq<Line>, names: seq<string>) returns (found: bool)
    requires forall i :: 0 <= i < |lines| ==> LineOk(c, lines[i])
    ensures found <==> forall k :: 0 <= k < |names| ==> HasMark(lines, names[k])
  {
    for k := 0 to |names|
      invariant forall m :: 0 <= m < k ==> HasMark(lines, names[m])
    {
      found := MarkFound(c, lines, names[k]);
      if !found { return; }
    }
    return true;
  }

  /** `verify_atof` accepts exactly the logs that obey the rules. */
  method VerifyAtof(c: Criteria, lines: seq<Line>) returns (ok: bool)
    ensures ok <==> LogOk(c, lines)
  {
    if lines == [] { return false; }
    var fine, starts, ends := Collect(c, lines);
    if !fine { return false; }
    DictionariesTell(starts, ends, c, lines);
    var matched, closed := MatchPairs(starts, ends);
    if !matched { return false; }
    ClosedEventsTell(starts, ends, c, lines, closed);
    var paired := PairsFound(lines, closed, c.pairedScopes);
    if !paired { return false; }
    ok := MarksFound(c, lines, c.marks);
  }

  // ----- Order does not matter ----------------------------------------------------------

  lemma SameLines(a: seq<Line>, b: seq<Line>)
    requires multiset(a) == multiset(b)
    ensures |a| == |b| && forall x :: x in a <==> x in b
  {
    assert |multiset(a)| == |a| && |multiset(b)| == |b|;
    forall x ensures x in a <==> x in b {
      assert x in a <==> x in multiset(a);
      assert x in b <==> x in multiset(b);
    }
  }

  /** Unique phases, said without positions. */
  ghost predicate OnceInBag(bag: multiset<Line>) {
    forall x, y, phase, uuid :: x in bag && y in bag && ScopeLine(x, phase, uuid) && ScopeLine(y, phase, uuid)
                                ==> x == y && bag[x] == 1
  }

  lemma TwiceInBag(lines: seq<Line>, i: nat, j: nat)
    requires i < j < |lines| && lines[i] == lines[j]
    ensures multiset(lines)[lines[i]] >= 2
  {
    var a, b := lines[..j], lines[j..];
    assert lines == a + b;
    assert a[i] in a && b[0] in b;
    assert multiset(a)[lines[i]] >= 1 && multiset(b)[lines[i]] >= 1;
  }

  lemma {:induction false} FirstPosition(lines: seq<Line>, x: Line) returns (i: nat)
    requires x in lines
    ensures i < |lines| && lines[i] == x && x !in lines[..i]
  {
    var n := |lines| - 1;
    if x in lines[..n] {
      i := FirstPosition(lines[..n], x);
      assert lines[..n][..i] == lines[..i];
    } else {
      i := n;
      assert lines == lines[..n] + [lines[n]];
    }
  }

  lemma CountAround(lines: seq<Line>, i: nat, x: Line)
    requires i < |lines| && lines[i] == x && x !in lines[..i]
    ensures multiset(lines)[x] == 1 + multiset(lines[i + 1..])[x]
  {
    var front, rest := lines[..i], lines[i + 1..];
    assert lines == front + ([x] + rest);
    assert multiset(lines) == multiset(front) + multiset([x] + rest);
    assert multiset([x] + rest) == multiset{x} + multiset(rest);
  }

  lemma TwiceBreaks(lines: seq<Line>, x: Line, phase: string, uuid: string)
    requires multiset(lines)[x] >= 2 && ScopeLine(x, phase, uuid)
    ensures !OncePerPhase(lines)
  {
    assert x in multiset(lines);
    var i := FirstPosition(lines, x);
    CountAround(lines, i, x);
    assert x in multiset(lines[i + 1..]);
    var k :| 0 <= k < |lines[i + 1..]| && lines[i + 1..][k] == x;
    assert ScopeLine(lines[i], phase, uuid) && ScopeLine(lines[i + 1 + k], phase, uuid);
  }

  lemma OnceForward(lines: seq<Line>, x: Line, y: Line, phase: string, uuid: string)
    requires OncePerPhase(lines) && x in lines && y in lines && ScopeLine(x, phase, uuid) && ScopeLine(y, phase, uuid)
    ensures x == y && multiset(lines)[x] == 1
  {
    var i :| 0 <= i < |lines| && lines[i] == x;
    var j :| 0 <= j < |lines| && lines[j] == y;
    assert i == j;
    assert x in multiset(lines);
    if multiset(lines)[x] >= 2 {
      TwiceBreaks(lines, x, phase, uuid);
    }
  }

  lemma OnceEitherWay(lines: seq<Line>)
    ensures OncePerPhase(lines) <==> OnceInBag(multiset(lines))
  {
    if OncePerPhase(lines) {
      forall x, y, phase, uuid | x in multiset(lines) && y in multiset(lines)
                                 && ScopeLine(x, phase, uuid) && ScopeLine(y, phase, uuid)
        ensures x == y && multiset(lines)[x] == 1
      {
        OnceForward(lines, x, y, phase, uuid);
      }
    }
    if OnceInBag(multiset(lines)) {
      forall i, j, phase, uuid | 0 <= i < j < |lines| && ScopeLine(lines[i], phase, uuid)
        ensures !ScopeLine(lines[j], phase, uuid)
      {
        assert lines[i] in multiset(lines) && lines[j] in multiset(lines);
        if lines[i] == lines[j] { TwiceInBag(lines, i, j); }
      }
    }
  }

  lemma PairMoves(a: seq<Line>, b: seq<Line>, i: int, j: int) returns (i': int, j': int)
    requires multiset(a) == multiset(b) && Pair(a, i, j)
    ensures Pair(b, i', j') && b[i'] == a[i] && b[j'] == a[j]
  {
    SameLines(a, b);
    assert a[i] in b && a[j] in b;
    i' :| 0 <= i' < |b| && b[i'] == a[i];
    j' :| 0 <= j' < |b| && b[j'] == a[j];
  }

  lemma OneWay(c: Criteria, a: seq<Line>, b: seq<Line>)
    requires multiset(a) == multiset(b) && LogOk(c, a)
    ensures LogOk(c, b)
  {
    SameLines(a, b);
    OnceEitherWay(a);
    OnceEitherWay(b);
    forall i | 0 <= i < |b| ensures LineOk(c, b[i]) {
      assert b[i] in a;
    }
    forall i, j | Pair(b, i, j) ensures SameIdentity(b[i].fields, b[j].fields) {
      var i', j' := PairMoves(b, a, i, j);
    }
    forall k | 0 <= k < |c.pairedScopes| ensures HasPair(b, c.pairedScopes[k]) {
      assert HasPair(a, c.pairedScopes[k]);
      var i, j :| Pair(a, i, j) && Matches(a[j].fields, c.pairedScopes[k]);
      var i', j' := PairMoves(a, b, i, j);
    }
    forall k | 0 <= k < |c.marks| ensures HasMark(b, c.marks[k]) {
      assert HasMark(a, c.marks[k]);
      var i :| 0 <= i < |a| && IsMark(a[i], c.marks[k]);
      assert a[i] in b;
    }
  }

  /** Reordering the lines of a log never changes the verdict. */
  lemma OrderDoesNotMatter(c: Criteria, a: seq<Line>, b: seq<Line>)
    requires multiset(a) == multiset(b)
    ensures LogOk(c, a) <==> LogOk(c, b)
  {
    if LogOk(c, a) { OneWay(c, a, b); }
    if LogOk(c, b) { OneWay(c, b, a); }
  }
}
