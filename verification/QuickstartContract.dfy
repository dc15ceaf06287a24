/**
 The contract of a quickstart page (`scripts/check-quickstarts.py`, `extract`): the scenario, the
 blocks that the scanner found, their metadata, and what they must say about each other in every shell.

 Parsing JSON, validating it against the schema and looking files up are inputs.
 */
module QuickstartContract {
  import opened Prelude
  import opened FenceScanner
  import opened PortablePath

  type Shell = string

  datatype Role = File | Run | Expected | Input | Manual

  /**
   `shells`: None if the block is for all shells. `background`: the stop_before of a background block,
   if it has one.
   */
  datatype Meta = Meta(
    id: string,
    role: Role,
    cwd: Option<string>,
    path: Option<string>,
    env: Option<string>,
    shells: Option<set<Shell>>,
    from: string,
    background: Option<Option<string>>)

  datatype InputSpec = EnvInput | PathInput(token: string) | ArgumentInput(token: string)

  datatype Check = Check(atof: bool, path: Option<string>)

  datatype Scenario = Scenario(
    id: string,
    shells: seq<Shell>,
    cwd: string,
    inputs: map<string, InputSpec>,
    checks: seq<Check>,
    freshPaths: seq<string>)

  /** The `src` of a component, and whether it leads to a file inside the directory of the page. */
  datatype Source = Source(path: string, present: bool)

  /**
   A page: its name, its scenario annotations (None if invalid), its lines, the valid metadata by
   annotation, and the language and the source by first line.
   */
  datatype Page = Page(
    stem: string,
    scenarios: seq<Option<Scenario>>,
    lines: seq<Line>,
    metas: map<nat, Meta>,
    languages: nat -> string,
    sources: nat -> Source)

  datatype Entry = Entry(block: Block, meta: Meta, language: string)

  // ----- The scenario and each block by itself ------------------------------------------

  /** A portable path, or one below a path input of the scenario. */
  ghost predicate ArtifactOf(sc: Scenario, path: string) {
    || Portable(path)
    || exists name :: name in sc.inputs && sc.inputs[name].PathInput? && BelowToken(path, sc.inputs[name].token)
  }

  ghost predicate CheckPathOk(sc: Scenario, check: Check) {
    check.path.Some? && ArtifactOf(sc, check.path.value)
  }

  ghost predicate ScenarioRules(page: Page, sc: Scenario) {
    && page.scenarios == [Some(sc)] && sc.id == page.stem && Portable(sc.cwd)
    && (exists check :: check in sc.checks && check.atof)
    && (forall check :: check in sc.checks ==> CheckPathOk(sc, check))
    && (forall path :: path in sc.freshPaths ==> ArtifactOf(sc, path))
  }

  /** What one block must satisfy by itself. */
  ghost predicate BlockRules(page: Page, sc: Scenario, e: Entry) {
    && (e.block.display.Tag? ==> SourceRules(page.sources(e.block.display.First()), e.meta.role))
    && e.meta.cwd.Some? && Portable(e.meta.cwd.value)
    && (e.meta.shells.Some? ==> forall v :: v in e.meta.shells.value ==> v in sc.shells)
    && match e.meta.role
       case File => e.meta.path.Some? && Portable(e.meta.path.value)
       case Run => e.language in {"bash", "powershell"}
       case Input => e.meta.env.Some? && e.meta.env.value in sc.inputs && sc.inputs[e.meta.env.value].EnvInput?
       case Expected => e.language == "text"
       case Manual => true
  }

  ghost predicate SourceRules(source: Source, role: Role) {
    role.File? && Portable(source.path) && source.present
  }

  ghost predicate EntryOf(page: Page, sc: Scenario, b: Block, e: Entry) {
    && e.block == b && b.annotation < |page.lines| && page.lines[b.annotation].Annotation?
    && page.lines[b.annotation].meta in page.metas && e.meta == page.metas[page.lines[b.annotation].meta]
    && e.language == page.languages(b.display.First()) && BlockRules(page, sc, e)
  }

  /** `entries` are the blocks of the page with their metadata, each in order by itself. */
  ghost predicate EntriesOf(page: Page, sc: Scenario, entries: seq<Entry>) {
    && |entries| == |Scan(page.lines, 0)|
    && forall k :: 0 <= k < |entries| ==>
         && BlockOf(page.lines, Scan(page.lines, 0), k, entries[k].block)
         && EntryOf(page, sc, entries[k].block, entries[k])
  }

  // ----- The blocks of one shell --------------------------------------------------------

  /** The block names the shell, or names none and the scenario has it. */
  ghost predicate Serves(sc: Scenario, e: Entry, shell: Shell) {
    (e.meta.shells.Some? && shell in e.meta.shells.value) || (e.meta.shells.None? && shell in sc.shells)
  }

  ghost predicate Increasing(at: seq<nat>) {
    forall i, j :: 0 <= i < j < |at| ==> at[i] < at[j]
  }

  /** `at` are the positions, in page order, of the blocks for the shell. */
  ghost predicate PositionsOf(sc: Scenario, entries: seq<Entry>, shell: Shell, at: seq<nat>) {
    Increasing(at) && forall i: nat :: i in at <==> i < |entries| && Serves(sc, entries[i], shell)
  }

  ghost predicate Picks(entries: seq<Entry>, at: seq<nat>, sel: seq<Entry>) {
    |sel| == |at| && forall k :: 0 <= k < |at| ==> at[k] < |entries| && sel[k] == entries[at[k]]
  }

  /** `sel` are the blocks for the shell, in page order. */
  ghost predicate Selected(sc: Scenario, entries: seq<Entry>, shell: Shell, sel: seq<Entry>) {
    exists at :: PositionsOf(sc, entries, shell, at) && Picks(entries, at, sel)
  }

  ghost predicate SameElements(a: seq<nat>, b: seq<nat>) {
    forall i: nat :: i in a <==> i in b
  }

  lemma LastIsGreatest(at: seq<nat>, i: nat)
    requires Increasing(at) && i in at
    ensures i <= at[|at| - 1] && (i in at[..|at| - 1] <==> i < at[|at| - 1])
  {
    var k :| 0 <= k < |at| && at[k] == i;
    if k < |at| - 1 { assert at[..|at| - 1][k] == i; }
  }

  lemma SameLast(a: seq<nat>, b: seq<nat>)
    requires a != [] && b != [] && Increasing(a) && Increasing(b) && SameElements(a, b)
    ensures a[|a| - 1] == b[|b| - 1] && SameElements(a[..|a| - 1], b[..|b| - 1])
  {
    LastIsGreatest(a, b[|b| - 1]);
    LastIsGreatest(b, a[|a| - 1]);
    var a', b' := a[..|a| - 1], b[..|b| - 1];
    forall i: nat ensures i in a' <==> i in b' {
      if i in a { LastIsGreatest(a, i); }
      if i in b { LastIsGreatest(b, i); }
    }
  }

  lemma {:induction false} SamePositions(a: seq<nat>, b: seq<nat>)
    requires Increasing(a) && Increasing(b) && SameElements(a, b)
    ensures a == b
  {
    assert a == [] || a[0] in b;
    assert b == [] || b[0] in a;
    if a != [] && b != [] {
      SameLast(a, b);
      SamePositions(a[..|a| - 1], b[..|b| - 1]);
      assert a == a[..|a| - 1] + [a[|a| - 1]] && b == b[..|b| - 1] + [b[|b| - 1]];
    }
  }

  lemma OneSelection(sc: Scenario, entries: seq<Entry>, shell: Shell, a: seq<Entry>, b: seq<Entry>)
    requires Selected(sc, entries, shell, a) && Selected(sc, entries, shell, b)
    ensures a == b
  {
    var p :| PositionsOf(sc, entries, shell, p) && Picks(entries, p, a);
    var q :| PositionsOf(sc, entries, shell, q) && Picks(entries, q, b);
    SamePositions(p, q);
  }

  /** `at` are the positions among the first `n` blocks. */
  ghost predicate PositionsUpTo(sc: Scenario, entries: seq<Entry>, n: nat, shell: Shell, at: seq<nat>) {
    n <= |entries| && Increasing(at) && forall i: nat :: i in at <==> i < n && Serves(sc, entries[i], shell)
  }

  lemma Taken(sc: Scenario, entries: seq<Entry>, n: nat, shell: Shell, at: seq<nat>)
    requires n < |entries| && PositionsUpTo(sc, entries, n, shell, at) && Serves(sc, entries[n], shell)
    ensures PositionsUpTo(sc, entries, n + 1, shell, at + [n])
  {
    var more := at + [n];
    assert forall k :: 0 <= k < |at| ==> more[k] == at[k] && at[k] in at;
  }

  lemma Picked(entries: seq<Entry>, at: seq<nat>, sel: seq<Entry>, n: nat)
    requires Picks(entries, at, sel) && n < |entries|
    ensures Picks(entries, at + [n], sel + [entries[n]])
  {
  }

  lemma Passed(sc: Scenario, entries: seq<Entry>, n: nat, shell: Shell, at: seq<nat>)
    requires n < |entries| && PositionsUpTo(sc, entries, n, shell, at) && !Serves(sc, entries[n], shell)
    ensures PositionsUpTo(sc, entries, n + 1, shell, at)
  {
  }

  /** The blocks whose shells, or else the scenario's, contain the shell. */
  method Select(sc: Scenario, entries: seq<Entry>, shell: Shell) returns (sel: seq<Entry>)
    ensures Selected(sc, entries, shell, sel)
  {
    sel := [];
    ghost var at: seq<nat> := [];
    for n := 0 to |entries|
      invariant PositionsUpTo(sc, entries, n, shell, at) && Picks(entries, at, sel)
    {
      if (entries[n].meta.shells.Some? && shell in entries[n].meta.shells.value) ||
         (entries[n].meta.shells.None? && shell in sc.shells)
      {
        Taken(sc, entries, n, shell, at);
        Picked(entries, at, sel, n);
        sel, at := sel + [entries[n]], at + [n];
      } else {
        Passed(sc, entries, n, shell, at);
      }
    }
    assert PositionsOf(sc, entries, shell, at);
  }

  // ----- What the blocks of one shell must say about each other -------------------------

  /** No two blocks share an identifier. */
  ghost predicate DistinctIds(sel: seq<Entry>) {
    forall i, j :: 0 <= i < j < |sel| ==> sel[i].meta.id != sel[j].meta.id
  }

  predicate NamesCommand(sel: seq<Entry>, id: string) {
    exists e :: e in sel && e.meta.role.Run? && e.meta.id == id
  }

  ghost predicate OnlyExpected(sel: seq<Entry>, k: nat) {
    && k < |sel| && sel[k].meta.role.Expected?
    && forall j :: 0 <= j < |sel| && sel[j].meta.role.Expected? ==> j == k
  }

  ghost predicate OutputOk(sel: seq<Entry>) {
    exists k: nat :: OnlyExpected(sel, k) && NamesCommand(sel, sel[k].meta.from)
  }

  predicate StopsAtCommand(sel: seq<Entry>, e: Entry) {
    e.meta.background.Some? ==> e.meta.background.value.Some? && NamesCommand(sel, e.meta.background.value.value)
  }

  ghost predicate SelectionOk(sel: seq<Entry>) {
    DistinctIds(sel) && OutputOk(sel) && forall e :: e in sel ==> StopsAtCommand(sel, e)
  }

  // ----- The checks as the source makes them --------------------------------------------

  ghost predicate Distinct(ids: seq<string>) {
    forall i, j :: 0 <= i < j < |ids| ==> ids[i] != ids[j]
  }

  lemma DistinctSnoc(front: seq<string>, last: string)
    ensures Distinct(front + [last]) <==> Distinct(front) && last !in front
  {
    var all := front + [last];
    assert forall i :: 0 <= i < |front| ==> all[i] == front[i];
    if Distinct(all) {
      assert forall i :: 0 <= i < |front| ==> all[i] != all[|front|];
    }
  }

  /** As many different identifiers as blocks: no two blocks share one. */
  lemma {:induction false} CountsDistinct(ids: seq<string>)
    ensures |set id | id in ids| <= |ids|
    ensures |set id | id in ids| == |ids| <==> Distinct(ids)
  {
    if ids != [] {
      var front, last := ids[..|ids| - 1], ids[|ids| - 1];
      assert ids == front + [last];
      CountsDistinct(front);
      DistinctSnoc(front, last);
      assert (set id | id in ids) == (set id | id in front) + {last};
    }
  }

  function Ids(sel: seq<Entry>): seq<string> {
    seq(|sel|, i requires 0 <= i < |sel| => sel[i].meta.id)
  }

  lemma IdsDistinct(sel: seq<Entry>)
    ensures Distinct(Ids(sel)) <==> DistinctIds(sel)
  {
    assert forall i :: 0 <= i < |sel| ==> Ids(sel)[i] == sel[i].meta.id;
    if Distinct(Ids(sel)) {
      forall i, j | 0 <= i < j < |sel| ensures sel[i].meta.id != sel[j].meta.id {
        assert Ids(sel)[i] != Ids(sel)[j];
      }
    }
  }

  function ExpectedOf(sel: seq<Entry>): seq<Entry> {
    if sel == [] then []
    else (if sel[0].meta.role.Expected? then [sel[0]] else []) + ExpectedOf(sel[1..])
  }

  lemma {:induction false} NoneExpected(sel: seq<Entry>)
    ensures ExpectedOf(sel) == [] <==> forall j :: 0 <= j < |sel| ==> !sel[j].meta.role.Expected?
  {
    if sel != [] {
      NoneExpected(sel[1..]);
      assert forall j :: 0 < j < |sel| ==> sel[j] == sel[1..][j - 1];
    }
  }

  /** The list of expected outputs has one element exactly if there is one such block. */
  lemma {:induction false} OneExpected(sel: seq<Entry>)
    ensures |ExpectedOf(sel)| == 1 <==> exists k: nat :: OnlyExpected(sel, k)
    ensures forall k: nat :: OnlyExpected(sel, k) ==> ExpectedOf(sel) == [sel[k]]
  {
    if sel != [] {
      var rest := sel[1..];
      OneExpected(rest);
      NoneExpected(rest);
      assert forall j :: 0 < j < |sel| ==> sel[j] == rest[j - 1];
      if sel[0].meta.role.Expected? {
        if ExpectedOf(rest) == [] { assert OnlyExpected(sel, 0); }
        forall k: nat | OnlyExpected(sel, k) ensures k == 0 && ExpectedOf(rest) == [] {
        }
      } else {
        forall k: nat | OnlyExpected(rest, k) ensures OnlyExpected(sel, k + 1) {
        }
        forall k: nat | OnlyExpected(sel, k) ensures k > 0 && OnlyExpected(rest, k - 1) {
        }
      }
    }
  }

  /** The checks of one shell. */
  method CheckSelection(sel: seq<Entry>) returns (ok: bool)
    ensures ok <==> SelectionOk(sel)
  {
    var ids := Ids(sel);
    CountsDistinct(ids);
    IdsDistinct(sel);
    if |ids| != |set id | id in ids| { return false; }
    var expected := ExpectedOf(sel);
    OneExpected(sel);
    if |expected| != 1 { return false; }
    var commands := set e | e in sel && e.meta.role.Run? :: e.meta.id;
    assert forall id :: id in commands <==> NamesCommand(sel, id);
    if expected[0].meta.from !in commands { return false; }
    for i := 0 to |sel|
      invariant forall j :: 0 <= j < i ==> StopsAtCommand(sel, sel[j])
    {
      var background := sel[i].meta.background;
      if background.Some? && (background.value.None? || background.value.value !in commands) {
        assert !StopsAtCommand(sel, sel[i]);
        return false;
      }
    }
    return true;
  }

  // ----- extract ------------------------------------------------------------------------

  ghost predicate ShellOk(sc: Scenario, entries: seq<Entry>, shell: Shell) {
    exists sel :: Selected(sc, entries, shell, sel) && SelectionOk(sel)
  }

  /** The page is well formed, its scenario and its blocks are in order, and so is the selection of every shell. */
  ghost predicate ContractOk(page: Page, sc: Scenario, entries: seq<Entry>) {
    && ScenarioRules(page, sc) && PageOk(page.lines) && EntriesOf(page, sc, entries)
    && forall v :: v in sc.shells ==> ShellOk(sc, entries, v)
  }

  lemma SameBlock(lines: seq<Line>, ds: seq<Display>, k: nat, a: Block, b: Block)
    requires BlockOf(lines, ds, k, a) && BlockOf(lines, ds, k, b)
    ensures a == b
  {
    var gap, at := Gap(lines, ds, k), b.annotation - GapStart(ds, k);
    assert AnnotatedBy(gap, at) && BeginsAnnotation(gap[at]);
  }

  /** A page has at most one list of entries. */
  lemma OneList(page: Page, sc: Scenario, a: seq<Entry>, b: seq<Entry>)
    requires EntriesOf(page, sc, a) && EntriesOf(page, sc, b)
    ensures a == b
  {
    forall k | 0 <= k < |a| ensures a[k] == b[k] {
      SameBlock(page.lines, Scan(page.lines, 0), k, a[k].block, b[k].block);
    }
  }

  /** Whatever the entries of a page are, they contain its `k`-th block. */
  lemma EntryThere(page: Page, sc: Scenario, entries: seq<Entry>, k: nat, b: Block)
    requires EntriesOf(page, sc, entries) && BlockOf(page.lines, Scan(page.lines, 0), k, b)
    ensures EntryOf(page, sc, b, entries[k])
  {
    SameBlock(page.lines, Scan(page.lines, 0), k, entries[k].block, b);
  }

  /** The checks of the scenario that do not look at blocks. */
  method CheckScenario(page: Page) returns (r: Option<Scenario>)
    ensures forall sc :: r == Some(sc) <==> ScenarioRules(page, sc)
  {
    if |page.scenarios| != 1 || page.scenarios[0].None? { return None; }
    var sc := page.scenarios[0].value;
    assert forall other :: page.scenarios == [Some(other)] ==> other == sc;
    assert page.scenarios == [Some(sc)];
    if sc.id != page.stem { return None; }
    var portable := RelativePath(sc.cwd);
    if !portable { return None; }
    if !(exists check :: check in sc.checks && check.atof) { return None; }
    var paths := CheckPaths(sc);
    if !paths { return None; }
    return Some(sc);
  }

  /** `text.get(key, "")` */
  function OrEmpty(text: Option<string>): string {
    if text.Some? then text.value else ""
  }

  /** The tokens of the path inputs. */
  function Tokens(sc: Scenario): set<string> {
    set name | name in sc.inputs && sc.inputs[name].PathInput? :: sc.inputs[name].token
  }

  lemma TokensDecide(sc: Scenario, path: string)
    ensures Artifact(path, Tokens(sc)) <==> ArtifactOf(sc, path)
  {
    if exists token :: token in Tokens(sc) && BelowToken(path, token) {
      var token :| token in Tokens(sc) && BelowToken(path, token);
      var name :| name in sc.inputs && sc.inputs[name].PathInput? && sc.inputs[name].token == token;
      assert BelowToken(path, sc.inputs[name].token);
    }
    if exists name :: name in sc.inputs && sc.inputs[name].PathInput? && BelowToken(path, sc.inputs[name].token) {
      var name :| name in sc.inputs && sc.inputs[name].PathInput? && BelowToken(path, sc.inputs[name].token);
      assert sc.inputs[name].token in Tokens(sc);
    }
  }

  lemma NoPath(sc: Scenario)
    ensures !ArtifactOf(sc, "")
  {
  }

  method CheckPaths(sc: Scenario) returns (ok: bool)
    ensures ok <==> (forall check :: check in sc.checks ==> CheckPathOk(sc, check))
                    && (forall path :: path in sc.freshPaths ==> ArtifactOf(sc, path))
  {
    var tokens := Tokens(sc);
    for k := 0 to |sc.checks|
      invariant forall j :: 0 <= j < k ==> CheckPathOk(sc, sc.checks[j])
    {
      ok := ArtifactPath(OrEmpty(sc.checks[k].path), tokens);
      TokensDecide(sc, OrEmpty(sc.checks[k].path));
      NoPath(sc);
      assert ok <==> CheckPathOk(sc, sc.checks[k]);
      if !ok { return; }
    }
    for k := 0 to |sc.freshPaths|
      invariant forall j :: 0 <= j < k ==> ArtifactOf(sc, sc.freshPaths[j])
    {
      ok := ArtifactPath(sc.freshPaths[k], tokens);
      TokensDecide(sc, sc.freshPaths[k]);
      assert ok <==> ArtifactOf(sc, sc.freshPaths[k]);
      if !ok { return; }
    }
    return true;
  }

  /** The rules of one block. */
  method CheckBlock(page: Page, sc: Scenario, e: Entry) returns (ok: bool)
    ensures ok <==> BlockRules(page, sc, e)
  {
    if e.block.display.Tag? {
      if !e.meta.role.File? { return false; }
      var source := page.sources(e.block.display.First());
      ok := RelativePath(source.path);
      if !ok || !source.present { return false; }
    }
    ok := RelativePath(OrEmpty(e.meta.cwd));
    if !ok { return false; }
    if e.meta.shells.Some? && !(forall v :: v in e.meta.shells.value ==> v in sc.shells) { return false; }
    match e.meta.role
    case File => ok := RelativePath(OrEmpty(e.meta.path));
    case Run => ok := e.language in {"bash", "powershell"};
    case Input => ok := e.meta.env.Some? && e.meta.env.value in sc.inputs && sc.inputs[e.meta.env.value].EnvInput?;
    case Expected => ok := e.language == "text";
    case Manual => ok := true;
  }

  /** The metadata and the rules of one block. */
  method ReadEntry(page: Page, sc: Scenario, b: Block) returns (e: Option<Entry>)
    requires b.annotation < |page.lines| && page.lines[b.annotation].Annotation?
    ensures e.Some? ==> EntryOf(page, sc, b, e.value)
    ensures e.None? ==> forall x :: !EntryOf(page, sc, b, x)
  {
    var id := page.lines[b.annotation].meta;
    if id !in page.metas { return None; }
    var entry := Entry(b, page.metas[id], page.languages(b.display.First()));
    var ok := CheckBlock(page, sc, entry);
    if !ok { return None; }
    return Some(entry);
  }

  lemma AnnotationLine(lines: seq<Line>, ds: seq<Display>, k: nat, b: Block)
    requires BlockOf(lines, ds, k, b)
    ensures b.annotation < |lines| && lines[b.annotation].Annotation?
  {
    var gap, at := Gap(lines, ds, k), b.annotation - GapStart(ds, k);
    assert gap[at] == lines[b.annotation];
  }

  method ReadEntries(page: Page, sc: Scenario, blocks: seq<Block>) returns (r: Option<seq<Entry>>)
    requires BlocksOf(page.lines, Scan(page.lines, 0), blocks) && |blocks| == |Scan(page.lines, 0)|
    ensures r.Some? ==> EntriesOf(page, sc, r.value)
    ensures r.None? ==> forall entries :: !EntriesOf(page, sc, entries)
  {
    ghost var ds := Scan(page.lines, 0);
    var entries: seq<Entry> := [];
    for k := 0 to |blocks|
      invariant |entries| == k
      invariant forall j :: 0 <= j < k ==> entries[j].block == blocks[j] && EntryOf(page, sc, blocks[j], entries[j])
    {
      assert BlockOf(page.lines, ds, k, blocks[k]);
      AnnotationLine(page.lines, ds, k, blocks[k]);
      var e := ReadEntry(page, sc, blocks[k]);
      if e.None? {
        forall other: seq<Entry> | EntriesOf(page, sc, other) ensures EntryOf(page, sc, blocks[k], other[k]) {
          EntryThere(page, sc, other, k, blocks[k]);
        }
        return None;
      }
      entries := entries + [e.value];
    }
    assert forall k :: 0 <= k < |blocks| ==> BlockOf(page.lines, ds, k, blocks[k]);
    return Some(entries);
  }

  lemma ShellDecided(sc: Scenario, entries: seq<Entry>, shell: Shell, sel: seq<Entry>)
    requires Selected(sc, entries, shell, sel)
    ensures ShellOk(sc, entries, shell) <==> SelectionOk(sel)
  {
    forall other | Selected(sc, entries, shell, other) ensures other == sel {
      OneSelection(sc, entries, shell, other, sel);
    }
  }

  method CheckShell(sc: Scenario, entries: seq<Entry>, shell: Shell) returns (ok: bool)
    ensures ok <==> ShellOk(sc, entries, shell)
  {
    var sel := Select(sc, entries, shell);
    ok := CheckSelection(sel);
    ShellDecided(sc, entries, shell, sel);
  }

  method CheckShells(sc: Scenario, entries: seq<Entry>) returns (ok: bool)
    ensures ok <==> forall v :: v in sc.shells ==> ShellOk(sc, entries, v)
  {
    for k := 0 to |sc.shells|
      invariant forall j :: 0 <= j < k ==> ShellOk(sc, entries, sc.shells[j])
    {
      ok := CheckShell(sc, entries, sc.shells[k]);
      if !ok { return; }
    }
    return true;
  }

  /** The blocks of the page, of one shell or of all. */
  ghost predicate Chosen(sc: Scenario, entries: seq<Entry>, shell: Option<Shell>, sel: seq<Entry>) {
    if shell.Some? then Selected(sc, entries, shell.value, sel) else sel == entries
  }

  method Choose(sc: Scenario, entries: seq<Entry>, shell: Option<Shell>) returns (sel: seq<Entry>)
    ensures forall other :: Chosen(sc, entries, shell, other) <==> other == sel
  {
    if shell.None? { return entries; }
    sel := Select(sc, entries, shell.value);
    forall other | Selected(sc, entries, shell.value, other) ensures other == sel {
      OneSelection(sc, entries, shell.value, other, sel);
    }
  }

  /** The page fulfils its contract, has the shell, and `sel` are its blocks for it. */
  ghost predicate Yields(page: Page, sc: Scenario, entries: seq<Entry>, shell: Option<Shell>, sel: seq<Entry>) {
    && ContractOk(page, sc, entries) && (shell.Some? ==> shell.value in sc.shells) && Chosen(sc, entries, shell, sel)
  }

  /**
   `extract` accepts a page for a shell exactly if the scenario has the shell and the page fulfils its
   contract in every shell, and returns the blocks of that shell in page order.
   */
  method ExtractContract(page: Page, shell: Option<Shell>) returns (r: Option<seq<Entry>>)
    ensures forall sel :: r == Some(sel) <==> exists sc, entries :: Yields(page, sc, entries, shell, sel)
  {
    var scenario := CheckScenario(page);
    if scenario.None? { return None; }
    var sc := scenario.value;
    assert forall other :: ScenarioRules(page, other) ==> other == sc;
    if shell.Some? && shell.value !in sc.shells { return None; }
    var blocks := Extract(page.lines);
    if blocks.None? { return None; }
    var entries := ReadEntries(page, sc, blocks.value);
    if entries.None? { return None; }
    var ok := CheckShells(sc, entries.value);
    forall other | EntriesOf(page, sc, other) ensures other == entries.value {
      OneList(page, sc, other, entries.value);
    }
    if !ok { return None; }
    var sel := Choose(sc, entries.value, shell);
    assert Yields(page, sc, entries.value, shell, sel);
    r := Some(sel);
  }

  // ----- What acceptance means for a shell ----------------------------------------------

  ghost predicate CommandAt(sel: seq<Entry>, k: nat, id: string) {
    k < |sel| && sel[k].meta.role.Run? && sel[k].meta.id == id
  }

  /**
   In an accepted selection every reference to a command, from the expected output or from a
   background block, names exactly one block, and that block is a command.
   */
  lemma ReferencesResolve(sel: seq<Entry>, e: Entry, id: string) returns (k: nat)
    requires SelectionOk(sel) && e in sel
    requires (e.meta.role.Expected? && id == e.meta.from) || e.meta.background == Some(Some(id))
    ensures CommandAt(sel, k, id) && forall j :: 0 <= j < |sel| && sel[j].meta.id == id ==> j == k
  {
    assert NamesCommand(sel, id) by {
      if e.meta.background == Some(Some(id)) {
        assert StopsAtCommand(sel, e);
      } else {
        var i: nat :| OnlyExpected(sel, i) && NamesCommand(sel, sel[i].meta.from);
        var j :| 0 <= j < |sel| && sel[j] == e;
        assert j == i;
      }
    }
    var command :| command in sel && command.meta.role.Run? && command.meta.id == id;
    k :| 0 <= k < |sel| && sel[k] == command;
  }
}
