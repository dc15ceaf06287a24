/**
 Portable, workspace-relative paths (`scripts/check-quickstarts.py`, `relative_path` and
 `validate_artifact_path`).
 */
module PortablePath {

  // ----- What a portable path is --------------------------------------------------------

  /** `value[i..j]` is what stands between two slashes, or a slash and an end. */
  predicate Component(value: string, i: int, j: int) {
    && 0 <= i <= j <= |value| && (forall m :: i <= m < j ==> value[m] != '/')
    && (i == 0 || value[i - 1] == '/') && (j == |value| || value[j] == '/')
  }

  ghost predicate HasComponent(value: string, part: string) {
    exists i, j :: Component(value, i, j) && value[i..j] == part
  }

  /** Not empty, not absolute, no backslash, no colon, and no component `..`. */
  ghost predicate Portable(value: string) {
    value != "" && value[0] != '/' && '\\' !in value && ':' !in value && !HasComponent(value, "..")
  }

  // ----- Splitting ----------------------------------------------------------------------

  function FirstSlash(value: string): (k: nat)
    ensures k <= |value| && (forall m :: 0 <= m < k ==> value[m] != '/') && (k < |value| ==> value[k] == '/')
  {
    if value == "" || value[0] == '/' then 0 else 1 + FirstSlash(value[1..])
  }

  /** `value.split("/")` */
  function Split(value: string): seq<string> {
    var k := FirstSlash(value);
    if k == |value| then [value] else [value[..k]] + Split(value[k + 1..])
  }

  lemma ComponentOfRest(value: string, k: nat, part: string)
    requires k < |value| && value[k] == '/' && HasComponent(value[k + 1..], part)
    ensures HasComponent(value, part)
  {
    var rest := value[k + 1..];
    var i, j :| Component(rest, i, j) && rest[i..j] == part;
    assert value[i + k + 1..j + k + 1] == rest[i..j];
    assert Component(value, i + k + 1, j + k + 1);
  }

  /** A component is the one before the first slash, or one of what follows it. */
  lemma WhichComponent(value: string, k: nat, part: string)
    requires k < |value| && value[k] == '/' && (forall m :: 0 <= m < k ==> value[m] != '/') && HasComponent(value, part)
    ensures part == value[..k] || HasComponent(value[k + 1..], part)
  {
    var rest := value[k + 1..];
    var i, j :| Component(value, i, j) && value[i..j] == part;
    if i > k {
      assert rest[i - k - 1..j - k - 1] == value[i..j];
      assert Component(rest, i - k - 1, j - k - 1);
    }
  }

  lemma OnlyComponent(value: string, part: string)
    requires (forall m :: 0 <= m < |value| ==> value[m] != '/') && HasComponent(value, part)
    ensures part == value
  {
    var i, j :| Component(value, i, j) && value[i..j] == part;
    assert i == 0 && j == |value|;
  }

  lemma FirstComponent(value: string, k: nat)
    requires k <= |value| && (forall m :: 0 <= m < k ==> value[m] != '/') && (k < |value| ==> value[k] == '/')
    ensures HasComponent(value, value[..k])
  {
    assert Component(value, 0, k) && value[0..k] == value[..k];
  }

  /** The parts are the components. */
  lemma {:induction false} PartsAreComponents(value: string, part: string)
    ensures part in Split(value) <==> HasComponent(value, part)
  {
    var k := FirstSlash(value);
    if k < |value| {
      PartsAreComponents(value[k + 1..], part);
      ComponentsSplit(value, k, part);
      assert Split(value) == [value[..k]] + Split(value[k + 1..]);
    } else {
      FirstComponent(value, k);
      assert value[..k] == value && Split(value) == [value];
      if HasComponent(value, part) { OnlyComponent(value, part); }
    }
  }

  lemma ComponentsSplit(value: string, k: nat, part: string)
    requires k < |value| && value[k] == '/' && (forall m :: 0 <= m < k ==> value[m] != '/')
    ensures HasComponent(value, part) <==> part == value[..k] || HasComponent(value[k + 1..], part)
  {
    FirstComponent(value, k);
    if HasComponent(value[k + 1..], part) { ComponentOfRest(value, k, part); }
    if HasComponent(value, part) { WhichComponent(value, k, part); }
  }

  /** Splitting loses no character but the slashes. */
  lemma {:induction false} CharactersOfParts(value: string, c: char)
    requires c != '/'
    ensures c in value <==> exists part :: part in Split(value) && c in part
  {
    var k := FirstSlash(value);
    if k < |value| {
      var rest := value[k + 1..];
      CharactersOfParts(rest, c);
      assert value == value[..k] + ['/'] + rest;
    } else {
      assert Split(value) == [value];
    }
  }

  // ----- relative_path ------------------------------------------------------------------

  predicate Rejected(part: string) {
    part == ".." || '\\' in part || ':' in part
  }

  /** Looking at the parts of a split is looking at the path. */
  lemma PartsDecide(value: string)
    requires value != "" && value[0] != '/'
    ensures Portable(value) <==> forall part :: part in Split(value) ==> !Rejected(part)
  {
    CharactersOfParts(value, '\\');
    CharactersOfParts(value, ':');
    PartsAreComponents(value, "..");
    if Portable(value) {
      assert ".." !in Split(value);
    }
  }

  /** `relative_path` */
  method RelativePath(value: string) returns (ok: bool)
    ensures ok <==> Portable(value)
  {
    if value == "" || value[0] == '/' { return false; }
    PartsDecide(value);
    var parts := Split(value);
    for k := 0 to |parts|
      invariant forall j :: 0 <= j < k ==> !Rejected(parts[j])
    {
      if Rejected(parts[k]) { return false; }
    }
    return true;
  }

  // ----- What a portable path is good for -----------------------------------------------

  /** The directory that a path leads to from `dir`, component by component. */
  function Resolved(dir: seq<string>, parts: seq<string>): seq<string>
    decreases |parts|
  {
    if parts == [] then dir
    else if parts[0] == "" || parts[0] == "." then Resolved(dir, parts[1..])
    else if parts[0] == ".." then Resolved(if dir == [] then [] else dir[..|dir| - 1], parts[1..])
    else Resolved(dir + [parts[0]], parts[1..])
  }

  lemma {:induction false} NeverUp(dir: seq<string>, parts: seq<string>)
    requires ".." !in parts
    ensures dir <= Resolved(dir, parts)
    decreases |parts|
  {
    if parts != [] {
      assert parts[0] in parts && forall part :: part in parts[1..] ==> part in parts;
      if parts[0] == "" || parts[0] == "." {
        NeverUp(dir, parts[1..]);
      } else {
        NeverUp(dir + [parts[0]], parts[1..]);
      }
    }
  }

  /** A portable path leads from a directory to a place inside it. */
  lemma StaysInside(dir: seq<string>, value: string)
    requires Portable(value)
    ensures dir <= Resolved(dir, Split(value))
  {
    PartsAreComponents(value, "..");
    NeverUp(dir, Split(value));
  }

  // ----- validate_artifact_path ---------------------------------------------------------

  ghost predicate BelowToken(path: string, token: string) {
    token + "/" <= path && Portable(path[|token| + 1..])
  }

  /** A portable path, or one below a declared path input. */
  ghost predicate Artifact(path: string, tokens: set<string>) {
    Portable(path) || exists token :: token in tokens && BelowToken(path, token)
  }

  method ArtifactPath(path: string, tokens: set<string>) returns (ok: bool)
    ensures ok <==> Artifact(path, tokens)
  {
    ok := RelativePath(path);
    if ok { return; }
    var rest := tokens;
    while rest != {}
      invariant rest <= tokens
      invariant forall token :: token in tokens && token !in rest ==> !BelowToken(path, token)
      decreases rest
    {
      var token :| token in rest;
      if token + "/" <= path {
        ok := RelativePath(path[|token| + 1..]);
        assert ok <==> BelowToken(path, token);
        if ok { return; }
      }
      rest := rest - {token};
    }
    return false;
  }
}
