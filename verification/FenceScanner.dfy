/**
 The scanner of the quickstart checker (`scripts/check-quickstarts.py`, `extract`), on lines that
 the regular expressions have classified.

 `finditer` takes the leftmost displayed block it can complete and goes on behind it, so code
 inside a fence is never looked at. What it could not pair it only notices afterwards, by counting
 all fence markers and all component tags of the page.
 */
module FenceScanner {
  import opened Prelude

  datatype Line =
    | Opener              // ```language
    | Closer              // ``` and white space
    | StrayFence          // any other fence marker: indented, tildes, longer, with attributes
    | Component           // a complete <Code src=... /> tag
    | StrayComponent      // any other line that begins with <Code
    | Annotation(meta: nat) // a complete block annotation
    | BrokenAnnotation    // the beginning of a block annotation that is not one
    | Blank
    | Prose(mentions: bool) // other text; `mentions`: it contains "quickstart-block"

  /** A displayed block: a fence with its two marker lines, or a component. */
  datatype Display = Fence(open: nat, close: nat) | Tag(at: nat) {
    function First(): nat {
      if Fence? then open else at
    }

    function Last(): nat {
      if Fence? then close else at
    }
  }

  predicate IsMarker(line: Line) {
    line.Opener? || line.Closer? || line.StrayFence?
  }

  predicate IsTag(line: Line) {
    line.Component? || line.StrayComponent?
  }

  /** The first closing marker at or behind `i`. */
  function NextCloser(lines: seq<Line>, i: nat): Option<nat>
    decreases |lines| - i
  {
    if i >= |lines| then None else if lines[i].Closer? then Some(i) else NextCloser(lines, i + 1)
  }

  lemma {:induction false} NextCloserIs(lines: seq<Line>, i: nat)
    ensures NextCloser(lines, i).None? ==> forall k :: i <= k < |lines| ==> !lines[k].Closer?
    ensures NextCloser(lines, i).Some? ==>
              var j := NextCloser(lines, i).value;
              i <= j < |lines| && lines[j].Closer? && forall k :: i <= k < j ==> !lines[k].Closer?
    decreases |lines| - i
  {
    if i < |lines| && !lines[i].Closer? { NextCloserIs(lines, i + 1); }
  }

  /** `DISPLAY.finditer(text)` from line `i` on. */
  function Scan(lines: seq<Line>, i: nat): seq<Display>
    decreases |lines| - i
  {
    if i >= |lines| then []
    else if lines[i].Opener? && NextCloser(lines, i + 1).Some? then
      var j := NextCloser(lines, i + 1).value;
      NextCloserIs(lines, i + 1);
      [Fence(i, j)] + Scan(lines, j + 1)
    else if lines[i].Component? then [Tag(i)] + Scan(lines, i + 1)
    else Scan(lines, i + 1)
  }

  function Markers(lines: seq<Line>): nat {
    if lines == [] then 0 else (if IsMarker(lines[0]) then 1 else 0) + Markers(lines[1..])
  }

  function Tags(lines: seq<Line>): nat {
    if lines == [] then 0 else (if IsTag(lines[0]) then 1 else 0) + Tags(lines[1..])
  }

  function Fences(ds: seq<Display>): nat {
    if ds == [] then 0 else (if ds[0].Fence? then 1 else 0) + Fences(ds[1..])
  }

  // ----- The reference: brackets --------------------------------------------------------

  /**
   Read line by line, fence markers alternate between opening and closing, no other marker occurs,
   and component tags are complete and outside of fences.
   */
  predicate Balanced(lines: seq<Line>, inside: bool) {
    if lines == [] then !inside else
    match lines[0]
    case Opener => !inside && Balanced(lines[1..], true)
    case Closer => inside && Balanced(lines[1..], false)
    case StrayFence => false
    case Component => !inside && Balanced(lines[1..], false)
    case StrayComponent => false
    case _ => Balanced(lines[1..], inside)
  }

  // ----- The annotation of a block ------------------------------------------------------

  predicate BeginsAnnotation(line: Line) {
    line.Annotation? || line.BrokenAnnotation?
  }

  /** The lines before a displayed block hold one annotation, directly before the block. */
  ghost predicate AnnotatedBy(gap: seq<Line>, a: nat) {
    && a < |gap| && gap[a].Annotation?
    && (forall k :: 0 <= k < |gap| && (gap[k].Annotation? || gap[k].BrokenAnnotation?) ==> k == a)
    && (forall k :: a < k < |gap| ==> gap[k].Blank?)
  }

  /** The annotations that begin in `prefix`: `re.finditer` over the text before the block. */
  method AnnotationStarts(gap: seq<Line>) returns (first: Option<nat>, more: bool)
    ensures first.None? ==> !more && forall k :: 0 <= k < |gap| ==> !BeginsAnnotation(gap[k])
    ensures first.Some? ==> first.value < |gap| && BeginsAnnotation(gap[first.value])
    ensures first.Some? ==> (more <==> exists k :: 0 <= k < |gap| && k != first.value && BeginsAnnotation(gap[k]))
  {
    first, more := None, false;
    for i := 0 to |gap|
      invariant first.None? ==> !more && forall k :: 0 <= k < i ==> !BeginsAnnotation(gap[k])
      invariant first.Some? ==> first.value < i && BeginsAnnotation(gap[first.value])
      invariant first.Some? ==> (more <==> exists k :: 0 <= k < i && k != first.value && BeginsAnnotation(gap[k]))
    {
      if BeginsAnnotation(gap[i]) {
        if first.None? { first := Some(i); } else { more := true; }
      }
    }
  }

  method AllBlank(gap: seq<Line>, from: nat) returns (blank: bool)
    ensures blank <==> forall k :: from <= k < |gap| ==> gap[k].Blank?
  {
    var i := from;
    while i < |gap|
      invariant forall k :: from <= k < i && k < |gap| ==> gap[k].Blank?
    {
      if !gap[i].Blank? { return false; }
      i := i + 1;
    }
    return true;
  }

  /** The annotation check of one displayed block. */
  method FindAnnotation(gap: seq<Line>) returns (a: Option<nat>)
    ensures a.Some? ==> AnnotatedBy(gap, a.value)
    ensures a.None? ==> forall k: nat :: !AnnotatedBy(gap, k)
  {
    var first, more := AnnotationStarts(gap);
    if first.None? { return None; }
    if more {
      ghost var k :| 0 <= k < |gap| && k != first.value && BeginsAnnotation(gap[k]);
      return None;
    }
    if !gap[first.value].Annotation? { return None; }
    var blank := AllBlank(gap, first.value + 1);
    if !blank { return None; }
    return first;
  }

  /** One extracted block and the line of its annotation. */
  datatype Block = Block(display: Display, annotation: nat)

  /** Where the lines before display `k` begin. */
  function GapStart(ds: seq<Display>, k: nat): nat
    requires k <= |ds|
  {
    if k == 0 then 0 else ds[k - 1].Last() + 1
  }

  // ----- The displays of a page are in order and apart ----------------------------------

  ghost predicate InOrder(lines: seq<Line>, ds: seq<Display>, i: nat) {
    && (forall k :: 0 <= k < |ds| ==> i <= ds[k].First() <= ds[k].Last() < |lines|)
    && (forall k, m :: 0 <= k < m < |ds| ==> ds[k].Last() < ds[m].First())
    && (forall k :: 0 <= k < |ds| ==>
          if ds[k].Fence? then lines[ds[k].open].Opener? && lines[ds[k].close].Closer? && ds[k].open < ds[k].close
          else lines[ds[k].at].Component?)
  }

  lemma ConsInOrder(lines: seq<Line>, d: Display, rest: seq<Display>, i: nat, n: nat)
    requires InOrder(lines, rest, n) && i <= d.First() <= d.Last() < n && d.Last() < |lines|
    requires if d.Fence? then lines[d.open].Opener? && lines[d.close].Closer? && d.open < d.close
             else lines[d.at].Component?
    ensures InOrder(lines, [d] + rest, i)
  {
    var ds := [d] + rest;
    assert forall k :: 1 <= k < |ds| ==> ds[k] == rest[k - 1];
  }

  lemma {:induction false} ScanInOrder(lines: seq<Line>, i: nat)
    ensures InOrder(lines, Scan(lines, i), i)
    decreases |lines| - i
  {
    if i < |lines| {
      NextCloserIs(lines, i + 1);
      if lines[i].Opener? && NextCloser(lines, i + 1).Some? {
        var j := NextCloser(lines, i + 1).value;
        ScanInOrder(lines, j + 1);
        ConsInOrder(lines, Fence(i, j), Scan(lines, j + 1), i, j + 1);
      } else {
        ScanInOrder(lines, i + 1);
        if lines[i].Component? { ConsInOrder(lines, Tag(i), Scan(lines, i + 1), i, i + 1); }
      }
    }
  }

  // ----- Counting finds exactly the unbalanced pages -------------------------------------

  lemma {:induction false} CountsSplit(a: seq<Line>, b: seq<Line>)
    ensures Markers(a + b) == Markers(a) + Markers(b) && Tags(a + b) == Tags(a) + Tags(b)
  {
    if a == [] {
      assert a + b == b;
    } else {
      assert (a + b)[1..] == a[1..] + b;
      CountsSplit(a[1..], b);
    }
  }

  /** Inside a fence, up to its closing marker, the page is balanced iff nothing there is counted. */
  lemma {:induction false} InsideFence(lines: seq<Line>, i: nat, j: nat)
    requires i <= j < |lines| && lines[j].Closer? && forall k :: i <= k < j ==> !lines[k].Closer?
    ensures Balanced(lines[i..], true)
       <==> Markers(lines[i..j]) == 0 && Tags(lines[i..j]) == 0 && Balanced(lines[j + 1..], false)
    decreases j - i
  {
    assert lines[i..][0] == lines[i] && lines[i..][1..] == lines[i + 1..];
    if i < j {
      assert lines[i..j][0] == lines[i] && lines[i..j][1..] == lines[i + 1..j];
      InsideFence(lines, i + 1, j);
    }
  }

  /** Without a closing marker a fence that is open stays open. */
  lemma {:induction false} NeverClosed(lines: seq<Line>, i: nat)
    requires forall k :: i <= k < |lines| ==> !lines[k].Closer?
    ensures i <= |lines| ==> !Balanced(lines[i..], true)
    decreases |lines| - i
  {
    if i < |lines| {
      assert lines[i..][0] == lines[i] && lines[i..][1..] == lines[i + 1..];
      NeverClosed(lines, i + 1);
    }
  }

  /** `ds` accounts for at most the markers and tags of `page`, and for all of them iff it is balanced. */
  ghost predicate Accounts(ds: seq<Display>, page: seq<Line>) {
    && Markers(page) >= 2 * Fences(ds) && Tags(page) >= |ds| - Fences(ds)
    && (Balanced(page, false) <==> Markers(page) == 2 * Fences(ds) && Tags(page) == |ds| - Fences(ds))
  }

  /**
   From any line outside of a fence, the page has at least as many markers and tags as the scan
   accounts for, and exactly as many iff it is balanced.
   */
  lemma {:induction false} CountingIsExact(lines: seq<Line>, i: nat)
    requires i <= |lines|
    ensures Accounts(Scan(lines, i), lines[i..])
    decreases |lines| - i
  {
    if i < |lines| {
      assert lines[i..][0] == lines[i] && lines[i..][1..] == lines[i + 1..];
      NextCloserIs(lines, i + 1);
      if lines[i].Opener? && NextCloser(lines, i + 1).Some? {
        FenceCounts(lines, i, NextCloser(lines, i + 1).value);
      } else {
        CountingIsExact(lines, i + 1);
        if lines[i].Opener? { NeverClosed(lines, i + 1); }
        if lines[i].Component? { assert ([Tag(i)] + Scan(lines, i + 1))[1..] == Scan(lines, i + 1); }
      }
    }
  }

  lemma FenceSplits(lines: seq<Line>, i: nat, j: nat)
    requires i < j < |lines| && lines[i].Opener? && lines[j].Closer?
    ensures Markers(lines[i..]) == 2 + Markers(lines[i + 1..j]) + Markers(lines[j + 1..])
    ensures Tags(lines[i..]) == Tags(lines[i + 1..j]) + Tags(lines[j + 1..])
    ensures Balanced(lines[i..], false) == Balanced(lines[i + 1..], true)
  {
    assert lines[i..][0] == lines[i] && lines[i..][1..] == lines[i + 1..];
    assert lines[i + 1..] == lines[i + 1..j] + lines[j..];
    CountsSplit(lines[i + 1..j], lines[j..]);
    assert lines[j..][0] == lines[j] && lines[j..][1..] == lines[j + 1..];
  }

  lemma {:induction false} FenceCounts(lines: seq<Line>, i: nat, j: nat)
    requires i < j < |lines| && lines[i].Opener? && NextCloser(lines, i + 1) == Some(j)
    ensures Accounts(Scan(lines, i), lines[i..])
    decreases |lines| - i, 0
  {
    NextCloserIs(lines, i + 1);
    CountingIsExact(lines, j + 1);
    ScanFence(lines, i, j);
    FenceSplits(lines, i, j);
    InsideFence(lines, i + 1, j);
    FenceAccounts(Fence(i, j), Scan(lines, j + 1), lines[i..], lines[i + 1..j], lines[j + 1..]);
  }

  lemma FenceAccounts(d: Display, rest: seq<Display>, page: seq<Line>, inner: seq<Line>, tail: seq<Line>)
    requires d.Fence? && Accounts(rest, tail)
    requires Markers(page) == 2 + Markers(inner) + Markers(tail) && Tags(page) == Tags(inner) + Tags(tail)
    requires Balanced(page, false) <==> Markers(inner) == 0 && Tags(inner) == 0 && Balanced(tail, false)
    ensures Accounts([d] + rest, page)
  {
    assert ([d] + rest)[1..] == rest;
  }

  // ----- extract ------------------------------------------------------------------------

  /** The lines between display `k` and the one before it. */
  function Gap(lines: seq<Line>, ds: seq<Display>, k: nat): seq<Line>
    requires k < |ds| && GapStart(ds, k) <= ds[k].First() <= |lines|
  {
    lines[GapStart(ds, k)..ds[k].First()]
  }

  predicate Mentions(line: Line) {
    BeginsAnnotation(line) || (line.Prose? && line.mentions)
  }

  /** No line behind the last display mentions an annotation. */
  ghost predicate NoOrphans(lines: seq<Line>, ds: seq<Display>) {
    forall k :: GapStart(ds, |ds|) <= k < |lines| ==>
      !lines[k].Annotation? && !lines[k].BrokenAnnotation? && lines[k] != Prose(true)
  }

  ghost predicate GapOk(lines: seq<Line>, ds: seq<Display>, k: nat, a: nat) {
    k < |ds| && GapStart(ds, k) <= ds[k].First() <= |lines| && GapStart(ds, k) <= a
    && AnnotatedBy(Gap(lines, ds, k), a - GapStart(ds, k))
  }

  ghost predicate HasAnnotation(lines: seq<Line>, ds: seq<Display>, k: nat) {
    exists a :: GapOk(lines, ds, k, a)
  }

  ghost predicate AllAnnotated(lines: seq<Line>, ds: seq<Display>) {
    forall k :: 0 <= k < |ds| ==> HasAnnotation(lines, ds, k)
  }

  ghost predicate PageOk(lines: seq<Line>) {
    && Balanced(lines, false) && Scan(lines, 0) != [] && NoOrphans(lines, Scan(lines, 0))
    && AllAnnotated(lines, Scan(lines, 0))
  }

  ghost predicate BlockOf(lines: seq<Line>, ds: seq<Display>, k: nat, b: Block) {
    k < |ds| && b.display == ds[k] && GapOk(lines, ds, k, b.annotation)
  }

  /** `blocks` are the displays `ds`, each with its annotation. */
  ghost predicate BlocksOf(lines: seq<Line>, ds: seq<Display>, blocks: seq<Block>) {
    |blocks| <= |ds| && forall k :: 0 <= k < |blocks| ==> BlockOf(lines, ds, k, blocks[k])
  }

  lemma {:induction false} FencesOfPrefix(ds: seq<Display>, k: nat)
    requires k < |ds|
    ensures Fences(ds[..k + 1]) == Fences(ds[..k]) + if ds[k].Fence? then 1 else 0
    decreases k
  {
    if k > 0 {
      FencesOfPrefix(ds[1..], k - 1);
      assert ds[..k + 1][1..] == ds[1..][..k] && ds[..k][1..] == ds[1..][..k - 1];
    } else {
      assert ds[..1][1..] == [] && ds[..0] == [];
    }
  }

  method AnyMention(lines: seq<Line>, from: nat) returns (found: bool)
    ensures found <==> exists k :: from <= k < |lines| && Mentions(lines[k])
  {
    var i := from;
    while i < |lines|
      invariant forall k :: from <= k < i && k < |lines| ==> !Mentions(lines[k])
    {
      if Mentions(lines[i]) { return true; }
      i := i + 1;
    }
    return false;
  }

  lemma GapFound(lines: seq<Line>, ds: seq<Display>, k: nat)
    requires InOrder(lines, ds, 0) && k < |ds|
    ensures GapStart(ds, k) <= ds[k].First() <= |lines|
    ensures forall a: nat :: AnnotatedBy(Gap(lines, ds, k), a) <==> GapOk(lines, ds, k, GapStart(ds, k) + a)
    ensures (forall a: nat :: !AnnotatedBy(Gap(lines, ds, k), a)) ==> !HasAnnotation(lines, ds, k)
  {
    assert k > 0 ==> ds[k - 1].Last() < ds[k].First();
  }

  lemma OneMore(lines: seq<Line>, ds: seq<Display>, blocks: seq<Block>, b: Block)
    requires BlocksOf(lines, ds, blocks) && |blocks| < |ds|
    requires BlockOf(lines, ds, |blocks|, b)
    ensures BlocksOf(lines, ds, blocks + [b])
  {
    var more := blocks + [b];
    forall k | 0 <= k < |more| ensures BlockOf(lines, ds, k, more[k]) {
      if k < |blocks| { assert more[k] == blocks[k] && BlockOf(lines, ds, k, blocks[k]); }
    }
  }

  lemma AllFound(lines: seq<Line>, ds: seq<Display>, blocks: seq<Block>)
    requires BlocksOf(lines, ds, blocks) && |blocks| == |ds|
    ensures AllAnnotated(lines, ds)
  {
    forall k | 0 <= k < |ds| ensures HasAnnotation(lines, ds, k) {
      assert BlockOf(lines, ds, k, blocks[k]);
    }
  }

  /** The annotation of display `k`, found in the text between it and the display before. */
  method AnnotationOf(lines: seq<Line>, ds: seq<Display>, k: nat, previous: nat) returns (a: Option<nat>)
    requires InOrder(lines, ds, 0) && k < |ds| && previous == GapStart(ds, k)
    ensures a.Some? ==> GapOk(lines, ds, k, a.value)
    ensures a.None? ==> !HasAnnotation(lines, ds, k)
  {
    GapFound(lines, ds, k);
    a := FindAnnotation(lines[previous..ds[k].First()]);
    if a.Some? { a := Some(previous + a.value); }
  }

  /** The loop of `extract` over the displayed blocks. */
  method Annotate(lines: seq<Line>, ds: seq<Display>)
    returns (ok: bool, blocks: seq<Block>, previous: nat, fenceCount: nat, codeCount: nat)
    requires InOrder(lines, ds, 0)
    ensures ok <==> AllAnnotated(lines, ds)
    ensures ok ==> BlocksOf(lines, ds, blocks) && |blocks| == |ds| && previous == GapStart(ds, |ds|)
    ensures ok ==> fenceCount == Fences(ds) && fenceCount + codeCount == |ds|
  {
    blocks, previous, fenceCount, codeCount := [], 0, 0, 0;
    for k := 0 to |ds|
      invariant previous == GapStart(ds, k)
      invariant fenceCount == Fences(ds[..k]) && fenceCount + codeCount == k
      invariant |blocks| == k && BlocksOf(lines, ds, blocks)
    {
      var a := AnnotationOf(lines, ds, k, previous);
      if a.None? { return false, blocks, previous, fenceCount, codeCount; }
      FencesOfPrefix(ds, k);
      if ds[k].Tag? { codeCount := codeCount + 1; } else { fenceCount := fenceCount + 1; }
      OneMore(lines, ds, blocks, Block(ds[k], a.value));
      blocks := blocks + [Block(ds[k], a.value)];
      previous := ds[k].Last() + 1;
    }
    assert ds[..|ds|] == ds;
    AllFound(lines, ds, blocks);
    ok := true;
  }

  /**
   The structural part of `extract`: it accepts exactly the pages whose markers and tags are
   balanced and whose blocks are annotated one by one, and returns the blocks in page order, each
   with the annotation that directly precedes it.
   */
  method Extract(lines: seq<Line>) returns (r: Option<seq<Block>>)
    ensures r.Some? <==> PageOk(lines)
    ensures r.Some? ==> BlocksOf(lines, Scan(lines, 0), r.value) && |r.value| == |Scan(lines, 0)|
  {
    ScanInOrder(lines, 0);
    CountingIsExact(lines, 0);
    assert lines[0..] == lines;
    var ok, blocks, previous, fenceCount, codeCount := Annotate(lines, Scan(lines, 0));
    if !ok { return None; }
    if Markers(lines) != 2 * fenceCount { return None; }
    if Tags(lines) != codeCount { return None; }
    var orphan := AnyMention(lines, previous);
    if orphan { return None; }
    if blocks == [] { return None; }
    return Some(blocks);
  }

  // ----- What acceptance means ----------------------------------------------------------

  /** Line `p` belongs to display `d` as a marker or as its tag. */
  predicate Owns(d: Display, p: nat) {
    p == d.First() || p == d.Last()
  }

  lemma NothingInside(lines: seq<Line>, i: nat, j: nat, p: nat)
    requires i <= p < j <= |lines| && Markers(lines[i..j]) == 0 && Tags(lines[i..j]) == 0
    ensures !IsMarker(lines[p]) && !IsTag(lines[p])
  {
    var a, b := lines[i..p], lines[p..j];
    assert lines[i..j] == a + b;
    CountsSplit(a, b);
    assert b[0] == lines[p];
  }

  /** In a balanced page a fence is closed and holds neither markers nor tags. */
  lemma FenceIsClean(lines: seq<Line>, i: nat) returns (j: nat)
    requires i < |lines| && lines[i].Opener? && Balanced(lines[i..], false)
    ensures NextCloser(lines, i + 1) == Some(j) && i < j < |lines| && lines[j].Closer?
    ensures Balanced(lines[j + 1..], false)
    ensures forall p :: i < p < j ==> !IsMarker(lines[p]) && !IsTag(lines[p])
  {
    assert lines[i..][0] == lines[i] && lines[i..][1..] == lines[i + 1..];
    NextCloserIs(lines, i + 1);
    if NextCloser(lines, i + 1).None? { NeverClosed(lines, i + 1); }
    j := NextCloser(lines, i + 1).value;
    InsideFence(lines, i + 1, j);
    forall p | i < p < j ensures !IsMarker(lines[p]) && !IsTag(lines[p]) {
      NothingInside(lines, i + 1, j, p);
    }
  }

  lemma ScanFence(lines: seq<Line>, i: nat, j: nat)
    requires i < |lines| && lines[i].Opener? && NextCloser(lines, i + 1) == Some(j) && i < j < |lines|
    ensures Scan(lines, i) == [Fence(i, j)] + Scan(lines, j + 1)
  {
  }

  lemma ScanLine(lines: seq<Line>, i: nat)
    requires i < |lines| && !lines[i].Opener?
    ensures Scan(lines, i) == (if lines[i].Component? then [Tag(i)] else []) + Scan(lines, i + 1)
  {
    assert [] + Scan(lines, i + 1) == Scan(lines, i + 1);
  }

  lemma BalancedLine(lines: seq<Line>, i: nat)
    requires i < |lines| && !lines[i].Opener? && Balanced(lines[i..], false)
    ensures Balanced(lines[i + 1..], false) && (IsMarker(lines[i]) || IsTag(lines[i]) ==> lines[i].Component?)
  {
    assert lines[i..][0] == lines[i] && lines[i..][1..] == lines[i + 1..];
  }

  /** In a balanced page the scan comes by every marker and every tag. */
  ghost predicate Covers(ds: seq<Display>, p: nat, fence: bool) {
    exists k :: 0 <= k < |ds| && Owns(ds[k], p) && ds[k].Fence? == fence
  }

  lemma CoversMore(front: seq<Display>, ds: seq<Display>, p: nat, fence: bool)
    requires Covers(ds, p, fence)
    ensures Covers(front + ds, p, fence)
  {
    var k :| 0 <= k < |ds| && Owns(ds[k], p) && ds[k].Fence? == fence;
    assert (front + ds)[|front| + k] == ds[k];
  }

  lemma {:induction false} AllCovered(lines: seq<Line>, i: nat, p: nat)
    requires i <= p < |lines| && Balanced(lines[i..], false) && (IsMarker(lines[p]) || IsTag(lines[p]))
    ensures Covers(Scan(lines, i), p, IsMarker(lines[p]))
    decreases |lines| - i
  {
    if lines[i].Opener? {
      var j := FenceIsClean(lines, i);
      ScanFence(lines, i, j);
      if p == i || p == j {
        assert Owns(Scan(lines, i)[0], p);
      } else {
        AllCovered(lines, j + 1, p);
        CoversMore([Fence(i, j)], Scan(lines, j + 1), p, IsMarker(lines[p]));
      }
    } else {
      BalancedLine(lines, i);
      ScanLine(lines, i);
      if p == i {
        assert Owns(Scan(lines, i)[0], p);
      } else {
        AllCovered(lines, i + 1, p);
        CoversMore(if lines[i].Component? then [Tag(i)] else [], Scan(lines, i + 1), p, IsMarker(lines[p]));
      }
    }
  }

  /**
   On an accepted page every fence marker is the opener or the closer, and every component tag the
   tag, of exactly one extracted block.
   */
  lemma FenceAccounting(lines: seq<Line>, p: nat)
    requires Balanced(lines, false) && p < |lines| && (IsMarker(lines[p]) || IsTag(lines[p]))
    ensures Covers(Scan(lines, 0), p, IsMarker(lines[p]))
    ensures forall k, m ::
              0 <= k < m < |Scan(lines, 0)| && Owns(Scan(lines, 0)[k], p) ==> !Owns(Scan(lines, 0)[m], p)
  {
    assert lines[0..] == lines;
    AllCovered(lines, 0, p);
    ScanInOrder(lines, 0);
  }

  /** Line `p` is not part of a displayed block. */
  ghost predicate Outside(ds: seq<Display>, p: nat) {
    forall k :: 0 <= k < |ds| ==> p < ds[k].First() || ds[k].Last() < p
  }

  lemma {:induction false} WhichGap(lines: seq<Line>, ds: seq<Display>, p: nat, n: nat) returns (k: nat)
    requires InOrder(lines, ds, 0) && Outside(ds, p) && n <= |ds| && p >= GapStart(ds, n)
    ensures n <= k <= |ds| && GapStart(ds, k) <= p && (k < |ds| ==> p < ds[k].First())
    decreases |ds| - n
  {
    if n == |ds| || p < ds[n].First() { k := n; } else { k := WhichGap(lines, ds, p, n + 1); }
  }

  lemma GapAfter(lines: seq<Line>, ds: seq<Display>, k: nat, m: nat)
    requires InOrder(lines, ds, 0) && k < m < |ds|
    ensures ds[k].First() <= ds[k].Last() < GapStart(ds, m)
  {
    if m > k + 1 { assert ds[k].Last() < ds[m - 1].First(); }
  }

  /** Annotations and blocks alternate in page order. */
  lemma AnnotationsInOrder(lines: seq<Line>, ds: seq<Display>, blocks: seq<Block>, k: nat, m: nat)
    requires InOrder(lines, ds, 0) && BlocksOf(lines, ds, blocks) && k < m < |blocks|
    ensures blocks[k].annotation < blocks[k].display.First() <= blocks[k].display.Last() < blocks[m].annotation
  {
    GapAfter(lines, ds, k, m);
    assert BlockOf(lines, ds, k, blocks[k]);
    assert BlockOf(lines, ds, m, blocks[m]);
  }

  /** The annotation of a gap is the only one that begins in it. */
  lemma OnlyInGap(lines: seq<Line>, ds: seq<Display>, k: nat, a: nat, p: nat)
    requires GapOk(lines, ds, k, a) && GapStart(ds, k) <= p < ds[k].First() && BeginsAnnotation(lines[p])
    ensures p == a
  {
    var gap, at := Gap(lines, ds, k), p - GapStart(ds, k);
    assert gap[at] == lines[p];
  }

  lemma UsedBy(lines: seq<Line>, ds: seq<Display>, blocks: seq<Block>, p: nat) returns (k: nat)
    requires InOrder(lines, ds, 0) && NoOrphans(lines, ds) && BlocksOf(lines, ds, blocks) && |blocks| == |ds|
    requires p < |lines| && BeginsAnnotation(lines[p]) && Outside(ds, p)
    ensures k < |blocks| && blocks[k].annotation == p
  {
    k := WhichGap(lines, ds, p, 0);
    assert Mentions(lines[p]);
    assert k < |ds|;
    assert BlockOf(lines, ds, k, blocks[k]);
    OnlyInGap(lines, ds, k, blocks[k].annotation, p);
  }

  /** On an accepted page every annotation outside of the blocks is the annotation of a block. */
  lemma AnnotationsAreUsed(lines: seq<Line>, blocks: seq<Block>, p: nat)
    requires PageOk(lines) && BlocksOf(lines, Scan(lines, 0), blocks) && |blocks| == |Scan(lines, 0)|
    requires p < |lines| && BeginsAnnotation(lines[p]) && Outside(Scan(lines, 0), p)
    ensures exists k :: 0 <= k < |blocks| && blocks[k].annotation == p
  {
    ScanInOrder(lines, 0);
    var k := UsedBy(lines, Scan(lines, 0), blocks, p);
  }
}
