/** Normalised segments: what the chunker accepts, and how it groups them by heading. */
module Segments {
  import opened Common
  import opened TokenSpans

  datatype Segment = Segment(
    ordinal: int,
    text: string,
    page: Option<int>,
    headingPath: seq<string>,
    startLine: Option<int>,
    endLine: Option<int>)

  datatype ChunkError = EmptyInput | InvalidSegments | TokenEmptySegment | ChunkLimitExceeded

  // ---- validation ----

  predicate GoodSegment(ws: char -> bool, segments: seq<Segment>, i: nat)
    requires i < |segments|
  {
    segments[i].ordinal == i && Tokens(ws, segments[i].text) != []
  }

  /** Numbered from zero without gaps, and no segment without a token. */
  predicate Acceptable(ws: char -> bool, segments: seq<Segment>) {
    segments != [] && forall i :: 0 <= i < |segments| ==> GoodSegment(ws, segments, i)
  }

  /** `_validate_segments`: the error is that of the first bad segment. */
  method ValidateSegments(ws: char -> bool, segments: seq<Segment>) returns (r: Result<seq<Segment>, ChunkError>)
    ensures r.Ok? <==> Acceptable(ws, segments)
    ensures r.Ok? ==> r.value == segments
    ensures r == Err(EmptyInput) <==> segments == []
    ensures r.Err? && segments != [] ==> exists i ::
      && 0 <= i < |segments| && (forall j :: 0 <= j < i ==> GoodSegment(ws, segments, j))
      && r.error == (if segments[i].ordinal != i then InvalidSegments else TokenEmptySegment)
  {
    if segments == [] {
      return Err(EmptyInput);
    }
    for i := 0 to |segments|
      invariant forall j :: 0 <= j < i ==> GoodSegment(ws, segments, j)
    {
      if segments[i].ordinal != i {
        assert !GoodSegment(ws, segments, i);
        return Err(InvalidSegments);
      }
      if Tokens(ws, segments[i].text) == [] {
        assert !GoodSegment(ws, segments, i);
        return Err(TokenEmptySegment);
      }
    }
    r := Ok(segments);
  }

  // ---- heading groups ----

  datatype Group = Group(headingPath: seq<string>, segments: seq<Segment>)

  type Path = seq<string>

  /** `h` segments come before the first one under a heading. */
  ghost predicate FirstHeading(segments: seq<Segment>, h: nat) {
    && h <= |segments|
    && (forall i :: 0 <= i < h ==> segments[i].headingPath == [])
    && (h < |segments| ==> segments[h].headingPath != [])
  }

  /** The paths the segments are grouped under: their own, except that leading unheaded segments
      go with the first heading. */
  ghost predicate GroupingPaths(segments: seq<Segment>, h: nat, paths: seq<Path>) {
    && FirstHeading(segments, h) && |paths| == |segments|
    && (forall i :: h <= i < |paths| ==> paths[i] == segments[i].headingPath)
    && (forall i :: 0 <= i < h ==> paths[i] == if h < |segments| then segments[h].headingPath else [])
  }

  /** Where the first heading is, from segment `i` on. */
  function FirstHeadingFrom(segments: seq<Segment>, i: nat): (h: nat)
    requires i <= |segments|
    ensures i <= h <= |segments|
    ensures forall j :: i <= j < h ==> segments[j].headingPath == []
    ensures h < |segments| ==> segments[h].headingPath != []
    decreases |segments| - i
  {
    if i == |segments| || segments[i].headingPath != [] then i else FirstHeadingFrom(segments, i + 1)
  }

  ghost function PathsOf(segments: seq<Segment>, h: nat): (paths: seq<Path>)
    requires FirstHeading(segments, h)
    ensures GroupingPaths(segments, h, paths)
  {
    seq(|segments|, i requires 0 <= i < |segments| =>
      if i < h && h < |segments| then segments[h].headingPath else segments[i].headingPath)
  }

  /** The grouping paths of a segment sequence. */
  ghost function Paths(segments: seq<Segment>): seq<Path> {
    PathsOf(segments, FirstHeadingFrom(segments, 0))
  }

  lemma PathsAreUnique(segments: seq<Segment>, h: nat, paths: seq<Path>)
    requires GroupingPaths(segments, h, paths)
    ensures paths == Paths(segments) && h == FirstHeadingFrom(segments, 0)
  {
    var g := FirstHeadingFrom(segments, 0);
    assert GroupingPaths(segments, g, Paths(segments));
    assert h == g;
  }

  function Flatten(groups: seq<Group>): seq<Segment> {
    if groups == [] then [] else Flatten(groups[..|groups| - 1]) + groups[|groups| - 1].segments
  }

  lemma FlattenAppend(groups: seq<Group>, g: Group)
    ensures Flatten(groups + [g]) == Flatten(groups) + g.segments
  {
    assert (groups + [g])[..|groups|] == groups;
  }

  /** The place of a group's first segment. */
  function Start(groups: seq<Group>, k: nat): nat
    requires k <= |groups|
  {
    |Flatten(groups[..k])|
  }

  /** Group `k` holds the segments from `Start(k)` on, all of them under its path. */
  ghost predicate GroupFits(segments: seq<Segment>, paths: seq<Path>, groups: seq<Group>, k: nat)
    requires k < |groups| && |paths| == |segments|
  {
    var s, g := Start(groups, k), groups[k];
    && g.segments != [] && s + |g.segments| <= |segments|
    && g.segments == segments[s..s + |g.segments|]
    && forall i :: s <= i < s + |g.segments| ==> paths[i] == g.headingPath
  }

  ghost predicate Fits(segments: seq<Segment>, paths: seq<Path>, groups: seq<Group>)
    requires |paths| == |segments|
  {
    && (forall k: nat :: k < |groups| ==> GroupFits(segments, paths, groups, k))
    && (forall k: nat :: 0 < k < |groups| ==> groups[k - 1].headingPath != groups[k].headingPath)
  }

  /** The groups are the maximal runs of one path, in order, and all of the segments. */
  ghost predicate Grouped(segments: seq<Segment>, paths: seq<Path>, groups: seq<Group>) {
    |paths| == |segments| && Flatten(groups) == segments && Fits(segments, paths, groups)
  }

  /** What the loop has built: finished groups, and the one it is filling. */
  ghost predicate Filling(segments: seq<Segment>, paths: seq<Path>, groups: seq<Group>, open: Group, n: nat) {
    && n <= |segments| == |paths| && open.segments != []
    && Flatten(groups) + open.segments == segments[..n]
    && Fits(segments, paths, groups)
    && (groups != [] ==> groups[|groups| - 1].headingPath != open.headingPath)
    && (forall i :: |Flatten(groups)| <= i < n ==> paths[i] == open.headingPath)
  }

  lemma CloseGroup(segments: seq<Segment>, paths: seq<Path>, groups: seq<Group>, open: Group, n: nat)
    requires Filling(segments, paths, groups, open, n)
    ensures Flatten(groups + [open]) == segments[..n] && Fits(segments, paths, groups + [open])
  {
    var closed := groups + [open];
    FlattenAppend(groups, open);
    forall k: nat | k < |closed| ensures GroupFits(segments, paths, closed, k) {
      if k < |groups| {
        assert GroupFits(segments, paths, groups, k);
        assert closed[..k] == groups[..k];
      } else {
        assert closed[..k] == groups;
        var s := |Flatten(groups)|;
        assert open.segments == segments[..n][s..];
      }
    }
  }

  /** What the loop starts from. */
  lemma FillFirst(segments: seq<Segment>, paths: seq<Path>, h: nat)
    requires segments != [] && GroupingPaths(segments, h, paths)
    ensures h == |segments| ==> Filling(segments, paths, [], Group([], segments), |segments|)
    ensures h < |segments| ==> Filling(segments, paths, [], Group(segments[h].headingPath, segments[..h + 1]), h + 1)
  {
    assert segments[..|segments|] == segments;
    assert Flatten([]) == [];
  }

  lemma FillSame(segments: seq<Segment>, paths: seq<Path>, groups: seq<Group>, open: Group, n: nat)
    requires Filling(segments, paths, groups, open, n) && n < |segments| && paths[n] == open.headingPath
    ensures Filling(segments, paths, groups, Group(open.headingPath, open.segments + [segments[n]]), n + 1)
  {
    assert segments[..n + 1] == segments[..n] + [segments[n]];
    assert Flatten(groups) + (open.segments + [segments[n]]) == segments[..n + 1];
  }

  lemma FillNext(segments: seq<Segment>, paths: seq<Path>, groups: seq<Group>, open: Group, n: nat)
    requires Filling(segments, paths, groups, open, n) && n < |segments| && paths[n] != open.headingPath
    ensures Filling(segments, paths, groups + [open], Group(paths[n], [segments[n]]), n + 1)
  {
    CloseGroup(segments, paths, groups, open, n);
    assert segments[..n + 1] == segments[..n] + [segments[n]];
  }

  lemma FillDone(segments: seq<Segment>, paths: seq<Path>, groups: seq<Group>, open: Group)
    requires Filling(segments, paths, groups, open, |segments|)
    ensures Grouped(segments, paths, groups + [open])
  {
    CloseGroup(segments, paths, groups, open, |segments|);
    assert segments[..|segments|] == segments;
  }

  /** The search for the first segment under a heading. */
  method FindFirstHeading(segments: seq<Segment>) returns (h: nat)
    ensures FirstHeading(segments, h)
  {
    h := 0;
    while h < |segments| && segments[h].headingPath == []
      invariant h <= |segments| && forall i :: 0 <= i < h ==> segments[i].headingPath == []
    {
      h := h + 1;
    }
  }

  /** The loop of `_heading_groups`, from the first heading on. */
  method FillGroups(segments: seq<Segment>, first: nat, ghost paths: seq<Path>) returns (groups: seq<Group>)
    requires segments != [] && GroupingPaths(segments, first, paths)
    ensures Grouped(segments, paths, groups)
  {
    groups := [];
    FillFirst(segments, paths, first);
    if first == |segments| {
      FillDone(segments, paths, groups, Group([], segments));
      groups := groups + [Group([], segments)];
      return;
    }
    var path, current := segments[first].headingPath, segments[..first + 1];
    for n := first + 1 to |segments|
      invariant Filling(segments, paths, groups, Group(path, current), n)
    {
      if segments[n].headingPath == path {
        FillSame(segments, paths, groups, Group(path, current), n);
        current := current + [segments[n]];
      } else {
        FillNext(segments, paths, groups, Group(path, current), n);
        groups := groups + [Group(path, current)];
        path, current := segments[n].headingPath, [segments[n]];
      }
    }
    FillDone(segments, paths, groups, Group(path, current));
    groups := groups + [Group(path, current)];
  }

  /** `_heading_groups`. */
  method HeadingGroups(segments: seq<Segment>) returns (groups: seq<Group>)
    requires segments != []
    ensures Grouped(segments, Paths(segments), groups)
  {
    var first := FindFirstHeading(segments);
    PathsAreUnique(segments, first, PathsOf(segments, first));
    groups := FillGroups(segments, first, PathsOf(segments, first));
  }

  // ---- the grouping is the only one ----

  lemma StartNext(groups: seq<Group>, k: nat)
    requires k < |groups|
    ensures Start(groups, k + 1) == Start(groups, k) + |groups[k].segments|
  {
    assert groups[..k + 1] == groups[..k] + [groups[k]];
    FlattenAppend(groups[..k], groups[k]);
  }

  /** Groups that start together are equal. */
  lemma SameGroup(segments: seq<Segment>, paths: seq<Path>, a: seq<Group>, b: seq<Group>, k: nat)
    requires Grouped(segments, paths, a) && Grouped(segments, paths, b) && k < |a| && k < |b|
    requires Start(a, k) == Start(b, k)
    ensures a[k] == b[k]
  {
    assert GroupFits(segments, paths, a, k) && GroupFits(segments, paths, b, k);
    NoLonger(segments, paths, a, b, k);
    NoLonger(segments, paths, b, a, k);
  }

  lemma NoLonger(segments: seq<Segment>, paths: seq<Path>, a: seq<Group>, b: seq<Group>, k: nat)
    requires Grouped(segments, paths, a) && Grouped(segments, paths, b) && k < |a| && k < |b|
    requires Start(a, k) == Start(b, k)
    ensures a[k].headingPath == b[k].headingPath && |b[k].segments| <= |a[k].segments|
  {
    assert GroupFits(segments, paths, a, k) && GroupFits(segments, paths, b, k);
    var s := Start(a, k);
    assert paths[s] == a[k].headingPath == b[k].headingPath;
    StartNext(a, k);
    if k + 1 == |a| {
      assert a[..|a|] == a;
    } else {
      assert GroupFits(segments, paths, a, k + 1);
      assert paths[Start(a, k + 1)] == a[k + 1].headingPath;
      assert a[k].headingPath != a[k + 1].headingPath;
    }
  }

  lemma {:induction false} SameStarts(segments: seq<Segment>, paths: seq<Path>, a: seq<Group>, b: seq<Group>, k: nat)
    requires Grouped(segments, paths, a) && Grouped(segments, paths, b) && k <= |a| && k <= |b|
    ensures Start(a, k) == Start(b, k) && a[..k] == b[..k]
    decreases k
  {
    if k > 0 {
      SameStarts(segments, paths, a, b, k - 1);
      SameGroup(segments, paths, a, b, k - 1);
      assert a[..k] == a[..k - 1] + [a[k - 1]] && b[..k] == b[..k - 1] + [b[k - 1]];
    }
  }

  lemma StartsInside(segments: seq<Segment>, paths: seq<Path>, groups: seq<Group>, k: nat)
    requires Grouped(segments, paths, groups) && k < |groups|
    ensures Start(groups, k) < |segments|
  {
    assert GroupFits(segments, paths, groups, k);
  }

  lemma NotShorter(segments: seq<Segment>, paths: seq<Path>, a: seq<Group>, b: seq<Group>)
    requires Grouped(segments, paths, a) && Grouped(segments, paths, b)
    ensures |b| <= |a|
  {
    assert a[..|a|] == a;
    if |a| < |b| {
      StartsInside(segments, paths, b, |a|);
      SameStarts(segments, paths, a, b, |a|);
      assert false;
    }
  }

  /** Segments can be grouped in one way only. */
  lemma GroupingIsUnique(segments: seq<Segment>, paths: seq<Path>, a: seq<Group>, b: seq<Group>)
    requires Grouped(segments, paths, a) && Grouped(segments, paths, b)
    ensures a == b
  {
    NotShorter(segments, paths, a, b);
    NotShorter(segments, paths, b, a);
    SameStarts(segments, paths, a, b, |a|);
    assert a[..|a|] == a && b[..|b|] == b;
  }

  lemma FirstStarts(groups: seq<Group>)
    requires groups != []
    ensures Start(groups, 0) == 0 && Start(groups, 1) == |groups[0].segments|
    ensures |groups| == 1 ==> Flatten(groups) == groups[0].segments
  {
    assert groups[..0] == [];
    StartNext(groups, 0);
    if |groups| == 1 {
      FlattenAppend([], groups[0]);
      assert [] + [groups[0]] == groups;
    }
  }

  lemma FirstGroupIsPrefix(segments: seq<Segment>, paths: seq<Path>, groups: seq<Group>)
    requires segments != [] && Grouped(segments, paths, groups)
    ensures groups != [] && 0 < |groups[0].segments| <= |segments|
    ensures groups[0].segments == segments[..|groups[0].segments|]
    ensures forall i :: 0 <= i < |groups[0].segments| ==> paths[i] == groups[0].headingPath
  {
    FirstStarts(groups);
    assert GroupFits(segments, paths, groups, 0);
  }

  /** Where the first group ends, the path changes. */
  lemma FirstGroupEnds(segments: seq<Segment>, paths: seq<Path>, groups: seq<Group>)
    requires segments != [] && Grouped(segments, paths, groups)
    ensures groups != [] && 0 < |groups[0].segments| <= |segments|
    ensures if |groups| == 1 then groups[0].segments == segments
            else |groups[0].segments| < |segments| && paths[|groups[0].segments|] != groups[0].headingPath
  {
    FirstGroupIsPrefix(segments, paths, groups);
    FirstStarts(groups);
    if |groups| > 1 {
      assert GroupFits(segments, paths, groups, 1);
      assert groups[0].headingPath != groups[1].headingPath;
    }
  }

  /** Leading unheaded segments share the first heading's group. */
  lemma UnheadedJoinFirstHeading(segments: seq<Segment>, groups: seq<Group>)
    requires segments != [] && Grouped(segments, Paths(segments), groups)
    ensures groups != []
    ensures var h := FirstHeadingFrom(segments, 0);
      if h == |segments| then groups == [Group([], segments)]
      else |groups[0].segments| > h && groups[0].headingPath == segments[h].headingPath
  {
    FirstGroupRuns(segments, FirstHeadingFrom(segments, 0), Paths(segments), groups);
  }

  lemma FirstGroupRuns(segments: seq<Segment>, h: nat, paths: seq<Path>, groups: seq<Group>)
    requires segments != [] && GroupingPaths(segments, h, paths) && Grouped(segments, paths, groups)
    ensures groups != []
    ensures h < |segments| ==> |groups[0].segments| > h && groups[0].headingPath == segments[h].headingPath
    ensures h == |segments| ==> groups == [Group([], segments)]
  {
    FirstGroupIsPrefix(segments, paths, groups);
    FirstGroupEnds(segments, paths, groups);
    assert paths[0] == groups[0].headingPath;
    assert forall i :: 0 <= i <= h && i < |segments| ==> paths[i] == paths[0];
  }
}
