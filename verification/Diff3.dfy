/** Line-based diff3 merge (apps/plugin/src/sync/yjs-session.ts, threeWayMerge): the anchors
    cut the three texts into segments, each segment is rendered, the lines are joined again. */
module Diff3 {
  import opened Lcs

  // ---- text and lines ----

  ghost function Split(text: string): (lines: seq<Line>)
    ensures |lines| > 0
  {
    if text == "" then [""]
    else
      var rest := Split(text[1..]);
      if text[0] == '\n' then [""] + rest else [[text[0]] + rest[0]] + rest[1..]
  }

  function Join(lines: seq<Line>): string {
    if |lines| == 0 then "" else if |lines| == 1 then lines[0] else lines[0] + "\n" + Join(lines[1..])
  }

  lemma {:induction false} JoinSplit(text: string)
    ensures Join(Split(text)) == text
  {
    if text != "" {
      JoinSplit(text[1..]);
      var rest := Split(text[1..]);
      if text[0] == '\n' {
        assert ([""] + rest)[1..] == rest;
      } else {
        assert ([[text[0]] + rest[0]] + rest[1..])[1..] == rest[1..];
      }
      assert text == [text[0]] + text[1..];
    }
  }

  method SplitLines(text: string) returns (lines: seq<Line>)
    ensures lines == Split(text)
  {
    lines := [""];
    var i := |text|;
    while i > 0
      invariant 0 <= i <= |text|
      invariant lines == Split(text[i..])
    {
      i := i - 1;
      assert text[i..][1..] == text[i + 1..];
      lines := if text[i] == '\n' then [""] + lines else [[text[i]] + lines[0]] + lines[1..];
    }
  }

  method SliceEqual(a: seq<Line>, b: seq<Line>) returns (equal: bool)
    ensures equal <==> a == b
  {
    if |a| != |b| {
      return false;
    }
    for i := 0 to |a|
      invariant a[..i] == b[..i]
    {
      if a[i] != b[i] {
        return false;
      }
    }
    return true;
  }

  // ---- anchors ----

  datatype Anchor = Anchor(o: nat, a: nat, b: nat)

  ghost function PairMap(ps: seq<(nat, nat)>): map<nat, nat> {
    if |ps| == 0 then map[] else PairMap(ps[..|ps| - 1])[ps[|ps| - 1].0 := ps[|ps| - 1].1]
  }

  ghost predicate MapMatches(base: seq<Line>, side: seq<Line>, m: map<nat, nat>) {
    forall o :: o in m ==> o < |base| && m[o] < |side| && base[o] == side[m[o]]
  }

  ghost function AnchorsFrom(base: seq<Line>, aMap: map<nat, nat>, bMap: map<nat, nat>, o: nat, lastA: int,
          lastB: int): seq<Anchor>
    requires o <= |base|
    decreases |base| - o
  {
    if o == |base| then []
    else if o in aMap && o in bMap && aMap[o] > lastA && bMap[o] > lastB then
      [Anchor(o, aMap[o], bMap[o])] + AnchorsFrom(base, aMap, bMap, o + 1, aMap[o], bMap[o])
    else AnchorsFrom(base, aMap, bMap, o + 1, lastA, lastB)
  }

  /** Anchors advance in all three texts from (o, a, b) on and stand on equal lines. */
  ghost predicate Cuts(anchors: seq<Anchor>, base: seq<Line>, ours: seq<Line>, theirs: seq<Line>, o: nat, a: nat,
          b: nat) {
    if |anchors| == 0 then o <= |base| && a <= |ours| && b <= |theirs|
    else
      var x := anchors[0];
      && o <= x.o < |base| && a <= x.a < |ours| && b <= x.b < |theirs|
      && base[x.o] == ours[x.a] == theirs[x.b]
      && Cuts(anchors[1..], base, ours, theirs, x.o + 1, x.a + 1, x.b + 1)
  }

  lemma {:induction false} PairMapMatches(a: seq<Line>, b: seq<Line>, ps: seq<(nat, nat)>)
    requires Matching(a, b, ps, 0, 0)
    ensures MapMatches(a, b, PairMap(ps))
  {
    if |ps| > 0 {
      PairMapMatches(a, b, ps[..|ps| - 1]);
    }
  }

  lemma {:induction false} AnchorsCut(base: seq<Line>, ours: seq<Line>, theirs: seq<Line>, aMap: map<nat, nat>,
          bMap: map<nat, nat>, o: nat, lastA: int, lastB: int, oPrev: nat)
    requires MapMatches(base, ours, aMap) && MapMatches(base, theirs, bMap)
    requires oPrev <= o <= |base| && -1 <= lastA < |ours| && -1 <= lastB < |theirs|
    ensures Cuts(AnchorsFrom(base, aMap, bMap, o, lastA, lastB), base, ours, theirs, oPrev, lastA + 1, lastB + 1)
    decreases |base| - o
  {
    if o < |base| {
      if o in aMap && o in bMap && aMap[o] > lastA && bMap[o] > lastB {
        AnchorsCut(base, ours, theirs, aMap, bMap, o + 1, aMap[o], bMap[o], o + 1);
        var rest := AnchorsFrom(base, aMap, bMap, o + 1, aMap[o], bMap[o]);
        assert ([Anchor(o, aMap[o], bMap[o])] + rest)[1..] == rest;
      } else {
        AnchorsCut(base, ours, theirs, aMap, bMap, o + 1, lastA, lastB, oPrev);
      }
    }
  }

  ghost function Anchors(base: seq<Line>, ours: seq<Line>, theirs: seq<Line>): (anchors: seq<Anchor>)
    ensures Cuts(anchors, base, ours, theirs, 0, 0, 0)
  {
    PairsAreOptimal(base, ours);
    PairsAreOptimal(base, theirs);
    PairMapMatches(base, ours, Pairs(base, ours));
    PairMapMatches(base, theirs, Pairs(base, theirs));
    AnchorsCut(base, ours, theirs, PairMap(Pairs(base, ours)), PairMap(Pairs(base, theirs)), 0, -1, -1, 0);
    AnchorsFrom(base, PairMap(Pairs(base, ours)), PairMap(Pairs(base, theirs)), 0, -1, -1)
  }

  // ---- segments ----

  datatype Segment = Chunk(base: seq<Line>, ours: seq<Line>, theirs: seq<Line>) | Common(line: Line)

  ghost function SegmentsFrom(anchors: seq<Anchor>, base: seq<Line>, ours: seq<Line>, theirs: seq<Line>, o: nat, a: nat,
          b: nat): seq<Segment>
    requires Cuts(anchors, base, ours, theirs, o, a, b)
    decreases |anchors|
  {
    if |anchors| == 0 then [Chunk(base[o..], ours[a..], theirs[b..])]
    else
      var x := anchors[0];
      [Chunk(base[o..x.o], ours[a..x.a], theirs[b..x.b]), Common(base[x.o])]
      + SegmentsFrom(anchors[1..], base, ours, theirs, x.o + 1, x.a + 1, x.b + 1)
  }

  ghost function Segments(base: seq<Line>, ours: seq<Line>, theirs: seq<Line>): seq<Segment> {
    SegmentsFrom(Anchors(base, ours, theirs), base, ours, theirs, 0, 0, 0)
  }

  ghost function BasePart(s: Segment): seq<Line> { if s.Common? then [s.line] else s.base }
  ghost function OursPart(s: Segment): seq<Line> { if s.Common? then [s.line] else s.ours }
  ghost function TheirsPart(s: Segment): seq<Line> { if s.Common? then [s.line] else s.theirs }

  ghost predicate Conflicting(s: Segment) {
    s.Chunk? && s.ours != s.theirs && s.ours != s.base && s.theirs != s.base
  }

  ghost function Marked(ours: seq<Line>, theirs: seq<Line>): seq<Line> {
    ["<<<<<<< local"] + ours + ["======="] + theirs + [">>>>>>> server"]
  }

  ghost function Rendered(s: Segment): seq<Line> {
    if s.Common? then [s.line]
    else if Conflicting(s) then Marked(s.ours, s.theirs)
    else if s.ours == s.base then s.theirs
    else s.ours
  }

  ghost function Flat(segments: seq<Segment>, part: Segment -> seq<Line>): seq<Line> {
    if |segments| == 0 then [] else part(segments[0]) + Flat(segments[1..], part)
  }

  lemma {:induction false} FlatAgrees(x: seq<Segment>, f: Segment -> seq<Line>, g: Segment -> seq<Line>)
    requires forall k :: 0 <= k < |x| ==> f(x[k]) == g(x[k])
    ensures Flat(x, f) == Flat(x, g)
  {
    if |x| > 0 {
      FlatAgrees(x[1..], f, g);
    }
  }

  /** The three sides of the segments concatenate to the three texts. */
  ghost predicate Cover(segments: seq<Segment>, base: seq<Line>, ours: seq<Line>, theirs: seq<Line>) {
    && Flat(segments, BasePart) == base
    && Flat(segments, OursPart) == ours
    && Flat(segments, TheirsPart) == theirs
  }

  lemma {:induction false} SegmentsCover(anchors: seq<Anchor>, base: seq<Line>, ours: seq<Line>, theirs: seq<Line>,
          o: nat, a: nat, b: nat)
    requires Cuts(anchors, base, ours, theirs, o, a, b)
    ensures Cover(SegmentsFrom(anchors, base, ours, theirs, o, a, b), base[o..], ours[a..], theirs[b..])
    decreases |anchors|
  {
    if |anchors| == 0 {
      LastCovered(base[o..], ours[a..], theirs[b..]);
    } else {
      var x := anchors[0];
      SegmentsCover(anchors[1..], base, ours, theirs, x.o + 1, x.a + 1, x.b + 1);
      StepCovered(x, SegmentsFrom(anchors[1..], base, ours, theirs, x.o + 1, x.a + 1, x.b + 1), base, ours, theirs, o,
                  a, b);
    }
  }

  lemma LastCovered(base: seq<Line>, ours: seq<Line>, theirs: seq<Line>)
    ensures Cover([Chunk(base, ours, theirs)], base, ours, theirs)
  {
    FlatOne(Chunk(base, ours, theirs), BasePart);
    FlatOne(Chunk(base, ours, theirs), OursPart);
    FlatOne(Chunk(base, ours, theirs), TheirsPart);
  }

  lemma StepCovered(x: Anchor, rest: seq<Segment>, base: seq<Line>, ours: seq<Line>, theirs: seq<Line>, o: nat, a: nat,
          b: nat)
    requires o <= x.o < |base| && a <= x.a < |ours| && b <= x.b < |theirs|
    requires base[x.o] == ours[x.a] == theirs[x.b]
    requires Cover(rest, base[x.o + 1..], ours[x.a + 1..], theirs[x.b + 1..])
    ensures Cover([Chunk(base[o..x.o], ours[a..x.a], theirs[b..x.b]), Common(base[x.o])] + rest, base[o..], ours[a..],
                  theirs[b..])
  {
    var two := [Chunk(base[o..x.o], ours[a..x.a], theirs[b..x.b]), Common(base[x.o])];
    SideCovered(two, rest, BasePart, base, o, x.o);
    SideCovered(two, rest, OursPart, ours, a, x.a);
    SideCovered(two, rest, TheirsPart, theirs, b, x.b);
  }

  lemma FlatOne(s: Segment, part: Segment -> seq<Line>)
    ensures Flat([s], part) == part(s)
  {
    assert [s][1..] == [];
    assert part(s) + [] == part(s);
  }

  lemma SideCovered(two: seq<Segment>, rest: seq<Segment>,
          part: Segment -> seq<Line>, side: seq<Line>, from: nat, at: nat)
    requires |two| == 2 && from <= at < |side|
    requires part(two[0]) == side[from..at] && part(two[1]) == [side[at]] && Flat(rest, part) == side[at + 1..]
    ensures Flat(two + rest, part) == side[from..]
  {
    FlatTwo(two + rest, rest, part);
    CutAt(side, from, at);
  }

  lemma CutAt(lines: seq<Line>, from: nat, at: nat)
    requires from <= at < |lines|
    ensures lines[from..] == lines[from..at] + [lines[at]] + lines[at + 1..]
  {
  }

  lemma FlatTwo(segments: seq<Segment>, rest: seq<Segment>, part: Segment -> seq<Line>)
    requires |segments| >= 2 && segments[2..] == rest
    ensures Flat(segments, part) == part(segments[0]) + part(segments[1]) + Flat(rest, part)
  {
    assert segments[1..][1..] == rest;
    assert Flat(segments[1..], part) == part(segments[1]) + Flat(rest, part);
  }

  // ---- merge ----

  ghost predicate AnyConflict(segments: seq<Segment>) {
    exists k :: 0 <= k < |segments| && Conflicting(segments[k])
  }

  datatype MergeResult = MergeResult(text: string, conflict: bool)

  ghost function Merge(base: string, ours: string, theirs: string): MergeResult {
    var segments := Segments(Split(base), Split(ours), Split(theirs));
    MergeResult(Join(Flat(segments, Rendered)), AnyConflict(segments))
  }

  ghost predicate OccursAt(part: seq<Line>, whole: seq<Line>, i: nat) {
    i + |part| <= |whole| && whole[i..i + |part|] == part
  }

  ghost predicate Contiguous(part: seq<Line>, whole: seq<Line>) {
    exists i: nat :: OccursAt(part, whole, i)
  }

  lemma ContiguousAt(before: seq<Line>, part: seq<Line>, after: seq<Line>, whole: seq<Line>)
    requires whole == before + part + after
    ensures Contiguous(part, whole)
  {
    assert OccursAt(part, whole, |before|);
  }

  lemma ContiguousInConcat(part: seq<Line>, head: seq<Line>, tail: seq<Line>)
    requires Contiguous(part, head) || Contiguous(part, tail)
    ensures Contiguous(part, head + tail)
  {
    if Contiguous(part, head) {
      var i: nat :| OccursAt(part, head, i);
      assert head + tail == head[..i] + part + (head[i + |part|..] + tail);
      ContiguousAt(head[..i], part, head[i + |part|..] + tail, head + tail);
    } else {
      var i: nat :| OccursAt(part, tail, i);
      assert head + tail == (head + tail[..i]) + part + tail[i + |part|..];
      ContiguousAt(head + tail[..i], part, tail[i + |part|..], head + tail);
    }
  }

  lemma {:induction false} FlatContains(segments: seq<Segment>, k: nat, part: seq<Line>)
    requires k < |segments| && Contiguous(part, Rendered(segments[k]))
    ensures Contiguous(part, Flat(segments, Rendered))
  {
    if k == 0 {
      ContiguousInConcat(part, Rendered(segments[0]), Flat(segments[1..], Rendered));
    } else {
      FlatContains(segments[1..], k - 1, part);
      ContiguousInConcat(part, Rendered(segments[0]), Flat(segments[1..], Rendered));
    }
  }

  lemma ChangedSliceIsRendered(s: Segment)
    requires s.Chunk?
    ensures s.ours != s.base ==> Contiguous(s.ours, Rendered(s))
    ensures s.theirs != s.base ==> Contiguous(s.theirs, Rendered(s))
  {
    var r := Rendered(s);
    if Conflicting(s) {
      ContiguousAt(["<<<<<<< local"], s.ours, ["======="] + s.theirs + [">>>>>>> server"], r);
      ContiguousAt(["<<<<<<< local"] + s.ours + ["======="], s.theirs, [">>>>>>> server"], r);
    } else {
      ContiguousAt([], r, [], r);
    }
  }

  /** The segments concatenate back to each input, every slice a side changed appears
      contiguously among the merged lines, and the flag is raised exactly when some segment has
      three pairwise different slices. */
  lemma MergeLosesNothing(base: string, ours: string, theirs: string)
    ensures var segments := Segments(Split(base), Split(ours), Split(theirs));
      && Join(Flat(segments, BasePart)) == base
      && Join(Flat(segments, OursPart)) == ours
      && Join(Flat(segments, TheirsPart)) == theirs
      && Merge(base, ours, theirs).text == Join(Flat(segments, Rendered))
      && (forall s :: s in segments && s.Chunk? && s.ours != s.base ==> Contiguous(s.ours, Flat(segments, Rendered)))
      && (forall s :: s in segments && s.Chunk? && s.theirs != s.base ==>
            Contiguous(s.theirs, Flat(segments, Rendered)))
      && (Merge(base, ours, theirs).conflict <==>
          exists s :: s in segments && s.Chunk? && s.ours != s.theirs && s.ours != s.base && s.theirs != s.base)
  {
    var b, o, t := Split(base), Split(ours), Split(theirs);
    var segments := Segments(b, o, t);
    SegmentsCover(Anchors(b, o, t), b, o, t, 0, 0, 0);
    JoinSplit(base);
    JoinSplit(ours);
    JoinSplit(theirs);
    assert b[0..] == b && o[0..] == o && t[0..] == t;
    forall k | 0 <= k < |segments| && segments[k].Chunk?
      ensures segments[k].ours != segments[k].base ==> Contiguous(segments[k].ours, Flat(segments, Rendered))
      ensures segments[k].theirs != segments[k].base ==> Contiguous(segments[k].theirs, Flat(segments, Rendered))
    {
      ChangedSliceIsRendered(segments[k]);
      if segments[k].ours != segments[k].base { FlatContains(segments, k, segments[k].ours); }
      if segments[k].theirs != segments[k].base { FlatContains(segments, k, segments[k].theirs); }
    }
  }

  // ---- laws ----

  lemma {:induction false} PairMapOfSelf(ps: seq<(nat, nat)>)
    requires forall k :: 0 <= k < |ps| ==> ps[k] == (k, k)
    ensures forall k :: k in PairMap(ps) <==> 0 <= k < |ps|
    ensures forall k :: k in PairMap(ps) ==> PairMap(ps)[k] == k
  {
    if |ps| > 0 {
      PairMapOfSelf(ps[..|ps| - 1]);
    }
  }

  /** Every chunk pairs equal slices when the two sides are cut at equal places. */
  lemma {:induction false} EqualCuts(anchors: seq<Anchor>, base: seq<Line>, ours: seq<Line>, theirs: seq<Line>, o: nat,
          a: nat, b: nat)
    requires Cuts(anchors, base, ours, theirs, o, a, b)
    ensures theirs == base && b == o && (forall x :: x in anchors ==> x.b == x.o)
            ==> forall s :: s in SegmentsFrom(anchors, base, ours, theirs, o, a, b) && s.Chunk? ==> s.theirs == s.base
    ensures ours == theirs && a == b && (forall x :: x in anchors ==> x.a == x.b)
            ==> forall s :: s in SegmentsFrom(anchors, base, ours, theirs, o, a, b) && s.Chunk? ==> s.ours == s.theirs
    decreases |anchors|
  {
    if |anchors| > 0 {
      var x := anchors[0];
      assert x in anchors;
      EqualCuts(anchors[1..], base, ours, theirs, x.o + 1, x.a + 1, x.b + 1);
    }
  }

  lemma {:induction false} AnchorsFollowMaps(base: seq<Line>, aMap: map<nat, nat>, bMap: map<nat, nat>, o: nat,
          lastA: int, lastB: int)
    requires o <= |base|
    ensures forall x :: x in AnchorsFrom(base, aMap, bMap, o, lastA, lastB) ==>
              x.o in aMap && x.o in bMap && x.a == aMap[x.o] && x.b == bMap[x.o]
    decreases |base| - o
  {
    if o < |base| {
      if o in aMap && o in bMap && aMap[o] > lastA && bMap[o] > lastB {
        AnchorsFollowMaps(base, aMap, bMap, o + 1, aMap[o], bMap[o]);
      } else {
        AnchorsFollowMaps(base, aMap, bMap, o + 1, lastA, lastB);
      }
    }
  }

  lemma {:induction false} RendersOurs(base: string, ours: string, theirs: string)
    requires forall s :: s in Segments(Split(base), Split(ours), Split(theirs)) && s.Chunk? ==>
      s.theirs == s.base || s.ours == s.theirs
    ensures Merge(base, ours, theirs) == MergeResult(ours, false)
  {
    FlatIsOurs(Split(base), Split(ours), Split(theirs));
    JoinSplit(ours);
  }

  lemma FlatIsOurs(b: seq<Line>, o: seq<Line>, t: seq<Line>)
    requires forall s :: s in Segments(b, o, t) && s.Chunk? ==> s.theirs == s.base || s.ours == s.theirs
    ensures Flat(Segments(b, o, t), Rendered) == o && !AnyConflict(Segments(b, o, t))
  {
    var anchors := Anchors(b, o, t);
    var segments := SegmentsFrom(anchors, b, o, t, 0, 0, 0);
    SegmentsCover(anchors, b, o, t, 0, 0, 0);
    assert o[0..] == o;
    forall k | 0 <= k < |segments| ensures Rendered(segments[k]) == OursPart(segments[k]) && !Conflicting(segments[k]) {
      assert segments[k] in segments;
    }
    FlatAgrees(segments, Rendered, OursPart);
  }

  /** merge(b, o, b) = o. */
  lemma MergeWithUnchangedTheirs(base: string, ours: string)
    ensures Merge(base, ours, base) == MergeResult(ours, false)
  {
    var b, o := Split(base), Split(ours);
    TraceOfSelf(b, 0);
    PairMapOfSelf(Pairs(b, b));
    AnchorsFollowMaps(b, PairMap(Pairs(b, o)), PairMap(Pairs(b, b)), 0, -1, -1);
    EqualCuts(Anchors(b, o, b), b, o, b, 0, 0, 0);
    RendersOurs(base, ours, base);
  }

  /** merge(b, x, x) = x. */
  lemma {:induction false} MergeOfEqualSides(base: string, side: string)
    ensures Merge(base, side, side) == MergeResult(side, false)
  {
    var b, x := Split(base), Split(side);
    AnchorsFollowMaps(b, PairMap(Pairs(b, x)), PairMap(Pairs(b, x)), 0, -1, -1);
    EqualCuts(Anchors(b, x, x), b, x, x, 0, 0, 0);
    RendersOurs(base, side, side);
  }

  // ---- symmetry ----

  ghost function SwapAnchors(anchors: seq<Anchor>): seq<Anchor> {
    if |anchors| == 0 then [] else [Anchor(anchors[0].o, anchors[0].b, anchors[0].a)] + SwapAnchors(anchors[1..])
  }

  ghost function SwapSegment(s: Segment): Segment {
    if s.Common? then s else Chunk(s.base, s.theirs, s.ours)
  }

  ghost predicate Swapped(x: seq<Segment>, y: seq<Segment>) {
    |x| == |y| && forall k :: 0 <= k < |x| ==> y[k] == SwapSegment(x[k])
  }

  lemma {:induction false} AnchorsSwap(base: seq<Line>, aMap: map<nat, nat>, bMap: map<nat, nat>, o: nat, lastA: int,
          lastB: int)
    requires o <= |base|
    ensures AnchorsFrom(base, bMap, aMap, o, lastB, lastA)
      == SwapAnchors(AnchorsFrom(base, aMap, bMap, o, lastA, lastB))
    decreases |base| - o
  {
    if o < |base| {
      if o in aMap && o in bMap && aMap[o] > lastA && bMap[o] > lastB {
        AnchorsSwap(base, aMap, bMap, o + 1, aMap[o], bMap[o]);
        var rest := AnchorsFrom(base, aMap, bMap, o + 1, aMap[o], bMap[o]);
        assert ([Anchor(o, aMap[o], bMap[o])] + rest)[1..] == rest;
      } else {
        AnchorsSwap(base, aMap, bMap, o + 1, lastA, lastB);
      }
    }
  }

  lemma {:induction false} CutsSwap(anchors: seq<Anchor>, base: seq<Line>, ours: seq<Line>, theirs: seq<Line>, o: nat,
          a: nat, b: nat)
    requires Cuts(anchors, base, ours, theirs, o, a, b)
    ensures Cuts(SwapAnchors(anchors), base, theirs, ours, o, b, a)
    decreases |anchors|
  {
    if |anchors| > 0 {
      var x := anchors[0];
      CutsSwap(anchors[1..], base, ours, theirs, x.o + 1, x.a + 1, x.b + 1);
      assert SwapAnchors(anchors)[0] == Anchor(x.o, x.b, x.a);
      assert SwapAnchors(anchors)[1..] == SwapAnchors(anchors[1..]);
    }
  }

  lemma SwapConcat(x: seq<Segment>, y: seq<Segment>, x': seq<Segment>, y': seq<Segment>)
    requires Swapped(x, x') && Swapped(y, y')
    ensures Swapped(x + y, x' + y')
  {
  }

  lemma {:induction false} SegmentsSwap(anchors: seq<Anchor>, base: seq<Line>, ours: seq<Line>, theirs: seq<Line>,
          o: nat, a: nat, b: nat)
    requires Cuts(anchors, base, ours, theirs, o, a, b) && Cuts(SwapAnchors(anchors), base, theirs, ours, o, b, a)
    ensures Swapped(SegmentsFrom(anchors, base, ours, theirs, o, a, b),
                    SegmentsFrom(SwapAnchors(anchors), base, theirs, ours, o, b, a))
    decreases |anchors|
  {
    if |anchors| == 0 {
      assert Swapped([Chunk(base[o..], ours[a..], theirs[b..])], [Chunk(base[o..], theirs[b..], ours[a..])]);
    } else {
      var x, y := anchors[0], SwapAnchors(anchors)[0];
      assert SwapAnchors(anchors)[1..] == SwapAnchors(anchors[1..]) && y == Anchor(x.o, x.b, x.a);
      SegmentsSwap(anchors[1..], base, ours, theirs, x.o + 1, x.a + 1, x.b + 1);
      SwapConcat([Chunk(base[o..x.o], ours[a..x.a], theirs[b..x.b]), Common(base[x.o])],
                 SegmentsFrom(anchors[1..], base, ours, theirs, x.o + 1, x.a + 1, x.b + 1),
                 [Chunk(base[o..x.o], theirs[b..x.b], ours[a..x.a]), Common(base[x.o])],
                 SegmentsFrom(SwapAnchors(anchors[1..]), base, theirs, ours, x.o + 1, x.b + 1, x.a + 1));
    }
  }

  lemma {:induction false} FlatOfSwap(x: seq<Segment>, y: seq<Segment>)
    requires Swapped(x, y) && !AnyConflict(x)
    ensures Flat(x, Rendered) == Flat(y, Rendered)
  {
    if |x| > 0 {
      assert !Conflicting(x[0]);
      forall k | 0 <= k < |x[1..]| ensures !Conflicting(x[1..][k]) {
        assert x[1..][k] == x[k + 1];
      }
      FlatOfSwap(x[1..], y[1..]);
    }
  }

  /** Swapping the sides keeps the conflict flag and, when it is down, the text. */
  lemma MergeIsSymmetric(base: string, ours: string, theirs: string)
    ensures Merge(base, ours, theirs).conflict <==> Merge(base, theirs, ours).conflict
    ensures !Merge(base, ours, theirs).conflict ==> Merge(base, ours, theirs) == Merge(base, theirs, ours)
  {
    var b, o, t := Split(base), Split(ours), Split(theirs);
    var segments, swapped := Segments(b, o, t), Segments(b, t, o);
    AnchorsSwap(b, PairMap(Pairs(b, o)), PairMap(Pairs(b, t)), 0, -1, -1);
    CutsSwap(Anchors(b, o, t), b, o, t, 0, 0, 0);
    SegmentsSwap(Anchors(b, o, t), b, o, t, 0, 0, 0);
    ConflictOfSwap(segments, swapped);
    if !AnyConflict(segments) {
      FlatOfSwap(segments, swapped);
    }
  }

  lemma ConflictOfSwap(x: seq<Segment>, y: seq<Segment>)
    requires Swapped(x, y)
    ensures AnyConflict(x) <==> AnyConflict(y)
  {
    forall k | 0 <= k < |x| ensures Conflicting(x[k]) <==> Conflicting(y[k]) {
    }
  }

  /** merge(b, b, t) = t. */
  lemma {:induction false} MergeWithUnchangedOurs(base: string, theirs: string)
    ensures Merge(base, base, theirs) == MergeResult(theirs, false)
  {
    MergeWithUnchangedTheirs(base, theirs);
    MergeIsSymmetric(base, base, theirs);
  }

  // ---- the algorithm ----

  method CollectAnchors(base: seq<Line>, aMap: map<nat, nat>, bMap: map<nat, nat>) returns (anchors: seq<Anchor>)
    ensures anchors == AnchorsFrom(base, aMap, bMap, 0, -1, -1)
  {
    anchors := [];
    var lastA: int, lastB: int := -1, -1;
    for o := 0 to |base|
      invariant anchors + AnchorsFrom(base, aMap, bMap, o, lastA, lastB) == AnchorsFrom(base, aMap, bMap, 0, -1, -1)
    {
      if o in aMap && o in bMap && aMap[o] > lastA && bMap[o] > lastB {
        anchors := anchors + [Anchor(o, aMap[o], bMap[o])];
        lastA, lastB := aMap[o], bMap[o];
      }
    }
  }

  method MapOfPairs(ps: seq<(nat, nat)>) returns (m: map<nat, nat>)
    ensures m == PairMap(ps)
  {
    m := map[];
    for k := 0 to |ps|
      invariant m == PairMap(ps[..k])
    {
      assert ps[..k + 1][..k] == ps[..k];
      m := m[ps[k].0 := ps[k].1];
    }
    assert ps[..|ps|] == ps;
  }

  method Emit(base: seq<Line>, ours: seq<Line>, theirs: seq<Line>) returns (lines: seq<Line>, conflict: bool)
    ensures lines == Rendered(Chunk(base, ours, theirs))
    ensures conflict <==> Conflicting(Chunk(base, ours, theirs))
  {
    conflict := false;
    var same := SliceEqual(ours, theirs);
    if same { return ours, false; }
    var oursKept := SliceEqual(ours, base);
    if oursKept { return theirs, false; }
    var theirsKept := SliceEqual(theirs, base);
    if theirsKept { return ours, false; }
    return ["<<<<<<< local"] + ours + ["======="] + theirs + [">>>>>>> server"], true;
  }

  /** What the segments from anchor k on render to, and whether one of them conflicts. */
  ghost function Remaining(anchors: seq<Anchor>, k: nat, base: seq<Line>, ours: seq<Line>, theirs: seq<Line>, o: nat,
          a: nat, b: nat): (seq<Line>, bool)
    requires k <= |anchors| && Cuts(anchors[k..], base, ours, theirs, o, a, b)
  {
    var segments := SegmentsFrom(anchors[k..], base, ours, theirs, o, a, b);
    (Flat(segments, Rendered), AnyConflict(segments))
  }

  lemma CutsNext(anchors: seq<Anchor>, k: nat, base: seq<Line>, ours: seq<Line>, theirs: seq<Line>, o: nat,
          a: nat, b: nat)
    requires k < |anchors| && Cuts(anchors[k..], base, ours, theirs, o, a, b)
    ensures var x := anchors[k];
      && o <= x.o < |base| && a <= x.a < |ours| && b <= x.b < |theirs|
      && Cuts(anchors[k + 1..], base, ours, theirs, x.o + 1, x.a + 1, x.b + 1)
  {
    assert anchors[k..][0] == anchors[k] && anchors[k..][1..] == anchors[k + 1..];
  }

  lemma RemainingStep(anchors: seq<Anchor>, k: nat, base: seq<Line>, ours: seq<Line>, theirs: seq<Line>, o: nat, a: nat,
          b: nat)
    requires k < |anchors| && Cuts(anchors[k..], base, ours, theirs, o, a, b)
    requires var x := anchors[k];
      && o <= x.o < |base| && a <= x.a < |ours| && b <= x.b < |theirs|
      && Cuts(anchors[k + 1..], base, ours, theirs, x.o + 1, x.a + 1, x.b + 1)
    ensures var x := anchors[k];
      var chunk := Chunk(base[o..x.o], ours[a..x.a], theirs[b..x.b]);
      var rest := Remaining(anchors, k + 1, base, ours, theirs, x.o + 1, x.a + 1, x.b + 1);
      Remaining(anchors, k, base, ours, theirs, o, a, b)
          == (Rendered(chunk) + [base[x.o]] + rest.0, Conflicting(chunk) || rest.1)
  {
    hide Cuts;
    var x := anchors[k];
    assert anchors[k..][0] == x && anchors[k..][1..] == anchors[k + 1..];
    var two := [Chunk(base[o..x.o], ours[a..x.a], theirs[b..x.b]), Common(base[x.o])];
    var rest := SegmentsFrom(anchors[k + 1..], base, ours, theirs, x.o + 1, x.a + 1, x.b + 1);
    assert SegmentsFrom(anchors[k..], base, ours, theirs, o, a, b) == two + rest;
    assert AnyConflict(two) <==> Conflicting(two[0]);
    FlatTwo(two + rest, rest, Rendered);
    ConflictConcat(two, rest);
    hide SegmentsFrom, Flat, AnyConflict, Conflicting;
  }

  lemma RemainingLast(anchors: seq<Anchor>, base: seq<Line>, ours: seq<Line>, theirs: seq<Line>, o: nat, a: nat, b: nat)
    requires o <= |base| && a <= |ours| && b <= |theirs|
    ensures Cuts(anchors[|anchors|..], base, ours, theirs, o, a, b)
    ensures var chunk := Chunk(base[o..], ours[a..], theirs[b..]);
      Remaining(anchors, |anchors|, base, ours, theirs, o, a, b) == (Rendered(chunk), Conflicting(chunk))
  {
    var one := [Chunk(base[o..], ours[a..], theirs[b..])];
    assert anchors[|anchors|..] == [];
    FlatOne(one[0], Rendered);
    assert AnyConflict(one) <==> Conflicting(one[0]);
  }

  /** Emits the chunk before anchor k and the anchor line itself. */
  method EmitAnchor(anchors: seq<Anchor>, k: nat, base: seq<Line>, ours: seq<Line>, theirs: seq<Line>, o: nat, a: nat,
          b: nat)
    returns (lines: seq<Line>, conflict: bool)
    requires k < |anchors| && Cuts(anchors[k..], base, ours, theirs, o, a, b)
    ensures var x := anchors[k];
      && Cuts(anchors[k + 1..], base, ours, theirs, x.o + 1, x.a + 1, x.b + 1)
      && var rest := Remaining(anchors, k + 1, base, ours, theirs, x.o + 1, x.a + 1, x.b + 1);
         Remaining(anchors, k, base, ours, theirs, o, a, b) == (lines + rest.0, conflict || rest.1)
  {
    var x := anchors[k];
    CutsNext(anchors, k, base, ours, theirs, o, a, b);
    RemainingStep(anchors, k, base, ours, theirs, o, a, b);
    hide Cuts, Remaining, Rendered, Conflicting;
    lines, conflict := Emit(base[o..x.o], ours[a..x.a], theirs[b..x.b]);
    lines := lines + [base[x.o]];
  }

  lemma LinesAssociate(x: seq<Line>, y: seq<Line>, z: seq<Line>)
    ensures x + (y + z) == (x + y) + z
  {
  }

  method MergeLines(base: seq<Line>, ours: seq<Line>, theirs: seq<Line>,
          anchors: seq<Anchor>) returns (out: seq<Line>, conflict: bool)
    requires Cuts(anchors[0..], base, ours, theirs, 0, 0, 0)
    ensures (out, conflict) == Remaining(anchors, 0, base, ours, theirs, 0, 0, 0)
  {
    hide Remaining, Rendered, Conflicting;
    ghost var whole := Remaining(anchors, 0, base, ours, theirs, 0, 0, 0);
    ghost var rest := whole;
    out, conflict := [], false;
    var o: nat, a: nat, b: nat := 0, 0, 0;
    for k := 0 to |anchors|
      invariant Cuts(anchors[k..], base, ours, theirs, o, a, b)
      invariant rest == Remaining(anchors, k, base, ours, theirs, o, a, b)
      invariant whole.0 == out + rest.0 && whole.1 == (conflict || rest.1)
    {
      var lines, c := EmitAnchor(anchors, k, base, ours, theirs, o, a, b);
      o, a, b := anchors[k].o + 1, anchors[k].a + 1, anchors[k].b + 1;
      rest := Remaining(anchors, k + 1, base, ours, theirs, o, a, b);
      LinesAssociate(out, lines, rest.0);
      out, conflict := out + lines, conflict || c;
    }
    RemainingLast(anchors, base, ours, theirs, o, a, b);
    var lines, c := Emit(base[o..], ours[a..], theirs[b..]);
    out, conflict := out + lines, conflict || c;
  }

  method ThreeWayMerge(baseText: string, oursText: string, theirsText: string) returns (text: string, conflict: bool)
    ensures MergeResult(text, conflict) == Merge(baseText, oursText, theirsText)
  {
    var base := SplitLines(baseText);
    var ours := SplitLines(oursText);
    var theirs := SplitLines(theirsText);
    var aPairs := LcsPairs(base, ours);
    var bPairs := LcsPairs(base, theirs);
    var aMap := MapOfPairs(aPairs);
    var bMap := MapOfPairs(bPairs);
    var anchors := CollectAnchors(base, aMap, bMap);
    assert anchors == Anchors(base, ours, theirs) && anchors[0..] == anchors;
    var out;
    out, conflict := MergeLines(base, ours, theirs, anchors);
    text := Join(out);
  }

  lemma ConflictConcat(x: seq<Segment>, y: seq<Segment>)
    ensures AnyConflict(x + y) <==> AnyConflict(x) || AnyConflict(y)
  {
    if AnyConflict(x) {
      var k :| 0 <= k < |x| && Conflicting(x[k]);
      assert (x + y)[k] == x[k];
    }
    if AnyConflict(y) {
      var k :| 0 <= k < |y| && Conflicting(y[k]);
      assert (x + y)[|x| + k] == y[k];
    }
  }

  // ---- minimal text edits ----

  datatype Edit = Equal(value: string) | Delete(value: string) | Insert(value: string)

  ghost function OldText(edits: seq<Edit>): string {
    if |edits| == 0 then "" else (if edits[0].Insert? then "" else edits[0].value) + OldText(edits[1..])
  }

  ghost function NewText(edits: seq<Edit>): string {
    if |edits| == 0 then "" else (if edits[0].Delete? then "" else edits[0].value) + NewText(edits[1..])
  }

  lemma EditAt(edits: seq<Edit>, k: nat)
    requires k < |edits|
    ensures OldText(edits[k..]) == (if edits[k].Insert? then "" else edits[k].value) + OldText(edits[k + 1..])
    ensures NewText(edits[k..]) == (if edits[k].Delete? then "" else edits[k].value) + NewText(edits[k + 1..])
  {
    assert edits[k..][1..] == edits[k + 1..];
  }

  lemma Associates(a: string, b: string, c: string)
    ensures a + (b + c) == (a + b) + c
  {
  }

  /** Replaying the edit script of a diff in place turns the old text into the new one. */
  method ApplyMinimalTextDiff(oldText: string, edits: seq<Edit>) returns (text: string)
    requires OldText(edits) == oldText
    ensures text == NewText(edits)
  {
    text := oldText;
    var index := 0;
    ghost var done := "";
    assert edits[0..] == edits;
    for k := 0 to |edits|
      invariant text == done + OldText(edits[k..]) && index == |done|
      invariant done + NewText(edits[k..]) == NewText(edits)
    {
      EditAt(edits, k);
      text, index, done := ApplyEdit(text, index, edits[k], done, OldText(edits[k + 1..]), NewText(edits[k + 1..]));
    }
  }

  method ApplyEdit(text: string, index: nat, edit: Edit, ghost done: string, ghost oldRest: string,
          ghost newRest: string)
    returns (newText: string, newIndex: nat, ghost newDone: string)
    requires text == done + ((if edit.Insert? then "" else edit.value) + oldRest) && index == |done|
    ensures newText == newDone + oldRest && newIndex == |newDone|
    ensures newDone + newRest == done + ((if edit.Delete? then "" else edit.value) + newRest)
  {
    newText, newIndex := text, index;
    var value := edit.value;
    match edit
    case Equal(_) =>
      newDone := done + value;
      newIndex := index + |value|;
      Associates(done, value, oldRest);
      Associates(done, value, newRest);
    case Delete(_) =>
      newDone := done;
      var count := if |value| <= |text| - index then |value| else |text| - index;
      newText := text[..index] + text[index + count..];
    case Insert(_) =>
      newDone := done + value;
      newText := text[..index] + value + text[index..];
      newIndex := index + |value|;
      Associates(done, value, newRest);
  }
}
