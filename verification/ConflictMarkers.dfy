/** The text of a merge with conflicts: between its markers each block holds our lines first and theirs
    second, so that either version of the merge can be read off it; and where the texts are cut. */
module ConflictMarkers {
  import opened Lcs
  import opened Diff3

  // ---- joining and splitting ----

  ghost predicate OneLine(line: Line) {
    '\n' !in line
  }

  lemma {:induction false} SplitGivesLines(text: string)
    ensures forall line :: line in Split(text) ==> OneLine(line)
  {
    if text != "" {
      SplitGivesLines(text[1..]);
      var rest := Split(text[1..]);
      if text[0] != '\n' {
        assert OneLine(rest[0]) && OneLine([text[0]] + rest[0]);
        assert forall line :: line in rest[1..] ==> line in rest;
      }
    }
  }

  lemma {:induction false} SplitAfterLine(line: Line, rest: string)
    requires OneLine(line)
    ensures Split(line + "\n" + rest) == [line] + Split(rest) && Split(line) == [line]
  {
    if line == "" {
      assert (line + "\n" + rest)[1..] == rest;
    } else {
      SplitAfterLine(line[1..], rest);
      assert (line + "\n" + rest)[1..] == line[1..] + "\n" + rest;
      assert line == [line[0]] + line[1..];
    }
  }

  lemma {:induction false} SplitJoin(lines: seq<Line>)
    requires lines != [] && forall line :: line in lines ==> OneLine(line)
    ensures Split(Join(lines)) == lines
  {
    SplitAfterLine(lines[0], Join(lines[1..]));
    if |lines| > 1 { SplitJoin(lines[1..]); }
  }

  // ---- the lines of the merge ----

  lemma {:induction false} FlatHas(segments: seq<Segment>, part: Segment -> seq<Line>, s: Segment)
    requires s in segments
    ensures forall line :: line in part(s) ==> line in Flat(segments, part)
  {
    if s != segments[0] { FlatHas(segments[1..], part, s); }
  }

  /** Every line of a slice is a line of its text. */
  lemma SliceLines(base: seq<Line>, ours: seq<Line>, theirs: seq<Line>, s: Segment)
    requires s in Segments(base, ours, theirs)
    ensures forall line :: line in OursPart(s) ==> line in ours
    ensures forall line :: line in TheirsPart(s) ==> line in theirs
  {
    var segments := Segments(base, ours, theirs);
    SegmentsCover(Anchors(base, ours, theirs), base, ours, theirs, 0, 0, 0);
    assert ours[0..] == ours && theirs[0..] == theirs;
    FlatHas(segments, OursPart, s);
    FlatHas(segments, TheirsPart, s);
  }

  lemma {:induction false} RenderedAreLines(segments: seq<Segment>)
    requires forall s :: s in segments ==> forall line :: line in OursPart(s) + TheirsPart(s) ==> OneLine(line)
    ensures forall line :: line in Flat(segments, Rendered) ==> OneLine(line)
  {
    if segments != [] {
      var s := segments[0];
      assert forall line :: line in OursPart(s) ==> line in OursPart(s) + TheirsPart(s);
      assert forall line :: line in TheirsPart(s) ==> line in OursPart(s) + TheirsPart(s);
      RenderedAreLines(segments[1..]);
    }
  }

  lemma MergedAreLines(base: string, ours: string, theirs: string)
    ensures forall line :: line in Flat(Segments(Split(base), Split(ours), Split(theirs)), Rendered) ==> OneLine(line)
  {
    var segments := Segments(Split(base), Split(ours), Split(theirs));
    SplitGivesLines(ours);
    SplitGivesLines(theirs);
    forall s | s in segments ensures forall line :: line in OursPart(s) + TheirsPart(s) ==> OneLine(line) {
      SliceLines(Split(base), Split(ours), Split(theirs), s);
    }
    RenderedAreLines(segments);
  }

  // ---- the blocks ----

  /** A chunk that both sides changed, and differently. */
  ghost predicate ChangedTwice(s: Segment) {
    s.Chunk? && s.ours != s.theirs && s.ours != s.base && s.theirs != s.base
  }

  /** For each chunk with three different slices the merged lines hold, one after the other: the local marker,
      our lines, the separator, their lines, the server marker. */
  lemma ConflictBlocks(base: string, ours: string, theirs: string, s: Segment)
    requires s in Segments(Split(base), Split(ours), Split(theirs)) && ChangedTwice(s)
    ensures Contiguous(["<<<<<<< local"] + s.ours + ["======="] + s.theirs + [">>>>>>> server"],
                       Split(Merge(base, ours, theirs).text))
  {
    var segments := Segments(Split(base), Split(ours), Split(theirs));
    var k :| 0 <= k < |segments| && segments[k] == s;
    var block := ["<<<<<<< local"] + s.ours + ["======="] + s.theirs + [">>>>>>> server"];
    ContiguousAt([], block, [], Rendered(s));
    FlatContains(segments, k, block);
    MergedAreLines(base, ours, theirs);
    SplitJoin(Flat(segments, Rendered));
  }

  // ---- reading one side ----

  datatype Mode = Outside | InLocal | InServer

  /** The merged lines without markers, taking from each block the local half or the server's. */
  ghost function ReadSide(lines: seq<Line>, mode: Mode, local: bool): seq<Line> {
    if lines == [] then []
    else if mode.Outside? && lines[0] == "<<<<<<< local" then ReadSide(lines[1..], InLocal, local)
    else if mode.InLocal? && lines[0] == "=======" then ReadSide(lines[1..], InServer, local)
    else if mode.InServer? && lines[0] == ">>>>>>> server" then ReadSide(lines[1..], Outside, local)
    else
      (if mode.Outside? || mode.InLocal? == local then [lines[0]] else []) + ReadSide(lines[1..], mode, local)
  }

  /** The chunk as a merge has it that settles every conflict for us, or for them. */
  ghost function Settled(s: Segment, local: bool): seq<Line> {
    if s.Common? then [s.line]
    else if ChangedTwice(s) then (if local then s.ours else s.theirs)
    else if s.ours == s.base then s.theirs
    else s.ours
  }

  ghost predicate Plain(line: Line) {
    line != "<<<<<<< local" && line != "=======" && line != ">>>>>>> server"
  }

  ghost predicate AllPlain(lines: seq<Line>) {
    forall line :: line in lines ==> Plain(line)
  }

  lemma {:induction false} ReadPlain(part: seq<Line>, rest: seq<Line>, mode: Mode, local: bool)
    requires AllPlain(part)
    ensures ReadSide(part + rest, mode, local) ==
      (if mode.Outside? || mode.InLocal? == local then part else []) + ReadSide(rest, mode, local)
  {
    if part == [] {
      assert part + rest == rest;
    } else {
      assert Plain(part[0]) && (part + rest)[1..] == part[1..] + rest && part == [part[0]] + part[1..];
      ReadPlain(part[1..], rest, mode, local);
    }
  }

  lemma ReadBlock(s: Segment, rest: seq<Line>, local: bool)
    requires ChangedTwice(s) && AllPlain(s.ours) && AllPlain(s.theirs)
    ensures ReadSide(Rendered(s) + rest, Outside, local) == Settled(s, local) + ReadSide(rest, Outside, local)
  {
    var last := [">>>>>>> server"] + rest;
    var second := ["======="] + (s.theirs + last);
    var first := ["<<<<<<< local"] + (s.ours + second);
    assert Rendered(s) + rest == first;
    assert first[1..] == s.ours + second && second[1..] == s.theirs + last && last[1..] == rest;
    ReadPlain(s.ours, second, InLocal, local);
    ReadPlain(s.theirs, last, InServer, local);
  }

  lemma {:induction false} ReadSegments(segments: seq<Segment>, local: bool)
    requires forall s :: s in segments ==> AllPlain(OursPart(s)) && AllPlain(TheirsPart(s))
    ensures ReadSide(Flat(segments, Rendered), Outside, local) == Flat(segments, s => Settled(s, local))
  {
    if segments != [] {
      var s, rest := segments[0], Flat(segments[1..], Rendered);
      ReadSegments(segments[1..], local);
      assert s in segments && AllPlain(OursPart(s)) && AllPlain(TheirsPart(s));
      if ChangedTwice(s) {
        ReadBlock(s, rest, local);
      } else {
        ReadPlain(Rendered(s), rest, Outside, local);
      }
    }
  }

  /** Unless a text has a line like a marker, reading the first half of every block of the merged text gives
      the merge with all conflicts settled for us, and the second half the one settled for them. */
  lemma EitherSideCanBeRead(base: string, ours: string, theirs: string, local: bool)
    requires AllPlain(Split(ours)) && AllPlain(Split(theirs))
    ensures var segments := Segments(Split(base), Split(ours), Split(theirs));
      ReadSide(Split(Merge(base, ours, theirs).text), Outside, local) == Flat(segments, s => Settled(s, local))
  {
    var segments := Segments(Split(base), Split(ours), Split(theirs));
    forall s | s in segments ensures AllPlain(OursPart(s)) && AllPlain(TheirsPart(s)) {
      SliceLines(Split(base), Split(ours), Split(theirs), s);
    }
    ReadSegments(segments, local);
    MergedAreLines(base, ours, theirs);
    SplitJoin(Flat(segments, Rendered));
  }

  // ---- where the texts are cut ----

  lemma {:induction false} PairMapHolds(ps: seq<(nat, nat)>)
    requires forall i, j :: 0 <= i < j < |ps| ==> ps[i].0 < ps[j].0
    ensures forall p :: p in ps ==> p.0 in PairMap(ps) && PairMap(ps)[p.0] == p.1
    ensures forall o :: o in PairMap(ps) ==> (o, PairMap(ps)[o]) in ps
  {
    if ps != [] {
      var before, last := ps[..|ps| - 1], ps[|ps| - 1];
      PairMapHolds(before);
      assert ps == before + [last];
    }
  }

  ghost predicate Rising(m: map<nat, nat>) {
    forall x, y :: x in m && y in m && x < y ==> m[x] < m[y]
  }

  lemma {:induction false} AnchorsAreShared(base: seq<Line>, aMap: map<nat, nat>, bMap: map<nat, nat>, o: nat,
          lastA: int, lastB: int)
    requires o <= |base| && Rising(aMap) && Rising(bMap)
    requires forall x :: x in aMap ==> x < |base|
    requires forall x :: x in aMap && x >= o ==> aMap[x] > lastA
    requires forall x :: x in bMap && x >= o ==> bMap[x] > lastB
    ensures forall x :: x in AnchorsFrom(base, aMap, bMap, o, lastA, lastB) <==>
      o <= x.o && x.o in aMap && x.o in bMap && x.a == aMap[x.o] && x.b == bMap[x.o]
    decreases |base| - o
  {
    if o < |base| {
      if o in aMap && o in bMap {
        AnchorsAreShared(base, aMap, bMap, o + 1, aMap[o], bMap[o]);
      } else {
        AnchorsAreShared(base, aMap, bMap, o + 1, lastA, lastB);
      }
    }
  }

  lemma MapOfPairing(a: seq<Line>, b: seq<Line>)
    ensures var m := PairMap(Pairs(a, b));
      && Rising(m) && (forall x :: x in m ==> x < |a|)
      && forall o: nat, v: nat :: (o, v) in Pairs(a, b) <==> o in m && m[o] == v
  {
    PairsAreOptimal(a, b);
    PairMapHolds(Pairs(a, b));
    hide Pairs, PairMap, Subsequence;
  }

  /** The texts are cut at exactly those base lines that are paired with a line of ours and one of theirs. */
  lemma CutAtSharedLines(base: seq<Line>, ours: seq<Line>, theirs: seq<Line>)
    ensures forall x :: x in Anchors(base, ours, theirs) <==>
      (x.o, x.a) in Pairs(base, ours) && (x.o, x.b) in Pairs(base, theirs)
  {
    MapOfPairing(base, ours);
    MapOfPairing(base, theirs);
    AnchorsAreShared(base, PairMap(Pairs(base, ours)), PairMap(Pairs(base, theirs)), 0, -1, -1);
    hide Pairs, PairMap, Rising, AnchorsFrom;
  }
}
