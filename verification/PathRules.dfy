/** What a path is allowed to be and what becomes of it: the canonical form joins the names in it, each of
    which every platform can store; a suffix goes between stem and extension. */
module PathRules {
  import opened Options
  import opened Paths

  // ---- the names in a path ----

  /** The pieces of the text between slashes of either kind. */
  ghost function Pieces(s: string): (pieces: seq<string>)
    ensures |pieces| > 0
  {
    if s == "" then [""]
    else
      var rest := Pieces(s[1..]);
      if s[0] == '/' || s[0] == '\\' then [""] + rest else [[s[0]] + rest[0]] + rest[1..]
  }

  ghost function WithoutEmpty(pieces: seq<string>): seq<string> {
    if pieces == [] then [] else (if pieces[0] == "" then [] else [pieces[0]]) + WithoutEmpty(pieces[1..])
  }

  ghost function Names(raw: string): seq<string> {
    WithoutEmpty(Pieces(raw))
  }

  ghost function Joined(names: seq<string>): string {
    if names == [] then "" else if |names| == 1 then names[0] else names[0] + "/" + Joined(names[1..])
  }

  ghost function UpToDot(s: string): string {
    if s == "" || s[0] == '.' then "" else [s[0]] + UpToDot(s[1..])
  }

  ghost predicate Reserved(folded: string) {
    || folded in ["con", "prn", "aux", "nul"]
    || folded in ["com1", "com2", "com3", "com4", "com5", "com6", "com7", "com8", "com9"]
    || folded in ["lpt1", "lpt2", "lpt3", "lpt4", "lpt5", "lpt6", "lpt7", "lpt8", "lpt9"]
  }

  /** A name every platform can store. */
  ghost predicate Storable(name: string) {
    && name != "" && name != "." && name != ".." && ByteLength(name) <= 255
    && (forall c :: c in name ==> c !in ['<', '>', ':', '"', '\\', '|', '?', '*'] && c as int >= 32)
    && name[|name| - 1] != ' ' && name[|name| - 1] != '.' && !Reserved(CaseFold(UpToDot(name)))
  }

  // ---- splitting ----

  lemma {:induction false} PiecesAreSplit(raw: string)
    ensures Pieces(raw) == SplitOn(Slashes(raw), '/')
  {
    if raw != "" {
      PiecesAreSplit(raw[1..]);
      assert Slashes(raw)[1..] == Slashes(raw[1..]);
    }
  }

  lemma {:induction false} CollapseKeepsNames(s: string)
    ensures WithoutEmpty(SplitOn(Collapse(s), '/')) == WithoutEmpty(SplitOn(s, '/'))
    ensures s != "" && s[0] != '/' ==> SplitOn(Collapse(s), '/')[0] == SplitOn(s, '/')[0]
    ensures WithoutEmpty(SplitOn(Collapse(s), '/')[1..]) == WithoutEmpty(SplitOn(s, '/')[1..])
  {
    if |s| >= 2 {
      CollapseKeepsNames(s[1..]);
      CollapseShape(s[1..]);
      var t := Collapse(s[1..]);
      if s[0] == '/' && s[1] == '/' {
        assert SplitOn(s, '/') == [""] + SplitOn(s[1..], '/');
        assert SplitOn(s[1..], '/')[0] == "" && SplitOn(t, '/')[0] == "";
      } else {
        assert ([s[0]] + t)[1..] == t;
        if s[0] == '/' {
          assert SplitOn([s[0]] + t, '/') == [""] + SplitOn(t, '/');
        } else {
          SplitHead(s[1..], t);
          assert SplitOn([s[0]] + t, '/') == [[s[0]] + SplitOn(t, '/')[0]] + SplitOn(t, '/')[1..];
        }
      }
    }
  }

  /** Texts that begin alike are split alike at the front. */
  lemma SplitHead(s: string, t: string)
    requires s != "" && t == Collapse(s)
    requires s[0] != '/' ==> SplitOn(t, '/')[0] == SplitOn(s, '/')[0]
    ensures SplitOn(t, '/')[0] == SplitOn(s, '/')[0]
  {
    CollapseShape(s);
  }

  lemma {:induction false} SplitSlashAtEnd(s: string)
    ensures SplitOn(s + "/", '/') == SplitOn(s, '/') + [""]
  {
    if s == "" {
      assert "/"[1..] == "";
    } else {
      SplitSlashAtEnd(s[1..]);
      assert (s + "/")[1..] == s[1..] + "/";
      var rest := SplitOn(s[1..], '/');
      assert (rest + [""])[1..] == rest[1..] + [""];
    }
  }

  lemma {:induction false} WithoutEmptyAtEnd(pieces: seq<string>)
    ensures WithoutEmpty(pieces + [""]) == WithoutEmpty(pieces)
  {
    if pieces == [] {
      assert [""][1..] == [];
    } else {
      WithoutEmptyAtEnd(pieces[1..]);
      assert (pieces + [""])[1..] == pieces[1..] + [""];
    }
  }

  lemma TrimKeepsNames(s: string)
    ensures WithoutEmpty(SplitOn(Trim(s), '/')) == WithoutEmpty(SplitOn(s, '/'))
  {
    var t := TrimStart(s);
    if t != s { assert SplitOn(s, '/') == [""] + SplitOn(t, '/'); }
    if TrimEnd(t) != t {
      assert t == TrimEnd(t) + "/";
      SplitSlashAtEnd(TrimEnd(t));
      WithoutEmptyAtEnd(SplitOn(TrimEnd(t), '/'));
    }
  }

  /** Without double or final slash no piece but the first is empty. */
  lemma {:induction false} NoEmptyPieces(p: string)
    requires NoDoubleSlash(p) && p != "" && p[|p| - 1] != '/'
    ensures forall k :: 1 <= k < |SplitOn(p, '/')| ==> SplitOn(p, '/')[k] != ""
    ensures p[0] != '/' ==> SplitOn(p, '/')[0] != ""
  {
    if |p| == 1 {
      assert p[1..] == "" && SplitOn("", '/') == [""];
    } else {
      assert p[1..][0] == p[1] && p[1..][|p| - 2] == p[|p| - 1];
      forall i | 0 <= i < |p| - 2 ensures !(p[1..][i] == '/' && p[1..][i + 1] == '/') {
        assert p[1..][i] == p[i + 1] && p[1..][i + 1] == p[i + 2];
      }
      NoEmptyPieces(p[1..]);
    }
  }

  lemma {:induction false} NothingToDrop(pieces: seq<string>)
    requires forall k :: 0 <= k < |pieces| ==> pieces[k] != ""
    ensures WithoutEmpty(pieces) == pieces
  {
    if pieces != [] { NothingToDrop(pieces[1..]); }
  }

  lemma {:induction false} JoinedSplit(p: string)
    ensures Joined(SplitOn(p, '/')) == p
  {
    if p != "" {
      JoinedSplit(p[1..]);
      var rest := SplitOn(p[1..], '/');
      assert p == [p[0]] + p[1..];
      if p[0] == '/' {
        assert ([""] + rest)[1..] == rest;
      } else {
        assert ([[p[0]] + rest[0]] + rest[1..])[1..] == rest[1..];
      }
    }
  }

  lemma ShapedIsJoined(raw: string)
    ensures Shaped(raw) == Joined(Names(raw)) && (Shaped(raw) == "" <==> Names(raw) == [])
    ensures Shaped(raw) != "" ==> SplitOn(Shaped(raw), '/') == Names(raw)
  {
    var s, p := Slashes(raw), Shaped(raw);
    PiecesAreSplit(raw);
    CollapseKeepsNames(s);
    TrimKeepsNames(Collapse(s));
    CollapseShape(s);
    TrimStartShape(Collapse(s));
    TrimEndShape(TrimStart(Collapse(s)));
    hide Collapse, Trim, TrimStart, TrimEnd, SplitOn, Pieces;
    assert Names(raw) == WithoutEmpty(SplitOn(p, '/')) && p == Trim(Collapse(s));
    assert p == TrimEnd(TrimStart(Collapse(s))) by { TrimIs(Collapse(s)); }
    if p != "" {
      NoEmptyPieces(p);
      NothingToDrop(SplitOn(p, '/'));
      JoinedSplit(p);
    } else {
      assert SplitOn("", '/') == [""] by { EmptySplit(); }
      assert [""][1..] == [];
    }
  }

  lemma TrimIs(s: string)
    ensures Trim(s) == TrimEnd(TrimStart(s))
  {
  }

  lemma EmptySplit()
    ensures SplitOn("", '/') == [""]
  {
  }

  // ---- the rules ----

  lemma {:induction false} FirstOfSplit(s: string)
    ensures SplitOn(s, '.')[0] == UpToDot(s)
  {
    if s != "" { FirstOfSplit(s[1..]); }
  }

  lemma ReservedNames(folded: string)
    ensures folded in WINDOWS_RESERVED <==> Reserved(folded)
  {
  }

  lemma StorableIsValid(name: string)
    ensures ValidSegment(name) <==> Storable(name)
  {
    FirstOfSplit(name);
    ReservedNames(CaseFold(UpToDot(name)));
    hide ByteLength, SplitOn, CaseFold, UpToDot, Reserved;
    assert forall i :: 0 <= i < |name| ==> name[i] in name;
  }

  /** A path is accepted exactly if it holds a name, each of its names can be stored everywhere and the whole
      is no longer than 1024 bytes; its canonical form is the names joined by slashes. */
  lemma NormalizeDecides(raw: string)
    ensures var names := Names(raw);
      NormalizePath(raw) ==
        if names != [] && (forall name :: name in names ==> Storable(name)) && ByteLength(Joined(names)) <= 1024
        then Some(Joined(names)) else None
  {
    ShapedIsJoined(raw);
    var names := Names(raw);
    forall name ensures ValidSegment(name) <==> Storable(name) { StorableIsValid(name); }
    hide Shaped, Storable, ValidSegment, Names, ByteLength, SplitOn, Joined;
    assert (forall i :: 0 <= i < |names| ==> ValidSegment(names[i])) <==>
      forall name :: name in names ==> Storable(name);
  }

  // ---- bytes and case ----

  ghost predicate Ascii(s: string) {
    forall i :: 0 <= i < |s| ==> s[i] as int < 128
  }

  /** UTF-8 lengths add up; plain ASCII takes one byte a character, no character takes more than four. */
  lemma {:induction false} ByteLengths(a: string, b: string)
    ensures ByteLength(a + b) == ByteLength(a) + ByteLength(b)
    ensures |a| <= ByteLength(a) <= 4 * |a|
    ensures Ascii(a) <==> ByteLength(a) == |a|
  {
    if a == "" {
      assert a + b == b;
    } else {
      ByteLengths(a[1..], b);
      assert (a + b)[1..] == a[1..] + b;
      assert a == [a[0]] + a[1..];
    }
  }

  ghost predicate SameLetter(x: char, y: char) {
    || x == y || ('A' <= x <= 'Z' && y as int == x as int + 32) || ('A' <= y <= 'Z' && x as int == y as int + 32)
  }

  /** Two paths fold to the same key exactly if they differ in the case of ASCII letters only. */
  lemma FoldIgnoresCase(p: string, q: string)
    ensures CaseFold(p) == CaseFold(q) <==> |p| == |q| && forall i :: 0 <= i < |p| ==> SameLetter(p[i], q[i])
  {
    if CaseFold(p) == CaseFold(q) {
      assert |CaseFold(p)| == |p|;
      forall i | 0 <= i < |p| ensures SameLetter(p[i], q[i]) {
        assert CaseFold(p)[i] == CaseFold(q)[i];
      }
    }
  }

  // ---- suffixes ----

  ghost function NumberOf(digits: string): int {
    if digits == "" then 0 else 10 * NumberOf(digits[..|digits| - 1]) + (digits[|digits| - 1] as int - '0' as int)
  }

  lemma {:induction false} DecimalIsNumber(n: nat)
    ensures NumberOf(Decimal(n)) == n
  {
    if n >= 10 {
      DecimalIsNumber(n / 10);
      var d := Decimal(n);
      assert d[..|d| - 1] == Decimal(n / 10);
    } else {
      assert Decimal(n)[..0] == "";
    }
  }

  /** The suffix goes between the stem of the last name and its extension, if it has one. */
  lemma SuffixGoesBeforeExtension(dir: string, stem: string, ext: string, n: nat)
    requires stem != "" && '/' !in stem && '/' !in ext
    requires ext == "" || (ext[0] == '.' && '.' !in ext[1..])
    requires ext == "" ==> '.' !in stem[1..]
    ensures SuffixPath(stem + ext, n) == stem + " (" + Decimal(n) + ")" + ext
    ensures dir != "" ==> SuffixPath(dir + "/" + (stem + ext), n) == dir + "/" + (stem + " (" + Decimal(n) + ")" + ext)
  {
    hide Decimal, LastIndexOf, Extname;
    var base := stem + ext;
    assert '/' !in base;
    LastDot(stem, ext);
    assert base[..|base| - |ext|] == stem;
    SplitsLast(dir, base);
  }

  lemma SplitsLast(dir: string, base: string)
    requires '/' !in base
    ensures LastIndexOf(base, '/') == -1 && LastIndexOf(dir + "/" + base, '/') == |dir|
    ensures (dir + "/" + base)[..|dir|] == dir && (dir + "/" + base)[|dir| + 1..] == base
  {
    hide LastIndexOf;
    var p := dir + "/" + base;
    assert p[|dir|] == '/' && LastIndexOf(p, '/') >= |dir|;
  }

  lemma LastDot(stem: string, ext: string)
    requires stem != "" && '/' !in stem && '/' !in ext
    requires ext == "" || (ext[0] == '.' && '.' !in ext[1..])
    requires ext == "" ==> '.' !in stem[1..]
    ensures Extname(stem + ext) == ext && SplitPath(stem + ext) == ("", stem + ext)
  {
    hide LastIndexOf;
    var base := stem + ext;
    assert forall k :: |stem| < k < |base| ==> base[k] == ext[1..][k - |stem| - 1] && base[k] in ext[1..];
    if ext != "" {
      assert base[|stem|] == '.';
      assert base[|stem|..] == ext;
    } else {
      assert forall k :: 0 < k < |base| ==> base[k] == stem[1..][k - 1];
    }
  }
}
