/** Vault paths (packages/shared/src/path/normalize.ts): canonical form, case folding and the
    numeric suffix of a colliding path. Strings are taken to be in Unicode normal form C. */
module Paths {

  import opened Options

  const MAX_SEGMENT_BYTES := 255
  const MAX_PATH_BYTES := 1024

  const WINDOWS_RESERVED: set<string> :=
    {"con", "prn", "aux", "nul",
     "com1", "com2", "com3", "com4", "com5", "com6", "com7", "com8", "com9",
     "lpt1", "lpt2", "lpt3", "lpt4", "lpt5", "lpt6", "lpt7", "lpt8", "lpt9"}

  function CharBytes(c: char): nat {
    var p := c as int;
    if p < 0x80 then 1 else if p < 0x800 then 2 else if p < 0x1_0000 then 3 else 4
  }

  /** Length of the UTF-8 encoding. */
  function ByteLength(s: string): nat {
    if s == "" then 0 else CharBytes(s[0]) + ByteLength(s[1..])
  }

  // ---- case folding ----

  function LowerChar(c: char): char {
    if 'A' <= c <= 'Z' then ((c as int) + 32) as char else c
  }

  function CaseFold(path: string): string {
    seq(|path|, i requires 0 <= i < |path| => LowerChar(path[i]))
  }

  lemma CaseFoldConcat(a: string, b: string)
    ensures CaseFold(a + b) == CaseFold(a) + CaseFold(b)
  {
  }

  // ---- splitting ----

  function LastIndexOf(s: string, c: char): (i: int)
    ensures -1 <= i < |s|
    ensures i >= 0 ==> s[i] == c
    ensures forall k :: i < k < |s| ==> s[k] != c
  {
    if s == "" then -1
    else if s[|s| - 1] == c then |s| - 1
    else LastIndexOf(s[..|s| - 1], c)
  }

  function SplitPath(path: string): (string, string) {
    var i := LastIndexOf(path, '/');
    if i < 0 then ("", path) else (path[..i], path[i + 1..])
  }

  function JoinPath(dir: string, base: string): string {
    if dir == "" then base else dir + "/" + base
  }

  function Extname(path: string): (ext: string)
    ensures |ext| <= |SplitPath(path).1|
  {
    var base := SplitPath(path).1;
    var i := LastIndexOf(base, '.');
    if i <= 0 then "" else base[i..]
  }

  function Decimal(n: nat): string {
    var digit := ['0' + (n % 10) as char];
    if n < 10 then digit else Decimal(n / 10) + digit
  }

  function SuffixPath(path: string, n: nat): string {
    var (dir, base) := SplitPath(path);
    var ext := Extname(base);
    var stem := if ext == "" then base else base[..|base| - |ext|];
    JoinPath(dir, stem + " (" + Decimal(n) + ")" + ext)
  }

  // ---- normalisation ----

  function Slashes(s: string): string {
    seq(|s|, i requires 0 <= i < |s| => if s[i] == '\\' then '/' else s[i])
  }

  function Collapse(s: string): string {
    if |s| < 2 then s
    else if s[0] == '/' && s[1] == '/' then Collapse(s[1..])
    else [s[0]] + Collapse(s[1..])
  }

  function TrimStart(s: string): string {
    if s != "" && s[0] == '/' then s[1..] else s
  }

  function TrimEnd(s: string): string {
    if s != "" && s[|s| - 1] == '/' then s[..|s| - 1] else s
  }

  function Trim(s: string): string {
    TrimEnd(TrimStart(s))
  }

  function SplitOn(s: string, c: char): (parts: seq<string>)
    ensures |parts| > 0
  {
    if s == "" then [""]
    else
      var rest := SplitOn(s[1..], c);
      if s[0] == c then [""] + rest else [[s[0]] + rest[0]] + rest[1..]
  }

  predicate IllegalChar(c: char) {
    c in {'<', '>', ':', '"', '\\', '|', '?', '*'} || c as int <= 0x1f
  }

  predicate ValidSegment(seg: string) {
    && seg != "" && seg != "." && seg != ".."
    && ByteLength(seg) <= MAX_SEGMENT_BYTES
    && (forall i :: 0 <= i < |seg| ==> !IllegalChar(seg[i]))
    && seg[|seg| - 1] != ' ' && seg[|seg| - 1] != '.'
    && CaseFold(SplitOn(seg, '.')[0]) !in WINDOWS_RESERVED
  }

  predicate ValidSegments(segments: seq<string>) {
    forall i :: 0 <= i < |segments| ==> ValidSegment(segments[i])
  }

  function Shaped(raw: string): string {
    Trim(Collapse(Slashes(raw)))
  }

  /** None stands for the PathValidationError of the source. */
  function NormalizePath(raw: string): Option<string> {
    var p := Shaped(raw);
    if p == "" || ByteLength(p) > MAX_PATH_BYTES || !ValidSegments(SplitOn(p, '/')) then None else Some(p)
  }

  method Normalize(raw: string) returns (path: Option<string>)
    ensures path == NormalizePath(raw)
  {
    var p := Slashes(raw);
    p := Trim(Collapse(p));
    if p == "" { return None; }
    if ByteLength(p) > MAX_PATH_BYTES { return None; }
    var segments := SplitOn(p, '/');
    for i := 0 to |segments|
      invariant forall k :: 0 <= k < i ==> ValidSegment(segments[k])
    {
      if !ValidSegment(segments[i]) { return None; }
    }
    return Some(p);
  }

  predicate Canonical(path: string) {
    NormalizePath(path) == Some(path)
  }

  // ---- normalisation is idempotent ----

  ghost predicate NoDoubleSlash(s: string) {
    forall i :: 0 <= i < |s| - 1 ==> !(s[i] == '/' && s[i + 1] == '/')
  }

  lemma {:induction false} CollapseShape(s: string)
    ensures NoDoubleSlash(Collapse(s))
    ensures s != "" ==> Collapse(s) != "" && Collapse(s)[0] == s[0]
    ensures forall c :: c in Collapse(s) ==> c in s
  {
    if |s| >= 2 {
      CollapseShape(s[1..]);
      if !(s[0] == '/' && s[1] == '/') {
        var rest := Collapse(s[1..]);
        forall i | 0 <= i < |rest| ensures !(Collapse(s)[i] == '/' && Collapse(s)[i + 1] == '/') {
          if i > 0 { assert Collapse(s)[i] == rest[i - 1]; }
        }
      }
    }
  }

  lemma {:induction false} CollapseFixes(s: string)
    requires NoDoubleSlash(s)
    ensures Collapse(s) == s
  {
    if |s| >= 2 {
      CollapseFixes(s[1..]);
    }
  }

  lemma TrimStartShape(c: string)
    requires NoDoubleSlash(c)
    ensures var t := TrimStart(c);
      NoDoubleSlash(t) && (t != "" ==> t[0] != '/') && forall x :: x in t ==> x in c
  {
  }

  lemma TrimEndShape(c: string)
    requires NoDoubleSlash(c) && (c != "" ==> c[0] != '/')
    ensures var t := TrimEnd(c);
      NoDoubleSlash(t) && (t != "" ==> t[0] != '/' && t[|t| - 1] != '/') && forall x :: x in t ==> x in c
  {
  }

  lemma TrimFixes(p: string)
    requires p != "" && p[0] != '/' && p[|p| - 1] != '/'
    ensures Trim(p) == p
  {
  }

  /** Normalising a normalised path changes nothing. */
  lemma NormalizeIdempotent(raw: string)
    ensures NormalizePath(raw).Some? ==> Canonical(NormalizePath(raw).value)
  {
    if NormalizePath(raw).Some? {
      var s := Slashes(raw);
      CollapseShape(s);
      TrimStartShape(Collapse(s));
      TrimEndShape(TrimStart(Collapse(s)));
      var p := Trim(Collapse(s));
      forall i | 0 <= i < |p| ensures p[i] != '\\' {
        assert p[i] in s;
      }
      assert Slashes(p) == p;
      CollapseFixes(p);
      TrimFixes(p);
    }
  }

  // ---- suffixes are distinct ----

  lemma {:induction false} DecimalInjective(m: nat, n: nat)
    requires Decimal(m) == Decimal(n)
    ensures m == n
  {
    var s, t := Decimal(m), Decimal(n);
    DecimalNonEmpty(m);
    DecimalNonEmpty(n);
    assert s[|s| - 1] == '0' + (m % 10) as char && t[|t| - 1] == '0' + (n % 10) as char;
    if m >= 10 {
      assert s[..|s| - 1] == Decimal(m / 10) && t[..|t| - 1] == Decimal(n / 10);
      DecimalInjective(m / 10, n / 10);
    }
  }

  lemma {:induction false} DecimalNonEmpty(n: nat)
    ensures |Decimal(n)| > 0 && (|Decimal(n)| > 1 <==> n >= 10)
    ensures forall i :: 0 <= i < |Decimal(n)| ==> '0' <= Decimal(n)[i] <= '9'
  {
    if n >= 10 { DecimalNonEmpty(n / 10); }
  }

  /** The part of a suffixed path before the number and the part behind it. */
  function SuffixFrame(path: string): (string, string) {
    var (dir, base) := SplitPath(path);
    var ext := Extname(base);
    var stem := if ext == "" then base else base[..|base| - |ext|];
    (JoinPath(dir, stem + " ("), ")" + ext)
  }

  lemma SuffixSplits(path: string, n: nat)
    ensures SuffixPath(path, n) == SuffixFrame(path).0 + Decimal(n) + SuffixFrame(path).1
  {
    var (dir, base) := SplitPath(path);
    var ext := Extname(base);
    var stem := if ext == "" then base else base[..|base| - |ext|];
    assert stem + " (" + Decimal(n) + ")" + ext == (stem + " (") + Decimal(n) + (")" + ext);
    if dir != "" {
      assert dir + "/" + ((stem + " (") + Decimal(n) + (")" + ext))
        == (dir + "/" + (stem + " (")) + Decimal(n) + (")" + ext);
    }
  }

  lemma FoldedSuffix(path: string, n: nat)
    ensures CaseFold(SuffixPath(path, n)) == CaseFold(SuffixFrame(path).0) + Decimal(n) + CaseFold(SuffixFrame(path).1)
  {
    var (pre, post) := SuffixFrame(path);
    SuffixSplits(path, n);
    CaseFoldConcat(pre + Decimal(n), post);
    CaseFoldConcat(pre, Decimal(n));
    DecimalNonEmpty(n);
    assert CaseFold(Decimal(n)) == Decimal(n);
  }

  /** Suffixes of one path differ, even ignoring case, and none of them is the path itself. */
  lemma SuffixInjective(path: string, m: nat, n: nat)
    ensures CaseFold(SuffixPath(path, m)) == CaseFold(SuffixPath(path, n)) ==> m == n
    ensures CaseFold(SuffixPath(path, n)) != CaseFold(path)
  {
    var pre, post := CaseFold(SuffixFrame(path).0), CaseFold(SuffixFrame(path).1);
    FoldedSuffix(path, m);
    FoldedSuffix(path, n);
    if pre + Decimal(m) + post == pre + Decimal(n) + post {
      Cancel(pre, Decimal(m), Decimal(n), post);
      DecimalInjective(m, n);
    }
    SuffixIsLonger(path, n);
  }

  lemma Cancel(pre: string, a: string, b: string, post: string)
    requires pre + a + post == pre + b + post
    ensures a == b
  {
    var x, y := pre + a + post, pre + b + post;
    assert |x| == |pre| + |a| + |post| && |y| == |pre| + |b| + |post|;
    assert a == x[|pre|..|pre| + |a|] && b == y[|pre|..|pre| + |b|];
  }

  lemma SuffixIsLonger(path: string, n: nat)
    ensures |SuffixPath(path, n)| > |path|
  {
    var (dir, base) := SplitPath(path);
    DecimalNonEmpty(n);
    var ext := Extname(base);
    var stem := if ext == "" then base else base[..|base| - |ext|];
    BaseHasNoSlash(path);
    assert |stem| + |ext| == |base|;
    assert |path| <= |dir| + 1 + |base|;
  }

  lemma BaseHasNoSlash(path: string)
    ensures SplitPath(SplitPath(path).1) == ("", SplitPath(path).1)
  {
  }
}
