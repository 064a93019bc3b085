/** The Python string and list primitives the scripts are built from, with the
    laws the renderers rely on: `split`/`join` are inverse, `replace` rewrites
    every occurrence from the left, `find` is the leftmost occurrence. */
module Text {
  import opened Wrappers

  // ---------------------------------------------------------------------------
  // Occurrences of a substring

  /** `t` occurs in `s` starting at position `j`. */
  predicate OccursAt(s: string, t: string, j: nat) {
    j + |t| <= |s| && s[j..j + |t|] == t
  }

  predicate IsPrefix(t: string, s: string) {
    |t| <= |s| && s[..|t|] == t
  }

  lemma OccursShift(s: string, t: string)
    requires |s| > 0
    ensures OccursAt(s, t, 0) == IsPrefix(t, s)
    ensures forall j: nat :: 0 < j ==> OccursAt(s, t, j) == OccursAt(s[1..], t, j - 1)
  {
    forall j: nat | 0 < j ensures OccursAt(s, t, j) == OccursAt(s[1..], t, j - 1) {
      if j + |t| <= |s| {
        assert s[1..][j - 1..j - 1 + |t|] == s[j..j + |t|];
      }
    }
  }

  /** `s.find(t)`: the leftmost position where `t` occurs in `s`, if any. */
  function Find(s: string, t: string): (r: Option<nat>)
    ensures r.Some? ==> OccursAt(s, t, r.value)
    ensures r.Some? ==> forall j: nat :: j < r.value ==> !OccursAt(s, t, j)
    ensures r.None? ==> forall j: nat :: !OccursAt(s, t, j)
    decreases |s|
  {
    if IsPrefix(t, s) then Some(0)
    else if |s| == 0 then None
    else
      OccursShift(s, t);
      match Find(s[1..], t)
      case Some(k) => Some(k + 1)
      case None => None
  }

  /** The leftmost occurrence is the one with no occurrence before it. */
  lemma FindIs(s: string, t: string, m: nat)
    requires OccursAt(s, t, m)
    requires forall j: nat :: j < m ==> !OccursAt(s, t, j)
    ensures Find(s, t) == Some(m)
  {
  }

  /** Python's `t in s` on strings. */
  predicate Contains(s: string, t: string) {
    Find(s, t).Some?
  }

  /** `s.replace(pat, repl)`: rewrite the leftmost occurrence and carry on
      after it, so every non-overlapping occurrence is rewritten. */
  function Replace(s: string, pat: string, repl: string): string
    requires |pat| > 0
    decreases |s|
  {
    match Find(s, pat)
    case None => s
    case Some(k) => s[..k] + repl + Replace(s[k + |pat|..], pat, repl)
  }

  // ---------------------------------------------------------------------------
  // Splitting and joining on a separator character

  /** `s.split(sep)` for a one-character separator: always at least one piece,
      empty pieces kept. */
  function Split(s: string, sep: char): (r: seq<string>)
    ensures |r| >= 1
    ensures forall i :: 0 <= i < |r| ==> sep !in r[i]
    decreases |s|
  {
    if |s| == 0 then [""]
    else
      var rest := Split(s[1..], sep);
      if s[0] == sep then [""] + rest
      else [[s[0]] + rest[0]] + rest[1..]
  }

  /** `r` is `s.split(sep)[0]`: the text of `s` before its first `sep`, or
      all of `s` when there is none. */
  predicate FirstPiece(s: string, sep: char, r: string) {
    |r| <= |s| && r == s[..|r|] && sep !in r && (|r| == |s| || s[|r|] == sep)
  }

  /** The first piece of a split is the text before the first separator. */
  lemma {:induction false} SplitFirst(s: string, sep: char)
    ensures FirstPiece(s, sep, Split(s, sep)[0])
    decreases |s|
  {
    if |s| > 0 && s[0] != sep {
      SplitFirst(s[1..], sep);
      var h := Split(s[1..], sep)[0];
      assert Split(s, sep)[0] == [s[0]] + h;
      assert s == [s[0]] + s[1..];
    }
  }

  /** At most one string is the text before the first separator. */
  lemma FirstPieceUnique(s: string, sep: char, a: string, b: string)
    requires FirstPiece(s, sep, a) && FirstPiece(s, sep, b)
    ensures a == b
  {
  }

  /** `sep.join(parts)`. */
  function Join(sep: string, parts: seq<string>): string
    decreases |parts|
  {
    if |parts| == 0 then ""
    else if |parts| == 1 then parts[0]
    else parts[0] + sep + Join(sep, parts[1..])
  }

  lemma JoinConsHead(sep: string, a: string, p: string, ps: seq<string>)
    ensures Join(sep, [a + p] + ps) == a + Join(sep, [p] + ps)
  {
    if |ps| > 0 {
      assert ([a + p] + ps)[1..] == ps;
      assert ([p] + ps)[1..] == ps;
    }
  }

  /** Joining the pieces of a split gives the string back. */
  lemma {:induction false} JoinSplit(s: string, sep: char)
    ensures Join([sep], Split(s, sep)) == s
    decreases |s|
  {
    if |s| > 0 {
      var rest := Split(s[1..], sep);
      JoinSplit(s[1..], sep);
      if s[0] == sep {
        assert ([""] + rest)[1..] == rest;
        assert s == [sep] + s[1..];
      } else {
        JoinConsHead([sep], [s[0]], rest[0], rest[1..]);
        assert [rest[0]] + rest[1..] == rest;
        assert s == [s[0]] + s[1..];
      }
    }
  }

  lemma {:induction false} SplitWithout(p: string, sep: char)
    requires sep !in p
    ensures Split(p, sep) == [p]
    decreases |p|
  {
    if |p| > 0 {
      SplitWithout(p[1..], sep);
      assert [p[0]] + p[1..] == p;
    }
  }

  lemma {:induction false} SplitAfterPiece(p: string, sep: char, x: string)
    requires sep !in p
    ensures Split(p + [sep] + x, sep) == [p] + Split(x, sep)
    decreases |p|
  {
    var s := p + [sep] + x;
    if |p| == 0 {
      assert s[1..] == x;
    } else {
      assert s[1..] == p[1..] + [sep] + x;
      SplitAfterPiece(p[1..], sep, x);
      assert [p[0]] + p[1..] == p;
    }
  }

  /** Splitting a join of separator-free pieces gives the pieces back. */
  lemma {:induction false} SplitJoin(parts: seq<string>, sep: char)
    requires |parts| >= 1
    requires forall i :: 0 <= i < |parts| ==> sep !in parts[i]
    ensures Split(Join([sep], parts), sep) == parts
    decreases |parts|
  {
    if |parts| == 1 {
      SplitWithout(parts[0], sep);
    } else {
      SplitJoin(parts[1..], sep);
      SplitAfterPiece(parts[0], sep, Join([sep], parts[1..]));
      assert [parts[0]] + parts[1..] == parts;
    }
  }

  // ---------------------------------------------------------------------------
  // Lists

  /** `xs.index(x)`: the first position of `x`. */
  function IndexOf<T(==)>(xs: seq<T>, x: T): (i: nat)
    requires x in xs
    ensures i < |xs| && xs[i] == x
    ensures forall j :: 0 <= j < i ==> xs[j] != x
  {
    if xs[0] == x then 0 else 1 + IndexOf(xs[1..], x)
  }

  /** `[x] * n`: `n` copies, none when `n` is not positive. */
  function Repeat<T>(x: T, n: int): (r: seq<T>)
    ensures |r| == if n > 0 then n else 0
    ensures forall i :: 0 <= i < |r| ==> r[i] == x
    decreases n
  {
    if n <= 0 then [] else [x] + Repeat(x, n - 1)
  }

  // ---------------------------------------------------------------------------
  // Slicing and stripping

  predicate EndsWith(s: string, t: string) {
    |t| <= |s| && s[|s| - |t|..] == t
  }

  /** `s[-n:]` for a positive `n`: the last `n` characters, or all of `s`. */
  function Tail(s: string, n: nat): (r: string)
    requires n > 0
    ensures |r| == if |s| < n then |s| else n
    ensures EndsWith(s, r)
  {
    if |s| < n then s else s[|s| - n..]
  }

  /** `s[1:-1]`: drop the first and the last character. */
  function Inner(s: string): (r: string)
    ensures |s| >= 2 ==> s == [s[0]] + r + [s[|s| - 1]]
    ensures |s| < 2 ==> r == ""
  {
    if |s| < 2 then "" else s[1..|s| - 1]
  }

  /** Python's whitespace, as `str.isspace` defines it. */
  predicate IsSpace(c: char) {
    || c == ' ' || '\t' <= c <= '\r' || '\U{1c}' <= c <= '\U{1f}'
    || c == '\U{85}' || c == '\U{a0}' || c == '\U{1680}'
    || '\U{2000}' <= c <= '\U{200a}' || c == '\U{2028}' || c == '\U{2029}'
    || c == '\U{202f}' || c == '\U{205f}' || c == '\U{3000}'
  }

  function TrimLeft(s: string, drop: char -> bool): string
    decreases |s|
  {
    if |s| > 0 && drop(s[0]) then TrimLeft(s[1..], drop) else s
  }

  function TrimRight(s: string, drop: char -> bool): string
    decreases |s|
  {
    if |s| > 0 && drop(s[|s| - 1]) then TrimRight(s[..|s| - 1], drop) else s
  }

  /** `s.strip(chars)` where `drop` says which characters are in `chars`;
      `s.strip()` is `Strip(s, IsSpace)`. */
  function Strip(s: string, drop: char -> bool): string {
    TrimRight(TrimLeft(s, drop), drop)
  }

  /** Trimming the left end keeps a suffix, after dropped characters only,
      that does not start with one. */
  lemma {:induction false} TrimLeftSuffix(s: string, drop: char -> bool)
    ensures var r := TrimLeft(s, drop);
            && |r| <= |s| && r == s[|s| - |r|..]
            && (forall i :: 0 <= i < |s| - |r| ==> drop(s[i]))
            && (|r| > 0 ==> !drop(r[0]))
    decreases |s|
  {
    if |s| > 0 && drop(s[0]) {
      TrimLeftSuffix(s[1..], drop);
    }
  }

  /** Trimming the right end keeps a prefix, before dropped characters only,
      that does not end with one. */
  lemma {:induction false} TrimRightPrefix(s: string, drop: char -> bool)
    ensures var r := TrimRight(s, drop);
            && |r| <= |s| && r == s[..|r|]
            && (forall i :: |r| <= i < |s| ==> drop(s[i]))
            && (|r| > 0 ==> !drop(r[|r| - 1]))
    decreases |s|
  {
    if |s| > 0 && drop(s[|s| - 1]) {
      TrimRightPrefix(s[..|s| - 1], drop);
    }
  }

  /** Trimming the right end of a suffix `s[a..]` keeps a slice of `s`,
      and everything of `s` after that slice is dropped. */
  lemma TrimRightOfSuffix(s: string, a: nat, drop: char -> bool)
    requires a <= |s|
    ensures var r := TrimRight(s[a..], drop);
            && a + |r| <= |s| && r == s[a..a + |r|]
            && (forall i :: a + |r| <= i < |s| ==> drop(s[i]))
            && (|r| > 0 ==> !drop(r[|r| - 1]))
  {
    var l := s[a..];
    var r := TrimRight(l, drop);
    TrimRightPrefix(l, drop);
    assert r == l[..|r|];
    forall i | a + |r| <= i < |s| ensures drop(s[i]) {
      assert s[i] == l[i - a];
    }
  }

  /** What `strip` keeps is a slice of `s` that neither starts nor ends with a
      dropped character, and everything cut off around it is dropped. */
  lemma StripSlice(s: string, drop: char -> bool)
    ensures var r := Strip(s, drop);
            var a := |s| - |TrimLeft(s, drop)|;
            && 0 <= a && a + |r| <= |s| && r == s[a..a + |r|]
            && (forall i :: 0 <= i < a ==> drop(s[i]))
            && (forall i :: a + |r| <= i < |s| ==> drop(s[i]))
            && (|r| > 0 ==> !drop(r[0]) && !drop(r[|r| - 1]))
  {
    var l := TrimLeft(s, drop);
    var a := |s| - |l|;
    TrimLeftSuffix(s, drop);
    assert l == s[a..];
    TrimRightOfSuffix(s, a, drop);
    var r := TrimRight(l, drop);
    assert Strip(s, drop) == r;
    assert |r| > 0 ==> r[0] == l[0] by {
      TrimRightPrefix(l, drop);
    }
  }

  /** Stripping twice strips nothing more. */
  lemma StripIdempotent(s: string, drop: char -> bool)
    ensures Strip(Strip(s, drop), drop) == Strip(s, drop)
  {
    var r := Strip(s, drop);
    StripSlice(s, drop);
    assert TrimLeft(r, drop) == r;
    assert TrimRight(r, drop) == r;
  }

  /** The position of the last `c` in `s`, if any. */
  function LastIndexOf(s: string, c: char): (r: Option<nat>)
    ensures r.Some? ==> r.value < |s| && s[r.value] == c
                        && forall j :: r.value < j < |s| ==> s[j] != c
    ensures r.None? <==> c !in s
    decreases |s|
  {
    if |s| == 0 then None
    else if s[|s| - 1] == c then Some(|s| - 1)
    else
      assert forall j :: 0 <= j < |s| - 1 ==> s[..|s| - 1][j] == s[j];
      LastIndexOf(s[..|s| - 1], c)
  }

  /** `head, tail = s.rsplit(c, 1)`: fails to unpack when `c` is absent. */
  function RSplitOnce(s: string, c: char): (r: Result<(string, string)>)
    ensures r.Err? <==> c !in s
    ensures r.Ok? ==> s == r.value.0 + [c] + r.value.1 && c !in r.value.1
  {
    match LastIndexOf(s, c)
    case None => Err(BadUnpack)
    case Some(k) =>
      assert s == s[..k] + [c] + s[k + 1..];
      Ok((s[..k], s[k + 1..]))
  }
}
