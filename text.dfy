/**
 * String and byte helpers with the meaning of the Python built-ins the
 * services use: `in` on strings, `str.split`, `str.join`, `str.strip`,
 * `str.lower` and the decimal rendering of integers in f-strings.
 */
module Text {
  import opened Wrappers

  /** A byte of a Python `bytes` value. */
  type byte = b: int | 0 <= b < 256

  predicate StartsWith<T(==)>(s: seq<T>, p: seq<T>) {
    |p| <= |s| && s[..|p|] == p
  }

  predicate EndsWith<T(==)>(s: seq<T>, t: seq<T>) {
    |t| <= |s| && s[|s| - |t|..] == t
  }

  /** `t` occurs in `s` starting at position `i`. */
  predicate OccursAt<T(==)>(s: seq<T>, t: seq<T>, i: int) {
    0 <= i && i + |t| <= |s| && s[i..i + |t|] == t
  }

  /** Python's `t in s` for strings and bytes. */
  predicate Contains<T(==)>(s: seq<T>, t: seq<T>) {
    exists i | 0 <= i <= |s| - |t| :: OccursAt(s, t, i)
  }

  lemma ContainsInfix<T>(x: seq<T>, t: seq<T>, y: seq<T>)
    ensures Contains(x + t + y, t)
  {
    var s := x + t + y;
    assert OccursAt(s, t, |x|);
  }

  /** A concatenation starts with its first piece and ends with its last. */
  lemma Framed<T>(a: seq<T>, m: seq<T>, b: seq<T>)
    ensures StartsWith(a + m + b, a) && EndsWith(a + m + b, b)
  {
    assert (a + m + b)[..|a|] == a;
    assert (a + m + b)[|a + m|..] == b;
  }

  /** Appending keeps a prefix. */
  lemma StartsWithAppend<T>(s: seq<T>, p: seq<T>, t: seq<T>)
    requires StartsWith(s, p)
    ensures StartsWith(s + t, p)
  {
    assert (s + t)[..|p|] == s[..|p|];
  }

  /** Two concatenations that differ only in equally long middles are equal exactly when the middles are. */
  lemma MiddleCancel<T>(h: seq<T>, x: seq<T>, y: seq<T>, t: seq<T>)
    requires |x| == |y|
    ensures h + x + t == h + y + t <==> x == y
  {
    if h + x + t == h + y + t {
      assert (h + x + t)[|h|..|h| + |x|] == x;
      assert (h + y + t)[|h|..|h| + |y|] == y;
    }
  }

  /** The second of five concatenated pieces occurs in the whole. */
  lemma ContainsSecondOfFive<T>(a: seq<T>, t: seq<T>, c: seq<T>, d: seq<T>, e: seq<T>)
    ensures Contains(a + t + c + d + e, t)
  {
    var s := a + t + c + d + e;
    assert s == a + t + (c + d + e);
    ContainsInfix(a, t, c + d + e);
  }

  lemma EndsWithAppend<T>(x: seq<T>, t: seq<T>)
    ensures EndsWith(x + t, t)
  {
    assert (x + t)[|x|..] == t;
  }

  /** A sequence cannot end with one whose last element differs from its own. */
  lemma LastDiffers<T>(s: seq<T>, t: seq<T>)
    requires |s| > 0 && |t| > 0 && s[|s| - 1] != t[|t| - 1]
    ensures !EndsWith(s, t)
  {
    if |t| <= |s| {
      assert s[|s| - |t|..][|t| - 1] == s[|s| - 1];
    }
  }

  /** Every element of a contained sequence is an element of the container. */
  lemma ContainsCharOf<T>(s: seq<T>, t: seq<T>)
    ensures Contains(s, t) ==> forall k | 0 <= k < |t| :: t[k] in s
  {
    if Contains(s, t) {
      var i :| 0 <= i <= |s| - |t| && OccursAt(s, t, i);
      forall k | 0 <= k < |t|
        ensures t[k] in s
      {
        assert s[i..i + |t|][k] == s[i + k];
      }
    }
  }

  /** An occurrence of `t` that cannot start inside `x` lies inside `y`. */
  lemma ContainsAfter<T>(x: seq<T>, y: seq<T>, t: seq<T>)
    requires |t| > 0 && t[0] !in x
    ensures Contains(x + y, t) ==> Contains(y, t)
  {
    if Contains(x + y, t) {
      var i :| 0 <= i <= |x + y| - |t| && OccursAt(x + y, t, i);
      assert (x + y)[i..i + |t|][0] == (x + y)[i];
      assert forall k | 0 <= k < |x| :: (x + y)[k] in x;
      assert i >= |x|;
      assert (x + y)[i..i + |t|] == y[i - |x|..i - |x| + |t|];
      assert OccursAt(y, t, i - |x|);
    }
  }

  lemma ContainsPrefixOf<T>(s: seq<T>, t: seq<T>, k: nat)
    requires k <= |s| && Contains(s[..k], t)
    ensures Contains(s, t)
  {
    var i :| 0 <= i <= k - |t| && OccursAt(s[..k], t, i);
    assert s[i..i + |t|] == s[..k][i..i + |t|];
    assert OccursAt(s, t, i);
  }

  lemma ContainsSuffixOf<T>(s: seq<T>, t: seq<T>, k: nat)
    requires k <= |s| && Contains(s[k..], t)
    ensures Contains(s, t)
  {
    var i :| 0 <= i <= |s| - k - |t| && OccursAt(s[k..], t, i);
    assert s[k + i..k + i + |t|] == s[k..][i..i + |t|];
    assert OccursAt(s, t, k + i);
  }

  /** Every slice of `s` occurs in `s`. */
  lemma ContainsSlice<T>(s: seq<T>, i: int, j: int)
    requires 0 <= i <= j <= |s|
    ensures Contains(s, s[i..j])
  {
    assert OccursAt(s, s[i..j], i);
  }

  /** Containment is transitive. */
  lemma ContainsTrans<T>(a: seq<T>, b: seq<T>, c: seq<T>)
    requires Contains(a, b) && Contains(b, c)
    ensures Contains(a, c)
  {
    var i :| 0 <= i <= |a| - |b| && OccursAt(a, b, i);
    var j :| 0 <= j <= |b| - |c| && OccursAt(b, c, j);
    forall k | 0 <= k < |c|
      ensures a[i + j + k] == c[k]
    {
      assert a[i..i + |b|][j + k] == a[i + j + k];
      assert b[j..j + |c|][k] == b[j + k];
    }
    assert a[i + j..i + j + |c|] == c;
    assert OccursAt(a, c, i + j);
  }

  lemma OccursShift<T>(s: seq<T>, t: seq<T>, i: int)
    requires |s| > 0 && 1 <= i
    ensures OccursAt(s, t, i) <==> OccursAt(s[1..], t, i - 1)
  {
    if i + |t| <= |s| {
      var here, there := s[i..i + |t|], s[1..][i - 1..i - 1 + |t|];
      forall k | 0 <= k < |t| ensures here[k] == there[k] {
        assert here[k] == s[i + k] == s[1..][i - 1 + k];
      }
      assert here == there;
    }
  }

  /** The first position where `t` occurs in `s`. */
  function IndexOf<T(==)>(s: seq<T>, t: seq<T>): (r: Option<nat>)
    ensures r.Some? ==> OccursAt(s, t, r.value)
    ensures r.Some? ==> forall j | 0 <= j < r.value :: !OccursAt(s, t, j)
    ensures r.None? <==> !Contains(s, t)
    decreases |s|
  {
    if |t| > |s| then None
    else if s[..|t|] == t then Some(0)
    else
      assert !OccursAt(s, t, 0);
      match IndexOf(s[1..], t)
      case None =>
        forall i | 0 <= i <= |s| - |t| ensures !OccursAt(s, t, i) {
          if i >= 1 { OccursShift(s, t, i); }
        }
        None
      case Some(k) =>
        OccursShift(s, t, k + 1);
        forall j | 0 <= j < k + 1 ensures !OccursAt(s, t, j) {
          if j >= 1 { OccursShift(s, t, j); }
        }
        Some(k + 1)
  }

  /** Python's `s.split(sep)` for a non-empty separator. */
  function SplitOn<T(==)>(s: seq<T>, sep: seq<T>): (r: seq<seq<T>>)
    requires |sep| > 0
    ensures |r| >= 1
    decreases |s|
  {
    match IndexOf(s, sep)
    case None => [s]
    case Some(i) => [s[..i]] + SplitOn(s[i + |sep|..], sep)
  }

  /** Python's `sep.join(pieces)`. */
  function Join<T>(pieces: seq<seq<T>>, sep: seq<T>): seq<T> {
    if |pieces| == 0 then []
    else if |pieces| == 1 then pieces[0]
    else pieces[0] + sep + Join(pieces[1..], sep)
  }

  /** A split at a known first occurrence of the separator. */
  lemma {:induction false} SplitOnAt<T>(v: seq<T>, sep: seq<T>, i: nat)
    requires |sep| > 0 && OccursAt(v, sep, i) && forall j | 0 <= j < i :: !OccursAt(v, sep, j)
    ensures SplitOn(v, sep) == [v[..i]] + SplitOn(v[i + |sep|..], sep)
  {
    IndexOfAt(v, sep, i);
    SplitOnSome(v, sep, i);
  }

  /** The index of a known first occurrence. */
  lemma {:induction false} IndexOfAt<T>(v: seq<T>, sep: seq<T>, i: nat)
    requires OccursAt(v, sep, i) && forall j | 0 <= j < i :: !OccursAt(v, sep, j)
    ensures IndexOf(v, sep) == Some(i)
  {
    var r := IndexOf(v, sep);
    assert r.Some? by { assert OccursAt(v, sep, i); }
    var k := r.value;
    assert OccursAt(v, sep, k);
    assert k >= i;
    assert k <= i;
  }

  lemma {:induction false} SplitOnSome<T>(v: seq<T>, sep: seq<T>, k: nat)
    requires |sep| > 0 && IndexOf(v, sep) == Some(k)
    ensures k + |sep| <= |v|
    ensures SplitOn(v, sep) == [v[..k]] + SplitOn(v[k + |sep|..], sep)
  {
    assert OccursAt(v, sep, k);
    var rest := v[k + |sep|..];
    var pieces := SplitOn(rest, sep);
    assert SplitOn(v, sep) == [v[..k]] + pieces;
  }

  /** Joining the pieces of a split with the same separator gives back the input. */
  lemma {:induction false} JoinSplit<T>(s: seq<T>, sep: seq<T>)
    requires |sep| > 0
    ensures Join(SplitOn(s, sep), sep) == s
    decreases |s|
  {
    match IndexOf(s, sep)
    case None =>
    case Some(i) =>
      SplitOnSome(s, sep, i);
      var rest := s[i + |sep|..];
      JoinSplit(rest, sep);
      JoinCons(s[..i], SplitOn(rest, sep), sep);
      assert OccursAt(s, sep, i);
      Reassemble(s, sep, i);
  }

  /** Joining a piece in front of at least one more piece puts the separator between. */
  lemma JoinCons<T>(head: seq<T>, tail: seq<seq<T>>, sep: seq<T>)
    requires |tail| >= 1
    ensures Join([head] + tail, sep) == head + sep + Join(tail, sep)
  {
    var pieces := [head] + tail;
    assert pieces[0] == head && pieces[1..] == tail;
  }

  /** Cutting out an occurrence of `sep` and putting it back gives the input. */
  lemma Reassemble<T>(s: seq<T>, sep: seq<T>, i: nat)
    requires OccursAt(s, sep, i)
    ensures s[..i] + sep + s[i + |sep|..] == s
  {
    assert s[i..i + |sep|] == sep;
    assert s == s[..i] + s[i..i + |sep|] + s[i + |sep|..];
  }

  /** No piece of a split contains the separator. */
  lemma {:induction false} SplitPiecesFree<T>(s: seq<T>, sep: seq<T>)
    requires |sep| > 0
    ensures forall k | 0 <= k < |SplitOn(s, sep)| :: !Contains(SplitOn(s, sep)[k], sep)
    decreases |s|
  {
    match IndexOf(s, sep)
    case None =>
    case Some(i) =>
      SplitOnSome(s, sep, i);
      var rest := s[i + |sep|..];
      var pieces := SplitOn(s, sep);
      assert pieces == [s[..i]] + SplitOn(rest, sep);
      SplitPiecesFree(rest, sep);
      FirstPieceFree(s, sep, i);
      forall k | 0 <= k < |pieces|
        ensures !Contains(pieces[k], sep)
      {
        if k > 0 {
          assert pieces[k] == SplitOn(rest, sep)[k - 1];
        }
      }
  }

  /** Nothing before the first occurrence of `sep` contains `sep`. */
  lemma FirstPieceFree<T>(s: seq<T>, sep: seq<T>, i: nat)
    requires |sep| > 0 && i <= |s| && forall j | 0 <= j < i :: !OccursAt(s, sep, j)
    ensures !Contains(s[..i], sep)
  {
    if Contains(s[..i], sep) {
      var j :| 0 <= j <= i - |sep| && OccursAt(s[..i], sep, j);
      assert s[j..j + |sep|] == s[..i][j..j + |sep|];
      assert OccursAt(s, sep, j);
    }
  }

  /** The first piece of a split is everything before the first separator. */
  lemma FirstPieceBefore<T>(s: seq<T>, sep: seq<T>)
    requires |sep| > 0
    ensures SplitOn(s, sep)[0] == (match IndexOf(s, sep) case None => s case Some(i) => s[..i])
  {
  }

  /** Number of occurrences of one element. */
  function CountOf<T(==)>(s: seq<T>, c: T): nat {
    if |s| == 0 then 0 else (if s[0] == c then 1 else 0) + CountOf(s[1..], c)
  }

  lemma CountOfAppend<T>(a: seq<T>, b: seq<T>, c: T)
    ensures CountOf(a + b, c) == CountOf(a, c) + CountOf(b, c)
  {
    if |a| > 0 {
      assert (a + b)[1..] == a[1..] + b;
      CountOfAppend(a[1..], b, c);
    } else {
      assert a + b == b;
    }
  }

  lemma CountOfAbsent<T>(s: seq<T>, c: T)
    requires c !in s
    ensures CountOf(s, c) == 0
  {
    if |s| > 0 {
      CountOfAbsent(s[1..], c);
    }
  }

  /** A one-element pattern occurs exactly where that element stands. */
  lemma OccursSingle<T>(s: seq<T>, c: T)
    ensures forall i | 0 <= i < |s| :: OccursAt(s, [c], i) <==> s[i] == c
    ensures Contains(s, [c]) <==> c in s
  {
    forall i | 0 <= i < |s| ensures OccursAt(s, [c], i) <==> s[i] == c {
      assert s[i..i + 1] == [s[i]];
    }
    if c in s {
      var k :| 0 <= k < |s| && s[k] == c;
      assert OccursAt(s, [c], k);
    }
  }

  /** Where a one-element pattern is first found, and that nothing before it is that element. */
  lemma IndexOfSingleFacts<T>(s: seq<T>, c: T)
    ensures IndexOf(s, [c]).None? ==> c !in s
    ensures IndexOf(s, [c]).Some? ==>
      var i := IndexOf(s, [c]).value; i < |s| && s[i] == c && c !in s[..i]
  {
    OccursSingle(s, c);
    match IndexOf(s, [c])
    case None =>
    case Some(i) =>
      assert OccursAt(s, [c], i);
      forall j | 0 <= j < i
        ensures s[..i][j] != c
      {
        assert !OccursAt(s, [c], j);
      }
  }

  /** Counting across the first occurrence of `c`. */
  lemma CountOfSplitAt<T>(s: seq<T>, c: T, i: nat)
    requires i < |s| && s[i] == c && c !in s[..i]
    ensures CountOf(s, c) == 1 + CountOf(s[i + 1..], c)
  {
    assert s == s[..i] + [c] + s[i + 1..];
    CountOfAppend(s[..i] + [c], s[i + 1..], c);
    CountOfAppend(s[..i], [c], c);
    CountOfAbsent(s[..i], c);
  }

  /** Splitting on one character gives one more piece than there are occurrences of it. */
  lemma {:induction false} SplitCount<T>(s: seq<T>, c: T)
    ensures |SplitOn(s, [c])| == CountOf(s, c) + 1
    decreases |s|
  {
    IndexOfSingleFacts(s, c);
    match IndexOf(s, [c])
    case None =>
      CountOfAbsent(s, c);
    case Some(i) =>
      SplitCount(s[i + 1..], c);
      CountOfSplitAt(s, c, i);
  }

  /** Text before the first occurrence of `c` (all of `s` when there is none). */
  function TakeUntil<T(==)>(s: seq<T>, c: T): (r: seq<T>)
    ensures r <= s && c !in r
    ensures |r| < |s| ==> s[|r|] == c
  {
    if |s| == 0 || s[0] == c then [] else [s[0]] + TakeUntil(s[1..], c)
  }

  lemma IndexOfSingle<T>(s: seq<T>, c: T)
    ensures IndexOf(s, [c]) == (if c in s then Some(|TakeUntil(s, c)|) else None)
  {
    var r := TakeUntil(s, c);
    IndexOfSingleFacts(s, c);
    if c in s {
      assert r != s;
      assert |r| < |s| && s[|r|] == c;
      var i := IndexOf(s, [c]).value;
      assert s[i] == c && c !in s[..i];
      assert s[..i] <= s && r <= s;
    }
  }

  /** The first piece of a one-character split is the text before that character. */
  lemma SplitFirstPiece<T>(s: seq<T>, c: T)
    ensures SplitOn(s, [c])[0] == TakeUntil(s, c)
  {
    IndexOfSingle(s, c);
    FirstPieceBefore(s, [c]);
    if c !in s {
      var r := TakeUntil(s, c);
      assert |r| == |s|;
    }
  }

  lemma TakeUntilJoined<T>(x: seq<T>, c: T, y: seq<T>)
    requires c !in x
    ensures TakeUntil(x + [c] + y, c) == x
  {
    if |x| > 0 {
      assert (x + [c] + y)[1..] == x[1..] + [c] + y;
      TakeUntilJoined(x[1..], c, y);
    }
  }

  /** Text joined by a separator that the leading part avoids can be split back uniquely. */
  lemma JoinedInjective<T>(head: seq<T>, x: seq<T>, c: T, f: seq<T>, y: seq<T>, g: seq<T>)
    requires c !in x && c !in y
    requires head + (x + [c] + f) == head + (y + [c] + g)
    ensures x == y && f == g
  {
    var u, v := x + [c] + f, y + [c] + g;
    assert u == (head + u)[|head|..];
    assert v == (head + v)[|head|..];
    TakeUntilJoined(x, c, f);
    TakeUntilJoined(y, c, g);
    assert f == u[|x| + 1..];
    assert g == v[|y| + 1..];
  }

  /** Splitting text whose first separator follows `x` peels `x` off. */
  lemma SplitAfterFirst<T>(x: seq<T>, c: T, rest: seq<T>)
    requires c !in x
    ensures SplitOn(x + [c] + rest, [c]) == [x] + SplitOn(rest, [c])
  {
    var s := x + [c] + rest;
    TakeUntilJoined(x, c, rest);
    IndexOfSingle(s, c);
    assert s[|x|] == c;
    assert s[..|x|] == x;
    assert s[|x| + 1..] == rest;
  }

  /** Splitting a join on a character none of the pieces contains gives back the pieces. */
  lemma {:induction false} SplitJoin<T>(xs: seq<seq<T>>, c: T)
    requires |xs| >= 1
    requires forall k | 0 <= k < |xs| :: c !in xs[k]
    ensures SplitOn(Join(xs, [c]), [c]) == xs
  {
    if |xs| == 1 {
      OccursSingle(xs[0], c);
    } else {
      SplitJoin(xs[1..], c);
      SplitAfterFirst(xs[0], c, Join(xs[1..], [c]));
      assert xs == [xs[0]] + xs[1..];
    }
  }

  // ---------------------------------------------------------------- whitespace

  /** The ASCII characters Python's `str.isspace` accepts. */
  predicate IsSpace(c: char) {
    c == ' ' || c == '\t' || c == '\n' || c == '\r' || c == '\U{0B}' || c == '\U{0C}'
    || ('\U{1C}' <= c <= '\U{1F}')
  }

  function LStrip(s: string): (r: string)
    ensures |r| <= |s| && r == s[|s| - |r|..]
    ensures |r| > 0 ==> !IsSpace(r[0])
  {
    if |s| > 0 && IsSpace(s[0]) then LStrip(s[1..]) else s
  }

  function RStrip(s: string): (r: string)
    ensures |r| <= |s| && r == s[..|r|]
    ensures |r| > 0 ==> !IsSpace(r[|r| - 1])
  {
    if |s| > 0 && IsSpace(s[|s| - 1]) then RStrip(s[..|s| - 1]) else s
  }

  /** Python's `s.strip()`: the longest infix with no surrounding whitespace. */
  function Strip(s: string): (r: string)
    ensures exists i, j | 0 <= i <= j <= |s| :: r == s[i..j]
    ensures |r| > 0 ==> !IsSpace(r[0]) && !IsSpace(r[|r| - 1])
  {
    var l := LStrip(s);
    var r := RStrip(l);
    assert r == s[|s| - |l|..|s| - |l| + |r|];
    r
  }

  /** Text with no surrounding whitespace is left alone by `strip`. */
  lemma StripStripped(s: string)
    requires |s| > 0 ==> !IsSpace(s[0]) && !IsSpace(s[|s| - 1])
    ensures Strip(s) == s
  {
  }

  /** A character that is in the stripped text was in the original. */
  lemma StripSubset(s: string)
    ensures forall c | c in Strip(s) :: c in s
  {
    var i, j :| 0 <= i <= j <= |s| && Strip(s) == s[i..j];
  }

  // ---------------------------------------------------------------- case

  function LowerChar(c: char): char {
    if 'A' <= c <= 'Z' then (c as int + 32) as char else c
  }

  /** Python's `s.lower()` on ASCII letters. */
  function Lower(s: string): (r: string)
    ensures |r| == |s|
    ensures forall i | 0 <= i < |s| :: r[i] == LowerChar(s[i])
  {
    seq(|s|, i requires 0 <= i < |s| => LowerChar(s[i]))
  }

  lemma LowerAppend(a: string, b: string)
    ensures Lower(a + b) == Lower(a) + Lower(b)
  {
  }

  /** A lower-case letter is absent from the lowered text when neither of its cases is present. */
  lemma LowerAvoids(s: string, c: char)
    requires 'a' <= c <= 'z' && c !in s && (c as int - 32) as char !in s
    ensures c !in Lower(s)
  {
    forall i | 0 <= i < |s|
      ensures Lower(s)[i] != c
    {
      assert s[i] != c && s[i] != (c as int - 32) as char;
    }
  }

  lemma LowerIdempotent(s: string)
    ensures Lower(Lower(s)) == Lower(s)
  {
  }

  // ---------------------------------------------------------------- numbers

  function DigitChar(d: nat): char
    requires d < 10
  {
    "0123456789"[d]
  }

  predicate IsDigit(c: char) {
    '0' <= c <= '9'
  }

  predicate AllDigits(s: string) {
    forall i | 0 <= i < |s| :: IsDigit(s[i])
  }

  lemma AllDigitsAppend(a: string, b: string)
    requires AllDigits(a) && AllDigits(b)
    ensures AllDigits(a + b)
  {
    assert forall i | |a| <= i < |a + b| :: (a + b)[i] == b[i - |a|];
  }

  /** Decimal rendering of a natural number, as `str(n)` prints it. */
  function NatToString(n: nat): (r: string)
    ensures |r| >= 1
    ensures forall i | 0 <= i < |r| :: IsDigit(r[i])
    ensures |r| == 1 <==> n < 10
  {
    if n < 10 then [DigitChar(n)] else NatToString(n / 10) + [DigitChar(n % 10)]
  }

  /** Different numbers have different decimal renderings. */
  lemma {:induction false} NatToStringInjective(n: nat, m: nat)
    requires NatToString(n) == NatToString(m)
    ensures n == m
  {
    if n >= 10 && m >= 10 {
      var a, b := NatToString(n), NatToString(m);
      assert a[..|a| - 1] == NatToString(n / 10);
      assert b[..|b| - 1] == NatToString(m / 10);
      NatToStringInjective(n / 10, m / 10);
      assert DigitChar(n % 10) == a[|a| - 1] == b[|b| - 1] == DigitChar(m % 10);
    }
  }

  /** Decimal rendering of an integer, with a leading '-' when negative. */
  function IntToString(i: int): (r: string)
    ensures |r| >= 1
  {
    if i < 0 then "-" + NatToString(-i) else NatToString(i)
  }

  /** A one-character rendering is a single digit, and names that digit. */
  lemma IntToStringSingle(i: int, d: nat)
    requires d < 10 && IntToString(i) == [DigitChar(d)]
    ensures i == d
  {
    if i >= 0 {
      assert NatToString(i) == NatToString(d);
      NatToStringInjective(i, d);
    }
  }

  /** `2 ** n`. */
  function Pow2(n: nat): (r: nat)
    ensures r >= 1
  {
    if n == 0 then 1 else 2 * Pow2(n - 1)
  }

  function Pow10(n: nat): (r: nat)
    ensures r >= 1
  {
    if n == 0 then 1 else 10 * Pow10(n - 1)
  }

  /** A number below 10^k has at most k digits. */
  lemma {:induction false} NatToStringBound(n: nat, k: nat)
    requires 1 <= k && n < Pow10(k)
    ensures |NatToString(n)| <= k
  {
    if n >= 10 {
      NatToStringBound(n / 10, k - 1);
    }
  }

  /** Zero-padded decimal rendering, as `%02d`/`%04d` print it. */
  function PadNat(n: nat, width: nat): (r: string)
    ensures |r| == if |NatToString(n)| >= width then |NatToString(n)| else width
    ensures forall i | 0 <= i < |r| :: IsDigit(r[i])
  {
    var s := NatToString(n);
    if |s| >= width then s else seq(width - |s|, _ => '0') + s
  }

  /** A number below 10^width pads to exactly `width` digits. */
  lemma PadNatExact(n: nat, width: nat)
    requires 1 <= width && n < Pow10(width)
    ensures |PadNat(n, width)| == width
  {
    NatToStringBound(n, width);
  }
}
