/** String helpers with the exact semantics of the Python and JavaScript
    string methods that the application calls. Strings are `seq<char>`. */
module Text {
  import opened Wrappers

  /** Characters removed by Python's `str.strip()` with no argument. */
  predicate IsPySpace(c: char) {
    c == ' ' || ('\t' <= c <= '\r') || ('\U{1c}' <= c <= '\U{1f}') || c == '\U{85}' ||
    c == '\U{a0}' || c == '\U{1680}' || ('\U{2000}' <= c <= '\U{200a}') ||
    c == '\U{2028}' || c == '\U{2029}' || c == '\U{202f}' || c == '\U{205f}' || c == '\U{3000}'
  }

  /** Characters removed by JavaScript's `String.prototype.trim()`. */
  predicate IsJsSpace(c: char) {
    c == ' ' || ('\t' <= c <= '\r') || c == '\U{a0}' || c == '\U{1680}' ||
    ('\U{2000}' <= c <= '\U{200a}') || c == '\U{2028}' || c == '\U{2029}' ||
    c == '\U{202f}' || c == '\U{205f}' || c == '\U{3000}' || c == '\U{feff}'
  }

  /** Line boundaries recognised by Python's `str.splitlines()`. */
  predicate IsPyLineBreak(c: char) {
    ('\n' <= c <= '\r') || ('\U{1c}' <= c <= '\U{1e}') || c == '\U{85}' ||
    c == '\U{2028}' || c == '\U{2029}'
  }

  /** Drops the longest prefix of `s` made of characters satisfying `drop`. */
  function TrimStart(s: string, drop: char -> bool): (r: string)
    ensures |r| <= |s| && r == s[|s| - |r|..]
    ensures r == [] || !drop(r[0])
    ensures forall i :: 0 <= i < |s| - |r| ==> drop(s[i])
    ensures s == [] || !drop(s[0]) ==> r == s
  {
    if s != [] && drop(s[0]) then
      var r := TrimStart(s[1..], drop);
      assert s[1..][|s| - 1 - |r|..] == s[|s| - |r|..];
      assert forall i :: 1 <= i < |s| - |r| ==> s[i] == s[1..][i - 1];
      r
    else s
  }

  /** No `drop` character at either end. */
  predicate Stripped(s: string, drop: char -> bool) {
    s == [] || (!drop(s[0]) && !drop(s[|s| - 1]))
  }

  /** Both ends trimmed: characters satisfying `drop` are dropped from the
      front, then from the back, until neither end has one. */
  function Trim(s: string, drop: char -> bool): (r: string)
    ensures |r| <= |s|
    ensures Stripped(r, drop)
    ensures Stripped(s, drop) ==> r == s
  {
    if s != [] && drop(s[0]) then Trim(s[1..], drop)
    else if s != [] && drop(s[|s| - 1]) then Trim(s[..|s| - 1], drop)
    else s
  }

  /** Whatever `drop` characters surround a text with none at its ends,
      trimming gives back exactly that text. */
  lemma {:induction false} TrimAround(p: string, m: string, q: string, drop: char -> bool)
    requires forall i :: 0 <= i < |p| ==> drop(p[i])
    requires forall i :: 0 <= i < |q| ==> drop(q[i])
    requires Stripped(m, drop)
    ensures Trim(p + m + q, drop) == m
    decreases |p| + |q|
  {
    var s := p + m + q;
    if p != [] {
      assert s[0] == p[0] && s[1..] == p[1..] + m + q;
      TrimAround(p[1..], m, q, drop);
    } else if m == [] && q != [] {
      assert s == q && s[1..] == [] + [] + q[1..];
      TrimAround([], [], q[1..], drop);
    } else if q != [] {
      assert s[0] == m[0] && s[|s| - 1] == q[|q| - 1];
      assert s[..|s| - 1] == [] + m + q[..|q| - 1];
      TrimAround([], m, q[..|q| - 1], drop);
    } else {
      assert s == m;
    }
  }

  /** Python `s.strip()`. */
  function PyStrip(s: string): string { Trim(s, IsPySpace) }

  /** JavaScript `s.trim()`. */
  function JsTrim(s: string): string { Trim(s, IsJsSpace) }

  predicate StartsWith(s: string, prefix: string) {
    |prefix| <= |s| && s[..|prefix|] == prefix
  }

  predicate OccursAt(s: string, pat: string, i: int) {
    0 <= i && i + |pat| <= |s| && s[i..i + |pat|] == pat
  }

  /** Index of the first occurrence of `pat` in `s` at or after `k`. */
  function FindFrom(s: string, pat: string, k: nat): (r: Option<nat>)
    ensures r.Some? ==> k <= r.value && OccursAt(s, pat, r.value)
    ensures r.Some? ==> forall j :: k <= j < r.value ==> !OccursAt(s, pat, j)
    ensures r.None? ==> forall j :: k <= j ==> !OccursAt(s, pat, j)
    decreases |s| - k
  {
    if k + |pat| > |s| then None
    else if s[k..k + |pat|] == pat then Some(k)
    else FindFrom(s, pat, k + 1)
  }

  /** Index of the first occurrence of `pat` in `s` (`str.find`, `indexOf`). */
  function Find(s: string, pat: string): (r: Option<nat>)
    ensures r.Some? ==> OccursAt(s, pat, r.value) && forall j :: 0 <= j < r.value ==> !OccursAt(s, pat, j)
    ensures r.None? ==> forall j :: !OccursAt(s, pat, j)
  {
    FindFrom(s, pat, 0)
  }

  /** Python `s.replace(pat, rep)`: every non-overlapping occurrence, left to right. */
  function ReplaceAll(s: string, pat: string, rep: string): (r: string)
    requires pat != []
    decreases |s|
  {
    if |s| < |pat| then s
    else if s[..|pat|] == pat then rep + ReplaceAll(s[|pat|..], pat, rep)
    else [s[0]] + ReplaceAll(s[1..], pat, rep)
  }

  /** A string in which `pat` does not occur is left as it is by `ReplaceAll`. */
  lemma {:induction false} ReplaceAllAbsent(s: string, pat: string, rep: string)
    requires pat != []
    requires forall j :: !OccursAt(s, pat, j)
    ensures ReplaceAll(s, pat, rep) == s
    decreases |s|
  {
    if |s| >= |pat| {
      assert !OccursAt(s, pat, 0);
      forall j ensures !OccursAt(s[1..], pat, j) {
        if OccursAt(s[1..], pat, j) {
          assert s[1..][j..j + |pat|] == s[j + 1..j + 1 + |pat|];
          assert OccursAt(s, pat, j + 1);
        }
      }
      ReplaceAllAbsent(s[1..], pat, rep);
    }
  }

  /** No occurrence of `pat` fits inside the text before its first occurrence. */
  lemma NoOccurrenceBefore(s: string, pat: string, i: nat)
    requires pat != [] && Find(s, pat) == Some(i)
    ensures forall j :: !OccursAt(s[..i], pat, j)
  {
    forall j | OccursAt(s[..i], pat, j) ensures false {
      assert s[..i][j..j + |pat|] == s[j..j + |pat|];
      assert OccursAt(s, pat, j);
    }
  }

  /** Python `s.split(pat)`: the pieces between non-overlapping occurrences of `pat`, left to right. */
  function SplitOn(s: string, pat: string): (r: seq<string>)
    requires pat != []
    ensures |r| >= 1
    ensures |r| == 1 <==> Find(s, pat).None?
    ensures forall k, j :: 0 <= k < |r| ==> !OccursAt(r[k], pat, j)
    ensures Find(s, pat).None? ==> r == [s]
    ensures Find(s, pat).Some? ==> r[0] == s[..Find(s, pat).value]
    decreases |s|
  {
    match Find(s, pat)
    case None => [s]
    case Some(i) =>
      NoOccurrenceBefore(s, pat, i);
      [s[..i]] + SplitOn(s[i + |pat|..], pat)
  }

  /** The second piece of a split is the text after the first occurrence of
      `pat`, up to the next one or to the end. */
  lemma SplitOnSecond(s: string, pat: string, i: nat)
    requires pat != [] && Find(s, pat) == Some(i)
    ensures var rest := s[i + |pat|..];
      SplitOn(s, pat)[1] == match Find(rest, pat) case None => rest case Some(j) => rest[..j]
  {
    var rest := s[i + |pat|..];
    var pieces := SplitOn(rest, pat);
    SplitOnUnfold(s, pat, i);
    match Find(rest, pat) {
      case None => assert pieces == [rest];
      case Some(j) => assert pieces[0] == rest[..j];
    }
  }

  /** After the first piece come the pieces of the text after the first separator. */
  lemma SplitOnUnfold(s: string, pat: string, i: nat)
    requires pat != [] && Find(s, pat) == Some(i)
    ensures SplitOn(s, pat)[1..] == SplitOn(s[i + |pat|..], pat)
  {
  }

  /** Joining the pieces with the separator gives back the original text. */
  lemma {:induction false} SplitOnJoin(s: string, pat: string)
    requires pat != []
    ensures Join(SplitOn(s, pat), pat) == s
    decreases |s|
  {
    var f := Find(s, pat);
    if f.Some? {
      var i := f.value;
      var rest := s[i + |pat|..];
      var pieces := SplitOn(rest, pat);
      assert SplitOn(s, pat) == [s[..i]] + pieces;
      SplitOnJoin(rest, pat);
      JoinCons(s[..i], pieces, pat);
      SliceThree(s, i, i + |pat|);
    }
  }

  /** Pieces of `s` between the characters satisfying `isSep`, one piece per
      separator plus one. Used for Python's `splitlines()`, it differs from it
      only by extra empty pieces (between the two characters of "\r\n",
      after a final line break, and the single piece of the empty text,
      where Python gives no line), which every caller drops. */
  function SplitWhere(s: string, isSep: char -> bool): (r: seq<string>)
    ensures |r| >= 1
    ensures forall k, i :: 0 <= k < |r| && 0 <= i < |r[k]| ==> !isSep(r[k][i])
    decreases |s|
  {
    if s == [] then [[]]
    else
      var rest := SplitWhere(s[1..], isSep);
      if isSep(s[0]) then [[]] + rest else [[s[0]] + rest[0]] + rest[1..]
  }


  /** `s.split(c).join(d)` in JavaScript: every `c` replaced by `d`. */
  function ReplaceChar(s: string, c: char, d: char): (r: string)
    ensures |r| == |s|
    ensures forall i :: 0 <= i < |s| ==> r[i] == (if s[i] == c then d else s[i])
  {
    seq(|s|, i requires 0 <= i < |s| => if s[i] == c then d else s[i])
  }

  /** Python `s.rsplit(c, 1)[-1]`: the text after the last `c`, or all of `s`. */
  function AfterLast(s: string, c: char): (r: string)
    ensures |r| <= |s| && r == s[|s| - |r|..]
    ensures c !in r
    ensures |r| < |s| ==> s[|s| - |r| - 1] == c
  {
    if s == [] then []
    else if s[|s| - 1] == c then []
    else AfterLast(s[..|s| - 1], c) + [s[|s| - 1]]
  }

  /** Lower-cases the ASCII letters of `s`. */
  function LowerAscii(s: string): (r: string)
    ensures |r| == |s|
    ensures forall i :: 0 <= i < |s| ==> r[i] == (if 'A' <= s[i] <= 'Z' then (s[i] as int + 32) as char else s[i])
  {
    seq(|s|, i requires 0 <= i < |s| => if 'A' <= s[i] <= 'Z' then (s[i] as int + 32) as char else s[i])
  }

  /** `lines.join(sep)` / `sep.join(lines)`. */
  function Join(lines: seq<string>, sep: string): string {
    if lines == [] then []
    else if |lines| == 1 then lines[0]
    else lines[0] + sep + Join(lines[1..], sep)
  }

  function DigitChar(d: nat): char
    requires d < 10
  {
    ('0' as int + d) as char
  }

  /** Decimal rendering of an integer, as template literals and f-strings print it. */
  function NatToString(n: nat): (r: string)
    ensures |r| >= 1
    ensures forall i :: 0 <= i < |r| ==> '0' <= r[i] <= '9'
  {
    if n < 10 then [DigitChar(n)] else NatToString(n / 10) + [DigitChar(n % 10)]
  }

  function IntToString(i: int): string {
    if i < 0 then "-" + NatToString(-i) else NatToString(i)
  }

  lemma SliceThree(s: string, i: nat, j: nat)
    requires i <= j <= |s|
    ensures s == s[..i] + s[i..j] + s[j..]
  {
  }

  lemma JoinCons(first: string, rest: seq<string>, sep: string)
    requires rest != []
    ensures Join([first] + rest, sep) == first + sep + Join(rest, sep)
  {
    assert ([first] + rest)[1..] == rest;
  }

  /** Left-trimming text that starts with droppable characters and then a kept one leaves the rest. */
  lemma {:induction false} TrimStartPrefix(p: string, s: string, drop: char -> bool)
    requires forall i :: 0 <= i < |p| ==> drop(p[i])
    requires s == [] || !drop(s[0])
    ensures TrimStart(p + s, drop) == s
  {
    if p != [] {
      assert (p + s)[1..] == p[1..] + s;
      TrimStartPrefix(p[1..], s, drop);
    }
  }
}
