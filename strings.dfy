/**
 * The JavaScript string operations the modelled components use, on Dafny strings
 * (`seq<char>`): `startsWith`, `endsWith`, `includes`, `indexOf`, `replace` with a
 * string pattern (first occurrence only), `replaceAll`, `split`, `trim`, and the
 * ASCII part of `toLowerCase`.
 */
module Strings {
  import opened Wrappers

  /** `p` occurs in `s` starting at index `i`. */
  predicate OccursAt(s: string, p: string, i: int) {
    0 <= i && i + |p| <= |s| && s[i..i + |p|] == p
  }

  /** JavaScript `s.startsWith(p)`. */
  predicate StartsWith(s: string, p: string) {
    OccursAt(s, p, 0)
  }

  /** JavaScript `s.endsWith(p)`. */
  predicate EndsWith(s: string, p: string) {
    |p| <= |s| && OccursAt(s, p, |s| - |p|)
  }

  /** A text whose character `i` differs from the lead's does not start with the lead. */
  lemma DiffersAt(text: string, lead: string, i: nat)
    requires i < |lead| && i < |text| && text[i] != lead[i]
    ensures !StartsWith(text, lead)
  {
    if |lead| <= |text| {
      assert text[..|lead|][i] == text[i];
    }
  }

  /** A text whose `i`-th character from the end differs from the tail's does not end with the tail. */
  lemma DiffersAtEnd(text: string, tail: string, i: nat)
    requires i < |tail| && i < |text| && text[|text| - 1 - i] != tail[|tail| - 1 - i]
    ensures !EndsWith(text, tail)
  {
    if |tail| <= |text| {
      assert text[|text| - |tail|..][|tail| - 1 - i] == text[|text| - 1 - i];
    }
  }

  /** The first index at or after `k` where `p` occurs in `s`. */
  function IndexOfFrom(s: string, p: string, k: nat): (r: Option<nat>)
    requires k <= |s|
    ensures r.Some? ==> k <= r.value <= |s| && OccursAt(s, p, r.value)
    ensures forall j :: k <= j && (r.None? || j < r.value) ==> !OccursAt(s, p, j)
    decreases |s| - k
  {
    if OccursAt(s, p, k) then Some(k)
    else if k == |s| then None
    else IndexOfFrom(s, p, k + 1)
  }

  /** JavaScript `s.indexOf(p)`, with `None` for -1: the leftmost occurrence. */
  function IndexOf(s: string, p: string): (r: Option<nat>)
    ensures r.Some? ==> OccursAt(s, p, r.value)
    ensures r.Some? ==> forall j :: 0 <= j < r.value ==> !OccursAt(s, p, j)
    ensures r.None? ==> forall j :: !OccursAt(s, p, j)
  {
    IndexOfFrom(s, p, 0)
  }

  /** JavaScript `s.includes(p)`. */
  predicate Contains(s: string, p: string) {
    IndexOf(s, p).Some?
  }

  /** `includes` holds exactly when the pattern occurs somewhere. */
  lemma ContainsIff(s: string, p: string, i: int)
    ensures OccursAt(s, p, i) ==> Contains(s, p)
    ensures Contains(s, p) ==> OccursAt(s, p, IndexOf(s, p).value)
  {
  }

  /** A pattern holding a character that `s` lacks does not occur in `s`. */
  lemma AbsentCharNotContained(s: string, p: string, k: nat)
    requires k < |p|
    requires forall i :: 0 <= i < |s| ==> s[i] != p[k]
    ensures !Contains(s, p)
  {
    forall i | 0 <= i && i + |p| <= |s| ensures !OccursAt(s, p, i) {
      assert s[i..i + |p|][k] == s[i + k];
    }
  }

  /** `s` does not hold the character `c`. */
  predicate Lacks(s: string, c: char) {
    forall i :: 0 <= i < |s| ==> s[i] != c
  }

  /** A prefix free of the pattern's first character cannot hold the pattern. */
  lemma FreeNoIndex(q: string, p: string)
    requires |p| > 0 && Lacks(q, p[0])
    ensures IndexOf(q, p) == None
  {
    forall j | 0 <= j && j + |p| <= |q| ensures !OccursAt(q, p, j) {
      assert q[j..j + |p|][0] == q[j];
    }
  }

  /** After a prefix free of the pattern's first character, the first match is where the pattern starts. */
  lemma FreePrefixThenPattern(q: string, t: string, p: string)
    requires |p| > 0 && Lacks(q, p[0]) && StartsWith(t, p)
    ensures IndexOf(q + t, p) == Some(|q|)
  {
    var s := q + t;
    assert s[|q|..|q| + |p|] == t[..|p|];
    assert OccursAt(s, p, |q|);
    forall j | 0 <= j < |q| && j + |p| <= |s| ensures !OccursAt(s, p, j) {
      assert s[j..j + |p|][0] == s[j];
    }
  }

  /** An occurrence with none before it is the one `indexOf` finds. */
  lemma FirstOccurrence(s: string, p: string, i: nat)
    requires OccursAt(s, p, i) && forall j :: 0 <= j < i ==> !OccursAt(s, p, j)
    ensures IndexOf(s, p) == Some(i)
  {
  }

  /** A match that lies wholly inside `q` and is the first there stays the first after anything is appended. */
  lemma FirstMatchKept(q: string, t: string, p: string, i: nat)
    requires IndexOf(q, p) == Some(i)
    ensures IndexOf(q + t, p) == Some(i)
  {
    var s := q + t;
    assert OccursAt(q, p, i);
    assert s[i..i + |p|] == q[i..i + |p|];
    assert OccursAt(s, p, i);
    forall j | 0 <= j < i ensures !OccursAt(s, p, j) {
      assert !OccursAt(q, p, j);
      assert s[j..j + |p|] == q[j..j + |p|];
    }
  }

  /** JavaScript `s.replace(p, rep)` with a string pattern: only the first occurrence is replaced. */
  function ReplaceFirst(s: string, p: string, rep: string): string {
    match IndexOf(s, p)
    case None => s
    case Some(i) => s[..i] + rep + s[i + |p|..]
  }

  /** Replacement happens at the first occurrence and leaves every later occurrence in place. */
  lemma ReplaceFirstAfterFreePrefix(q: string, p: string, t: string, rep: string)
    requires |p| > 0 && Lacks(q, p[0])
    ensures ReplaceFirst(q + p + t, p, rep) == q + rep + t
  {
    FreePrefixThenPattern(q, p + t, p);
    assert q + p + t == q + (p + t);
    var s := q + p + t;
    assert s[..|q|] == q;
    assert s[|q| + |p|..] == t;
  }

  /** JavaScript `s.replaceAll(p, rep)` with a non-empty string pattern (left to right, non-overlapping). */
  function ReplaceAll(s: string, p: string, rep: string): string
    requires |p| > 0
    decreases |s|
  {
    if |s| == 0 then ""
    else if StartsWith(s, p) then rep + ReplaceAll(s[|p|..], p, rep)
    else [s[0]] + ReplaceAll(s[1..], p, rep)
  }

  /** A text with no occurrence of the pattern comes out of `replaceAll` unchanged. */
  lemma {:induction false} ReplaceAllAbsent(s: string, p: string, rep: string)
    requires |p| > 0 && !Contains(s, p)
    ensures ReplaceAll(s, p, rep) == s
    decreases |s|
  {
    if |s| > 0 {
      assert !OccursAt(s, p, 0);
      forall i | 0 <= i && i + |p| <= |s| - 1 ensures !OccursAt(s[1..], p, i) {
        assert s[1..][i..i + |p|] == s[i + 1..i + 1 + |p|];
        assert !OccursAt(s, p, i + 1);
      }
      ReplaceAllAbsent(s[1..], p, rep);
      assert [s[0]] + s[1..] == s;
    }
  }

  /** A prefix of the output that avoids the replacement's first character is already a prefix of the input. */
  lemma {:induction false} ReplaceAllPrefix(t: string, p: string, rep: string, w: string)
    requires |p| > 0 && |rep| > 0
    requires Lacks(w, rep[0])
    ensures StartsWith(ReplaceAll(t, p, rep), w) ==> StartsWith(t, w)
    decreases |t|
  {
    var r := ReplaceAll(t, p, rep);
    if |w| > 0 && |t| > 0 {
      if StartsWith(t, p) {
        assert r[0] == rep[0];
        if |w| <= |r| {
          assert r[..|w|][0] == r[0];
        }
      } else {
        var r' := ReplaceAll(t[1..], p, rep);
        assert r == [t[0]] + r';
        ReplaceAllPrefix(t[1..], p, rep, w[1..]);
        if |w| <= |r| {
          assert r[..|w|] == [t[0]] + r'[..|w| - 1];
        }
        if |w| <= |t| {
          assert t[..|w|] == [t[0]] + t[1..][..|w| - 1];
        }
        assert w == [w[0]] + w[1..];
      }
    }
  }

  /** Two strings share no character. */
  predicate Disjoint(a: string, b: string) {
    forall i, j :: 0 <= i < |a| && 0 <= j < |b| ==> a[i] != b[j]
  }

  /** A text free of the pattern stays free of it behind a replacement sharing no character with it. */
  lemma DisjointPrefixKeepsAbsent(rep: string, t: string, p: string)
    requires |p| > 0 && Disjoint(p, rep) && !Contains(t, p)
    ensures !Contains(rep + t, p)
  {
    var r := rep + t;
    forall i | 0 <= i && i + |p| <= |r| ensures !OccursAt(r, p, i) {
      if i < |rep| {
        assert r[i..i + |p|][0] == rep[i] != p[0];
      } else {
        assert r[i..i + |p|] == t[i - |rep|..i - |rep| + |p|];
        assert !OccursAt(t, p, i - |rep|);
      }
    }
  }

  /** A text free of the pattern stays free of it behind one character, unless the pattern starts there. */
  lemma ConsKeepsAbsent(c: char, t: string, p: string)
    requires !Contains(t, p) && !OccursAt([c] + t, p, 0)
    ensures !Contains([c] + t, p)
  {
    var r := [c] + t;
    forall i | 1 <= i && i + |p| <= |r| ensures !OccursAt(r, p, i) {
      assert r[i..i + |p|] == t[i - 1..i - 1 + |p|];
      assert !OccursAt(t, p, i - 1);
    }
  }

  /** When the replacement shares no character with the pattern, no occurrence survives `replaceAll`. */
  lemma {:induction false} ReplaceAllRemovesPattern(s: string, p: string, rep: string)
    requires |p| > 0 && |rep| > 0 && Disjoint(p, rep)
    ensures !Contains(ReplaceAll(s, p, rep), p)
    decreases |s|
  {
    if |s| > 0 {
      if StartsWith(s, p) {
        ReplaceAllRemovesPattern(s[|p|..], p, rep);
        DisjointPrefixKeepsAbsent(rep, ReplaceAll(s[|p|..], p, rep), p);
      } else {
        var r' := ReplaceAll(s[1..], p, rep);
        var r := [s[0]] + r';
        ReplaceAllRemovesPattern(s[1..], p, rep);
        ReplaceAllPrefix(s[1..], p, rep, p[1..]);
        if |p| <= |r| {
          assert r[..|p|] == [s[0]] + r'[..|p| - 1];
        }
        if |p| <= |s| {
          assert s[..|p|] == [s[0]] + s[1..][..|p| - 1];
        }
        assert p == [p[0]] + p[1..];
        ConsKeepsAbsent(s[0], r', p);
      }
    }
  }

  /** JavaScript `s.split(sep)` with a non-empty string separator. */
  function Split(s: string, sep: string): (parts: seq<string>)
    requires |sep| > 0
    ensures |parts| >= 1
    decreases |s|
  {
    match IndexOf(s, sep)
    case None => [s]
    case Some(i) => [s[..i]] + Split(s[i + |sep|..], sep)
  }

  /** A text shorter than the separator is not split. */
  lemma SplitShort(s: string, sep: string)
    requires 0 < |sep| && |s| < |sep|
    ensures Split(s, sep) == [s]
  {
    assert !OccursAt(s, sep, 0);
  }

  /** JavaScript `parts.join(sep)`. */
  function Join(parts: seq<string>, sep: string): string {
    if |parts| == 0 then ""
    else if |parts| == 1 then parts[0]
    else parts[0] + sep + Join(parts[1..], sep)
  }

  /** None of the parts holds the character `c`. */
  predicate AllLack(parts: seq<string>, c: char) {
    forall k :: 0 <= k < |parts| ==> Lacks(parts[k], c)
  }

  /** Splitting at a first separator preceded by a part free of its first character. */
  lemma SplitAtFirst(q: string, sep: string, rest: string)
    requires |sep| > 0 && Lacks(q, sep[0])
    ensures Split(q + sep + rest, sep) == [q] + Split(rest, sep)
  {
    var s := q + sep + rest;
    assert s == q + (sep + rest);
    assert (sep + rest)[..|sep|] == sep;
    FreePrefixThenPattern(q, sep + rest, sep);
    assert s[..|q|] == q;
    assert s[|q| + |sep|..] == rest;
  }

  /** Splitting a joined list gives the list back when no part holds the separator's first character. */
  lemma {:induction false} SplitJoin(parts: seq<string>, sep: string)
    requires |sep| > 0 && |parts| >= 1
    requires AllLack(parts, sep[0])
    ensures Split(Join(parts, sep), sep) == parts
  {
    if |parts| == 1 {
      FreeNoIndex(parts[0], sep);
    } else {
      assert Lacks(parts[0], sep[0]);
      SplitAtFirst(parts[0], sep, Join(parts[1..], sep));
      assert AllLack(parts[1..], sep[0]) by {
        forall k | 0 <= k < |parts| - 1 ensures Lacks(parts[1..][k], sep[0]) {
          assert parts[1..][k] == parts[k + 1];
        }
      }
      SplitJoin(parts[1..], sep);
      assert parts == [parts[0]] + parts[1..];
    }
  }

  /** White space and line terminators, as JavaScript's `trim` removes them. */
  predicate IsJsWhiteSpace(c: char) {
    c == '\t' || c == '\n' || c == '\U{B}' || c == '\U{C}' || c == '\r' || c == ' '
    || c == '\U{A0}' || c == '\U{1680}' || ('\U{2000}' <= c <= '\U{200A}')
    || c == '\U{2028}' || c == '\U{2029}' || c == '\U{202F}' || c == '\U{205F}'
    || c == '\U{3000}' || c == '\U{FEFF}'
  }

  /** JavaScript `s.trimStart()`. */
  function TrimStart(s: string): (r: string)
    ensures |r| <= |s| && r == s[|s| - |r|..]
    ensures forall i :: 0 <= i < |s| - |r| ==> IsJsWhiteSpace(s[i])
    ensures |r| > 0 ==> !IsJsWhiteSpace(r[0])
    decreases |s|
  {
    if |s| > 0 && IsJsWhiteSpace(s[0]) then TrimStart(s[1..]) else s
  }

  /** JavaScript `s.trimEnd()`. */
  function TrimEnd(s: string): (r: string)
    ensures |r| <= |s| && r == s[..|r|]
    ensures forall i :: |r| <= i < |s| ==> IsJsWhiteSpace(s[i])
    ensures |r| > 0 ==> !IsJsWhiteSpace(r[|r| - 1])
    decreases |s|
  {
    if |s| > 0 && IsJsWhiteSpace(s[|s| - 1]) then TrimEnd(s[..|s| - 1]) else s
  }

  /** JavaScript `s.trim()`. */
  function Trim(s: string): string {
    TrimEnd(TrimStart(s))
  }

  /** Trimming the end never reaches past a non-blank character: the text before it is kept whole. */
  lemma {:induction false} TrimEndAfterSolid(a: string, t: string)
    requires |a| > 0 && !IsJsWhiteSpace(a[|a| - 1])
    ensures TrimEnd(a + t) == a + TrimEnd(t)
    decreases |t|
  {
    if |t| == 0 {
      assert a + t == a;
    } else if IsJsWhiteSpace(t[|t| - 1]) {
      assert (a + t)[..|a + t| - 1] == a + t[..|t| - 1];
      TrimEndAfterSolid(a, t[..|t| - 1]);
    }
  }

  /** The characters of `s` that `keep` accepts, in order (a character-class `replace(/[^…]/g, '')`). */
  function Filter(s: string, keep: char -> bool): (r: string)
    ensures |r| <= |s|
    ensures forall i :: 0 <= i < |r| ==> keep(r[i])
    decreases |s|
  {
    if |s| == 0 then ""
    else if keep(s[0]) then [s[0]] + Filter(s[1..], keep)
    else Filter(s[1..], keep)
  }

  /** Filtering a concatenation filters each part. */
  lemma {:induction false} FilterConcat(a: string, b: string, keep: char -> bool)
    ensures Filter(a + b, keep) == Filter(a, keep) + Filter(b, keep)
    decreases |a|
  {
    if |a| == 0 {
      assert a + b == b;
    } else {
      assert (a + b)[0] == a[0];
      assert (a + b)[1..] == a[1..] + b;
      FilterConcat(a[1..], b, keep);
    }
  }

  /** A text whose every character is kept passes the filter unchanged. */
  lemma {:induction false} FilterKeepsAll(s: string, keep: char -> bool)
    requires forall i :: 0 <= i < |s| ==> keep(s[i])
    ensures Filter(s, keep) == s
    decreases |s|
  {
    if |s| > 0 {
      FilterKeepsAll(s[1..], keep);
      assert s == [s[0]] + s[1..];
    }
  }

  /** `toLowerCase` on one ASCII character; other characters are unchanged. */
  function LowerAscii(c: char): char {
    if 'A' <= c <= 'Z' then (c as int + 32) as char else c
  }

  /** `toLowerCase` on a string of ASCII characters. */
  function ToLowerAscii(s: string): (r: string)
    ensures |r| == |s|
    ensures forall i :: 0 <= i < |s| ==> r[i] == LowerAscii(s[i])
    decreases |s|
  {
    if |s| == 0 then "" else [LowerAscii(s[0])] + ToLowerAscii(s[1..])
  }

  /** JavaScript `s.length`: UTF-16 code units, two for a character outside the Basic Multilingual Plane. */
  function Utf16Length(s: string): (n: nat)
    ensures |s| <= n <= 2 * |s|
    ensures (forall i :: 0 <= i < |s| ==> s[i] as int <= 0xFFFF) ==> n == |s|
    decreases |s|
  {
    if |s| == 0 then 0
    else (if s[0] as int <= 0xFFFF then 1 else 2) + Utf16Length(s[1..])
  }

  /** Each character outside the Basic Multilingual Plane counts twice. */
  lemma {:induction false} AstralLength(s: string)
    requires forall i :: 0 <= i < |s| ==> s[i] as int > 0xFFFF
    ensures Utf16Length(s) == 2 * |s|
    decreases |s|
  {
    if |s| > 0 {
      AstralLength(s[1..]);
    }
  }

  /** The decimal numeral of `n`, as JavaScript prints an array index. */
  function NatToString(n: nat): (r: string)
    ensures |r| >= 1
    ensures forall i :: 0 <= i < |r| ==> '0' <= r[i] <= '9'
  {
    if n < 10 then ["0123456789"[n]]
    else NatToString(n / 10) + ["0123456789"[n % 10]]
  }
}
