// Python's str operations used by the chatbot engine, on seq<char>.
module Strings {
  import opened Wrappers

  /** `p` occurs in `s` starting at index `i`. */
  predicate OccursAt(s: string, p: string, i: int)
  {
    0 <= i && i + |p| <= |s| && s[i..i + |p|] == p
  }

  /** Python's `p in s` for strings. */
  predicate Contains(s: string, p: string)
  {
    exists i :: 0 <= i <= |s| && OccursAt(s, p, i)
  }

  predicate StartsWith(s: string, p: string) { p <= s }

  predicate EndsWith(s: string, q: string)
  {
    |q| <= |s| && s[|s| - |q|..] == q
  }

  /** The first occurrence of `p` in `s` at or after `from` (`str.find`). */
  function IndexOfFrom(s: string, p: string, from: nat): (r: Option<nat>)
    decreases |s| - from
    ensures r.Some? ==> from <= r.value && OccursAt(s, p, r.value)
    ensures r.Some? ==> forall j :: from <= j < r.value ==> !OccursAt(s, p, j)
    ensures r.None? ==> forall j :: from <= j ==> !OccursAt(s, p, j)
  {
    if from + |p| > |s| then None
    else if s[from..from + |p|] == p then Some(from)
    else IndexOfFrom(s, p, from + 1)
  }

  /** An occurrence inside a slice is an occurrence in the whole string. */
  lemma OccursInSlice(s: string, p: string, a: nat, b: nat, i: nat)
    requires a <= b <= |s| && OccursAt(s[a..b], p, i)
    ensures OccursAt(s, p, a + i)
  {
    var t := s[a..b];
    forall k | 0 <= k < |p| ensures s[a + i + k] == p[k] {
      assert t[i + k] == s[a + i + k];
      assert t[i..i + |p|][k] == p[k];
    }
    assert s[a + i..a + i + |p|] == p;
  }

  lemma SliceKeepsAbsence(s: string, p: string, a: nat, b: nat)
    requires a <= b <= |s| && !Contains(s, p)
    ensures !Contains(s[a..b], p)
  {
    forall i | 0 <= i <= b - a && OccursAt(s[a..b], p, i) ensures false {
      OccursInSlice(s, p, a, b, i);
    }
  }

  function IndexOf(s: string, p: string): (r: Option<nat>)
    ensures r.Some? <==> Contains(s, p)
    ensures r.Some? ==> OccursAt(s, p, r.value) && forall j :: 0 <= j < r.value ==> !OccursAt(s, p, j)
  {
    IndexOfFrom(s, p, 0)
  }

  /** The last occurrence of `p` in `s` that starts before `upto` (`str.rfind`). */
  function LastIndexBefore(s: string, p: string, upto: nat): (r: Option<nat>)
    decreases upto
    ensures r.Some? ==> r.value < upto && OccursAt(s, p, r.value)
    ensures r.Some? ==> forall j :: r.value < j < upto ==> !OccursAt(s, p, j)
    ensures r.None? ==> forall j :: 0 <= j < upto ==> !OccursAt(s, p, j)
  {
    if upto == 0 then None
    else if OccursAt(s, p, upto - 1) then Some(upto - 1)
    else LastIndexBefore(s, p, upto - 1)
  }

  function LastIndexOf(s: string, p: string): (r: Option<nat>)
    ensures r.Some? <==> Contains(s, p)
    ensures r.Some? ==> OccursAt(s, p, r.value) && forall j :: r.value < j ==> !OccursAt(s, p, j)
  {
    LastIndexBefore(s, p, |s| + 1)
  }

  /** `s.replace(pat, with)`: every non-overlapping occurrence, scanning left to right. */
  function Replace(s: string, pat: string, with: string): (r: string)
    requires |pat| > 0
    decreases |s|
    ensures !Contains(s, pat) ==> r == s
  {
    match IndexOf(s, pat)
    case None => s
    case Some(i) => s[..i] + with + Replace(s[i + |pat|..], pat, with)
  }

  /** Every occurrence of the character `c` rewritten to `w`, character by character. */
  function MapChar(s: string, c: char, w: string): string
  {
    if s == [] then [] else (if s[0] == c then w else [s[0]]) + MapChar(s[1..], c, w)
  }

  lemma {:induction false} MapCharConcat(a: string, b: string, c: char, w: string)
    ensures MapChar(a + b, c, w) == MapChar(a, c, w) + MapChar(b, c, w)
  {
    if a == [] {
      assert a + b == b;
    } else {
      assert (a + b)[0] == a[0] && (a + b)[1..] == a[1..] + b;
      MapCharConcat(a[1..], b, c, w);
    }
  }

  lemma {:induction false} MapCharAbsent(s: string, c: char, w: string)
    requires forall i :: 0 <= i < |s| ==> s[i] != c
    ensures MapChar(s, c, w) == s
  {
    if s != [] {
      MapCharAbsent(s[1..], c, w);
    }
  }

  /** Where the one-character pattern `[c]` does not occur, the character is not `c`. */
  lemma NoCharBefore(s: string, c: char, w: string, n: nat)
    requires n <= |s| && forall j :: 0 <= j < n ==> !OccursAt(s, [c], j)
    ensures MapChar(s[..n], c, w) == s[..n]
  {
    forall j | 0 <= j < n ensures s[..n][j] != c {
      assert !OccursAt(s, [c], j);
      assert s[j..j + 1] == [s[j]];
    }
    MapCharAbsent(s[..n], c, w);
  }

  /** Replacing a one-character pattern is rewriting that character everywhere. */
  lemma {:induction false} ReplaceChar(s: string, c: char, w: string)
    ensures Replace(s, [c], w) == MapChar(s, c, w)
    decreases |s|
  {
    match IndexOf(s, [c])
    case None =>
      NoCharBefore(s, c, w, |s|);
      assert s[..|s|] == s;
    case Some(i) =>
      assert s[i..i + 1] == [c];
      NoCharBefore(s, c, w, i);
      var tail := s[i..];
      assert tail[0] == c && tail[1..] == s[i + 1..];
      assert MapChar(tail, c, w) == w + MapChar(s[i + 1..], c, w);
      assert s == s[..i] + tail;
      calc {
        Replace(s, [c], w);
        s[..i] + w + Replace(s[i + 1..], [c], w);
        { ReplaceChar(s[i + 1..], c, w); }
        s[..i] + w + MapChar(s[i + 1..], c, w);
        MapChar(s[..i], c, w) + MapChar(tail, c, w);
        { MapCharConcat(s[..i], tail, c, w); }
        MapChar(s, c, w);
      }
  }

  lemma {:induction false} MapCharMembership(s: string, c: char, w: string, x: char)
    ensures x in MapChar(s, c, w) <==> (x != c && x in s) || (c in s && x in w)
  {
    if s != [] {
      MapCharMembership(s[1..], c, w, x);
      assert s == [s[0]] + s[1..];
    }
  }

  /** `s.split(sep)` with a non-empty separator. */
  function Split(s: string, sep: string): (r: seq<string>)
    requires |sep| > 0
    decreases |s|
    ensures |r| >= 1
  {
    match IndexOf(s, sep)
    case None => [s]
    case Some(i) => [s[..i]] + Split(s[i + |sep|..], sep)
  }

  /** `sep.join(parts)`. */
  function Join(sep: string, parts: seq<string>): string
  {
    if |parts| == 0 then ""
    else if |parts| == 1 then parts[0]
    else parts[0] + sep + Join(sep, parts[1..])
  }

  /** An occurrence survives adding text on either side. */
  lemma OccursInContext(a: string, s: string, b: string, p: string, i: nat)
    requires OccursAt(s, p, i)
    ensures OccursAt(a + s + b, p, |a| + i)
  {
    var t := a + s + b;
    assert t[|a| + i..|a| + i + |p|] == s[i..i + |p|];
  }

  /** Each joined part occurs in the joined string. */
  lemma {:induction false} JoinContains(sep: string, parts: seq<string>, i: nat)
    requires i < |parts|
    ensures Contains(Join(sep, parts), parts[i])
    decreases |parts|
  {
    if |parts| == 1 {
      assert OccursAt(parts[0], parts[0], 0);
    } else if i == 0 {
      OccursInContext([], parts[0], sep + Join(sep, parts[1..]), parts[0], 0);
      assert [] + parts[0] + (sep + Join(sep, parts[1..])) == Join(sep, parts);
    } else {
      JoinContains(sep, parts[1..], i - 1);
      var rest := Join(sep, parts[1..]);
      var j :| 0 <= j <= |rest| && OccursAt(rest, parts[1..][i - 1], j);
      OccursInContext(parts[0] + sep, rest, [], parts[i], j);
      assert parts[0] + sep + rest + [] == Join(sep, parts);
    }
  }

  /** Each joined part occurs in any text around the join. */
  lemma JoinInContext(head: string, sep: string, parts: seq<string>, tail: string, i: nat)
    requires i < |parts|
    ensures Contains(head + Join(sep, parts) + tail, parts[i])
  {
    JoinContains(sep, parts, i);
    var j :| 0 <= j <= |Join(sep, parts)| && OccursAt(Join(sep, parts), parts[i], j);
    OccursInContext(head, Join(sep, parts), tail, parts[i], j);
  }

  /** Joining two non-empty lists puts the separator between their joins. */
  lemma {:induction false} JoinAppend(sep: string, a: seq<string>, b: seq<string>)
    requires |a| > 0 && |b| > 0
    ensures Join(sep, a + b) == Join(sep, a) + sep + Join(sep, b)
    decreases |a|
  {
    if |a| > 1 {
      assert (a + b)[1..] == a[1..] + b;
      JoinAppend(sep, a[1..], b);
    } else {
      assert (a + b)[1..] == b;
    }
  }

  /** Concatenation of a sequence of strings (`"".join`). */
  function Concat(parts: seq<string>): string
  {
    if |parts| == 0 then "" else parts[0] + Concat(parts[1..])
  }

  lemma PrefixBeforeFirstHasNoOccurrence(s: string, p: string, i: nat)
    requires i <= |s|
    requires forall j :: 0 <= j < i ==> !OccursAt(s, p, j)
    requires |p| > 0
    ensures !Contains(s[..i], p)
  {
    forall j | 0 <= j <= i && OccursAt(s[..i], p, j) ensures false {
      assert s[..i][j..j + |p|] == s[j..j + |p|];
      assert OccursAt(s, p, j);
    }
  }

  /** Joining the pieces of a split with the separator gives back the string. */
  lemma {:induction false} JoinSplit(s: string, sep: string)
    requires |sep| > 0
    ensures Join(sep, Split(s, sep)) == s
    decreases |s|
  {
    match IndexOf(s, sep)
    case None =>
    case Some(i) =>
      var rest := s[i + |sep|..];
      var tail := Split(rest, sep);
      JoinSplit(rest, sep);
      var parts := [s[..i]] + tail;
      assert Split(s, sep) == parts;
      assert parts[1..] == tail;
      assert Join(sep, parts) == s[..i] + sep + Join(sep, tail);
      assert s[i..i + |sep|] == sep;
      assert s == s[..i] + s[i..i + |sep|] + rest;
  }

  /** No piece of a split contains the separator. */
  lemma {:induction false} SplitPiecesAvoidSeparator(s: string, sep: string, k: nat)
    requires |sep| > 0
    requires k < |Split(s, sep)|
    ensures !Contains(Split(s, sep)[k], sep)
    decreases |s|
  {
    match IndexOf(s, sep)
    case None =>
      assert Split(s, sep) == [s];
    case Some(i) =>
      var rest := s[i + |sep|..];
      assert Split(s, sep) == [s[..i]] + Split(rest, sep);
      if k == 0 {
        PrefixBeforeFirstHasNoOccurrence(s, sep, i);
      } else {
        assert Split(s, sep)[k] == Split(rest, sep)[k - 1];
        SplitPiecesAvoidSeparator(rest, sep, k - 1);
      }
  }

  /** The characters Python's `str.isspace` accepts, which `strip()` removes. */
  predicate IsSpace(c: char)
  {
    c == ' ' || ('\t' <= c <= '\r') || ('\U{1C}' <= c <= '\U{1F}') || c == '\U{85}' || c == '\U{A0}'
    || c == '\U{1680}' || ('\U{2000}' <= c <= '\U{200A}') || c == '\U{2028}' || c == '\U{2029}'
    || c == '\U{202F}' || c == '\U{205F}' || c == '\U{3000}'
  }

  function TrimLeft(s: string, drop: char -> bool): string
    decreases |s|
  {
    if |s| > 0 && drop(s[0]) then TrimLeft(s[1..], drop) else s
  }

  function TrimRight(s: string, drop: char -> bool): string
    decreases |s|
  {
    if |s| > 0 && drop(s[|s| - 1]) then TrimRight(s[..|s| - 1], drop) else s
  }

  /** `s.strip(chars)` for the characters `drop` accepts. */
  function Trim(s: string, drop: char -> bool): string
  {
    TrimRight(TrimLeft(s, drop), drop)
  }

  /** `s.strip()`. */
  function Strip(s: string): string { Trim(s, IsSpace) }

  /** `s.strip(c)` for a single character. */
  function StripChar(s: string, c: char): string { Trim(s, CharIs(c)) }

  function CharIs(c: char): char -> bool { x => x == c }

  /** `lstrip` removes a prefix of dropped characters and stops at a kept one. */
  lemma {:induction false} TrimLeftSuffix(s: string, drop: char -> bool) returns (a: nat)
    decreases |s|
    ensures a <= |s| && TrimLeft(s, drop) == s[a..]
    ensures forall i :: 0 <= i < a ==> drop(s[i])
    ensures a < |s| ==> !drop(s[a])
  {
    if |s| > 0 && drop(s[0]) {
      var a' := TrimLeftSuffix(s[1..], drop);
      a := a' + 1;
      assert s[1..][a'..] == s[a..];
      forall i | 0 <= i < a ensures drop(s[i]) {
        if i > 0 { assert s[i] == s[1..][i - 1]; }
      }
      if a < |s| { assert s[a] == s[1..][a']; }
    } else {
      a := 0;
    }
  }

  /** `rstrip` removes a suffix of dropped characters and stops at a kept one. */
  lemma {:induction false} TrimRightPrefix(s: string, drop: char -> bool) returns (n: nat)
    decreases |s|
    ensures n <= |s| && TrimRight(s, drop) == s[..n]
    ensures forall i :: n <= i < |s| ==> drop(s[i])
    ensures n > 0 ==> !drop(s[n - 1])
  {
    if |s| > 0 && drop(s[|s| - 1]) {
      var front := s[..|s| - 1];
      n := TrimRightPrefix(front, drop);
      assert front[..n] == s[..n];
      forall i | n <= i < |s| ensures drop(s[i]) {
        if i < |s| - 1 { assert s[i] == front[i]; }
      }
      if n > 0 { assert s[n - 1] == front[n - 1]; }
    } else {
      n := |s|;
    }
  }

  /** Stripping keeps a contiguous middle, drops only stripped characters and stops at a kept one. */
  lemma TrimIsMiddle(s: string, drop: char -> bool) returns (a: nat, b: nat)
    ensures a <= b <= |s| && Trim(s, drop) == s[a..b]
    ensures forall i :: 0 <= i < a ==> drop(s[i])
    ensures forall i :: b <= i < |s| ==> drop(s[i])
    ensures a < b ==> !drop(s[a]) && !drop(s[b - 1])
  {
    a := TrimLeftSuffix(s, drop);
    var l := s[a..];
    var n := TrimRightPrefix(l, drop);
    b := a + n;
    assert s[a..b] == l[..n];
    forall i | b <= i < |s| ensures drop(s[i]) {
      assert s[i] == l[i - a];
    }
    if a < b {
      assert s[a] == l[0];
      assert s[b - 1] == l[n - 1];
    }
  }

  /** A string whose ends are kept is unchanged by stripping. */
  lemma TrimKeeps(s: string, drop: char -> bool)
    requires s != [] ==> !drop(s[0]) && !drop(s[|s| - 1])
    ensures Trim(s, drop) == s
  {
  }

  predicate IsDigit(c: char) { '0' <= c <= '9' }

  function DigitValue(c: char): nat requires IsDigit(c) { (c as int - '0' as int) as nat }

  function DigitChar(d: nat): (c: char)
    requires d < 10
    ensures IsDigit(c) && DigitValue(c) == d
  {
    (d + '0' as int) as char
  }

  /** `str(n)` for a natural number. */
  function NatToString(n: nat): (r: string)
    decreases n
    ensures |r| > 0 && forall i :: 0 <= i < |r| ==> IsDigit(r[i])
  {
    if n < 10 then [DigitChar(n)] else NatToString(n / 10) + [DigitChar(n % 10)]
  }

  /** `str(i)` for a Python int. */
  function IntToString(i: int): string
  {
    if i < 0 then "-" + NatToString(-i) else NatToString(i)
  }

  function DigitsValue(s: string): nat
    requires forall i :: 0 <= i < |s| ==> IsDigit(s[i])
  {
    if s == [] then 0 else DigitsValue(s[..|s| - 1]) * 10 + DigitValue(s[|s| - 1])
  }

  function DropUnderscores(s: string): (r: string)
    ensures (forall i :: 0 <= i < |s| ==> IsDigit(s[i]) || s[i] == '_') ==> forall i :: 0 <= i < |r| ==> IsDigit(r[i])
  {
    if s == [] then [] else (if s[0] == '_' then [] else [s[0]]) + DropUnderscores(s[1..])
  }

  /** Decimal digits, optionally grouped by single underscores, as `int()` accepts them. */
  predicate DigitGroups(b: string)
  {
    |b| > 0 && IsDigit(b[0]) && IsDigit(b[|b| - 1])
    && (forall i :: 0 <= i < |b| ==> IsDigit(b[i]) || b[i] == '_')
    && (forall i :: 0 <= i < |b| - 1 ==> !(b[i] == '_' && b[i + 1] == '_'))
  }

  /** The digits of a well-formed group string, without the underscores. */
  function GroupsValue(b: string): nat
    requires DigitGroups(b)
  {
    DigitsValue(DropUnderscores(b))
  }

  /** `int(s)` for a string: surrounding whitespace, an optional sign, base-10 digits. */
  function ParseInt(s: string): (r: Option<int>)
  {
    var t := Strip(s);
    var body := if |t| > 0 && (t[0] == '-' || t[0] == '+') then t[1..] else t;
    if DigitGroups(body) then
      var v: int := GroupsValue(body);
      Some(if |t| > 0 && t[0] == '-' then -v else v)
    else None
  }

  lemma {:induction false} NatToStringValue(n: nat)
    ensures DigitsValue(NatToString(n)) == n
    decreases n
  {
    if n >= 10 {
      NatToStringValue(n / 10);
      var s := NatToString(n);
      assert s[..|s| - 1] == NatToString(n / 10);
    }
  }

  lemma {:induction false} DropUnderscoresOfDigits(s: string)
    requires forall i :: 0 <= i < |s| ==> IsDigit(s[i])
    ensures DropUnderscores(s) == s
  {
    if s != [] { DropUnderscoresOfDigits(s[1..]); }
  }

  lemma StripOfIntToString(i: int)
    ensures Strip(IntToString(i)) == IntToString(i)
  {
    var s := IntToString(i);
    assert s[0] == '-' || IsDigit(s[0]);
    assert IsDigit(s[|s| - 1]);
    TrimKeeps(s, IsSpace);
  }

  /** `int(str(i)) == i`. */
  lemma ParseIntOfIntToString(i: int)
    ensures ParseInt(IntToString(i)) == Some(i)
  {
    var s := IntToString(i);
    var n: nat := if i < 0 then -i else i;
    var digits := NatToString(n);
    StripOfIntToString(i);
    var body := if |s| > 0 && (s[0] == '-' || s[0] == '+') then s[1..] else s;
    assert body == digits;
    assert DigitGroups(digits);
    DropUnderscoresOfDigits(digits);
    NatToStringValue(n);
    assert GroupsValue(body) == n;
  }
}
