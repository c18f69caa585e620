/**
 * The JavaScript string operations the pages rely on, over `string` (`seq<char>`):
 * `split` with a non-empty separator, `Array.prototype.join`, `trim`,
 * `toLowerCase` (ASCII letters), `includes`, `slice(0, n)` and the decimal
 * rendering of integers.
 */
module JsStrings {
  import opened Wrappers

  // ---------------------------------------------------------------------------
  // Decimal digits and the rendering of integers

  predicate IsDigit(c: char) {
    '0' <= c <= '9'
  }

  predicate AllDigits(s: string) {
    forall i :: 0 <= i < |s| ==> IsDigit(s[i])
  }

  function Digit(d: nat): (c: char)
    requires d < 10
    ensures IsDigit(c)
  {
    (48 + d) as char
  }

  function DigitValue(c: char): nat
    requires IsDigit(c)
  {
    c as int - 48
  }

  /** `String(n)` for a non-negative integer: its shortest decimal digits. */
  function NatToString(n: nat): (s: string)
    ensures |s| > 0 && AllDigits(s)
    ensures |s| > 1 ==> s[0] != '0'
    decreases n
  {
    if n < 10 then [Digit(n)] else NatToString(n / 10) + [Digit(n % 10)]
  }

  /** `String(n)` for any integer: a leading minus sign for negative values. */
  function IntToString(n: int): string {
    if n < 0 then "-" + NatToString(-n) else NatToString(n)
  }

  /** The number a string of decimal digits denotes. */
  function ParseDigits(s: string): nat
    requires AllDigits(s)
  {
    if s == [] then 0 else ParseDigits(s[..|s| - 1]) * 10 + DigitValue(s[|s| - 1])
  }

  /** Reading back the rendering of `n` gives `n`. */
  lemma {:induction false} ParseNatToString(n: nat)
    ensures ParseDigits(NatToString(n)) == n
    decreases n
  {
    if n >= 10 {
      var s := NatToString(n);
      assert s[..|s| - 1] == NatToString(n / 10);
      ParseNatToString(n / 10);
    }
  }

  /** Distinct numbers have distinct renderings. */
  lemma NatToStringInjective(a: nat, b: nat)
    requires NatToString(a) == NatToString(b)
    ensures a == b
  {
    ParseNatToString(a);
    ParseNatToString(b);
  }

  // ---------------------------------------------------------------------------
  // Searching

  /** `sep` occurs in `s` at index `i`. */
  predicate OccursAt(s: string, sep: string, i: nat) {
    i + |sep| <= |s| && s[i..i + |sep|] == sep
  }

  /** `s.includes(sub)`. */
  predicate Includes(s: string, sub: string) {
    exists i: nat | i <= |s| :: OccursAt(s, sub, i)
  }

  /** `s.indexOf(sep, from)`, with `None` for -1. */
  function IndexOfFrom(s: string, sep: string, from: nat): (r: Option<nat>)
    ensures r.Some? ==> from <= r.value && OccursAt(s, sep, r.value)
    ensures r.Some? ==> forall j: nat :: from <= j < r.value ==> !OccursAt(s, sep, j)
    ensures r.None? ==> forall j: nat :: from <= j ==> !OccursAt(s, sep, j)
    decreases |s| - from
  {
    if from + |sep| > |s| then None
    else if OccursAt(s, sep, from) then Some(from)
    else IndexOfFrom(s, sep, from + 1)
  }

  /** `s.indexOf(sep)`. */
  function IndexOf(s: string, sep: string): Option<nat> {
    IndexOfFrom(s, sep, 0)
  }

  lemma IndexOfIncludes(s: string, sep: string)
    ensures IndexOf(s, sep).Some? <==> Includes(s, sep)
  {
    if Includes(s, sep) {
      var i: nat :| OccursAt(s, sep, i);
    }
  }

  // ---------------------------------------------------------------------------
  // split and join

  /**
   * `s.split(sep)` for a non-empty separator: the pieces between successive
   * left-to-right occurrences of `sep`; a string without `sep` is one piece.
   */
  function Split(s: string, sep: string): (parts: seq<string>)
    requires |sep| > 0
    ensures |parts| >= 1
    decreases |s|
  {
    match IndexOf(s, sep)
    case None => [s]
    case Some(i) => [s[..i]] + Split(s[i + |sep|..], sep)
  }

  /** `parts.join(sep)`. */
  function Join(parts: seq<string>, sep: string): (s: string)
    ensures |parts| == 1 ==> s == parts[0]
  {
    if parts == [] then "" else if |parts| == 1 then parts[0] else parts[0] + sep + Join(parts[1..], sep)
  }

  /** Joining the pieces of a split with the same separator gives the string back. */
  lemma {:induction false} JoinSplit(s: string, sep: string)
    requires |sep| > 0
    ensures Join(Split(s, sep), sep) == s
    decreases |s|
  {
    match IndexOf(s, sep)
    case None =>
    case Some(i) =>
      var rest := s[i + |sep|..];
      JoinSplit(rest, sep);
      assert s == s[..i] + sep + rest;
  }

  /** No piece of a split contains the separator. */
  lemma {:induction false} SplitPiecesFree(s: string, sep: string)
    requires |sep| > 0
    ensures forall p :: p in Split(s, sep) ==> !Includes(p, sep)
    decreases |s|
  {
    match IndexOf(s, sep)
    case None =>
      IndexOfIncludes(s, sep);
    case Some(i) =>
      SplitPiecesFree(s[i + |sep|..], sep);
      var head := s[..i];
      if Includes(head, sep) {
        var j: nat :| j <= |head| && OccursAt(head, sep, j);
        OccursInPrefix(s, i, sep, j);
      }
  }

  /** An occurrence in a prefix is an occurrence in the whole string. */
  lemma OccursInPrefix(s: string, n: nat, sep: string, j: nat)
    requires n <= |s| && OccursAt(s[..n], sep, j)
    ensures OccursAt(s, sep, j)
  {
    assert s[j..j + |sep|] == s[..n][j..j + |sep|];
  }

  /** A string without the separator splits into itself. */
  lemma SplitWithoutSeparator(s: string, sep: string)
    requires |sep| > 0 && !Includes(s, sep)
    ensures Split(s, sep) == [s]
  {
    IndexOfIncludes(s, sep);
  }

  /**
   * Splitting on a one-character separator `c` a string built by joining
   * pieces with `c` followed by a padding `pad`: the first piece comes back
   * with the prefix `pre`, every later one with the padding in front.
   */
  lemma {:induction false} SplitPaddedJoin(pre: string, parts: seq<string>, c: char, pad: string)
    requires |parts| >= 1 && c !in pre && c !in pad
    requires forall p :: p in parts ==> c !in p
    ensures Split(pre + Join(parts, [c] + pad), [c]) ==
            [pre + parts[0]] + seq(|parts| - 1, k requires 0 <= k < |parts| - 1 => pad + parts[k + 1])
    decreases |parts|
  {
    var sep := [c] + pad;
    var s := pre + Join(parts, sep);
    var head := pre + parts[0];
    if |parts| == 1 {
      NoCharNoOccurrence(head, c);
      assert IndexOf(s, [c]) == None;
    } else {
      var rest := pad + Join(parts[1..], sep);
      assert s == head + [c] + rest;
      assert c !in head;
      NoCharNoOccurrence(head, c);
      assert OccursAt(s, [c], |head|);
      forall j: nat | j < |head|
        ensures !OccursAt(s, [c], j)
      {
        assert s[j] == head[j];
      }
      assert IndexOf(s, [c]) == Some(|head|);
      assert s[..|head|] == head;
      assert s[|head| + 1..] == rest;
      SplitPaddedJoin(pad, parts[1..], c, pad);
    }
  }

  /**
   * For a one-character separator, splitting a join of pieces that never
   * contain it gives the pieces back.
   */
  lemma {:induction false} SplitJoin(parts: seq<string>, c: char)
    requires |parts| >= 1
    requires forall p :: p in parts ==> c !in p
    ensures Split(Join(parts, [c]), [c]) == parts
    decreases |parts|
  {
    var s := Join(parts, [c]);
    var head := parts[0];
    NoCharNoOccurrence(head, c);
    if |parts| == 1 {
      assert IndexOf(s, [c]) == None;
    } else {
      var rest := Join(parts[1..], [c]);
      assert s == head + [c] + rest;
      assert OccursAt(s, [c], |head|);
      forall j: nat | j < |head|
        ensures !OccursAt(s, [c], j)
      {
        assert s[j] == head[j];
      }
      assert IndexOf(s, [c]) == Some(|head|);
      assert s[..|head|] == head;
      assert s[|head| + 1..] == rest;
      SplitJoin(parts[1..], c);
    }
  }

  lemma NoCharNoOccurrence(s: string, c: char)
    requires c !in s
    ensures forall j: nat :: !OccursAt(s, [c], j)
  {
    forall j: nat
      ensures !OccursAt(s, [c], j)
    {
      assert j < |s| ==> s[j] != c && s[j..j + 1][0] == s[j];
    }
  }

  /** The text after the first separator: the tail pieces of a split, joined again. */
  lemma JoinSplitTail(s: string, sep: string)
    requires |sep| > 0
    ensures Join(Split(s, sep)[1..], sep) ==
            match IndexOf(s, sep) case None => "" case Some(i) => s[i + |sep|..]
  {
    match IndexOf(s, sep)
    case None =>
    case Some(i) =>
      var rest := s[i + |sep|..];
      assert Split(s, sep)[1..] == Split(rest, sep);
      JoinSplit(rest, sep);
  }

  /** The first piece and the rejoined tail, put back together around the separator, give `s`. */
  lemma SplitHeadTail(s: string, sep: string)
    requires |sep| > 0 && Includes(s, sep)
    ensures Split(s, sep)[0] + sep + Join(Split(s, sep)[1..], sep) == s
  {
    IndexOfIncludes(s, sep);
    JoinSplitTail(s, sep);
    var i := IndexOf(s, sep).value;
    assert s == s[..i] + sep + s[i + |sep|..];
  }

  // ---------------------------------------------------------------------------
  // trim

  /** The characters `String.prototype.trim` removes: white space and line terminators. */
  predicate IsWhitespace(c: char) {
    c == '\t' || c == '\n' || c == '\U{000B}' || c == '\U{000C}' || c == '\r' || c == ' '
    || c == '\U{00A0}' || c == '\U{1680}' || ('\U{2000}' <= c <= '\U{200A}')
    || c == '\U{2028}' || c == '\U{2029}' || c == '\U{202F}' || c == '\U{205F}'
    || c == '\U{3000}' || c == '\U{FEFF}'
  }

  /** `s.trimStart()`: the suffix left after the leading white space. */
  function TrimStart(s: string): string {
    if s != [] && IsWhitespace(s[0]) then TrimStart(s[1..]) else s
  }

  /** `s.trimEnd()`: the prefix left before the trailing white space. */
  function TrimEnd(s: string): string {
    if s != [] && IsWhitespace(s[|s| - 1]) then TrimEnd(s[..|s| - 1]) else s
  }

  /** `s.trim()`. */
  function Trim(s: string): string {
    TrimEnd(TrimStart(s))
  }

  /** `trimStart` removes exactly the leading white space. */
  lemma {:induction false} TrimStartRemovesLeading(s: string)
    ensures var r := TrimStart(s);
      && |r| <= |s| && r == s[|s| - |r|..]
      && (r == [] || !IsWhitespace(r[0]))
      && forall k :: 0 <= k < |s| - |r| ==> IsWhitespace(s[k])
    decreases |s|
  {
    if s != [] && IsWhitespace(s[0]) {
      TrimStartRemovesLeading(s[1..]);
    }
  }

  /** `trimEnd` removes exactly the trailing white space. */
  lemma {:induction false} TrimEndRemovesTrailing(s: string)
    ensures var r := TrimEnd(s);
      && |r| <= |s| && r == s[..|r|]
      && (r == [] || !IsWhitespace(r[|r| - 1]))
      && forall k :: |r| <= k < |s| ==> IsWhitespace(s[k])
    decreases |s|
  {
    if s != [] && IsWhitespace(s[|s| - 1]) {
      TrimEndRemovesTrailing(s[..|s| - 1]);
    }
  }

  /**
   * `trim` keeps the part of `s` between its leading and its trailing white
   * space: the result is a contiguous piece of `s`, everything before and
   * after it is white space, and it neither starts nor ends with white space.
   */
  lemma TrimKeepsMiddle(s: string)
    ensures var r, i := Trim(s), |s| - |TrimStart(s)|;
      && 0 <= i && i + |r| <= |s| && r == s[i..i + |r|]
      && (forall k :: 0 <= k < i ==> IsWhitespace(s[k]))
      && (forall k :: i + |r| <= k < |s| ==> IsWhitespace(s[k]))
    ensures Trim(s) == [] || (!IsWhitespace(Trim(s)[0]) && !IsWhitespace(Trim(s)[|Trim(s)| - 1]))
  {
    TrimStartRemovesLeading(s);
    TrimEndRemovesTrailing(TrimStart(s));
    MiddleSlice(s, TrimStart(s), Trim(s));
  }

  /** A prefix `r` of a suffix `t` of `s` is a slice of `s`, surrounded by what `t` and `r` dropped. */
  lemma MiddleSlice(s: string, t: string, r: string)
    requires |t| <= |s| && t == s[|s| - |t|..]
    requires |r| <= |t| && r == t[..|r|]
    requires forall k :: 0 <= k < |s| - |t| ==> IsWhitespace(s[k])
    requires forall k :: |r| <= k < |t| ==> IsWhitespace(t[k])
    requires t == [] || !IsWhitespace(t[0])
    requires r == [] || !IsWhitespace(r[|r| - 1])
    ensures var i := |s| - |t|;
      && r == s[i..i + |r|]
      && (forall k :: i + |r| <= k < |s| ==> IsWhitespace(s[k]))
      && (r == [] || (!IsWhitespace(r[0]) && !IsWhitespace(r[|r| - 1])))
  {
    var i := |s| - |t|;
    forall k | i + |r| <= k < |s| ensures IsWhitespace(s[k]) {
      assert s[k] == t[k - i];
    }
    if r != [] {
      assert r[0] == t[0];
    }
  }

  /** A string that neither starts nor ends with white space is its own trim. */
  lemma TrimUntouched(s: string)
    requires s == [] || (!IsWhitespace(s[0]) && !IsWhitespace(s[|s| - 1]))
    ensures Trim(s) == s
  {
  }

  /** A leading space is trimmed away. */
  lemma TrimLeadingSpace(s: string)
    ensures Trim(" " + s) == Trim(s)
  {
    assert (" " + s)[1..] == s;
  }

  /** Trimming twice is trimming once. */
  lemma TrimIdempotent(s: string)
    ensures Trim(Trim(s)) == Trim(s)
  {
    TrimKeepsMiddle(s);
    TrimUntouched(Trim(s));
  }

  /** `parts.map(s => s.trim())`. */
  function TrimAll(parts: seq<string>): (r: seq<string>)
    ensures |r| == |parts| && forall k :: 0 <= k < |r| ==> r[k] == Trim(parts[k])
  {
    seq(|parts|, k requires 0 <= k < |parts| => Trim(parts[k]))
  }

  lemma TrimmedUnchanged(items: seq<string>)
    requires forall p :: p in items ==> Trim(p) == p
    ensures TrimAll(items) == items
  {
  }

  /** Splitting a ", "-joined list at "," and trimming each piece gives the list back. */
  lemma SpacedSplitsBack(items: seq<string>)
    requires |items| >= 1
    requires forall p :: p in items ==> ',' !in p && Trim(p) == p
    ensures TrimAll(Split(Join(items, ", "), ",")) == items
  {
    SplitSpacedJoin(items);
    TrimPadded(items, Split(Join(items, ", "), ","));
  }

  /** The pieces of a ", "-joined list split at ",": the first item, then each later item after a space. */
  lemma SplitSpacedJoin(items: seq<string>)
    requires |items| >= 1
    requires forall p :: p in items ==> ',' !in p
    ensures var pieces := Split(Join(items, ", "), ",");
      |pieces| == |items| && pieces[0] == items[0] && forall k :: 1 <= k < |items| ==> pieces[k] == " " + items[k]
  {
    SplitPaddedJoin("", items, ',', " ");
    assert [','] + " " == ", ";
    assert "" + Join(items, ", ") == Join(items, ", ");
    assert "" + items[0] == items[0];
  }

  lemma TrimPadded(items: seq<string>, pieces: seq<string>)
    requires |pieces| == |items| >= 1 && pieces[0] == items[0]
    requires forall k :: 1 <= k < |items| ==> pieces[k] == " " + items[k]
    requires forall p :: p in items ==> Trim(p) == p
    ensures TrimAll(pieces) == items
  {
    var r := TrimAll(pieces);
    forall k | 0 <= k < |items|
      ensures r[k] == items[k]
    {
      assert items[k] in items;
      if k > 0 {
        TrimLeadingSpace(items[k]);
      }
    }
  }

  // ---------------------------------------------------------------------------
  // toLowerCase

  function LowerChar(c: char): char {
    if 'A' <= c <= 'Z' then (c as int + 32) as char else c
  }

  /** `s.toLowerCase()` restricted to ASCII letters; other characters are kept. */
  function ToLower(s: string): (r: string)
    ensures |r| == |s|
    ensures forall k :: 0 <= k < |s| ==> !('A' <= r[k] <= 'Z')
    ensures forall k :: 0 <= k < |s| && !('A' <= s[k] <= 'Z') ==> r[k] == s[k]
  {
    seq(|s|, k requires 0 <= k < |s| => LowerChar(s[k]))
  }

  /** An occurrence of `w` in `s` is an occurrence of `w` lower-cased in `s` lower-cased. */
  lemma ToLowerIncludes(s: string, w: string)
    requires Includes(s, w)
    ensures Includes(ToLower(s), ToLower(w))
  {
    var i: nat :| i <= |s| && OccursAt(s, w, i);
    assert ToLower(s)[i..i + |w|] == ToLower(w) by {
      forall k | 0 <= k < |w| ensures ToLower(s)[i..i + |w|][k] == ToLower(w)[k] {
        assert s[i + k] == s[i..i + |w|][k];
      }
    }
    assert OccursAt(ToLower(s), ToLower(w), i);
  }

  lemma ToLowerIdempotent(s: string)
    ensures ToLower(ToLower(s)) == ToLower(s)
  {
  }

  // ---------------------------------------------------------------------------
  // slice(0, n)

  /** `xs.slice(0, n)` for `n >= 0`: the first `n` elements, or all of them when there are fewer. */
  function Take<T>(xs: seq<T>, n: nat): (r: seq<T>)
    ensures |r| == if n <= |xs| then n else |xs|
    ensures forall k :: 0 <= k < |r| ==> r[k] == xs[k]
  {
    if n <= |xs| then xs[..n] else xs
  }
}
