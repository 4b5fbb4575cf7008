/**
 * The JavaScript string operations the application relies on, over Dafny's
 * `string` (a sequence of `char`, each a Unicode scalar value): `trim`, `toLowerCase`,
 * `includes`, `startsWith`, `split`, `join`, `Number.prototype.toString`
 * and the canonical array-index reading of a property name.
 */
module JsString {
  import opened Wrappers

  // ---------------------------------------------------------------- whitespace

  /** The characters `String.prototype.trim` strips (the ASCII and the common Unicode ones). */
  predicate IsSpace(c: char) {
    c == ' ' || c == '\t' || c == '\n' || c == '\r' || c == '\U{000B}' || c == '\U{000C}'
    || c == '\U{00A0}' || c == '\U{FEFF}' || c == '\U{2028}' || c == '\U{2029}'
  }

  /** `s` with its leading white space removed. */
  function TrimStart(s: string): (r: string)
    ensures |r| <= |s| && r == s[|s| - |r|..]
    ensures r == [] || !IsSpace(r[0])
    ensures forall i :: 0 <= i < |s| - |r| ==> IsSpace(s[i])
  {
    if s != [] && IsSpace(s[0]) then TrimStart(s[1..]) else s
  }

  /** `s` with its trailing white space removed. */
  function TrimEnd(s: string): (r: string)
    ensures |r| <= |s| && r == s[..|r|]
    ensures r == [] || !IsSpace(r[|r| - 1])
    ensures forall i :: |r| <= i < |s| ==> IsSpace(s[i])
  {
    if s != [] && IsSpace(s[|s| - 1]) then TrimEnd(s[..|s| - 1]) else s
  }

  /**
   * `s.trim()`: `s` with the white space at both ends cut off; what is left
   * neither starts nor ends with white space. `TrimIsSlice` and
   * `TrimEmptyIffBlank` say what was cut.
   */
  function Trim(s: string): (r: string)
    ensures |r| <= |s|
    ensures r == [] || (!IsSpace(r[0]) && !IsSpace(r[|r| - 1]))
  {
    TrimEnd(TrimStart(s))
  }

  /** `s.trim()` is empty exactly when `s` is all white space. */
  lemma TrimEmptyIffBlank(s: string)
    ensures Trim(s) == [] <==> AllSpaces(s)
  {
    if AllSpaces(s) && TrimStart(s) != [] {
      assert false;
    }
  }

  /** `trimStart` cuts off a prefix made of white space only. */
  lemma TrimStartCut(s: string)
    ensures var i := |s| - |TrimStart(s)|;
            0 <= i <= |s| && TrimStart(s) == s[i..] && AllSpaces(s[..i])
  {
    var i := |s| - |TrimStart(s)|;
    forall k | 0 <= k < i ensures IsSpace(s[..i][k]) {
      assert s[..i][k] == s[k];
    }
  }

  /** `trimEnd` cuts off a suffix made of white space only. */
  lemma TrimEndCut(t: string)
    ensures var j := |TrimEnd(t)|;
            j <= |t| && TrimEnd(t) == t[..j] && AllSpaces(t[j..])
  {
    var j := |TrimEnd(t)|;
    forall k | 0 <= k < |t| - j ensures IsSpace(t[j..][k]) {
      assert t[j..][k] == t[j + k];
    }
  }

  /** A white-space-only prefix, then a white-space-only suffix, cut off `s` leave a middle slice. */
  lemma CutsCompose(s: string, t: string, r: string)
    requires |t| <= |s| && t == s[|s| - |t|..] && AllSpaces(s[..|s| - |t|])
    requires |r| <= |t| && r == t[..|r|] && AllSpaces(t[|r|..])
    ensures exists i, j :: 0 <= i <= j <= |s| && r == s[i..j] && AllSpaces(s[..i]) && AllSpaces(s[j..])
  {
    var i := |s| - |t|;
    var j := i + |r|;
    assert r == s[i..j];
    assert t[|r|..] == s[j..];
  }

  /** `s.trim()` is a slice of `s` with only white space before and after it. */
  lemma TrimIsSlice(s: string)
    ensures exists i, j :: 0 <= i <= j <= |s| && Trim(s) == s[i..j] && AllSpaces(s[..i]) && AllSpaces(s[j..])
  {
    TrimStartCut(s);
    TrimEndCut(TrimStart(s));
    CutsCompose(s, TrimStart(s), Trim(s));
  }

  /** A string that neither starts nor ends with white space is its own trim. */
  lemma TrimOfClean(s: string)
    requires s == [] || (!IsSpace(s[0]) && !IsSpace(s[|s| - 1]))
    ensures Trim(s) == s
  {
  }

  /** Trimming twice is trimming once. */
  lemma TrimIdempotent(s: string)
    ensures Trim(Trim(s)) == Trim(s)
  {
    TrimOfClean(Trim(s));
  }

  /** `w` is made of white space only. */
  predicate AllSpaces(w: string) {
    forall i :: 0 <= i < |w| ==> IsSpace(w[i])
  }

  /** White space put in front of a string makes no difference to its trim. */
  lemma {:induction false} TrimAfterSpaces(w: string, s: string)
    requires AllSpaces(w)
    ensures TrimStart(w + s) == TrimStart(s)
    ensures Trim(w + s) == Trim(s)
    decreases |w|
  {
    if w != [] {
      var t := w + s;
      assert IsSpace(t[0]) by { assert t[0] == w[0]; }
      assert t[1..] == w[1..] + s;
      assert AllSpaces(w[1..]);
      TrimAfterSpaces(w[1..], s);
    } else {
      assert w + s == s;
    }
  }

  /** Trimming only removes characters: whatever the trim holds, the string holds. */
  lemma TrimChars(s: string)
    ensures forall c :: c in Trim(s) ==> c in s
  {
    var t := TrimStart(s);
    assert forall c :: c in t ==> c in s by {
      assert t == s[|s| - |t|..];
    }
    assert forall c :: c in TrimEnd(t) ==> c in t by {
      assert TrimEnd(t) == t[..|TrimEnd(t)|];
    }
  }

  /** A non-empty string that equals its own trim starts and ends with a non-space character. */
  lemma TrimmedEnds(s: string)
    requires s != [] && Trim(s) == s
    ensures !IsSpace(s[0]) && !IsSpace(s[|s| - 1])
  {
  }

  /** `x || fallback` on a string that may be missing: the fallback also replaces the empty string. */
  function OrElse(x: Option<string>, fallback: string): (r: string)
    ensures x.Some? && x.value != "" ==> r == x.value
    ensures x.None? || x.value == "" ==> r == fallback
  {
    if x.Some? && x.value != "" then x.value else fallback
  }

  // ---------------------------------------------------------------- case and search

  /** `toLowerCase` on one character: only the ASCII letters are mapped. */
  function LowerChar(c: char): char {
    if 'A' <= c <= 'Z' then (c as int + 32) as char else c
  }

  /** `s.toLowerCase()`, restricted to ASCII letters. */
  function ToLower(s: string): (r: string)
    ensures |r| == |s|
    ensures forall i :: 0 <= i < |s| ==> r[i] == LowerChar(s[i])
  {
    seq(|s|, i requires 0 <= i < |s| => LowerChar(s[i]))
  }

  /** `s.startsWith(p)`. */
  predicate StartsWith(s: string, p: string) {
    p <= s
  }

  /** `s.includes(q)`: `q` occurs in `s` at some position. */
  predicate Includes(s: string, q: string)
    decreases |s|
  {
    q <= s || (s != [] && Includes(s[1..], q))
  }

  /** `q` occurs in `s` starting at index `i`. */
  predicate OccursAt(s: string, q: string, i: int) {
    0 <= i <= |s| - |q| && s[i..i + |q|] == q
  }

  /** `includes` finds exactly the occurrences at some index of `s`. */
  lemma {:induction false} IncludesAt(s: string, q: string)
    ensures Includes(s, q) <==> exists i :: OccursAt(s, q, i)
    decreases |s|
  {
    if q <= s {
      assert OccursAt(s, q, 0);
    } else if s == [] {
    } else {
      IncludesAt(s[1..], q);
      if exists i :: OccursAt(s, q, i) {
        var i :| OccursAt(s, q, i);
        assert i != 0;
        assert OccursAt(s[1..], q, i - 1);
      }
      if Includes(s[1..], q) {
        var j :| OccursAt(s[1..], q, j);
        assert s[1..][j..j + |q|] == s[j + 1..j + 1 + |q|];
        assert OccursAt(s, q, j + 1);
      }
    }
  }

  // ---------------------------------------------------------------- split and join

  /** `s.split(sep)` for a non-empty separator: the pieces between leftmost non-overlapping occurrences. */
  function Split(s: string, sep: string): (r: seq<string>)
    requires |sep| > 0
    ensures |r| >= 1
    decreases |s|
  {
    if |s| < |sep| then [s]
    else if s[..|sep|] == sep then [""] + Split(s[|sep|..], sep)
    else
      var rest := Split(s[1..], sep);
      [[s[0]] + rest[0]] + rest[1..]
  }

  /** `xs.join(sep)`. */
  function Join(xs: seq<string>, sep: string): string {
    if |xs| == 0 then ""
    else if |xs| == 1 then xs[0]
    else xs[0] + sep + Join(xs[1..], sep)
  }

  /** A join whose first piece is empty starts with the separator. */
  lemma JoinEmptyHead(xs: seq<string>, sep: string)
    requires |xs| >= 1
    ensures Join([""] + xs, sep) == sep + Join(xs, sep)
  {
    assert ([""] + xs)[1..] == xs;
  }

  /** A join whose first piece gained a leading character gained that character in front. */
  lemma JoinHeadCons(ch: char, xs: seq<string>, sep: string)
    requires |xs| >= 1
    ensures Join([[ch] + xs[0]] + xs[1..], sep) == [ch] + Join(xs, sep)
  {
    var ys := [[ch] + xs[0]] + xs[1..];
    assert ys[1..] == xs[1..];
    if |xs| > 1 {
      assert Join(ys, sep) == ([ch] + xs[0]) + sep + Join(xs[1..], sep);
      assert Join(xs, sep) == xs[0] + sep + Join(xs[1..], sep);
    }
  }

  /** Joining the pieces of a split with the same separator gives the string back. */
  lemma {:induction false} JoinSplit(s: string, sep: string)
    requires |sep| > 0
    ensures Join(Split(s, sep), sep) == s
    decreases |s|
  {
    if |s| < |sep| {
    } else if s[..|sep|] == sep {
      JoinSplit(s[|sep|..], sep);
      JoinEmptyHead(Split(s[|sep|..], sep), sep);
      assert s == sep + s[|sep|..];
    } else {
      JoinSplit(s[1..], sep);
      JoinHeadCons(s[0], Split(s[1..], sep), sep);
      assert s == [s[0]] + s[1..];
    }
  }

  /** No piece of a split on one character contains that character. */
  lemma {:induction false} SplitPiecesFree(s: string, c: char)
    ensures forall p :: p in Split(s, [c]) ==> c !in p
    decreases |s|
  {
    if |s| < 1 {
    } else if s[..1] == [c] {
      SplitPiecesFree(s[1..], c);
    } else {
      SplitPiecesFree(s[1..], c);
      var rest := Split(s[1..], [c]);
      assert s[0] != c by { assert s[..1] == [s[0]]; }
      assert forall p :: p in rest[1..] ==> p in rest;
    }
  }

  /** A string without the separator character splits into itself alone. */
  lemma {:induction false} SplitWithoutSeparator(s: string, c: char)
    requires c !in s
    ensures Split(s, [c]) == [s]
    decreases |s|
  {
    if |s| >= 1 {
      assert s[..1] == [s[0]];
      SplitWithoutSeparator(s[1..], c);
      assert [s[0]] + s[1..] == s;
    }
  }

  /** Splitting on `c` after a separator-free first piece peels that piece off. */
  lemma {:induction false} SplitAfterPiece(a: string, c: char, b: string)
    requires c !in a
    ensures Split(a + [c] + b, [c]) == [a] + Split(b, [c])
    decreases |a|
  {
    var s := a + [c] + b;
    if a == [] {
      assert s[..1] == [c];
      assert s[1..] == b;
    } else {
      assert s[..1] == [a[0]];
      assert s[1..] == a[1..] + [c] + b;
      SplitAfterPiece(a[1..], c, b);
      assert [a[0]] + a[1..] == a;
    }
  }

  /** A string holding the separator character splits into at least two pieces. */
  lemma SplitAtSeparator(s: string, c: char)
    requires c in s
    ensures |Split(s, [c])| >= 2
  {
    var pieces := Split(s, [c]);
    JoinSplit(s, [c]);
    SplitPiecesFree(s, c);
    assert pieces[0] in pieces;
  }

  /** A string in which the separator never occurs splits into itself alone. */
  lemma {:induction false} SplitNoOccurrence(s: string, sep: string)
    requires |sep| > 0 && !Includes(s, sep)
    ensures Split(s, sep) == [s]
    decreases |s|
  {
    if |s| >= |sep| {
      assert s[..|sep|] != sep;
      SplitNoOccurrence(s[1..], sep);
      assert [s[0]] + s[1..] == s;
    }
  }

  /** Joining separator-free pieces on `c` and splitting on `c` again gives the pieces back. */
  lemma {:induction false} SplitJoin(xs: seq<string>, c: char)
    requires |xs| >= 1
    requires forall i :: 0 <= i < |xs| ==> c !in xs[i]
    ensures Split(Join(xs, [c]), [c]) == xs
    decreases |xs|
  {
    if |xs| == 1 {
      SplitWithoutSeparator(xs[0], c);
    } else {
      SplitAfterPiece(xs[0], c, Join(xs[1..], [c]));
      SplitJoin(xs[1..], c);
      assert xs == [xs[0]] + xs[1..];
    }
  }

  // ---------------------------------------------------------------- decimal numbers

  predicate IsDigit(c: char) {
    '0' <= c <= '9'
  }

  function DigitChar(d: nat): (c: char)
    requires d < 10
    ensures IsDigit(c)
  {
    (('0' as int) + d) as char
  }

  function DigitValue(c: char): nat
    requires IsDigit(c)
  {
    c as int - '0' as int
  }

  function Pow10(k: nat): nat {
    if k == 0 then 1 else 10 * Pow10(k - 1)
  }

  /** `n.toString()` for a natural number: its decimal digits, with no leading zero. */
  function DecimalDigits(n: nat): (r: string)
    ensures |r| >= 1
    ensures forall i :: 0 <= i < |r| ==> IsDigit(r[i])
    ensures n > 0 ==> r[0] != '0'
  {
    if n < 10 then [DigitChar(n)] else DecimalDigits(n / 10) + [DigitChar(n % 10)]
  }

  /** A number between 10^k and 10^(k+1) - 1 is written with exactly k + 1 digits. */
  lemma {:induction false} DigitsLength(n: nat, k: nat)
    requires Pow10(k) <= n < Pow10(k + 1)
    ensures |DecimalDigits(n)| == k + 1
  {
    if k > 0 {
      assert Pow10(k) == 10 * Pow10(k - 1);
      assert Pow10(k + 1) == 10 * Pow10(k);
      DigitsLength(n / 10, k - 1);
    }
  }

  /** The value of a non-empty string of decimal digits. */
  function DigitsValue(s: string): nat
    requires |s| >= 1 && forall i :: 0 <= i < |s| ==> IsDigit(s[i])
  {
    if |s| == 1 then DigitValue(s[0])
    else 10 * DigitsValue(s[..|s| - 1]) + DigitValue(s[|s| - 1])
  }

  /** The strings that name an array element: decimal digits with no leading zero. */
  predicate IsCanonicalIndex(s: string) {
    |s| >= 1 && (forall i :: 0 <= i < |s| ==> IsDigit(s[i])) && (|s| == 1 || s[0] != '0')
  }

  /** The array index a property name denotes, if any (`arr["2"]` is element 2, `arr["02"]` is nothing). */
  function ParseIndex(s: string): (r: Option<nat>)
    ensures r.Some? <==> IsCanonicalIndex(s)
  {
    if IsCanonicalIndex(s) then Some(DigitsValue(s)) else None
  }

  lemma {:induction false} LeadingDigitPositive(s: string)
    requires |s| >= 1 && forall i :: 0 <= i < |s| ==> IsDigit(s[i])
    requires s[0] != '0'
    ensures DigitsValue(s) >= 1
  {
    if |s| > 1 {
      LeadingDigitPositive(s[..|s| - 1]);
    }
  }

  /** Printing an index and reading it back as a property name gives the index. */
  lemma {:induction false} IndexRoundTrip(n: nat)
    ensures ParseIndex(DecimalDigits(n)) == Some(n)
  {
    if n >= 10 {
      IndexRoundTrip(n / 10);
      var d := DecimalDigits(n);
      assert d[..|d| - 1] == DecimalDigits(n / 10);
    }
  }

  /** A property name that reads as an index is how that index is printed. */
  lemma {:induction false} CanonicalIsPrinted(s: string)
    requires IsCanonicalIndex(s)
    ensures DecimalDigits(DigitsValue(s)) == s
    decreases |s|
  {
    if |s| > 1 {
      var p := s[..|s| - 1];
      var d := DigitValue(s[|s| - 1]);
      assert p[0] == s[0];
      LeadingDigitPositive(p);
      var m := DigitsValue(p);
      CanonicalIsPrinted(p);
      var n := 10 * m + d;
      assert n / 10 == m && n % 10 == d;
      assert DigitChar(d) == s[|s| - 1];
      assert s == p + [s[|s| - 1]];
    } else {
      assert DigitChar(DigitValue(s[0])) == s[0];
    }
  }

  /** A property name reads as index n exactly when it is how n is printed. */
  lemma ParseIndexCanonical(s: string, n: nat)
    ensures ParseIndex(s) == Some(n) <==> s == DecimalDigits(n)
  {
    if s == DecimalDigits(n) {
      IndexRoundTrip(n);
    }
    if ParseIndex(s) == Some(n) {
      CanonicalIsPrinted(s);
    }
  }
}
