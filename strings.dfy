/** Text helpers standing in for the Foundation string operations the app uses:
    `trimmingCharacters(in:)`, `replacingOccurrences(of:with:)`, decimal interpolation of
    integers and the `<` ordering of strings. Strings are sequences of `char`; Swift's
    grapheme clusters and Unicode character sets are approximated by single characters and
    the ASCII members of those sets. */
module Strings {

  import opened Wrappers

  /** The ASCII members of `CharacterSet.whitespaces`. */
  const Whitespaces: set<char> := {' ', '\t'}

  /** The ASCII members of `CharacterSet.whitespacesAndNewlines`. */
  const WhitespacesAndNewlines: set<char> := {' ', '\t', '\n', '\r', '\U{0B}', '\U{0C}'}

  // ---------------------------------------------------------------------------------------
  // Trimming

  /** Every character of `s` belongs to `ws`. */
  predicate AllIn(s: string, ws: set<char>) {
    forall k :: 0 <= k < |s| ==> s[k] in ws
  }

  /** `s` without its leading run of characters from `ws`. */
  function DropLeading(s: string, ws: set<char>): (r: string)
    ensures |r| <= |s|
    ensures r == [] || r[0] !in ws
  {
    if s != [] && s[0] in ws then DropLeading(s[1..], ws) else s
  }

  /** What `DropLeading` removes is a run of `ws`, and it keeps the rest. */
  lemma {:induction false} DropLeadingShape(s: string, ws: set<char>)
    ensures var r := DropLeading(s, ws); r == s[|s| - |r|..] && AllIn(s[..|s| - |r|], ws)
    decreases |s|
  {
    if s != [] && s[0] in ws {
      DropLeadingShape(s[1..], ws);
      var r := DropLeading(s, ws);
      assert s[1..][|s| - 1 - |r|..] == s[|s| - |r|..];
      var dropped, rest := s[..|s| - |r|], s[1..][..|s| - 1 - |r|];
      forall k | 0 <= k < |dropped| ensures dropped[k] in ws {
        if k > 0 {
          assert dropped[k] == rest[k - 1];
        }
      }
    }
  }

  /** `s` without its trailing run of characters from `ws`. */
  function DropTrailing(s: string, ws: set<char>): (r: string)
    ensures |r| <= |s|
    ensures r == [] || r[|r| - 1] !in ws
  {
    if s != [] && s[|s| - 1] in ws then DropTrailing(s[..|s| - 1], ws) else s
  }

  /** What `DropTrailing` removes is a run of `ws`, and it keeps the rest. */
  lemma {:induction false} DropTrailingShape(s: string, ws: set<char>)
    ensures var r := DropTrailing(s, ws); r == s[..|r|] && AllIn(s[|r|..], ws)
    decreases |s|
  {
    if s != [] && s[|s| - 1] in ws {
      DropTrailingShape(s[..|s| - 1], ws);
      var r := DropTrailing(s, ws);
      assert s[..|s| - 1][..|r|] == s[..|r|];
      assert forall k :: 0 <= k < |s| - 1 - |r| ==> s[..|s| - 1][|r|..][k] == s[|r|..][k];
    }
  }

  /** `s.trimmingCharacters(in: ws)`: the result neither starts nor ends with a character of
      `ws`, and it is empty exactly when `s` consists of such characters only. */
  function Trim(s: string, ws: set<char>): (r: string)
    ensures r == [] || (r[0] !in ws && r[|r| - 1] !in ws)
    ensures r == [] <==> AllIn(s, ws)
  {
    DropLeadingShape(s, ws);
    DropTrailingShape(DropLeading(s, ws), ws);
    DropTrailing(DropLeading(s, ws), ws)
  }

  /** Trimming removes a run of `ws` at each end and nothing in between: the result is a
      contiguous part of `s`. */
  lemma TrimIsInfix(s: string, ws: set<char>)
    ensures var r := Trim(s, ws);
      exists i :: 0 <= i <= |s| - |r| && s[i..i + |r|] == r && AllIn(s[..i], ws) && AllIn(s[i + |r|..], ws)
  {
    var d := DropLeading(s, ws);
    var r := Trim(s, ws);
    DropLeadingShape(s, ws);
    DropTrailingShape(d, ws);
    var i := |s| - |d|;
    assert s[i..i + |r|] == r;
    assert s[i + |r|..] == d[|r|..];
  }

  /** Trimming twice is trimming once. */
  lemma TrimIdempotent(s: string, ws: set<char>)
    ensures Trim(Trim(s, ws), ws) == Trim(s, ws)
  {
    var r := Trim(s, ws);
    assert DropLeading(r, ws) == r;
    assert DropTrailing(r, ws) == r;
  }

  // ---------------------------------------------------------------------------------------
  // Occurrences and replacement

  /** `pat` occurs in `s` at position `i`. */
  predicate OccursAt(s: string, pat: string, i: nat) {
    i + |pat| <= |s| && s[i..i + |pat|] == pat
  }

  /** `s.replacingOccurrences(of: from, with: to)`: a left-to-right scan that replaces every
      non-overlapping occurrence of `from`; an empty `from` leaves `s` unchanged. */
  function ReplaceAll(s: string, from: string, to: string): string
    decreases |s|
  {
    if from == [] || |s| < |from| then s
    else if from <= s then to + ReplaceAll(s[|from|..], from, to)
    else [s[0]] + ReplaceAll(s[1..], from, to)
  }

  /** Replacing a pattern that does not occur changes nothing. */
  lemma {:induction false} ReplaceAllAbsent(s: string, from: string, to: string)
    requires forall i: nat :: !OccursAt(s, from, i)
    ensures ReplaceAll(s, from, to) == s
    decreases |s|
  {
    if from == [] || |s| < |from| {
    } else {
      assert !OccursAt(s, from, 0);
      assert s[0..|from|] == s[..|from|];
      forall i: nat ensures !OccursAt(s[1..], from, i) {
        assert !OccursAt(s, from, i + 1);
        if i + |from| <= |s| - 1 {
          assert s[1..][i..i + |from|] == s[i + 1..i + 1 + |from|];
        }
      }
      ReplaceAllAbsent(s[1..], from, to);
    }
  }

  /** Replacing a single character by text that does not contain it removes every
      occurrence of that character. */
  lemma {:induction false} ReplaceCharRemovesIt(s: string, c: char, to: string)
    requires c !in to
    ensures c !in ReplaceAll(s, [c], to)
    decreases |s|
  {
    if |s| < 1 {
    } else if [c] <= s {
      ReplaceCharRemovesIt(s[1..], c, to);
    } else {
      ReplaceCharRemovesIt(s[1..], c, to);
    }
  }

  /** A leading part that cannot start an occurrence is copied unchanged. */
  lemma {:induction false} ReplaceAllKeepsPrefix(x: string, s: string, from: string, to: string)
    requires from != [] && from[0] !in x
    ensures ReplaceAll(x + s, from, to) == x + ReplaceAll(s, from, to)
    decreases |x|
  {
    if x != [] {
      assert (x + s)[0] == x[0];
      assert (x + s)[1..] == x[1..] + s;
      ReplaceAllKeepsPrefix(x[1..], s, from, to);
    } else {
      assert x + s == s;
    }
  }

  /** An occurrence at the front is replaced and the scan resumes after it. */
  lemma ReplaceAllAtHead(s: string, from: string, to: string)
    requires from != []
    ensures ReplaceAll(from + s, from, to) == to + ReplaceAll(s, from, to)
  {
    assert (from + s)[|from|..] == s;
  }

  /** Replacement introduces only the characters of its replacement text. */
  lemma {:induction false} ReplaceAllKeepsAbsentChar(s: string, from: string, to: string, c: char)
    requires c !in s && c !in to
    ensures c !in ReplaceAll(s, from, to)
    decreases |s|
  {
    if from == [] || |s| < |from| {
    } else if from <= s {
      ReplaceAllKeepsAbsentChar(s[|from|..], from, to, c);
    } else {
      ReplaceAllKeepsAbsentChar(s[1..], from, to, c);
    }
  }

  /** A pattern whose first character does not occur is never replaced. */
  lemma ReplaceAllAbsentHead(s: string, from: string, to: string)
    requires from != [] && from[0] !in s
    ensures ReplaceAll(s, from, to) == s
  {
    ReplaceAllAbsent(s, from, to);
  }

  // ---------------------------------------------------------------------------------------
  // Decimal numerals

  predicate IsDigit(c: char) {
    '0' <= c <= '9'
  }

  function DigitChar(d: nat): (c: char)
    requires d < 10
    ensures IsDigit(c) && c as int - '0' as int == d
  {
    ('0' as int + d) as char
  }

  /** The decimal numeral Swift's string interpolation `"\(n)"` produces for `n >= 0`. */
  function NatToDecimal(n: nat): (r: string)
    ensures r != []
    ensures forall k :: 0 <= k < |r| ==> IsDigit(r[k])
    decreases n
  {
    if n < 10 then [DigitChar(n)] else NatToDecimal(n / 10) + [DigitChar(n % 10)]
  }

  /** The value of a numeral; `None` for an empty text or one with a non-digit. */
  function ParseDecimal(s: string): Option<nat>
    decreases |s|
  {
    if s == [] || !IsDigit(s[|s| - 1]) then None
    else if |s| == 1 then Some(s[0] as int - '0' as int)
    else match ParseDecimal(s[..|s| - 1])
      case None => None
      case Some(v) => Some(10 * v + (s[|s| - 1] as int - '0' as int))
  }

  /** Reading back a numeral gives the number: distinct numbers have distinct numerals. */
  lemma {:induction false} DecimalRoundTrip(n: nat)
    ensures ParseDecimal(NatToDecimal(n)) == Some(n)
    decreases n
  {
    if n >= 10 {
      DecimalRoundTrip(n / 10);
      var r := NatToDecimal(n);
      assert r[..|r| - 1] == NatToDecimal(n / 10);
    }
  }

  // ---------------------------------------------------------------------------------------
  // Ordering

  /** Lexicographic order on text, the model of Swift's `<` on `String`. */
  predicate Less(a: string, b: string)
    decreases |a|
  {
    if a == [] then b != []
    else if b == [] then false
    else if a[0] != b[0] then a[0] < b[0]
    else Less(a[1..], b[1..])
  }

  lemma {:induction false} LessIrreflexive(a: string)
    ensures !Less(a, a)
    decreases |a|
  {
    if a != [] {
      LessIrreflexive(a[1..]);
    }
  }

  lemma {:induction false} LessTransitive(a: string, b: string, c: string)
    requires Less(a, b) && Less(b, c)
    ensures Less(a, c)
    decreases |a|
  {
    if a != [] && b != [] && c != [] && a[0] == b[0] == c[0] {
      LessTransitive(a[1..], b[1..], c[1..]);
    }
  }

  lemma {:induction false} LessTotal(a: string, b: string)
    ensures a == b || Less(a, b) || Less(b, a)
    decreases |a|
  {
    if a != [] && b != [] && a[0] == b[0] {
      LessTotal(a[1..], b[1..]);
      if a[1..] == b[1..] {
        assert a == [a[0]] + a[1..] && b == [b[0]] + b[1..];
      }
    }
  }
}
