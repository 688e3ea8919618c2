/** The Foundation string operations the app relies on, restricted to ASCII:
    decimal digits are '0'..'9', `.whitespaces` is space and tab, and
    `lowercased()` maps only 'A'..'Z'. */
module Text {

  // ---------------------------------------------------------------------------
  // Digits: `s.components(separatedBy: CharacterSet.decimalDigits.inverted).joined()`
  // ---------------------------------------------------------------------------

  predicate IsDigit(c: char) {
    '0' <= c <= '9'
  }

  predicate AllDigits(s: string) {
    forall i :: 0 <= i < |s| ==> IsDigit(s[i])
  }

  /** Splitting on every non-digit and joining the pieces keeps exactly the
      digit characters, in order. */
  function Digits(s: string): (r: string)
    ensures |r| <= |s|
    ensures AllDigits(r)
    ensures AllDigits(s) ==> r == s
  {
    if s == [] then []
    else
      assert s == [s[0]] + s[1..];
      assert AllDigits(s) ==> AllDigits(s[1..]);
      (if IsDigit(s[0]) then [s[0]] else []) + Digits(s[1..])
  }

  /** A character survives the cleaning exactly when it is a digit of the
      input: every non-digit contributes nothing. */
  lemma {:induction false} DigitsMembers(s: string, c: char)
    ensures c in Digits(s) <==> c in s && IsDigit(c)
  {
    if s != [] {
      DigitsMembers(s[1..], c);
      assert s == [s[0]] + s[1..];
    }
  }

  lemma {:induction false} DigitsAppend(a: string, b: string)
    ensures Digits(a + b) == Digits(a) + Digits(b)
  {
    if a == [] {
      assert a + b == b;
    } else {
      assert (a + b)[0] == a[0];
      assert (a + b)[1..] == a[1..] + b;
      DigitsAppend(a[1..], b);
    }
  }

  lemma DigitsIdempotent(s: string)
    ensures Digits(Digits(s)) == Digits(s)
  {
  }

  // ---------------------------------------------------------------------------
  // Prefix, suffix, substring
  // ---------------------------------------------------------------------------

  predicate HasPrefix(s: string, pre: string) {
    |pre| <= |s| && s[..|pre|] == pre
  }

  predicate HasSuffix(s: string, suf: string) {
    |suf| <= |s| && s[|s| - |suf|..] == suf
  }

  /** `sub` occurs in `s` starting at index `i`. */
  predicate OccursAt(s: string, sub: string, i: int) {
    0 <= i && i + |sub| <= |s| && s[i..i + |sub|] == sub
  }

  /** `String.contains(_:)` for a string argument: a left-to-right search. */
  function Contains(s: string, sub: string): bool
    decreases |s|
  {
    if HasPrefix(s, sub) then true
    else if s == [] then false
    else Contains(s[1..], sub)
  }

  lemma {:induction false} ContainsIffOccurs(s: string, sub: string)
    ensures Contains(s, sub) <==> exists i :: OccursAt(s, sub, i)
    decreases |s|
  {
    if HasPrefix(s, sub) {
      assert OccursAt(s, sub, 0);
    } else if s == [] {
      assert |sub| > 0;
    } else {
      ContainsIffOccurs(s[1..], sub);
      if Contains(s[1..], sub) {
        var i :| OccursAt(s[1..], sub, i);
        assert s[1..][i..i + |sub|] == s[i + 1..i + 1 + |sub|];
        assert OccursAt(s, sub, i + 1);
      }
      if i :| OccursAt(s, sub, i) {
        assert i != 0;
        assert s[1..][i - 1..i - 1 + |sub|] == s[i..i + |sub|];
        assert OccursAt(s[1..], sub, i - 1);
      }
    }
  }

  /** A non-empty `sub` can only occur in `s` if its first character does. */
  lemma ContainsNeedsFirstChar(s: string, sub: string)
    requires sub != [] && sub[0] !in s
    ensures !Contains(s, sub)
  {
    ContainsIffOccurs(s, sub);
    forall i ensures !OccursAt(s, sub, i) {
      if 0 <= i && i + |sub| <= |s| {
        assert s[i..i + |sub|][0] == s[i] != sub[0];
      }
    }
  }

  // ---------------------------------------------------------------------------
  // Whitespace trimming: `trimmingCharacters(in: .whitespaces)`
  // ---------------------------------------------------------------------------

  predicate IsWhitespace(c: char) {
    c == ' ' || c == '\t'
  }

  predicate IsBlank(s: string) {
    forall i :: 0 <= i < |s| ==> IsWhitespace(s[i])
  }

  function TrimStart(s: string): string {
    if s != [] && IsWhitespace(s[0]) then TrimStart(s[1..]) else s
  }

  function TrimEnd(s: string): string {
    if s != [] && IsWhitespace(s[|s| - 1]) then TrimEnd(s[..|s| - 1]) else s
  }

  function Trim(s: string): string {
    TrimEnd(TrimStart(s))
  }

  lemma {:induction false} TrimStartShape(s: string)
    ensures TrimStart(s) == [] <==> IsBlank(s)
    ensures TrimStart(s) != [] ==> !IsWhitespace(TrimStart(s)[0])
  {
    if s != [] && IsWhitespace(s[0]) {
      TrimStartShape(s[1..]);
      if IsBlank(s[1..]) {
        forall i | 0 <= i < |s| ensures IsWhitespace(s[i]) {
          if i > 0 { assert s[i] == s[1..][i - 1]; }
        }
      }
      if IsBlank(s) {
        forall i | 0 <= i < |s[1..]| ensures IsWhitespace(s[1..][i]) {
          assert s[1..][i] == s[i + 1];
        }
      }
    } else if s != [] {
      assert !IsWhitespace(s[0]);
    }
  }

  lemma {:induction false} TrimEndEmpty(s: string)
    ensures TrimEnd(s) == [] <==> IsBlank(s)
  {
    if s != [] && IsWhitespace(s[|s| - 1]) {
      var t := s[..|s| - 1];
      TrimEndEmpty(t);
      if IsBlank(t) {
        forall i | 0 <= i < |s| ensures IsWhitespace(s[i]) {
          if i < |s| - 1 { assert s[i] == t[i]; }
        }
      }
      if IsBlank(s) {
        forall i | 0 <= i < |t| ensures IsWhitespace(t[i]) {
          assert t[i] == s[i];
        }
      }
    } else if s != [] {
      assert !IsWhitespace(s[|s| - 1]);
    }
  }

  /** The string left after trimming is empty exactly when the input is all
      spaces and tabs. */
  lemma TrimEmptyIffBlank(s: string)
    ensures Trim(s) == [] <==> IsBlank(s)
  {
    TrimStartShape(s);
    var t := TrimStart(s);
    TrimEndEmpty(t);
    if t != [] {
      assert !IsWhitespace(t[0]);
      assert !IsBlank(t);
    }
  }

  // ---------------------------------------------------------------------------
  // Lowercasing: `lowercased()`
  // ---------------------------------------------------------------------------

  function LowerChar(c: char): char {
    if 'A' <= c <= 'Z' then (c as int + 32) as char else c
  }

  function Lower(s: string): (r: string)
    ensures |r| == |s|
    ensures forall i :: 0 <= i < |s| ==> r[i] == LowerChar(s[i])
  {
    seq(|s|, i requires 0 <= i < |s| => LowerChar(s[i]))
  }

  predicate IsLowercase(s: string) {
    forall i :: 0 <= i < |s| ==> LowerChar(s[i]) == s[i]
  }

  // ---------------------------------------------------------------------------
  // Replacement: `replacingOccurrences(of:with:)`
  // ---------------------------------------------------------------------------

  /** Replaces the non-overlapping occurrences of `pat`, scanning left to right.
      An empty pattern leaves the string unchanged. */
  function ReplaceAll(s: string, pat: string, rep: string): string
    decreases |s|
  {
    if pat == [] || |s| < |pat| then s
    else if s[..|pat|] == pat then rep + ReplaceAll(s[|pat|..], pat, rep)
    else [s[0]] + ReplaceAll(s[1..], pat, rep)
  }

  /** Replacing a pattern whose first character never occurs changes nothing. */
  lemma {:induction false} ReplaceAllAbsent(s: string, pat: string, rep: string)
    requires pat != [] && pat[0] !in s
    ensures ReplaceAll(s, pat, rep) == s
    decreases |s|
  {
    if |s| >= |pat| {
      assert s[..|pat|][0] == s[0] != pat[0];
      ReplaceAllAbsent(s[1..], pat, rep);
      assert s == [s[0]] + s[1..];
    }
  }

  /** A character absent from both the input and the replacement is absent
      from the result. */
  lemma {:induction false} ReplaceAllExcludes(s: string, pat: string, rep: string, c: char)
    requires c !in s && c !in rep
    ensures c !in ReplaceAll(s, pat, rep)
    decreases |s|
  {
    if pat == [] || |s| < |pat| {
    } else if s[..|pat|] == pat {
      assert forall x :: x in s[|pat|..] ==> x in s;
      ReplaceAllExcludes(s[|pat|..], pat, rep, c);
    } else {
      assert forall x :: x in s[1..] ==> x in s;
      ReplaceAllExcludes(s[1..], pat, rep, c);
    }
  }

  /** Character-for-character substitution. */
  function SubstituteChar(s: string, c: char, d: char): (r: string)
    ensures |r| == |s|
  {
    seq(|s|, i requires 0 <= i < |s| => if s[i] == c then d else s[i])
  }

  /** Replacing a one-character pattern by a one-character replacement is
      character-for-character substitution. */
  lemma {:induction false} ReplaceAllSingle(s: string, c: char, d: char)
    ensures ReplaceAll(s, [c], [d]) == SubstituteChar(s, c, d)
    decreases |s|
  {
    if s != [] {
      ReplaceAllSingle(s[1..], c, d);
      var r := ReplaceAll(s, [c], [d]);
      var t := SubstituteChar(s, c, d);
      assert s[..1] == [s[0]];
      assert s[1..] == s[|[c]|..];
      assert r == (if s[0] == c then [d] else [s[0]]) + SubstituteChar(s[1..], c, d);
      assert |r| == |t|;
      forall i | 0 <= i < |t| ensures r[i] == t[i] {
        if i > 0 { assert r[i] == SubstituteChar(s[1..], c, d)[i - 1]; }
      }
    }
  }

  // ---------------------------------------------------------------------------
  // Splitting: `components(separatedBy:)` with a one-character separator
  // ---------------------------------------------------------------------------

  /** Always at least one component; no component contains the separator. */
  function Split(s: string, sep: char): (parts: seq<string>)
    ensures |parts| >= 1
    ensures forall k :: 0 <= k < |parts| ==> sep !in parts[k]
  {
    if s == [] then [[]]
    else
      var rest := Split(s[1..], sep);
      if s[0] == sep then [[]] + rest
      else [[s[0]] + rest[0]] + rest[1..]
  }

  /** `joined(separator:)`. */
  function Join(parts: seq<string>, sep: char): string
  {
    if parts == [] then []
    else if |parts| == 1 then parts[0]
    else parts[0] + [sep] + Join(parts[1..], sep)
  }

  /** Joining the components with the separator gives back the input. */
  lemma {:induction false} JoinSplit(s: string, sep: char)
    ensures Join(Split(s, sep), sep) == s
  {
    if s != [] {
      var rest := Split(s[1..], sep);
      JoinSplit(s[1..], sep);
      if s[0] == sep {
        assert Split(s, sep) == [[]] + rest;
        assert ([[]] + rest)[1..] == rest;
        assert s == [sep] + s[1..];
      } else {
        var parts := Split(s, sep);
        assert parts == [[s[0]] + rest[0]] + rest[1..];
        if |rest| == 1 {
          assert s == [s[0]] + rest[0];
        } else {
          assert parts[1..] == rest[1..];
          assert Join(rest, sep) == rest[0] + [sep] + Join(rest[1..], sep);
          assert s == [s[0]] + s[1..];
        }
      }
    }
  }

  /** The part of `s` before the first `sep` (all of `s` when there is none). */
  function TakeUntil(s: string, sep: char): (r: string)
    ensures HasPrefix(s, r) && sep !in r
    ensures |r| < |s| ==> s[|r|] == sep
  {
    if s == [] || s[0] == sep then []
    else [s[0]] + TakeUntil(s[1..], sep)
  }

  /** The first component is the part of `s` before the first separator. */
  lemma {:induction false} SplitHead(s: string, sep: char)
    ensures Split(s, sep)[0] == TakeUntil(s, sep)
  {
    if s != [] && s[0] != sep {
      SplitHead(s[1..], sep);
    }
  }

  /** Without a separator there is exactly one component: the whole string. */
  lemma {:induction false} SplitWithoutSeparator(s: string, sep: char)
    requires sep !in s
    ensures Split(s, sep) == [s]
  {
    if s != [] {
      assert forall x :: x in s[1..] ==> x in s;
      SplitWithoutSeparator(s[1..], sep);
      assert s == [s[0]] + s[1..];
    }
  }
}
