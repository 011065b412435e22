/** The two JavaScript string operations the components rely on: `trim` and `includes`. */
module Text {

  /** The code points ECMAScript counts as WhiteSpace or LineTerminator, i.e. what `String.prototype.trim` strips. */
  predicate IsJsWhitespace(c: char) {
    || c == '\t' || c == '\n' || c == '\U{000B}' || c == '\U{000C}' || c == '\r' || c == ' '
    || c == '\U{00A0}' || c == '\U{1680}' || ('\U{2000}' <= c <= '\U{200A}')
    || c == '\U{2028}' || c == '\U{2029}' || c == '\U{202F}' || c == '\U{205F}'
    || c == '\U{3000}' || c == '\U{FEFF}'
  }

  predicate AllWhitespace(s: string) {
    forall i | 0 <= i < |s| :: IsJsWhitespace(s[i])
  }

  /** Neither end of the string is whitespace (vacuously true of ""). */
  predicate Trimmed(s: string) {
    s == [] || (!IsJsWhitespace(s[0]) && !IsJsWhitespace(s[|s| - 1]))
  }

  /** Drops the leading whitespace: the result is the suffix of `s` that starts at its first non-whitespace character. */
  function TrimStart(s: string): (r: string)
    ensures |r| <= |s| && r == s[|s| - |r|..]
    ensures r == [] || !IsJsWhitespace(r[0])
  {
    if s != [] && IsJsWhitespace(s[0]) then TrimStart(s[1..]) else s
  }

  /** Drops the trailing whitespace: the result is the prefix of `s` that ends at its last non-whitespace character. */
  function TrimEnd(s: string): (r: string)
    ensures |r| <= |s| && r == s[..|r|]
    ensures r == [] || !IsJsWhitespace(r[|r| - 1])
  {
    if s != [] && IsJsWhitespace(s[|s| - 1]) then TrimEnd(s[..|s| - 1]) else s
  }

  /** Everything `TrimStart` drops is whitespace. */
  lemma {:induction false} TrimStartDropsWhitespace(s: string)
    ensures AllWhitespace(s[..|s| - |TrimStart(s)|])
  {
    if s != [] && IsJsWhitespace(s[0]) {
      var tail := s[1..];
      TrimStartDropsWhitespace(tail);
      var k := |tail| - |TrimStart(tail)|;
      forall m | 0 <= m <= k
        ensures IsJsWhitespace(s[m])
      {
        if m > 0 {
          assert s[m] == tail[..k][m - 1];
        }
      }
    }
  }

  /** Everything `TrimEnd` drops is whitespace. */
  lemma {:induction false} TrimEndDropsWhitespace(s: string)
    ensures AllWhitespace(s[|TrimEnd(s)|..])
  {
    if s != [] && IsJsWhitespace(s[|s| - 1]) {
      var init := s[..|s| - 1];
      TrimEndDropsWhitespace(init);
      var k := |TrimEnd(init)|;
      forall m | k <= m < |s|
        ensures IsJsWhitespace(s[m])
      {
        if m < |s| - 1 {
          assert s[m] == init[k..][m - k];
        }
      }
    }
  }

  /** `s.trim()`: `s` with the whitespace at both ends removed. */
  function Trim(s: string): (r: string)
    ensures Trimmed(r)
  {
    TrimEnd(TrimStart(s))
  }

  /** Where `s.trim()` starts inside `s`. */
  function TrimOffset(s: string): nat {
    |s| - |TrimStart(s)|
  }

  lemma TrimIsSlice(s: string)
    ensures TrimOffset(s) + |Trim(s)| <= |s|
    ensures s[TrimOffset(s)..TrimOffset(s) + |Trim(s)|] == Trim(s)
  {
    var t := TrimStart(s);
    assert t == s[TrimOffset(s)..];
  }

  lemma LeadingMarginBlank(s: string)
    ensures AllWhitespace(s[..TrimOffset(s)])
  {
    TrimStartDropsWhitespace(s);
  }

  lemma TrailingMarginBlank(s: string)
    ensures TrimOffset(s) + |Trim(s)| <= |s|
    ensures AllWhitespace(s[TrimOffset(s) + |Trim(s)|..])
  {
    var t := TrimStart(s);
    TrimEndDropsWhitespace(t);
    assert s[TrimOffset(s) + |Trim(s)|..] == t[|Trim(s)|..];
  }

  /** What `trim` removes is whitespace, from the two ends only: `s.trim()` is the slice
      `s[i..i + |s.trim()|]`, and everything before and after it is whitespace. */
  lemma TrimMargins(s: string) returns (i: nat)
    ensures i + |Trim(s)| <= |s|
    ensures s[i..i + |Trim(s)|] == Trim(s)
    ensures AllWhitespace(s[..i]) && AllWhitespace(s[i + |Trim(s)|..])
  {
    i := TrimOffset(s);
    TrimIsSlice(s);
    LeadingMarginBlank(s);
    TrailingMarginBlank(s);
  }

  /** Dropping whitespace margins from a trimmed core gives the core back. */
  lemma {:induction false} TrimStartMargin(p: string, rest: string)
    requires AllWhitespace(p)
    requires rest == [] || !IsJsWhitespace(rest[0])
    ensures TrimStart(p + rest) == rest
  {
    if p != [] {
      assert (p + rest)[1..] == p[1..] + rest;
      TrimStartMargin(p[1..], rest);
    }
  }

  lemma {:induction false} TrimEndMargin(core: string, q: string)
    requires AllWhitespace(q)
    requires core == [] || !IsJsWhitespace(core[|core| - 1])
    ensures TrimEnd(core + q) == core
  {
    if q != [] {
      var q' := q[..|q| - 1];
      assert (core + q)[..|core + q| - 1] == core + q';
      TrimEndMargin(core, q');
    }
  }

  /** `trim` is determined by its result: for any split of `s` into a whitespace prefix, a trimmed
      core and a whitespace suffix, `trim` returns that core. */
  lemma {:induction false} TrimUnique(p: string, core: string, q: string)
    requires AllWhitespace(p) && AllWhitespace(q) && Trimmed(core)
    ensures Trim(p + core + q) == core
  {
    if core == [] {
      assert p + core + q == p + q;
      TrimStartMargin(p + q, []);
      assert p + q + [] == p + q;
      assert TrimStart(p + q) == [];
      TrimEndMargin([], []);
    } else {
      assert p + core + q == p + (core + q);
      TrimStartMargin(p, core + q);
      TrimEndMargin(core, q);
    }
  }

  /** `s.trim() === ""` exactly when `s` holds nothing but whitespace. */
  lemma TrimEmptyIffBlank(s: string)
    ensures Trim(s) == "" <==> AllWhitespace(s)
  {
    if AllWhitespace(s) {
      TrimUnique(s, [], []);
      assert s + [] + [] == s;
    }
    if Trim(s) == "" {
      var i := TrimMargins(s);
      forall k | 0 <= k < |s|
        ensures IsJsWhitespace(s[k])
      {
        if k < i {
          assert s[k] == s[..i][k];
        } else {
          assert s[k] == s[i..][k - i];
        }
      }
    }
  }

  /** Trimming twice is trimming once. */
  lemma TrimIdempotent(s: string)
    ensures Trim(Trim(s)) == Trim(s)
  {
    var r := Trim(s);
    TrimUnique([], r, []);
    assert [] + r + [] == r;
  }

  predicate OccursAt(s: string, sub: string, i: int) {
    0 <= i && i + |sub| <= |s| && s[i..i + |sub|] == sub
  }

  /** `s.includes(sub)`: `sub` occurs in `s` at some position (case-sensitive). */
  predicate Includes(s: string, sub: string) {
    exists i | 0 <= i <= |s| - |sub| :: OccursAt(s, sub, i)
  }

  /** A string cannot contain a word one of whose characters it lacks. */
  lemma MissingCharNotIncluded(s: string, sub: string, c: char)
    requires c in sub && c !in s
    ensures !Includes(s, sub)
  {
  }
}
