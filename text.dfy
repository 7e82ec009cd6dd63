/**
 * The string operations the catalog search uses (`toLowerCase`, `trim`, `includes`),
 * restricted to ASCII: characters outside it are left as they are by `Lower` and are
 * never whitespace.
 */
module Text {

  /** `toLowerCase` on one character: only 'A'..'Z' change. */
  function LowerChar(c: char): char
  {
    if 'A' <= c <= 'Z' then (c as int + 32) as char else c
  }

  /** `s.toLowerCase()`: each character lower-cased on its own. */
  function Lower(s: string): string
  {
    seq(|s|, k requires 0 <= k < |s| => LowerChar(s[k]))
  }

  /** Lower-casing twice is lower-casing once. */
  lemma LowerIdempotent(s: string)
    ensures Lower(Lower(s)) == Lower(s)
  {
  }

  /** The ASCII characters JavaScript's `trim` removes: tab, line feed, vertical tab, form feed, carriage return, space. */
  predicate IsWhitespace(c: char)
  {
    c == ' ' || c == '\t' || c == '\n' || c == '\r' || c == '\U{B}' || c == '\U{C}'
  }

  /** Lower-casing neither creates nor removes whitespace. */
  lemma LowerCharWhitespace(c: char)
    ensures IsWhitespace(LowerChar(c)) == IsWhitespace(c)
  {
  }

  lemma SameLowerSameWhitespace(a: char, b: char)
    requires LowerChar(a) == LowerChar(b)
    ensures IsWhitespace(a) == IsWhitespace(b)
  {
    LowerCharWhitespace(a);
    LowerCharWhitespace(b);
  }

  /** Drops leading whitespace. */
  function TrimStart(s: string): (r: string)
    ensures |r| <= |s| && r == s[|s| - |r|..]
    ensures forall k :: 0 <= k < |s| - |r| ==> IsWhitespace(s[k])
    ensures r == [] || !IsWhitespace(r[0])
  {
    if s != [] && IsWhitespace(s[0]) then TrimStart(s[1..]) else s
  }

  /** Drops trailing whitespace. */
  function TrimEnd(s: string): (r: string)
    ensures |r| <= |s| && r == s[..|r|]
    ensures forall k :: |r| <= k < |s| ==> IsWhitespace(s[k])
    ensures r == [] || !IsWhitespace(r[|r| - 1])
  {
    if s != [] && IsWhitespace(s[|s| - 1]) then TrimEnd(s[..|s| - 1]) else s
  }

  /** `s.trim()` */
  function Trim(s: string): string
  {
    TrimEnd(TrimStart(s))
  }

  /** `!s.trim()`: the trimmed string is empty. */
  predicate IsBlank(s: string)
  {
    Trim(s) == ""
  }

  /** A string is blank exactly when every character of it is whitespace. */
  lemma BlankIffAllWhitespace(s: string)
    ensures IsBlank(s) <==> forall k :: 0 <= k < |s| ==> IsWhitespace(s[k])
  {
    var t := TrimStart(s);
    if IsBlank(s) {
      assert |TrimEnd(t)| == 0;
      assert t == [];
    } else {
      assert TrimEnd(t) != [];
      var c := TrimEnd(t)[0];
      assert c == t[0] == s[|s| - |t|];
      assert !IsWhitespace(s[|s| - |t|]);
    }
  }

  /** Two strings equal up to letter case are blank together. */
  lemma BlankIgnoresCase(a: string, b: string)
    requires Lower(a) == Lower(b)
    ensures IsBlank(a) == IsBlank(b)
  {
    BlankIffAllWhitespace(a);
    BlankIffAllWhitespace(b);
    assert |a| == |Lower(a)| == |b|;
    forall k | 0 <= k < |a| ensures IsWhitespace(a[k]) == IsWhitespace(b[k]) {
      assert Lower(a)[k] == Lower(b)[k];
      SameLowerSameWhitespace(a[k], b[k]);
    }
  }

  /** `t` occurs in `s` starting at position `i`. */
  predicate OccursAt(s: string, t: string, i: int)
  {
    0 <= i <= |s| - |t| && s[i..i + |t|] == t
  }

  /** `t` occurs in `s` at some position. */
  ghost predicate IsSubstring(s: string, t: string)
  {
    exists i :: OccursAt(s, t, i)
  }

  /** `s.includes(t)`: try every starting position from the left. */
  function Includes(s: string, t: string): bool
    decreases |s|
  {
    if |t| > |s| then false
    else if s[..|t|] == t then true
    else Includes(s[1..], t)
  }

  /** The scan finds `t` exactly when it occurs somewhere in `s`. */
  lemma {:induction false} IncludesIff(s: string, t: string)
    ensures Includes(s, t) <==> IsSubstring(s, t)
    decreases |s|
  {
    if |t| > |s| {
    } else if s[..|t|] == t {
      assert OccursAt(s, t, 0);
    } else {
      IncludesIff(s[1..], t);
      if IsSubstring(s, t) {
        var i :| OccursAt(s, t, i);
        assert i != 0;
        assert s[1..][i - 1..i - 1 + |t|] == t;
        assert OccursAt(s[1..], t, i - 1);
      }
      if IsSubstring(s[1..], t) {
        var i :| OccursAt(s[1..], t, i);
        assert s[i + 1..i + 1 + |t|] == t;
        assert OccursAt(s, t, i + 1);
      }
    }
  }

  lemma OccursAtIndex(s: string, t: string, i: int, j: nat)
    requires OccursAt(s, t, i) && j < |t|
    ensures 0 <= i + j < |s| && s[i + j] == t[j]
  {
    assert s[i..i + |t|][j] == t[j];
  }

  /** Where the lower-cased `t` occurs in the lower-cased `s`, each character of `t` matches one of `s` up to case. */
  lemma OccurrenceMatchesUpToCase(s: string, t: string, i: int, j: nat)
    requires OccursAt(Lower(s), Lower(t), i)
    requires j < |t|
    ensures 0 <= i + j < |s|
    ensures LowerChar(s[i + j]) == LowerChar(t[j])
  {
    OccursAtIndex(Lower(s), Lower(t), i, j);
  }

  /** A whitespace character of `t` must reappear in any string containing `t`, case aside. */
  lemma WhitespaceMustOccur(s: string, t: string, j: nat)
    requires j < |t| && IsWhitespace(t[j])
    requires forall m :: 0 <= m < |s| ==> !IsWhitespace(s[m])
    ensures !IsSubstring(Lower(s), Lower(t))
  {
    if IsSubstring(Lower(s), Lower(t)) {
      var i :| OccursAt(Lower(s), Lower(t), i);
      OccurrenceMatchesUpToCase(s, t, i, j);
      SameLowerSameWhitespace(s[i + j], t[j]);
    }
  }
}
