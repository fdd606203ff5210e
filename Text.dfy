/** The System.String operations the CPF check relies on: Trim, the removal
    done by Replace(x, "") for a one-character x, and an ordinal EndsWith. */
module Text {

  /** The characters Trim removes in this model: the ASCII white space set
      (space, tab, line feed, vertical tab, form feed, carriage return). */
  predicate IsWhiteSpace(c: char) {
    c == ' ' || c == '\t' || c == '\n' || c == '\U{B}' || c == '\U{C}' || c == '\r'
  }

  /** String.TrimStart(): drops the leading white space. */
  function TrimStart(s: string): (r: string)
    ensures |r| <= |s|
  {
    if s != [] && IsWhiteSpace(s[0]) then TrimStart(s[1..]) else s
  }

  /** String.TrimEnd(): drops the trailing white space. */
  function TrimEnd(s: string): (r: string)
    ensures |r| <= |s|
  {
    if s != [] && IsWhiteSpace(s[|s| - 1]) then TrimEnd(s[..|s| - 1]) else s
  }

  /** String.Trim(): drops white space at both ends. */
  function Trim(s: string): (r: string)
    ensures |r| <= |s|
  {
    TrimEnd(TrimStart(s))
  }

  /** What TrimStart keeps is a suffix of s that does not start with white
      space, and everything it dropped was white space. */
  lemma {:induction false} TrimStartKeepsSuffix(s: string)
    ensures var r := TrimStart(s);
      r == s[|s| - |r|..] &&
      (forall k :: 0 <= k < |s| - |r| ==> IsWhiteSpace(s[k])) &&
      (r == [] || !IsWhiteSpace(r[0]))
  {
    if s != [] && IsWhiteSpace(s[0]) {
      TrimStartKeepsSuffix(s[1..]);
    }
  }

  /** What TrimEnd keeps is a prefix of s that does not end with white
      space, and everything it dropped was white space. */
  lemma {:induction false} TrimEndKeepsPrefix(s: string)
    ensures var r := TrimEnd(s);
      r == s[..|r|] &&
      (forall k :: |r| <= k < |s| ==> IsWhiteSpace(s[k])) &&
      (r == [] || !IsWhiteSpace(r[|r| - 1]))
  {
    if s != [] && IsWhiteSpace(s[|s| - 1]) {
      TrimEndKeepsPrefix(s[..|s| - 1]);
    }
  }

  /** r appears in s starting at index i. */
  predicate OccursAt(r: string, s: string, i: int) {
    0 <= i <= |s| - |r| && s[i..i + |r|] == r
  }

  /** Trim keeps a slice of s with white space at neither end, cut out of a
      white-space prefix and a white-space suffix. */
  lemma TrimKeepsSlice(s: string)
    ensures exists i ::
              OccursAt(Trim(s), s, i) &&
              (forall k :: 0 <= k < i ==> IsWhiteSpace(s[k])) &&
              (forall k :: i + |Trim(s)| <= k < |s| ==> IsWhiteSpace(s[k]))
    ensures Trim(s) == [] || !IsWhiteSpace(Trim(s)[0])
    ensures Trim(s) == [] || !IsWhiteSpace(Trim(s)[|Trim(s)| - 1])
  {
    var t := TrimStart(s);
    var r := TrimEnd(t);
    TrimStartKeepsSuffix(s);
    TrimEndKeepsPrefix(t);
    var i := |s| - |t|;
    assert r == Trim(s);
    assert t == s[i..];
    assert s[i..i + |r|] == t[..|r|] == r;
    assert OccursAt(r, s, i);
    forall k | i + |r| <= k < |s| ensures IsWhiteSpace(s[k]) {
      assert s[k] == t[k - i];
    }
    assert OccursAt(r, s, i) &&
      (forall k :: 0 <= k < i ==> IsWhiteSpace(s[k])) &&
      (forall k :: i + |r| <= k < |s| ==> IsWhiteSpace(s[k]));
    if r != [] {
      assert r[0] == t[0];
    }
  }

  /** A string that has no white space at either end is its own trim. */
  lemma TrimNoOp(s: string)
    requires s == [] || (!IsWhiteSpace(s[0]) && !IsWhiteSpace(s[|s| - 1]))
    ensures Trim(s) == s
  {
  }

  /** s.Replace(c.ToString(), ""): every occurrence of c removed, every other
      character kept, in order. */
  function Remove(s: string, c: char): (r: string)
    ensures |r| <= |s|
    ensures forall k :: 0 <= k < |r| ==> r[k] != c
    ensures c !in s ==> r == s
  {
    if s == [] then []
    else
      var rest := Remove(s[1..], c);
      assert s == [s[0]] + s[1..];
      if s[0] == c then rest else [s[0]] + rest
  }

  /** Removal keeps every other character as many times as it occurs. */
  lemma {:induction false} RemoveCounts(s: string, c: char)
    ensures multiset(Remove(s, c)) == multiset(s)[c := 0]
  {
    if s != [] {
      RemoveCounts(s[1..], c);
      assert s == [s[0]] + s[1..];
    }
  }

  /** Removal adds no character that was not there. */
  lemma {:induction false} RemoveKeepsAbsence(s: string, c: char, d: char)
    requires d !in s
    ensures d !in Remove(s, c)
  {
    if s != [] {
      RemoveKeepsAbsence(s[1..], c, d);
    }
  }

  /** Removal works piece by piece, so it keeps the order of what it keeps. */
  lemma {:induction false} RemoveConcat(a: string, b: string, c: char)
    ensures Remove(a + b, c) == Remove(a, c) + Remove(b, c)
  {
    if a == [] {
      assert a + b == b;
    } else {
      assert (a + b)[1..] == a[1..] + b;
      RemoveConcat(a[1..], b, c);
    }
  }

  /** A removal that shortens nothing removed nothing. */
  lemma {:induction false} RemoveKeepsLength(s: string, c: char)
    requires |Remove(s, c)| == |s|
    ensures Remove(s, c) == s
  {
    if s != [] && s[0] != c {
      RemoveKeepsLength(s[1..], c);
    }
  }

  /** A trim that shortens nothing trimmed nothing. */
  lemma TrimKeepsLength(s: string)
    requires |Trim(s)| == |s|
    ensures Trim(s) == s
  {
    TrimStartKeepsSuffix(s);
    TrimEndKeepsPrefix(TrimStart(s));
  }

  /** Removal across one inserted character: the character goes when it is
      the one removed and stays in place otherwise. */
  lemma RemoveInsert(a: string, b: string, x: char, c: char)
    ensures Remove(a + [x] + b, c) == Remove(a, c) + (if x == c then [] else [x]) + Remove(b, c)
  {
    RemoveConcat(a + [x], b, c);
    RemoveConcat(a, [x], c);
    assert [x][1..] == [];
  }

  /** String.EndsWith(suffix) under ordinal comparison. */
  predicate EndsWith(s: string, suffix: string) {
    |suffix| <= |s| && s[|s| - |suffix|..] == suffix
  }
}
