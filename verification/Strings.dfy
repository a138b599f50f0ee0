/** Python's `str.strip`, for four characters of white space. */
module Strings {

  predicate IsSpace(c: char) {
    c == ' ' || c == '\t' || c == '\n' || c == '\r'
  }

  function LStrip(s: string): (r: string)
    ensures |r| <= |s|
  {
    if s != "" && IsSpace(s[0]) then LStrip(s[1..]) else s
  }

  function RStrip(s: string): (r: string)
    ensures |r| <= |s|
  {
    if s != "" && IsSpace(s[|s| - 1]) then RStrip(s[..|s| - 1]) else s
  }

  function Strip(s: string): (r: string)
    ensures |r| <= |s|
  {
    RStrip(LStrip(s))
  }

  lemma {:induction false} StripEdges(t: string)
    requires t != "" && !IsSpace(t[0]) && !IsSpace(t[|t| - 1])
    ensures Strip(t) == t && Strip(" " + t) == t && Strip(t + " ") == t && Strip(" " + t + " ") == t
  {
    assert (" " + t)[1..] == t && (" " + t + " ")[1..] == t + " ";
    assert (t + " ")[..|t|] == t;
    assert LStrip(" " + t + " ") == LStrip(t + " ") == t + " ";
    assert LStrip(" " + t) == LStrip(t) == t;
    assert RStrip(t + " ") == RStrip(t) == t;
  }

  predicate Spaces(s: string) {
    forall i | 0 <= i < |s| :: IsSpace(s[i])
  }

  /** No white space at either end. */
  predicate Bare(s: string) {
    s != "" ==> !IsSpace(s[0]) && !IsSpace(s[|s| - 1])
  }

  lemma {:induction false} LStripDrops(s: string) returns (p: string)
    ensures s == p + LStrip(s) && Spaces(p) && (LStrip(s) != "" ==> !IsSpace(LStrip(s)[0]))
    decreases s
  {
    p := "";
    if s != "" && IsSpace(s[0]) {
      p := LStripDrops(s[1..]);
      p := [s[0]] + p;
    }
  }

  lemma {:induction false} RStripDrops(s: string) returns (q: string)
    ensures s == RStrip(s) + q && Spaces(q) && (RStrip(s) != "" ==> !IsSpace(RStrip(s)[|RStrip(s)| - 1]))
    decreases s
  {
    q := "";
    if s != "" && IsSpace(s[|s| - 1]) {
      q := RStripDrops(s[..|s| - 1]);
      assert s == s[..|s| - 1] + [s[|s| - 1]];
      q := q + [s[|s| - 1]];
    }
  }

  /** What `strip` drops is white space, and it leaves none at the ends. */
  lemma StripDrops(s: string) returns (p: string, q: string)
    ensures s == p + Strip(s) + q && Spaces(p) && Spaces(q) && Bare(Strip(s))
  {
    p := LStripDrops(s);
    q := RStripDrops(LStrip(s));
    if Strip(s) != "" { assert LStrip(s)[0] == Strip(s)[0]; }
  }

  lemma {:induction false} LStripSpaces(p: string, s: string)
    requires Spaces(p) && (s != "" ==> !IsSpace(s[0]))
    ensures LStrip(p + s) == s
    decreases p
  {
    if p == "" {
      assert p + s == s;
    } else {
      assert (p + s)[1..] == p[1..] + s;
      LStripSpaces(p[1..], s);
    }
  }

  lemma {:induction false} RStripSpaces(s: string, q: string)
    requires Spaces(q) && (s != "" ==> !IsSpace(s[|s| - 1]))
    ensures RStrip(s + q) == s
    decreases q
  {
    if q == "" {
      assert s + q == s;
    } else {
      assert (s + q)[..|s + q| - 1] == s + q[..|q| - 1];
      RStripSpaces(s, q[..|q| - 1]);
    }
  }

  lemma StripOnly(p: string, s: string, q: string)
    requires Spaces(p) && Spaces(q) && Bare(s)
    ensures Strip(p + s + q) == s
  {
    if s == "" {
      assert p + s + q == (p + q) + "";
      LStripSpaces(p + q, "");
    } else {
      assert p + s + q == p + (s + q);
      LStripSpaces(p, s + q);
      RStripSpaces(s, q);
    }
  }
}
