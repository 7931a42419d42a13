/** The string operations of Go's standard library that the naming and identity code calls. */
module Text {

  // ---- strings.Trim, strings.TrimRight, strings.TrimSpace -------------------------------

  /** The first index from i on whose character is not in cut, or |s|. */
  function LeftEdge(s: string, cut: set<char>, i: nat): (k: nat)
    requires i <= |s|
    ensures i <= k <= |s|
    ensures k < |s| ==> s[k] !in cut
    ensures i < |s| && s[i] !in cut ==> k == i
    ensures forall j | i <= j < k :: s[j] in cut
    decreases |s| - i
  {
    if i == |s| || s[i] !in cut then i else LeftEdge(s, cut, i + 1)
  }

  /** One past the last index in [lo, hi) whose character is not in cut, or lo. */
  function RightEdge(s: string, cut: set<char>, lo: nat, hi: nat): (k: nat)
    requires lo <= hi <= |s|
    ensures lo <= k <= hi
    ensures lo < k ==> s[k - 1] !in cut
    ensures lo < hi && s[hi - 1] !in cut ==> k == hi
    ensures forall j | k <= j < hi :: s[j] in cut
    decreases hi
  {
    if lo == hi || s[hi - 1] !in cut then hi else RightEdge(s, cut, lo, hi - 1)
  }

  function TrimRight(s: string, cut: set<char>): string {
    s[..RightEdge(s, cut, 0, |s|)]
  }

  function Trim(s: string, cut: set<char>): (r: string)
    ensures |r| <= |s|
    ensures r != "" ==> r[0] !in cut && r[|r| - 1] !in cut
    ensures s != "" && s[0] !in cut && s[|s| - 1] !in cut ==> r == s
  {
    var lo := LeftEdge(s, cut, 0);
    s[lo..RightEdge(s, cut, lo, |s|)]
  }

  predicate Only(s: string, cut: set<char>) {
    forall c | c in s :: c in cut
  }

  /** What is trimmed off holds only characters of the cutset. */
  lemma TrimCuts(s: string, cut: set<char>) returns (a: string, b: string)
    ensures s == a + Trim(s, cut) + b && Only(a, cut) && Only(b, cut)
  {
    var lo := LeftEdge(s, cut, 0);
    var hi := RightEdge(s, cut, lo, |s|);
    a, b := s[..lo], s[hi..];
  }

  lemma TrimRightCuts(s: string, cut: set<char>) returns (b: string)
    ensures s == TrimRight(s, cut) + b && Only(b, cut)
  {
    b := s[RightEdge(s, cut, 0, |s|)..];
  }

  /** And nothing more is: a text with no such character at its ends is what is left of it in such padding. */
  lemma TrimPadded(a: string, t: string, b: string, cut: set<char>)
    requires Only(a, cut) && Only(b, cut)
    requires t != "" ==> t[0] !in cut && t[|t| - 1] !in cut
    ensures Trim(a + t + b, cut) == t
  {
    var s := a + t + b;
    var lo := LeftEdge(s, cut, 0);
    forall i | 0 <= i < |a| ensures s[i] in cut {
      assert a[i] in a && s[i] == a[i];
    }
    forall i | |a| + |t| <= i < |s| ensures s[i] in cut {
      assert b[i - |a| - |t|] in b && s[i] == b[i - |a| - |t|];
    }
    if t == "" {
      assert lo == |s|;
    } else {
      assert s[|a|] == t[0] && s[|a| + |t| - 1] == t[|t| - 1];
      assert lo == |a|;
      assert RightEdge(s, cut, lo, |s|) == |a| + |t|;
    }
  }

  const WHITE_SPACE: set<char> := {' ', '\t', '\n', '\r', 0x0B as char, 0x0C as char}

  function TrimSpace(s: string): (r: string)
    ensures r != "" ==> r[0] !in WHITE_SPACE && r[|r| - 1] !in WHITE_SPACE
    ensures |r| <= |s|
    ensures s != "" && s[0] !in WHITE_SPACE && s[|s| - 1] !in WHITE_SPACE ==> r == s
  {
    Trim(s, WHITE_SPACE)
  }

  // ---- strings.Cut and strings.TrimPrefix ------------------------------------------------

  predicate OccursAt(s: string, sub: string, i: nat) {
    i + |sub| <= |s| && s[i..i + |sub|] == sub
  }

  predicate Contains(s: string, sub: string) {
    exists i: nat | i <= |s| :: OccursAt(s, sub, i)
  }

  /** Index of the first occurrence of sub at or after from, or |s| + 1 when there is none. */
  function Index(s: string, sub: string, from: nat): (i: nat)
    requires from <= |s| + 1
    ensures from <= i <= |s| + 1
    ensures i <= |s| ==> OccursAt(s, sub, i)
    ensures forall j: nat | from <= j < i && j <= |s| :: !OccursAt(s, sub, j)
    decreases |s| + 1 - from
  {
    if from == |s| + 1 || OccursAt(s, sub, from) then from else Index(s, sub, from + 1)
  }

  /** The text around the first occurrence of sep, and whether sep occurs at all. */
  function Cut(s: string, sep: string): (r: (string, string, bool))
    ensures r.2 <==> Contains(s, sep)
    ensures r.2 ==> s == r.0 + sep + r.1
    ensures r.2 ==> forall j: nat | j < |r.0| :: !OccursAt(s, sep, j)
    ensures !r.2 ==> r.0 == s && r.1 == ""
  {
    var i := Index(s, sep, 0);
    if i <= |s| then
      assert s == s[..i] + s[i..i + |sep|] + s[i + |sep|..];
      (s[..i], s[i + |sep|..], true)
    else
      (s, "", false)
  }

  function TrimPrefix(s: string, prefix: string): (r: string)
    ensures prefix <= s ==> s == prefix + r
    ensures !(prefix <= s) ==> r == s
  {
    if prefix <= s then s[|prefix|..] else s
  }

  // ---- strings.Join ---------------------------------------------------------------------

  function Join(parts: seq<string>, sep: string): string {
    if parts == [] then "" else if |parts| == 1 then parts[0]
    else parts[0] + sep + Join(parts[1..], sep)
  }

  /** A one-character separator that no part contains makes the join injective. */
  lemma {:induction false} JoinInjective(xs: seq<string>, ys: seq<string>, sep: char)
    requires |xs| == |ys|
    requires forall i | 0 <= i < |xs| :: sep !in xs[i] && sep !in ys[i]
    requires Join(xs, [sep]) == Join(ys, [sep])
    ensures xs == ys
  {
    if |xs| <= 1 {
      assert xs == ys;
    } else {
      var jx, jy := Join(xs[1..], [sep]), Join(ys[1..], [sep]);
      SplitAtFirst(xs[0], jx, ys[0], jy, sep);
      JoinInjective(xs[1..], ys[1..], sep);
      assert xs == [xs[0]] + xs[1..] && ys == [ys[0]] + ys[1..];
    }
  }

  /** Two texts that agree, read up to their first separator, agree on both sides of it. */
  lemma SplitAtFirst(a: string, x: string, b: string, y: string, sep: char)
    requires sep !in a && sep !in b
    requires a + [sep] + x == b + [sep] + y
    ensures a == b && x == y
  {
    var s, t := a + [sep] + x, b + [sep] + y;
    assert s[|a|] == sep && t[|b|] == sep;
    assert forall i | 0 <= i < |a| :: s[i] == a[i];
    assert forall i | 0 <= i < |b| :: t[i] == b[i];
    assert |a| == |b|;
    assert a == s[..|a|] && b == t[..|b|];
    assert x == s[|a| + 1..] && y == t[|b| + 1..];
  }
}
