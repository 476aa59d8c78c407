// Splitting, joining and trimming of text, shared by the `--init` argument
// (modules joined by commas) and by the configuration file (lines and entries).
module Text {

  const COMMA := ','

  predicate Contains(s: string, c: char) {
    exists i :: 0 <= i < |s| && s[i] == c
  }

  /** The first position of `c` in `s`. */
  function IndexOf(s: string, c: char): (i: nat)
    requires Contains(s, c)
    ensures i < |s| && s[i] == c
    ensures forall j :: 0 <= j < i ==> s[j] != c
  {
    if s[0] == c then 0 else
      assert Contains(s[1..], c) by {
        var k :| 0 <= k < |s| && s[k] == c;
        assert s[1..][k - 1] == c;
      }
      1 + IndexOf(s[1..], c)
  }

  /** The pieces of `s` between the occurrences of `c`; there is always at least one. */
  function SplitOn(s: string, c: char): (parts: seq<string>)
    ensures |parts| >= 1
  {
    if Contains(s, c) then
      var i := IndexOf(s, c);
      [s[..i]] + SplitOn(s[i + 1..], c)
    else
      [s]
  }

  function JoinOn(parts: seq<string>, c: char): string
    requires |parts| >= 1
  {
    if |parts| == 1 then parts[0] else parts[0] + [c] + JoinOn(parts[1..], c)
  }

  /** The pieces of every part, in order. */
  function AllPieces(parts: seq<string>, c: char): seq<string> {
    if parts == [] then [] else SplitOn(parts[0], c) + AllPieces(parts[1..], c)
  }

  lemma FirstAfter(a: string, b: string, c: char)
    requires !Contains(a, c)
    ensures Contains(a + [c] + b, c) && IndexOf(a + [c] + b, c) == |a|
  {
    var s := a + [c] + b;
    assert s[|a|] == c;
    assert forall j :: 0 <= j < |a| ==> s[j] == a[j] && a[j] != c;
  }

  /** A separator splits a text into the pieces on its left and the pieces on its right. */
  lemma {:induction false} SplitAt(a: string, b: string, c: char)
    ensures SplitOn(a + [c] + b, c) == SplitOn(a, c) + SplitOn(b, c)
    decreases |a|
  {
    var s := a + [c] + b;
    assert s[|a|] == c;
    if Contains(a, c) {
      var i := IndexOf(a, c);
      assert s[i] == c;
      assert IndexOf(s, c) == i;
      assert s[..i] == a[..i];
      assert s[i + 1..] == a[i + 1..] + [c] + b;
      SplitAt(a[i + 1..], b, c);
    } else {
      FirstAfter(a, b, c);
      assert s[..|a|] == a;
      assert s[|a| + 1..] == b;
    }
  }

  /** Splitting a joined text gives the pieces of the parts, whatever the parts contain. */
  lemma {:induction false} SplitOfJoin(parts: seq<string>, c: char)
    requires |parts| >= 1
    ensures SplitOn(JoinOn(parts, c), c) == AllPieces(parts, c)
  {
    if |parts| > 1 {
      SplitAt(parts[0], JoinOn(parts[1..], c), c);
      SplitOfJoin(parts[1..], c);
    } else {
      assert AllPieces(parts[1..], c) == [];
    }
  }

  /** Parts without the separator come back exactly, in order. */
  lemma {:induction false} SplitInvertsJoin(parts: seq<string>, c: char)
    requires |parts| >= 1
    requires forall p :: p in parts ==> !Contains(p, c)
    ensures SplitOn(JoinOn(parts, c), c) == parts
  {
    SplitOfJoin(parts, c);
    PlainPieces(parts, c);
  }

  lemma {:induction false} PlainPieces(parts: seq<string>, c: char)
    requires forall p :: p in parts ==> !Contains(p, c)
    ensures AllPieces(parts, c) == parts
  {
    if parts != [] {
      PlainPieces(parts[1..], c);
    }
  }

  lemma {:induction false} PiecesAppend(a: seq<string>, b: seq<string>, c: char)
    ensures AllPieces(a + b, c) == AllPieces(a, c) + AllPieces(b, c)
  {
    if a == [] {
      assert a + b == b;
    } else {
      assert (a + b)[1..] == a[1..] + b;
      PiecesAppend(a[1..], b, c);
    }
  }

  /** A part's own pieces are among the pieces of the whole list, and nothing else is. */
  lemma {:induction false} PieceOrigin(parts: seq<string>, c: char, x: string)
    ensures x in AllPieces(parts, c) <==> exists p :: p in parts && x in SplitOn(p, c)
  {
    if parts != [] {
      PieceOrigin(parts[1..], c, x);
      if p :| p in parts && x in SplitOn(p, c) {
        assert p == parts[0] || p in parts[1..];
      }
      if p :| p in parts[1..] && x in SplitOn(p, c) {
        assert p in parts;
      }
      assert parts[0] in parts;
    }
  }

  // Blanks around the key and the value of a configuration entry.

  predicate IsBlank(ch: char) {
    ch == ' ' || ch == '\t' || ch == '\r'
  }

  function TrimLeft(s: string): string {
    if s != "" && IsBlank(s[0]) then TrimLeft(s[1..]) else s
  }

  function TrimRight(s: string): string {
    if s != "" && IsBlank(s[|s| - 1]) then TrimRight(s[..|s| - 1]) else s
  }

  function Trim(s: string): string {
    TrimRight(TrimLeft(s))
  }

  predicate Trimmed(s: string) {
    s == "" || (!IsBlank(s[0]) && !IsBlank(s[|s| - 1]))
  }

  lemma TrimPadded(s: string)
    requires Trimmed(s)
    ensures Trim(s) == s && Trim(" " + s) == s && Trim(s + " ") == s
  {
    assert (" " + s)[1..] == s;
    assert (s + " ")[..|s|] == s;
    assert TrimLeft(" " + s) == TrimLeft(s) == s;
    assert TrimRight(s + " ") == TrimRight(s) == s;
    if s == "" {
      assert s + " " == " " + s;
    } else {
      assert (s + " ")[0] == s[0];
    }
  }
}
