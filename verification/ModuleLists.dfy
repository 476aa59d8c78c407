// The module-list algebra the installation protocol rests on: removal of
// duplicates, difference, and the comma-separated value of `--init`.
module ModuleLists {
  import opened Text

  predicate NoDup(s: seq<string>) {
    forall i, j :: 0 <= i < j < |s| ==> s[i] != s[j]
  }

  predicate Disjoint(a: seq<string>, b: seq<string>) {
    forall x :: x in a ==> x !in b
  }

  function Elements(s: seq<string>): set<string> {
    set x | x in s
  }

  /** The elements of `s`, first occurrences only, that are not in `seen`. */
  function FirstOccurrences(s: seq<string>, seen: set<string>): seq<string> {
    if s == [] then []
    else if s[0] in seen then FirstOccurrences(s[1..], seen)
    else [s[0]] + FirstOccurrences(s[1..], seen + {s[0]})
  }

  function Dedup(s: seq<string>): seq<string> {
    FirstOccurrences(s, {})
  }

  /** The elements of `a`, in order, that do not occur in `b`. */
  function Difference(a: seq<string>, b: seq<string>): seq<string> {
    if a == [] then []
    else if a[0] in b then Difference(a[1..], b)
    else [a[0]] + Difference(a[1..], b)
  }

  lemma {:induction false} FirstOccurrencesSnoc(s: seq<string>, seen: set<string>, x: string)
    ensures FirstOccurrences(s + [x], seen) ==
            FirstOccurrences(s, seen) + (if x in seen || x in s then [] else [x])
    decreases |s|
  {
    if s == [] {
      assert [x][1..] == [];
      assert s + [x] == [x];
    } else {
      assert (s + [x])[1..] == s[1..] + [x];
      if s[0] in seen {
        FirstOccurrencesSnoc(s[1..], seen, x);
      } else {
        FirstOccurrencesSnoc(s[1..], seen + {s[0]}, x);
      }
    }
  }

  lemma DifferenceSnoc(a: seq<string>, b: seq<string>, x: string)
    ensures Difference(a + [x], b) == Difference(a, b) + (if x in b then [] else [x])
  {
    if a == [] {
      assert [x][1..] == [];
    } else {
      assert (a + [x])[1..] == a[1..] + [x];
    }
  }

  /** The loop that removes duplicates keeps exactly the first occurrences, in order. */
  method Deduplicate(modules: seq<string>) returns (unique: seq<string>)
    ensures unique == Dedup(modules)
  {
    var seen: set<string> := {};
    unique := [];
    for i := 0 to |modules|
      invariant seen == Elements(modules[..i])
      invariant unique == Dedup(modules[..i])
    {
      FirstOccurrencesSnoc(modules[..i], {}, modules[i]);
      assert modules[..i] + [modules[i]] == modules[..i + 1];
      if modules[i] !in seen {
        seen := seen + {modules[i]};
        unique := unique + [modules[i]];
      }
    }
    assert modules[..|modules|] == modules;
  }

  /** The two loops of the difference: a lookup table of `b`, then a filter of `a`. */
  method ComputeDifference(a: seq<string>, b: seq<string>) returns (diff: seq<string>)
    ensures diff == Difference(a, b)
  {
    var table: set<string> := {};
    for i := 0 to |b|
      invariant table == Elements(b[..i])
    {
      assert b[..i + 1] == b[..i] + [b[i]];
      table := table + {b[i]};
    }
    assert b[..|b|] == b;
    diff := [];
    for i := 0 to |a|
      invariant diff == Difference(a[..i], b)
    {
      DifferenceSnoc(a[..i], b, a[i]);
      assert a[..i] + [a[i]] == a[..i + 1];
      if a[i] !in table {
        diff := diff + [a[i]];
      }
    }
    assert a[..|a|] == a;
  }

  // What the difference and the removal of duplicates promise.

  lemma {:induction false} DifferenceMember(a: seq<string>, b: seq<string>, x: string)
    ensures x in Difference(a, b) <==> x in a && x !in b
  {
    if a != [] {
      DifferenceMember(a[1..], b, x);
    }
  }

  lemma DifferenceMembers(a: seq<string>, b: seq<string>)
    ensures forall x :: x in Difference(a, b) <==> x in a && x !in b
  {
    forall x ensures x in Difference(a, b) <==> x in a && x !in b {
      DifferenceMember(a, b, x);
    }
  }

  /** Nothing is missing exactly when every requested module is present. */
  lemma DifferenceEmpty(a: seq<string>, b: seq<string>)
    ensures Difference(a, b) == [] <==> forall x :: x in a ==> x in b
  {
    DifferenceMembers(a, b);
    if Difference(a, b) != [] {
      var x := Difference(a, b)[0];
      assert x in Difference(a, b);
    }
  }

  /** Once the missing modules are appended, nothing is missing any more. */
  lemma DifferenceClosed(spec: seq<string>, installed: seq<string>)
    ensures Difference(spec, installed + Difference(spec, installed)) == []
  {
    DifferenceMembers(spec, installed);
    DifferenceEmpty(spec, installed + Difference(spec, installed));
  }

  lemma {:induction false} FirstOccurrencesMember(s: seq<string>, seen: set<string>, x: string)
    ensures x in FirstOccurrences(s, seen) <==> x in s && x !in seen
    decreases |s|
  {
    if s != [] {
      FirstOccurrencesMember(s[1..], seen, x);
      FirstOccurrencesMember(s[1..], seen + {s[0]}, x);
    }
  }

  lemma {:induction false} FirstOccurrencesNoDup(s: seq<string>, seen: set<string>)
    ensures NoDup(FirstOccurrences(s, seen))
    decreases |s|
  {
    if s != [] {
      FirstOccurrencesNoDup(s[1..], seen);
      FirstOccurrencesNoDup(s[1..], seen + {s[0]});
      FirstOccurrencesMember(s[1..], seen + {s[0]}, s[0]);
    }
  }

  /** Same modules, no duplicates. */
  lemma DedupSound(s: seq<string>)
    ensures NoDup(Dedup(s)) && Elements(Dedup(s)) == Elements(s)
  {
    FirstOccurrencesNoDup(s, {});
    forall x ensures x in Dedup(s) <==> x in s {
      FirstOccurrencesMember(s, {}, x);
    }
  }

  /** The order kept is the order of first occurrences: of two modules, the one that
      starts earlier in the list stays ahead. */
  ghost predicate Before(s: seq<string>, x: string, y: string) {
    exists i :: 0 <= i < |s| && s[i] == x && y !in s[..i + 1]
  }

  lemma {:induction false} DedupKeepsOrder(s: seq<string>, seen: set<string>, x: string, y: string)
    requires x in s && y in s && x !in seen && y !in seen && Before(s, x, y)
    ensures Before(FirstOccurrences(s, seen), x, y)
    decreases |s|
  {
    var i :| 0 <= i < |s| && s[i] == x && y !in s[..i + 1];
    assert s[0] == s[..i + 1][0];
    if s[0] in seen {
      assert s[1..][i - 1] == x && s[1..][..i] == s[..i + 1][1..];
      DedupKeepsOrder(s[1..], seen, x, y);
    } else if s[0] == x {
      var r := FirstOccurrences(s, seen);
      assert r[0] == x && r[..1] == [x];
    } else {
      assert s[1..][i - 1] == x && s[1..][..i] == s[..i + 1][1..];
      DedupKeepsOrder(s[1..], seen + {s[0]}, x, y);
      var t := FirstOccurrences(s[1..], seen + {s[0]});
      var j :| 0 <= j < |t| && t[j] == x && y !in t[..j + 1];
      var r := FirstOccurrences(s, seen);
      assert r == [s[0]] + t && r[j + 1] == x;
      assert r[..j + 2] == [s[0]] + t[..j + 1];
    }
  }

  lemma {:induction false} NoDupUntouched(s: seq<string>, seen: set<string>)
    requires NoDup(s) && forall x :: x in s ==> x !in seen
    ensures FirstOccurrences(s, seen) == s
    decreases |s|
  {
    if s != [] {
      assert forall x :: x in s[1..] ==> x !in seen + {s[0]};
      NoDupUntouched(s[1..], seen + {s[0]});
    }
  }

  lemma DedupIdempotent(s: seq<string>)
    ensures Dedup(Dedup(s)) == Dedup(s)
  {
    DedupSound(s);
    NoDupUntouched(Dedup(s), {});
  }

  lemma {:induction false} DifferenceNoDup(a: seq<string>, b: seq<string>)
    requires NoDup(a)
    ensures NoDup(Difference(a, b))
  {
    if a != [] {
      DifferenceNoDup(a[1..], b);
      DifferenceMember(a[1..], b, a[0]);
    }
  }

  lemma DifferenceCons(x: string, t: seq<string>, b: seq<string>)
    ensures Difference([x] + t, b) == if x in b then Difference(t, b) else [x] + Difference(t, b)
  {
    assert ([x] + t)[1..] == t;
  }

  lemma FirstOccurrencesCons(x: string, t: seq<string>, seen: set<string>)
    ensures FirstOccurrences([x] + t, seen) ==
            if x in seen then FirstOccurrences(t, seen) else [x] + FirstOccurrences(t, seen + {x})
  {
    assert ([x] + t)[1..] == t;
  }

  lemma {:induction false} DifferenceOfFirstOccurrences(s: seq<string>, seen: set<string>, b: seq<string>)
    ensures Difference(FirstOccurrences(s, seen), b) == FirstOccurrences(Difference(s, b), seen)
    decreases |s|
  {
    if s != [] {
      var x, t := s[0], s[1..];
      var d := Difference(t, b);
      FirstOccurrencesCons(x, d, seen);
      if x in seen {
        DifferenceOfFirstOccurrences(t, seen, b);
      } else {
        DifferenceOfFirstOccurrences(t, seen + {x}, b);
        DifferenceCons(x, FirstOccurrences(t, seen + {x}), b);
        if x in b {
          DifferenceMember(t, b, x);
          IgnoreAbsent(d, seen, x);
        }
      }
    }
  }

  lemma {:induction false} IgnoreAbsent(s: seq<string>, seen: set<string>, x: string)
    requires x !in s
    ensures FirstOccurrences(s, seen + {x}) == FirstOccurrences(s, seen)
    decreases |s|
  {
    if s != [] {
      IgnoreAbsent(s[1..], seen, x);
      IgnoreAbsent(s[1..], seen + {s[0]}, x);
      assert seen + {s[0]} + {x} == seen + {x} + {s[0]};
    }
  }

  /** Removing duplicates before or after the difference gives the same job. */
  lemma DedupCommutes(s: seq<string>, b: seq<string>)
    ensures Difference(Dedup(s), b) == Dedup(Difference(s, b))
  {
    DifferenceOfFirstOccurrences(s, {}, b);
  }

  lemma NoDupCons(x: string, t: seq<string>)
    ensures NoDup([x] + t) <==> x !in t && NoDup(t)
  {
    var s := [x] + t;
    assert forall i :: 0 <= i < |t| ==> s[i + 1] == t[i];
    if NoDup(s) {
      forall i | 0 <= i < |t| ensures t[i] != x {
        assert s[0] != s[i + 1];
      }
      forall i, j | 0 <= i < j < |t| ensures t[i] != t[j] {
        assert s[i + 1] != s[j + 1];
      }
    }
  }

  /** Each module of `a` that is not in `b` is requested once. */
  ghost predicate RequestedOnce(a: seq<string>, b: seq<string>) {
    forall i, j :: 0 <= i < j < |a| && a[i] !in b ==> a[i] != a[j]
  }

  lemma RequestedOnceCons(a: seq<string>, b: seq<string>)
    requires a != []
    ensures RequestedOnce(a, b) <==> (a[0] in b || a[0] !in a[1..]) && RequestedOnce(a[1..], b)
  {
    var t := a[1..];
    assert forall i :: 0 <= i < |t| ==> t[i] == a[i + 1];
    assert a == [a[0]] + t;
    if (a[0] in b || a[0] !in t) && RequestedOnce(t, b) {
      forall i, j | 0 <= i < j < |a| && a[i] !in b ensures a[i] != a[j] {
        assert a[j] == t[j - 1];
        if i > 0 {
          assert a[i] == t[i - 1];
        }
      }
    }
  }

  /** Exactly when the modules of a job are free of duplicates: each module that is
      not installed yet is requested once. */
  lemma {:induction false} DifferenceNoDupExactly(a: seq<string>, b: seq<string>)
    ensures NoDup(Difference(a, b)) <==> RequestedOnce(a, b)
  {
    if a != [] {
      DifferenceNoDupExactly(a[1..], b);
      DifferenceMember(a[1..], b, a[0]);
      NoDupCons(a[0], Difference(a[1..], b));
      RequestedOnceCons(a, b);
    }
  }

  // The value of `--init`.

  /** Every module followed by a comma, as the loop accumulates it. */
  function WithCommas(modules: seq<string>): string {
    if modules == [] then "" else WithCommas(modules[..|modules| - 1]) + modules[|modules| - 1] + [COMMA]
  }

  lemma {:induction false} WithCommasCons(modules: seq<string>)
    requires modules != []
    ensures WithCommas(modules) == modules[0] + [COMMA] + WithCommas(modules[1..])
  {
    var n := |modules|;
    if n > 1 {
      WithCommasCons(modules[..n - 1]);
      assert modules[1..][..n - 2] == modules[..n - 1][1..];
    } else {
      assert modules[..0] == [];
    }
  }

  lemma {:induction false} WithCommasIsJoin(modules: seq<string>)
    requires modules != []
    ensures WithCommas(modules) == JoinOn(modules, COMMA) + [COMMA]
  {
    WithCommasCons(modules);
    if |modules| > 1 {
      WithCommasIsJoin(modules[1..]);
    } else {
      assert modules[1..] == [];
    }
  }

  /** The loop that builds the value and then cuts the last comma: the cut is never out of
      range and leaves the modules joined by single commas. */
  method InitArgument(modules: seq<string>) returns (arg: string)
    requires modules != []
    ensures arg == JoinOn(modules, COMMA)
    ensures SplitOn(arg, COMMA) == AllPieces(modules, COMMA)
    ensures (forall m :: m in modules ==> !Contains(m, COMMA)) ==> SplitOn(arg, COMMA) == modules
  {
    arg := "";
    for i := 0 to |modules|
      invariant arg == WithCommas(modules[..i])
    {
      assert modules[..i + 1][..i] == modules[..i];
      arg := arg + modules[i] + [COMMA];
    }
    assert modules[..|modules|] == modules;
    WithCommasIsJoin(modules);
    arg := arg[..|arg| - 1];
    SplitOfJoin(modules, COMMA);
    if forall m :: m in modules ==> !Contains(m, COMMA) {
      SplitInvertsJoin(modules, COMMA);
    }
  }

  /** The modules that running `--init` on a list installs: the pieces between commas. */
  ghost function Pieces(modules: seq<string>): set<string> {
    Elements(AllPieces(modules, COMMA))
  }

  lemma PiecesUnion(a: seq<string>, b: seq<string>)
    ensures Pieces(a + b) == Pieces(a) + Pieces(b)
  {
    PiecesAppend(a, b, COMMA);
  }

  lemma PiecesMonotone(a: seq<string>, b: seq<string>)
    requires forall m :: m in a ==> m in b
    ensures Pieces(a) <= Pieces(b)
  {
    forall x | x in Pieces(a) ensures x in Pieces(b) {
      PieceOrigin(a, COMMA, x);
      PieceOrigin(b, COMMA, x);
    }
  }

  predicate PlainNames(a: seq<string>) {
    forall m :: m in a ==> !Contains(m, COMMA)
  }

  /** For names without commas the pieces are the modules themselves. */
  lemma PiecesOfPlain(a: seq<string>)
    requires PlainNames(a)
    ensures Pieces(a) == Elements(a)
  {
    PlainPieces(a, COMMA);
  }
}
