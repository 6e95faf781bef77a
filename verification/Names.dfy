/** Provider names and the order of the sorted containers that hold them. */
module Names {
  type Name = string

  /** Lexicographic order on names. */
  predicate LessEq(a: Name, b: Name) {
    a == [] || (b != [] && (a[0] < b[0] || (a[0] == b[0] && LessEq(a[1..], b[1..]))))
  }

  predicate Less(a: Name, b: Name) {
    LessEq(a, b) && a != b
  }

  lemma {:induction false} LessEqTotal(a: Name, b: Name)
    ensures LessEq(a, b) || LessEq(b, a)
  {
    if a != [] && b != [] && a[0] == b[0] { LessEqTotal(a[1..], b[1..]); }
  }

  lemma {:induction false} LessEqAntisymmetric(a: Name, b: Name)
    requires LessEq(a, b) && LessEq(b, a)
    ensures a == b
  {
    if a != [] {
      LessEqAntisymmetric(a[1..], b[1..]);
      assert a == [a[0]] + a[1..] && b == [b[0]] + b[1..];
    }
  }

  lemma {:induction false} LessEqTransitive(a: Name, b: Name, c: Name)
    requires LessEq(a, b) && LessEq(b, c)
    ensures LessEq(a, c)
  {
    if a != [] && a[0] == b[0] && b[0] == c[0] { LessEqTransitive(a[1..], b[1..], c[1..]); }
  }

  ghost predicate IsLeast(n: Name, s: set<Name>) {
    n in s && forall m :: m in s ==> LessEq(n, m)
  }

  /** The first key of a sorted set. */
  method First(s: set<Name>) returns (n: Name)
    requires s != {}
    ensures IsLeast(n, s)
  {
    n :| n in s;
    LessEqTotal(n, n);
    var rest := s - {n};
    while rest != {}
      invariant rest <= s && n in s
      invariant forall m :: m in s - rest ==> LessEq(n, m)
      decreases rest
    {
      var m :| m in rest;
      rest := rest - {m};
      if LessEq(m, n) {
        forall k | k in s - rest ensures LessEq(m, k) {
          if k != m { LessEqTransitive(m, n, k); } else { LessEqTotal(m, m); }
        }
        n := m;
      } else {
        LessEqTotal(n, m);
      }
    }
  }

  ghost predicate SortedNames(s: seq<Name>) {
    forall i, j :: 0 <= i < j < |s| ==> LessEq(s[i], s[j])
  }

  function Insert(n: Name, s: seq<Name>): (r: seq<Name>)
    ensures forall m :: m in r <==> m == n || m in s
  {
    if s == [] then [n] else if LessEq(n, s[0]) then [n] + s else [s[0]] + Insert(n, s[1..])
  }

  function Sort(s: seq<Name>): (r: seq<Name>)
    ensures forall m :: m in r <==> m in s
  {
    if s == [] then [] else Insert(s[0], Sort(s[1..]))
  }

  lemma {:induction false} InsertSorts(n: Name, s: seq<Name>)
    requires SortedNames(s)
    ensures SortedNames(Insert(n, s))
  {
    if s != [] {
      if LessEq(n, s[0]) {
        forall j | 0 <= j < |s| ensures LessEq(n, s[j]) {
          LessEqTotal(s[0], s[0]);
          LessEqTransitive(n, s[0], s[j]);
        }
      } else {
        LessEqTotal(n, s[0]);
        InsertSorts(n, s[1..]);
        var r := Insert(n, s[1..]);
        forall j | 0 <= j < |r| ensures LessEq(s[0], r[j]) {
          assert r[j] in r;
          if r[j] != n {
            var i :| 0 <= i < |s[1..]| && s[1..][i] == r[j];
            assert s[i + 1] == r[j];
          }
        }
      }
    }
  }

  lemma {:induction false} SortSorts(s: seq<Name>)
    ensures SortedNames(Sort(s))
  {
    if s != [] {
      SortSorts(s[1..]);
      InsertSorts(s[0], Sort(s[1..]));
    }
  }

  // ----- lists of names as sets -----------------------------------------------------------

  function Elements(s: seq<Name>): set<Name> {
    set d | d in s
  }

  ghost predicate NoRepeats(s: seq<Name>) {
    forall i, j :: 0 <= i < j < |s| ==> s[i] != s[j]
  }

  lemma {:induction false} ElementCount(s: seq<Name>)
    ensures |Elements(s)| <= |s|
    ensures |Elements(s)| == |s| <==> NoRepeats(s)
  {
    if s != [] {
      ElementCount(s[1..]);
      assert Elements(s) == Elements(s[1..]) + {s[0]};
      if s[0] in s[1..] {
        var i :| 0 <= i < |s[1..]| && s[1..][i] == s[0];
        assert s[i + 1] == s[0];
        assert Elements(s) == Elements(s[1..]);
      } else {
        assert |Elements(s)| == |Elements(s[1..])| + 1;
        if NoRepeats(s[1..]) {
          forall i, j | 0 <= i < j < |s| ensures s[i] != s[j] {
            if i == 0 { assert s[j] == s[1..][j - 1]; } else { assert s[i] == s[1..][i - 1] && s[j] == s[1..][j - 1]; }
          }
        }
        if NoRepeats(s) {
          forall i, j | 0 <= i < j < |s[1..]| ensures s[1..][i] != s[1..][j] {
            assert s[1..][i] == s[i + 1] && s[1..][j] == s[j + 1];
          }
        }
      }
    } else {
      assert Elements(s) == {};
    }
  }
}
