/** The order in which the stats table sorts its `entry_date` keys.  Dates are
    stored as ISO text ("2024-08-06"), and SQLite compares text with its BINARY
    collation, character by character, a shorter prefix first; for ISO dates that
    is calendar order. */
module DateOrder {

  /** `a` sorts strictly before `b`. */
  predicate Before(a: string, b: string)
    decreases |a|
  {
    if |a| == 0 then |b| > 0
    else if |b| == 0 then false
    else if a[0] != b[0] then a[0] < b[0]
    else Before(a[1..], b[1..])
  }

  lemma {:induction false} BeforeIrreflexive(a: string)
    ensures !Before(a, a)
    decreases |a|
  {
    if |a| > 0 {
      BeforeIrreflexive(a[1..]);
    }
  }

  lemma {:induction false} BeforeTransitive(a: string, b: string, c: string)
    requires Before(a, b) && Before(b, c)
    ensures Before(a, c)
    decreases |a|
  {
    if |a| > 0 && a[0] == b[0] && b[0] == c[0] {
      BeforeTransitive(a[1..], b[1..], c[1..]);
    }
  }

  /** Any two different dates are ordered one way or the other. */
  lemma {:induction false} BeforeTotal(a: string, b: string)
    requires a != b
    ensures Before(a, b) || Before(b, a)
    decreases |a|
  {
    if |a| > 0 && |b| > 0 && a[0] == b[0] {
      assert a == [a[0]] + a[1..] && b == [b[0]] + b[1..];
      BeforeTotal(a[1..], b[1..]);
    }
  }

  lemma BeforeAsymmetric(a: string, b: string)
    requires Before(a, b)
    ensures !Before(b, a)
  {
    if Before(b, a) {
      BeforeTransitive(a, b, a);
      BeforeIrreflexive(a);
    }
  }

  /** The latest date of a non-empty set of dates. */
  ghost function Latest(ds: set<string>): (m: string)
    requires ds != {}
    ensures m in ds
  {
    var x :| x in ds;
    if ds == {x} then x
    else
      var m := Latest(ds - {x});
      if Before(x, m) then m else x
  }

  lemma {:induction false} LatestIsGreatest(ds: set<string>, d: string)
    requires d in ds && d != Latest(ds)
    ensures Before(d, Latest(ds))
  {
    var x :| x in ds && Latest(ds) == (if ds == {x} then x else
      var m := Latest(ds - {x}); if Before(x, m) then m else x);
    if ds != {x} {
      var m := Latest(ds - {x});
      if Before(x, m) {
        if d != x {
          LatestIsGreatest(ds - {x}, d);
        }
      } else {
        BeforeTotal(x, m);
        if d != m {
          LatestIsGreatest(ds - {x}, d);
          BeforeTransitive(d, m, x);
        }
      }
    }
  }

  /** All dates of the set, latest first: ORDER BY entry_date DESC. */
  ghost function Descending(ds: set<string>): (r: seq<string>)
    ensures |r| == |ds|
    decreases ds
  {
    if ds == {} then [] else [Latest(ds)] + Descending(ds - {Latest(ds)})
  }

  /** Strictly decreasing: each listed date sorts after every date listed later. */
  ghost predicate StrictlyDescending(r: seq<string>)
  {
    forall i, j :: 0 <= i < j < |r| ==> Before(r[j], r[i])
  }

  /** The listing holds every date of the set exactly once, latest first. */
  lemma {:induction false} DescendingListsAll(ds: set<string>)
    ensures forall d :: d in Descending(ds) <==> d in ds
    ensures StrictlyDescending(Descending(ds))
    decreases ds
  {
    if ds != {} {
      var m := Latest(ds);
      var rest := ds - {m};
      DescendingListsAll(rest);
      var r := Descending(ds);
      assert r == [m] + Descending(rest);
      forall j | 0 < j < |r|
        ensures Before(r[j], r[0])
      {
        assert r[j] in rest;
        LatestIsGreatest(ds, r[j]);
      }
    }
  }

  /** In a strictly descending listing, an element left out of the first `n`
      sorts before each of them. */
  lemma OutsidePrefixIsOlder(r: seq<string>, n: nat, d: string, i: nat)
    requires StrictlyDescending(r)
    requires n <= |r| && i < n
    requires d in r && d !in r[..n]
    ensures Before(d, r[i])
  {
    forall j | 0 <= j < n
      ensures r[j] != d
    {
      assert r[j] == r[..n][j];
    }
    var k :| 0 <= k < |r| && r[k] == d;
    assert i < k;
  }

  /** A date left out of the first `n` of the listing sorts before each of them:
      a LIMIT on the descending listing keeps the newest dates. */
  lemma NewestKept(ds: set<string>, n: nat, d: string, i: nat)
    requires n <= |ds| && i < n
    requires d in ds && d !in Descending(ds)[..n]
    ensures Before(d, Descending(ds)[i])
  {
    DescendingListsAll(ds);
    OutsidePrefixIsOlder(Descending(ds), n, d, i);
  }
}
