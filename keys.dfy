/**
 * `Object.keys` on an object whose keys are array indices: JavaScript lists
 * such keys in ascending numeric order, whatever order they were added in.
 */
module ObjectKeys {

  /** `m` is no larger than any element of `s`. */
  predicate IsLeast(m: nat, s: set<nat>)
  {
    forall k :: k in s ==> m <= k
  }

  /** Every non-empty finite set of naturals has a least element. */
  lemma {:induction false} LeastExists(s: set<nat>)
    requires s != {}
    ensures exists m :: m in s && IsLeast(m, s)
    decreases |s|
  {
    var x :| x in s;
    if s == {x} {
      assert IsLeast(x, s);
    } else {
      var t := s - {x};
      LeastExists(t);
      var m :| m in t && IsLeast(m, t);
      var least := if x < m then x else m;
      forall k | k in s ensures least <= k {
        if k != x {
          assert k in t;
        }
      }
      assert least in s && IsLeast(least, s);
    }
  }

  /** The keys of `s` listed in ascending order, as `Object.keys` lists index keys. */
  function Ascending(s: set<nat>): (r: seq<nat>)
    decreases |s|
    ensures |r| == |s|
    ensures forall i :: 0 <= i < |r| ==> r[i] in s
    ensures forall k :: k in s ==> k in r
    ensures forall i, j :: 0 <= i < j < |r| ==> r[i] < r[j]
  {
    if s == {} then []
    else
      LeastExists(s);
      var m :| m in s && IsLeast(m, s);
      var rest := Ascending(s - {m});
      PrependLeast(m, s, rest);
      [m] + rest
  }

  /** Putting the least key in front of an ascending listing of the others. */
  lemma PrependLeast(m: nat, s: set<nat>, rest: seq<nat>)
    requires m in s && IsLeast(m, s)
    requires |rest| == |s - {m}|
    requires forall i :: 0 <= i < |rest| ==> rest[i] in s - {m}
    requires forall k :: k in s - {m} ==> k in rest
    requires forall i, j :: 0 <= i < j < |rest| ==> rest[i] < rest[j]
    ensures var r := [m] + rest;
      |r| == |s| && (forall i :: 0 <= i < |r| ==> r[i] in s) && (forall k :: k in s ==> k in r)
      && forall i, j :: 0 <= i < j < |r| ==> r[i] < r[j]
  {
    var r := [m] + rest;
    forall i | 0 <= i < |rest| ensures m < rest[i] {
      assert rest[i] in s - {m};
    }
    forall i | 0 <= i < |r| ensures r[i] in s {
      if i > 0 {
        assert r[i] == rest[i - 1];
      }
    }
    forall k | k in s ensures k in r {
      if k != m {
        assert k in s - {m};
      }
    }
  }
}
