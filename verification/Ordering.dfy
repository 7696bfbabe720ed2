/** ORDER BY (created_at, id): a set of ids as one strictly ascending list. */
module Ordering {

  // The sort key of a row; ids break ties.
  predicate Before(at: map<int, int>, x: int, y: int)
    requires x in at && y in at
  {
    at[x] < at[y] || (at[x] == at[y] && x < y)
  }

  predicate Least(s: set<int>, at: map<int, int>, m: int)
    requires s <= at.Keys
  {
    m in s && forall x :: x in s && x != m ==> Before(at, m, x)
  }

  lemma Pick<T>(s: set<T>) returns (x: T)
    requires s != {}
    ensures x in s
  {
    x :| x in s;
  }

  lemma {:induction false} LeastExists(s: set<int>, at: map<int, int>)
    requires s <= at.Keys && s != {}
    ensures exists m :: Least(s, at, m)
    decreases |s|
  {
    var m := Pick(s);
    if s == {m} {
      assert Least(s, at, m);
    } else {
      LeastExists(s - {m}, at);
      var l :| Least(s - {m}, at, l);
      var best := if Before(at, l, m) then l else m;
      forall x | x in s && x != best ensures Before(at, best, x) {
        assert x == m || x == l || (x in s - {m} && Before(at, l, x));
      }
      assert Least(s, at, best);
    }
  }

  function First(s: set<int>, at: map<int, int>): (m: int)
    requires s <= at.Keys && s != {}
    ensures Least(s, at, m)
  {
    LeastExists(s, at);
    var m :| m in s && Least(s, at, m);
    m
  }

  function Ascending(s: set<int>, at: map<int, int>): (ids: seq<int>)
    requires s <= at.Keys
    ensures |ids| == |s|
    ensures forall x :: x in ids <==> x in s
    decreases |s|
  {
    if s == {} then []
    else
      var m := First(s, at);
      [m] + Ascending(s - {m}, at)
  }

  predicate StrictlyAscending(ids: seq<int>, at: map<int, int>)
    requires forall x :: x in ids ==> x in at
  {
    forall i, j :: 0 <= i < j < |ids| ==> Before(at, ids[i], ids[j])
  }

  lemma {:induction false} AscendingIsSorted(s: set<int>, at: map<int, int>)
    requires s <= at.Keys
    ensures StrictlyAscending(Ascending(s, at), at)
    decreases |s|
  {
    if s != {} {
      var m := First(s, at);
      AscendingIsSorted(s - {m}, at);
      LeastGoesFirst(m, Ascending(s - {m}, at), at);
    }
  }

  lemma LeastGoesFirst(m: int, rest: seq<int>, at: map<int, int>)
    requires m in at && (forall x :: x in rest ==> x in at)
    requires StrictlyAscending(rest, at)
    requires forall x :: x in rest ==> Before(at, m, x)
    ensures forall x :: x in [m] + rest ==> x in at
    ensures StrictlyAscending([m] + rest, at)
  {
    var all := [m] + rest;
    forall i, j | 0 <= i < j < |all| ensures Before(at, all[i], all[j]) {
      assert all[j] == rest[j - 1] && rest[j - 1] in rest;
      if i > 0 {
        assert all[i] == rest[i - 1];
      }
    }
  }

  lemma NoMembers(s: set<int>, ids: seq<int>)
    requires ids == [] && forall x :: x in s ==> x in ids
    ensures s == {}
  {
    if s != {} {
      var x := Pick(s);
    }
  }

  lemma HeadIsFirst(s: set<int>, at: map<int, int>, ids: seq<int>)
    requires s <= at.Keys && ids != []
    requires (forall i :: 0 <= i < |ids| ==> ids[i] in s) && (forall x :: x in s ==> x in ids)
    requires StrictlyAscending(ids, at)
    ensures s != {} && ids[0] == First(s, at)
  {
    assert ids[0] in s;
    assert First(s, at) in ids;
  }

  lemma RestAscends(s: set<int>, at: map<int, int>, ids: seq<int>)
    requires s <= at.Keys && ids != []
    requires (forall i :: 0 <= i < |ids| ==> ids[i] in s) && (forall x :: x in s ==> x in ids)
    requires StrictlyAscending(ids, at)
    ensures var rest := ids[1..];
            && (forall i :: 0 <= i < |rest| ==> rest[i] in s - {ids[0]})
            && (forall x :: x in s - {ids[0]} ==> x in rest)
            && StrictlyAscending(rest, at)
  {
    var rest := ids[1..];
    forall i | 0 <= i < |rest| ensures rest[i] in s - {ids[0]} {
      assert rest[i] == ids[i + 1] && Before(at, ids[0], ids[i + 1]);
    }
    forall x | x in s - {ids[0]} ensures x in rest {
      var i :| 0 <= i < |ids| && ids[i] == x;
      assert rest[i - 1] == x;
    }
    forall i, j | 0 <= i < j < |rest| ensures Before(at, rest[i], rest[j]) {
      assert rest[i] == ids[i + 1] && rest[j] == ids[j + 1];
    }
  }

  // There is no other sorted list of the same ids.
  lemma {:induction false} AscendingIsUnique(s: set<int>, at: map<int, int>, ids: seq<int>)
    requires s <= at.Keys
    requires (forall i :: 0 <= i < |ids| ==> ids[i] in s) && (forall x :: x in s ==> x in ids)
    requires StrictlyAscending(ids, at)
    ensures ids == Ascending(s, at)
    decreases |ids|
  {
    hide StrictlyAscending, Least;
    if ids == [] {
      NoMembers(s, ids);
    } else {
      HeadIsFirst(s, at, ids);
      RestAscends(s, at, ids);
      AscendingIsUnique(s - {ids[0]}, at, ids[1..]);
      assert ids == [ids[0]] + ids[1..];
    }
  }
}
