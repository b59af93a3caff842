/**
 * The etcd member set the cluster status keeps (`NewEtcdMemberSet`, `Insert`,
 * `Delete`, `List`). Its implementation is not part of this model: it is given
 * here as a list ordered by strictly increasing member id, so every id occurs
 * at most once and `List` is the list itself. The contract it is assumed to
 * have is the ensures clauses and lemmas of this module.
 */
module EtcdMemberSet {
  import opened Api

  /** Strictly increasing ids: a set keyed by id with a stable listing order. */
  predicate Sorted(xs: seq<EtcdMember>) {
    forall i, j :: 0 <= i < j < |xs| ==> xs[i].id < xs[j].id
  }

  function Ids(xs: seq<EtcdMember>): set<nat> {
    set m | m in xs :: m.id
  }

  /** A member below every member of a sorted list can go in front of it. */
  lemma ConsSorted(a: EtcdMember, t: seq<EtcdMember>)
    requires Sorted(t) && forall y :: y in t ==> a.id < y.id
    ensures Sorted([a] + t)
  {
    assert forall j :: 0 < j < |[a] + t| ==> ([a] + t)[j] == t[j - 1];
  }

  /** The members after a sorted list's head. */
  lemma SortedTail(xs: seq<EtcdMember>)
    requires Sorted(xs) && xs != []
    ensures Sorted(xs[1..]) && forall y :: y in xs[1..] ==> xs[0].id < y.id
    ensures forall x :: x in xs <==> x == xs[0] || x in xs[1..]
  {
    assert xs == [xs[0]] + xs[1..];
  }

  /** Adds `m`; a member with the same id is replaced by it. */
  function Insert(xs: seq<EtcdMember>, m: EtcdMember): (r: seq<EtcdMember>)
    requires Sorted(xs)
    ensures Sorted(r)
    ensures forall x :: x in r <==> x == m || (x in xs && x.id != m.id)
  {
    if xs == [] then [m]
    else
      SortedTail(xs);
      if m.id < xs[0].id then
        ConsSorted(m, xs);
        [m] + xs
      else if m.id == xs[0].id then
        ConsSorted(m, xs[1..]);
        [m] + xs[1..]
      else
        var t := Insert(xs[1..], m);
        ConsSorted(xs[0], t);
        [xs[0]] + t
  }

  /** Removes the member whose id is `m.id`, if any; only the id is compared. */
  function Delete(xs: seq<EtcdMember>, m: EtcdMember): (r: seq<EtcdMember>)
    requires Sorted(xs)
    ensures Sorted(r)
    ensures forall x :: x in r <==> x in xs && x.id != m.id
  {
    if xs == [] then []
    else
      SortedTail(xs);
      var t := Delete(xs[1..], m);
      if xs[0].id == m.id then t
      else
        ConsSorted(xs[0], t);
        [xs[0]] + t
  }

  lemma InsertIds(xs: seq<EtcdMember>, m: EtcdMember)
    requires Sorted(xs)
    ensures Ids(Insert(xs, m)) == Ids(xs) + {m.id}
  {
    var r := Insert(xs, m);
    assert m in r;
    forall y | y in Ids(xs) + {m.id} ensures y in Ids(r) {
      if y != m.id {
        var x :| x in xs && x.id == y;
        assert x in r;
      }
    }
  }

  lemma DeleteIds(xs: seq<EtcdMember>, m: EtcdMember)
    requires Sorted(xs)
    ensures Ids(Delete(xs, m)) == Ids(xs) - {m.id}
  {
    var r := Delete(xs, m);
    forall y | y in Ids(xs) - {m.id} ensures y in Ids(r) {
      var x :| x in xs && x.id == y;
      assert x in r;
    }
  }

  /** `NewEtcdMemberSet(items...)`: the items inserted one after the other. */
  function FromList(xs: seq<EtcdMember>): (r: seq<EtcdMember>)
    ensures Sorted(r)
    ensures Ids(r) == Ids(xs)
    ensures forall x :: x in r ==> x in xs
  {
    if xs == [] then []
    else
      IdsSnoc(xs[..|xs| - 1], xs[|xs| - 1]);
      assert xs == xs[..|xs| - 1] + [xs[|xs| - 1]];
      InsertIds(FromList(xs[..|xs| - 1]), xs[|xs| - 1]);
      Insert(FromList(xs[..|xs| - 1]), xs[|xs| - 1])
  }

  lemma IdsSnoc(xs: seq<EtcdMember>, m: EtcdMember)
    ensures Ids(xs + [m]) == Ids(xs) + {m.id}
  {
    assert forall x :: x in xs + [m] <==> x in xs || x == m;
  }

  /**
   * Whether `xs[i]` is the last entry of `xs` with its id: the one that
   * `NewEtcdMemberSet(xs...)` keeps.
   */
  predicate LastOfId(xs: seq<EtcdMember>, i: int) {
    0 <= i < |xs| && forall j :: i < j < |xs| ==> xs[j].id != xs[i].id
  }

  /** Building the set keeps, for every id, the last entry listed with it. */
  lemma {:induction false} FromListKeepsLast(xs: seq<EtcdMember>, i: int)
    requires LastOfId(xs, i)
    ensures xs[i] in FromList(xs)
    decreases |xs|
  {
    var init, last := xs[..|xs| - 1], xs[|xs| - 1];
    if i < |xs| - 1 {
      assert forall j :: i < j < |init| ==> init[j] == xs[j];
      FromListKeepsLast(init, i);
      assert xs[i].id != last.id;
    }
  }

  /**
   * The member list after `NewEtcdMemberSet(members...).Insert(m).List()`:
   * `m`, and the other entries the set kept, each with its own id.
   */
  function InsertMember(members: seq<EtcdMember>, m: EtcdMember): (r: seq<EtcdMember>)
    ensures Sorted(r)
    ensures Ids(r) == Ids(members) + {m.id}
    ensures m in r
    ensures forall x :: x in r <==> x == m || (x in FromList(members) && x.id != m.id)
    ensures forall x :: x in r ==> x == m || x in members
    ensures Sorted(members) ==> forall x :: x in r <==> x == m || (x in members && x.id != m.id)
  {
    assert Sorted(members) ==> FromList(members) == members by {
      if Sorted(members) { FromListOfSorted(members); }
    }
    InsertIds(FromList(members), m);
    Insert(FromList(members), m)
  }

  /**
   * The member list after `NewEtcdMemberSet(members...).Delete(m).List()`:
   * the entries the set kept whose id is not `m`'s.
   */
  function RemoveMember(members: seq<EtcdMember>, m: EtcdMember): (r: seq<EtcdMember>)
    ensures Sorted(r)
    ensures Ids(r) == Ids(members) - {m.id}
    ensures forall x :: x in r <==> x in FromList(members) && x.id != m.id
    ensures forall x :: x in r ==> x in members
    ensures Sorted(members) ==> forall x :: x in r <==> x in members && x.id != m.id
  {
    assert Sorted(members) ==> FromList(members) == members by {
      if Sorted(members) { FromListOfSorted(members); }
    }
    DeleteIds(FromList(members), m);
    Delete(FromList(members), m)
  }

  /** A set keyed by id holds exactly one member per id. */
  lemma {:induction false} SortedOnePerId(xs: seq<EtcdMember>)
    requires Sorted(xs)
    ensures |Ids(xs)| == |xs|
    decreases |xs|
  {
    if xs != [] {
      SortedOnePerId(xs[1..]);
      assert forall x :: x in xs <==> x == xs[0] || x in xs[1..];
      assert Ids(xs) == {xs[0].id} + Ids(xs[1..]);
      assert xs[0].id !in Ids(xs[1..]);
    }
  }

  /** A list that is already a set comes back unchanged from `NewEtcdMemberSet(...).List()`. */
  lemma {:induction false} FromListOfSorted(xs: seq<EtcdMember>)
    requires Sorted(xs)
    ensures FromList(xs) == xs
    decreases |xs|
  {
    if xs != [] {
      var init, last := xs[..|xs| - 1], xs[|xs| - 1];
      FromListOfSorted(init);
      InsertLargest(init, last);
    }
  }

  lemma {:induction false} InsertLargest(xs: seq<EtcdMember>, m: EtcdMember)
    requires Sorted(xs + [m])
    ensures Sorted(xs) && Insert(xs, m) == xs + [m]
    decreases |xs|
  {
    assert forall i :: 0 <= i < |xs| ==> xs[i] == (xs + [m])[i];
    if xs != [] {
      assert xs[0].id < m.id by { assert (xs + [m])[|xs|] == m; }
      assert (xs + [m])[1..] == xs[1..] + [m];
      InsertLargest(xs[1..], m);
      assert [xs[0]] + (xs[1..] + [m]) == xs + [m];
    }
  }

  /** Inserting the same member twice leaves one entry for it. */
  lemma InsertIdempotent(xs: seq<EtcdMember>, m: EtcdMember)
    requires Sorted(xs)
    ensures Insert(Insert(xs, m), m) == Insert(xs, m)
  {
    SortedUnique(Insert(xs, m), Insert(Insert(xs, m), m));
  }

  /** Deleting an id that is absent changes nothing. */
  lemma DeleteAbsent(xs: seq<EtcdMember>, m: EtcdMember)
    requires Sorted(xs) && m.id !in Ids(xs)
    ensures Delete(xs, m) == xs
  {
    SortedUnique(Delete(xs, m), xs);
  }

  /** Two sorted lists with the same members are equal: the listing is deterministic. */
  lemma {:induction false} SortedUnique(a: seq<EtcdMember>, b: seq<EtcdMember>)
    requires Sorted(a) && Sorted(b)
    requires forall x :: x in a <==> x in b
    ensures a == b
    decreases |a|
  {
    assert a != [] ==> a[0] in b;
    assert b != [] ==> b[0] in a;
    if a != [] && b != [] {
      forall x ensures x in a[1..] <==> x in b[1..] {
        if x in a[1..] {
          var k :| 1 <= k < |a| && a[k] == x;
          assert x.id > a[0].id;
          assert x in b;
        }
        if x in b[1..] {
          var k :| 1 <= k < |b| && b[k] == x;
          assert x.id > b[0].id;
          assert x in a;
        }
      }
      SortedUnique(a[1..], b[1..]);
      assert a == [a[0]] + a[1..] && b == [b[0]] + b[1..];
    }
  }

  /** A change to the set, as the create, delete and recovery flows apply them. */
  datatype Change = Add(member: EtcdMember) | Remove(member: EtcdMember)

  function Apply(xs: seq<EtcdMember>, cs: seq<Change>): (r: seq<EtcdMember>)
    requires Sorted(xs)
    ensures Sorted(r)
  {
    if cs == [] then xs
    else
      var ys := Apply(xs, cs[..|cs| - 1]);
      match cs[|cs| - 1]
      case Add(m) => Insert(ys, m)
      case Remove(m) => Delete(ys, m)
  }

  /** The ids present after the changes, computed from the ids alone. */
  function LiveIds(ids: set<nat>, cs: seq<Change>): set<nat> {
    if cs == [] then ids
    else
      var live := LiveIds(ids, cs[..|cs| - 1]);
      match cs[|cs| - 1]
      case Add(m) => live + {m.id}
      case Remove(m) => live - {m.id}
  }

  /**
   * After any sequence of inserts and deletes the listing holds exactly one
   * member per id that is inserted and not deleted since.
   */
  lemma {:induction false} ApplyKeepsOnePerLiveId(xs: seq<EtcdMember>, cs: seq<Change>)
    requires Sorted(xs)
    ensures Ids(Apply(xs, cs)) == LiveIds(Ids(xs), cs)
    ensures forall i, j :: 0 <= i < j < |Apply(xs, cs)| ==> Apply(xs, cs)[i].id != Apply(xs, cs)[j].id
    decreases |cs|
  {
    if cs != [] {
      ApplyKeepsOnePerLiveId(xs, cs[..|cs| - 1]);
      var ys := Apply(xs, cs[..|cs| - 1]);
      match cs[|cs| - 1] {
        case Add(m) => InsertIds(ys, m);
        case Remove(m) => DeleteIds(ys, m);
      }
    }
  }
}
