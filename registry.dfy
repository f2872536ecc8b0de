/**
 * The roster of tanks currently in one offensive state: the static
 * `List<TankSM>` each of AttackState and StrongAttackState keeps, changed only
 * under its lock by a contains-check followed by Add or Remove.
 */
module Registry {
  import opened Types

  predicate NoDup(s: seq<TankId>) {
    forall i, j :: 0 <= i < j < |s| ==> s[i] != s[j]
  }

  /** The list after a contains-check and Add. */
  function Joined(s: seq<TankId>, t: TankId): seq<TankId> {
    if t in s then s else s + [t]
  }

  /** `List.Remove`: the list without its first occurrence of `t`. */
  function RemoveFirst(s: seq<TankId>, t: TankId): (r: seq<TankId>)
    ensures |r| == if t in s then |s| - 1 else |s|
  {
    if s == [] then []
    else if s[0] == t then s[1..]
    else [s[0]] + RemoveFirst(s[1..], t)
  }

  /** Removing `t` never adds or drops any other tank, duplicates or not. */
  lemma {:induction false} RemoveFirstKeepsOthers(s: seq<TankId>, t: TankId, u: TankId)
    requires u != t
    ensures u in RemoveFirst(s, t) <==> u in s
  {
    if s != [] && s[0] != t {
      RemoveFirstKeepsOthers(s[1..], t, u);
      assert s == [s[0]] + s[1..];
    }
  }

  /** `k` is the index `List.IndexOf` finds: the first occurrence of `t`. */
  predicate FirstIndex(s: seq<TankId>, t: TankId, k: int) {
    0 <= k < |s| && s[k] == t && forall j :: 0 <= j < k ==> s[j] != t
  }

  /** Removing a tank that is absent leaves the list as it was. */
  lemma {:induction false} RemoveFirstAbsent(s: seq<TankId>, t: TankId)
    requires t !in s
    ensures RemoveFirst(s, t) == s
  {
    if s != [] {
      RemoveFirstAbsent(s[1..], t);
    }
  }

  /** Removing drops exactly the first occurrence and keeps the rest in order. */
  lemma {:induction false} RemoveFirstAt(s: seq<TankId>, t: TankId, k: int)
    requires FirstIndex(s, t, k)
    ensures RemoveFirst(s, t) == s[..k] + s[k + 1..]
  {
    if k > 0 {
      assert FirstIndex(s[1..], t, k - 1);
      RemoveFirstAt(s[1..], t, k - 1);
      assert s[..k] == [s[0]] + s[1..][..k - 1];
      assert s[k + 1..] == s[1..][k..];
    }
  }

  /** The list without its element at index `k`. */
  function Without(s: seq<TankId>, k: int): (r: seq<TankId>)
    requires 0 <= k < |s|
    ensures |r| == |s| - 1
    ensures forall i :: 0 <= i < |r| ==> r[i] == s[if i < k then i else i + 1]
  {
    s[..k] + s[k + 1..]
  }

  /** Dropping one element of a duplicate-free list leaves it duplicate-free. */
  lemma WithoutNoDup(s: seq<TankId>, k: int)
    requires NoDup(s) && 0 <= k < |s|
    ensures NoDup(Without(s, k))
  {
    var r := Without(s, k);
    forall i, j | 0 <= i < j < |r| ensures r[i] != r[j] {
      assert r[i] == s[if i < k then i else i + 1];
      assert r[j] == s[if j < k then j else j + 1];
    }
  }

  /** Dropping index `k` of a duplicate-free list removes exactly the value s[k]. */
  lemma WithoutMembers(s: seq<TankId>, k: int)
    requires NoDup(s) && 0 <= k < |s|
    ensures forall u :: u in Without(s, k) <==> u in s && u != s[k]
  {
    var r := Without(s, k);
    forall u ensures u in r <==> u in s && u != s[k] {
      if u in r {
        var i :| 0 <= i < |r| && r[i] == u;
        assert s[if i < k then i else i + 1] == u;
      }
      if u in s && u != s[k] {
        var i :| 0 <= i < |s| && s[i] == u;
        assert r[if i < k then i else i - 1] == u;
      }
    }
  }

  /** On a duplicate-free list, removing `t` removes it entirely and nothing else. */
  lemma RemoveFirstNoDup(s: seq<TankId>, t: TankId, k: int)
    requires NoDup(s) && FirstIndex(s, t, k)
    ensures NoDup(RemoveFirst(s, t))
    ensures t !in RemoveFirst(s, t)
    ensures |RemoveFirst(s, t)| == |s| - 1
    ensures forall u :: u != t ==> (u in RemoveFirst(s, t) <==> u in s)
  {
    RemoveFirstAt(s, t, k);
    assert RemoveFirst(s, t) == Without(s, k);
    WithoutNoDup(s, k);
    WithoutMembers(s, k);
  }

  class Roster {
    var members: seq<TankId>

    ghost predicate Valid()
      reads this
    {
      NoDup(members)
    }

    constructor ()
      ensures Valid() && members == []
    {
      members := [];
    }

    /** `List.Contains`. */
    method Contains(t: TankId) returns (found: bool)
      ensures found <==> t in members
    {
      var i := 0;
      found := false;
      while i < |members|
        invariant 0 <= i <= |members|
        invariant t !in members[..i]
      {
        if members[i] == t {
          return true;
        }
        i := i + 1;
      }
      assert members[..i] == members;
    }

    /** `List.IndexOf`: the first index of `t`, or -1. */
    method IndexOf(t: TankId) returns (k: int)
      ensures t in members ==> FirstIndex(members, t, k)
      ensures t !in members ==> k == -1
    {
      k := 0;
      while k < |members|
        invariant 0 <= k <= |members|
        invariant forall j :: 0 <= j < k ==> members[j] != t
      {
        if members[k] == t {
          return;
        }
        k := k + 1;
      }
      k := -1;
    }

    /**
     * Enter's locked block: add `t` unless it is already present. `added` tells
     * whether this was a fresh join.
     */
    method Join(t: TankId) returns (added: bool)
      requires Valid()
      modifies this
      ensures Valid()
      ensures added == (t !in old(members))
      ensures members == Joined(old(members), t)
      ensures added ==> members == old(members) + [t]
    {
      var present := Contains(t);
      added := !present;
      if added {
        members := members + [t];
      }
    }

    /**
     * Exit's locked block: remove `t` if it is present. Every other member stays,
     * in its order; a non-member changes nothing.
     */
    method Leave(t: TankId) returns (removed: bool)
      requires Valid()
      modifies this
      ensures Valid()
      ensures removed == (t in old(members))
      ensures members == RemoveFirst(old(members), t)
      ensures t !in members
      ensures forall u :: u != t ==> (u in members <==> u in old(members))
      ensures !removed ==> members == old(members)
    {
      removed := Contains(t);
      if removed {
        var k := IndexOf(t);
        RemoveFirstNoDup(members, t, k);
        members := RemoveFirst(members, t);
      } else {
        RemoveFirstAbsent(members, t);
      }
    }
  }
}
