/**
  The abstract meaning given to AutoCAD's `DrawOrderTable.MoveToTop`: the listed entities
  go to the end of the paint order (painted last, hence on top) and keep the relative order
  they had; everything else keeps its relative order below them.
*/
module DrawOrder {
  import opened Sequences

  type EntityId = nat

  function MoveToTop(order: seq<EntityId>, ids: seq<EntityId>): (r: seq<EntityId>)
  {
    Sieve(order, ids, false) + Sieve(order, ids, true)
  }

  /** Moving to the top only rearranges the paint order. */
  lemma MoveToTopIsPermutation(order: seq<EntityId>, ids: seq<EntityId>)
    ensures multiset(MoveToTop(order, ids)) == multiset(order)
    ensures |MoveToTop(order, ids)| == |order|
    ensures Distinct(order) ==> Distinct(MoveToTop(order, ids))
  {
    SieveSplits(order, ids);
    if Distinct(order) {
      SieveDistinct(order, ids, false);
      SieveDistinct(order, ids, true);
      DistinctConcat(Sieve(order, ids, false), Sieve(order, ids, true));
    }
  }

  /** Every moved entity ends above every entity that was not moved. */
  lemma MoveToTopPutsIdsAbove(order: seq<EntityId>, ids: seq<EntityId>, x: EntityId, y: EntityId)
    requires x in order && y in order && x !in ids && y in ids
    ensures Precedes(MoveToTop(order, ids), x, y)
  {
    var below, above := Sieve(order, ids, false), Sieve(order, ids, true);
    IndexOfConcat(below, above, x);
    IndexOfConcat(below, above, y);
  }

  /** Two entities that are both moved, or both not moved, keep their relative order. */
  lemma MoveToTopKeepsOrder(order: seq<EntityId>, ids: seq<EntityId>, x: EntityId, y: EntityId)
    requires Distinct(order)
    requires x in order && y in order && (x in ids <==> y in ids)
    ensures Precedes(MoveToTop(order, ids), x, y) <==> Precedes(order, x, y)
  {
    var below, above := Sieve(order, ids, false), Sieve(order, ids, true);
    IndexOfConcat(below, above, x);
    IndexOfConcat(below, above, y);
    if x in ids {
      SieveKeepsOrder(order, ids, true, x, y);
    } else {
      SieveKeepsOrder(order, ids, false, x, y);
    }
  }

  /** A newly appended entity that is moved to the top is already there. */
  lemma MoveNewestToTop(order: seq<EntityId>, id: EntityId)
    requires id !in order
    ensures MoveToTop(order + [id], [id]) == order + [id]
  {
    SieveConcat(order, [id], [id], false);
    SieveConcat(order, [id], [id], true);
    SieveAllOut(order, [id]);
    SieveNoneIn(order, [id]);
  }

  /**
    The paint order after moving each group to the top in turn, skipping empty groups
    (`if (ids.Count > 0) dot.MoveToTop(ids)`).
  */
  function MoveGroups(order: seq<EntityId>, groups: seq<seq<EntityId>>): (r: seq<EntityId>)
  {
    if groups == [] then order
    else
      var prev := MoveGroups(order, groups[..|groups| - 1]);
      var g := groups[|groups| - 1];
      if |g| > 0 then MoveToTop(prev, g) else prev
  }

  /** No entity belongs to two groups. */
  predicate DisjointGroups(groups: seq<seq<EntityId>>) {
    forall i, j, x :: 0 <= i < j < |groups| && x in groups[i] ==> x !in groups[j]
  }

  /** The entity belongs to none of the groups. */
  predicate InNoGroup(groups: seq<seq<EntityId>>, x: EntityId) {
    forall i :: 0 <= i < |groups| ==> x !in groups[i]
  }

  lemma {:induction false} MoveGroupsIsPermutation(order: seq<EntityId>, groups: seq<seq<EntityId>>)
    ensures multiset(MoveGroups(order, groups)) == multiset(order)
    ensures |MoveGroups(order, groups)| == |order|
    ensures Distinct(order) ==> Distinct(MoveGroups(order, groups))
  {
    if groups != [] {
      var prev := MoveGroups(order, groups[..|groups| - 1]);
      MoveGroupsIsPermutation(order, groups[..|groups| - 1]);
      MoveToTopIsPermutation(prev, groups[|groups| - 1]);
    }
  }

  lemma MoveGroupsMembers(order: seq<EntityId>, groups: seq<seq<EntityId>>, x: EntityId)
    ensures x in MoveGroups(order, groups) <==> x in order
  {
    MoveGroupsIsPermutation(order, groups);
    assert x in MoveGroups(order, groups) <==> x in multiset(MoveGroups(order, groups));
  }

  /** A group moved later ends above a group moved earlier. */
  lemma {:induction false} LaterGroupAbove(order: seq<EntityId>, groups: seq<seq<EntityId>>,
                                           i: nat, j: nat, x: EntityId, y: EntityId)
    requires Distinct(order) && DisjointGroups(groups)
    requires i < j < |groups| && y in groups[i] && x in groups[j]
    requires x in order && y in order
    ensures Precedes(MoveGroups(order, groups), y, x)
  {
    var n := |groups| - 1;
    var front := groups[..n];
    var prev := MoveGroups(order, front);
    MoveGroupsIsPermutation(order, front);
    MoveGroupsMembers(order, front, x);
    MoveGroupsMembers(order, front, y);
    if j == n {
      MoveToTopPutsIdsAbove(prev, groups[n], y, x);
    } else {
      assert DisjointGroups(front);
      LaterGroupAbove(order, front, i, j, x, y);
      if |groups[n]| > 0 {
        MoveToTopKeepsOrder(prev, groups[n], y, x);
      }
    }
  }

  /** Two entities that every group holds both or neither of keep their relative order. */
  lemma {:induction false} GroupKeepsOrder(order: seq<EntityId>, groups: seq<seq<EntityId>>, x: EntityId, y: EntityId)
    requires Distinct(order)
    requires forall i :: 0 <= i < |groups| ==> (x in groups[i] <==> y in groups[i])
    requires x in order && y in order
    ensures Precedes(MoveGroups(order, groups), x, y) <==> Precedes(order, x, y)
  {
    if groups != [] {
      var n := |groups| - 1;
      var front := groups[..n];
      var prev := MoveGroups(order, front);
      MoveGroupsIsPermutation(order, front);
      MoveGroupsMembers(order, front, x);
      MoveGroupsMembers(order, front, y);
      GroupKeepsOrder(order, front, x, y);
      if |groups[n]| > 0 {
        MoveToTopKeepsOrder(prev, groups[n], x, y);
      }
    }
  }

  /** Entities outside every group keep their relative order. */
  lemma {:induction false} UngroupedKeepOrder(order: seq<EntityId>, groups: seq<seq<EntityId>>,
                                              x: EntityId, y: EntityId)
    requires Distinct(order)
    requires InNoGroup(groups, x) && InNoGroup(groups, y)
    requires x in order && y in order
    ensures Precedes(MoveGroups(order, groups), x, y) <==> Precedes(order, x, y)
  {
    if groups != [] {
      var n := |groups| - 1;
      var front := groups[..n];
      var prev := MoveGroups(order, front);
      MoveGroupsIsPermutation(order, front);
      MoveGroupsMembers(order, front, x);
      MoveGroupsMembers(order, front, y);
      UngroupedKeepOrder(order, front, x, y);
      if |groups[n]| > 0 {
        MoveToTopKeepsOrder(prev, groups[n], x, y);
      }
    }
  }

  /** Entities outside every group end below every grouped entity. */
  lemma {:induction false} UngroupedBelow(order: seq<EntityId>, groups: seq<seq<EntityId>>,
                                          i: nat, x: EntityId, y: EntityId)
    requires Distinct(order)
    requires i < |groups| && y in groups[i] && InNoGroup(groups, x)
    requires x in order && y in order
    ensures Precedes(MoveGroups(order, groups), x, y)
  {
    var n := |groups| - 1;
    var front := groups[..n];
    var prev := MoveGroups(order, front);
    MoveGroupsIsPermutation(order, front);
    MoveGroupsMembers(order, front, x);
    MoveGroupsMembers(order, front, y);
    if i == n {
      MoveToTopPutsIdsAbove(prev, groups[n], x, y);
    } else {
      UngroupedBelow(order, front, i, x, y);
      if |groups[n]| > 0 && y in groups[n] {
        MoveToTopPutsIdsAbove(prev, groups[n], x, y);
      } else if |groups[n]| > 0 {
        MoveToTopKeepsOrder(prev, groups[n], x, y);
      }
    }
  }
}
