/**
 Evidence accumulating over an investigation: merge_evidence, its ceiling, and what
 applying it once for every observation amounts to.
 */
module EvidenceMerge {
  import opened Wrappers

  datatype Evidence = Evidence(id: string, callId: string, isEvent: bool, content: string)

  const EVIDENCE_CAPACITY := 200

  /** Merged so far: what is held, the ids whose reading changed, and how many were not recorded. */
  datatype Merge = Merge(held: seq<Evidence>, superseded: seq<string>, dropped: nat)

  function Ids(evidence: seq<Evidence>): seq<string>
  {
    seq(|evidence|, i requires 0 <= i < |evidence| => evidence[i].id)
  }

  predicate Distinct<T(==)>(s: seq<T>)
  {
    forall i, j | 0 <= i < j < |s| :: s[i] != s[j]
  }

  function IndexOf<T(==)>(s: seq<T>, x: T): (i: nat)
    ensures i <= |s|
    ensures i < |s| ==> s[i] == x
    ensures i < |s| <==> x in s
  {
    if s == [] then 0 else if s[0] == x then 0 else 1 + IndexOf(s[1..], x)
  }

  /** One write to an insertion-ordered dictionary. */
  function Put(held: seq<Evidence>, item: Evidence): seq<Evidence>
  {
    var i := IndexOf(Ids(held), item.id);
    if i < |held| then held[i := item] else held + [item]
  }

  function MergeOne(m: Merge, item: Evidence, capacity: nat): Merge
  {
    var i := IndexOf(Ids(m.held), item.id);
    if i < |m.held| then
      if m.held[i] != item then m.(held := Put(m.held, item), superseded := m.superseded + [item.id]) else m
    else if |m.held| >= capacity then m.(dropped := m.dropped + 1)
    else m.(held := Put(m.held, item))
  }

  function MergeAll(m: Merge, additions: seq<Evidence>, capacity: nat): Merge
  {
    if additions == [] then m
    else MergeOne(MergeAll(m, additions[..|additions| - 1], capacity), additions[|additions| - 1], capacity)
  }

  function MergeInto(existing: seq<Evidence>, additions: seq<Evidence>, capacity: nat): Merge
  {
    MergeAll(Merge(existing, [], 0), additions, capacity)
  }

  // ----- what it means ------------------------------------------------------

  /** The last item of a list with this id. */
  function Latest(items: seq<Evidence>, id: string): Option<Evidence>
  {
    if items == [] then None
    else if items[|items| - 1].id == id then Some(items[|items| - 1])
    else Latest(items[..|items| - 1], id)
  }

  function Unheld(additions: seq<Evidence>, ids: seq<string>): nat
  {
    if additions == [] then 0
    else Unheld(additions[..|additions| - 1], ids) + (if additions[|additions| - 1].id in ids then 0 else 1)
  }

  lemma {:induction false} LatestOfDistinct(items: seq<Evidence>, i: nat)
    requires i < |items| && Distinct(Ids(items))
    ensures Latest(items, items[i].id) == Some(items[i])
  {
    var k := |items| - 1;
    if i < k {
      assert Ids(items)[i] != Ids(items)[k];
      assert Ids(items[..k]) == Ids(items)[..k];
      LatestOfDistinct(items[..k], i);
    }
  }

  lemma {:induction false} UnheldGrows(additions: seq<Evidence>, ids: seq<string>, more: seq<string>)
    requires ids <= more
    requires forall e | e in additions :: e.id in more ==> e.id in ids
    ensures Unheld(additions, more) == Unheld(additions, ids)
  {
    if additions != [] {
      var last := additions[|additions| - 1];
      UnheldGrows(additions[..|additions| - 1], ids, more);
      assert last.id in ids ==> last.id in more;
    }
  }

  /**
   The whole effect of one merge: ids already held keep their places, every held item is
   the latest reading of its id, the ceiling is kept, and an addition is dropped exactly
   when its id is not held at the end, which only happens at the ceiling.
   */
  ghost predicate MergeEffect(existing: seq<Evidence>, additions: seq<Evidence>, capacity: nat, m: Merge)
  {
    && Distinct(Ids(m.held))
    && Ids(existing) <= Ids(m.held)
    && |m.held| <= capacity
    && (forall i | 0 <= i < |m.held| :: Latest(existing + additions, m.held[i].id) == Some(m.held[i]))
    && m.dropped == Unheld(additions, Ids(m.held))
    && (m.dropped > 0 ==> |m.held| == capacity)
  }

  lemma {:induction false} MergeKeepsLatest(existing: seq<Evidence>, additions: seq<Evidence>, capacity: nat)
    requires Distinct(Ids(existing)) && |existing| <= capacity
    ensures MergeEffect(existing, additions, capacity, MergeInto(existing, additions, capacity))
  {
    if additions == [] {
      forall i | 0 <= i < |existing| ensures Latest(existing + additions, existing[i].id) == Some(existing[i]) {
        assert existing + additions == existing;
        LatestOfDistinct(existing, i);
      }
    } else {
      var k := |additions| - 1;
      MergeKeepsLatest(existing, additions[..k], capacity);
      MergeOneEffect(existing, additions, capacity, MergeInto(existing, additions[..k], capacity));
    }
  }

  /** Held items are the latest readings of their ids, of a list that just grew by one. */
  lemma LatestStays(all: seq<Evidence>, before: Merge, item: Evidence, capacity: nat)
    requires Distinct(Ids(before.held))
    requires forall i | 0 <= i < |before.held| :: Latest(all, before.held[i].id) == Some(before.held[i])
    ensures var m := MergeOne(before, item, capacity);
            m.dropped == before.dropped ==>
              forall q | 0 <= q < |m.held| :: Latest(all + [item], m.held[q].id) == Some(m.held[q])
  {
    var m := MergeOne(before, item, capacity);
    assert (all + [item])[..|all|] == all;
    if m.dropped == before.dropped {
      forall q | 0 <= q < |m.held| ensures Latest(all + [item], m.held[q].id) == Some(m.held[q]) {
        if q < |before.held| { assert Ids(before.held)[q] == before.held[q].id; }
        if m.held[q].id != item.id { assert m.held[q] == before.held[q]; }
      }
    }
  }

  lemma MergeOneEffect(existing: seq<Evidence>, additions: seq<Evidence>, capacity: nat, before: Merge)
    requires additions != []
    requires MergeEffect(existing, additions[..|additions| - 1], capacity, before)
    ensures MergeEffect(existing, additions, capacity, MergeOne(before, additions[|additions| - 1], capacity))
  {
    var k := |additions| - 1;
    var item := additions[k];
    var m := MergeOne(before, item, capacity);
    assert existing + additions == existing + additions[..k] + [item];
    if IndexOf(Ids(before.held), item.id) < |before.held| {
      assert Ids(m.held) == Ids(before.held);
    } else if |before.held| < capacity {
      assert Ids(m.held) == Ids(before.held) + [item.id];
      UnheldZero(additions[..k], Ids(before.held));
      UnheldGrows(additions[..k], Ids(before.held), Ids(m.held));
    }
    LatestStays(existing + additions[..k], before, item, capacity);
    DroppedStays(existing + additions[..k], before, item, capacity);
    hide Latest;
  }

  /** An item turned away at the ceiling is nobody's latest reading among those held. */
  lemma DroppedStays(all: seq<Evidence>, before: Merge, item: Evidence, capacity: nat)
    requires forall i | 0 <= i < |before.held| :: Latest(all, before.held[i].id) == Some(before.held[i])
    ensures var m := MergeOne(before, item, capacity);
            m.dropped != before.dropped ==>
              forall q | 0 <= q < |m.held| :: Latest(all + [item], m.held[q].id) == Some(m.held[q])
  {
    assert (all + [item])[..|all|] == all;
    forall q | 0 <= q < |before.held| && before.held[q].id == item.id ensures item.id in Ids(before.held) {
      assert Ids(before.held)[q] == item.id;
    }
  }

  lemma {:induction false} UnheldZero(additions: seq<Evidence>, ids: seq<string>)
    requires Unheld(additions, ids) == 0
    ensures forall e | e in additions :: e.id in ids
  {
    if additions != [] {
      UnheldZero(additions[..|additions| - 1], ids);
    }
  }

  // ----- merging batch by batch ---------------------------------------------

  lemma {:induction false} MergeAllAppends(m: Merge, a: seq<Evidence>, b: seq<Evidence>, capacity: nat)
    ensures MergeAll(MergeAll(m, a, capacity), b, capacity) == MergeAll(m, a + b, capacity)
  {
    if b == [] {
      assert a + b == a;
    } else {
      var k := |b| - 1;
      MergeAllAppends(m, a, b[..k], capacity);
      assert (a + b)[..|a + b| - 1] == a + b[..k];
    }
  }

  /** The books of a merge do not depend on what was counted before it. */
  lemma {:induction false} MergeAllShifts(m: Merge, additions: seq<Evidence>, capacity: nat)
    ensures var own := MergeInto(m.held, additions, capacity);
            MergeAll(m, additions, capacity)
            == Merge(own.held, m.superseded + own.superseded, m.dropped + own.dropped)
  {
    if additions != [] {
      MergeAllShifts(m, additions[..|additions| - 1], capacity);
    }
  }

  /** Merging two batches, one node after the other, is merging them together. */
  lemma MergingComposes(existing: seq<Evidence>, a: seq<Evidence>, b: seq<Evidence>, capacity: nat)
    ensures var first := MergeInto(existing, a, capacity);
            var second := MergeInto(first.held, b, capacity);
            var together := MergeInto(existing, a + b, capacity);
            && second.held == together.held
            && first.superseded + second.superseded == together.superseded
            && first.dropped + second.dropped == together.dropped
  {
    MergeAllAppends(Merge(existing, [], 0), a, b, capacity);
    MergeAllShifts(MergeInto(existing, a, capacity), b, capacity);
  }

  /** Every addition is inserted, matched or dropped. */
  lemma {:induction false} AdditionsAreAccountedFor(existing: seq<Evidence>, additions: seq<Evidence>, capacity: nat)
    requires Distinct(Ids(existing)) && |existing| <= capacity
    ensures var m := MergeInto(existing, additions, capacity);
            |additions| == (|m.held| - |existing|) + Matched(existing, additions, capacity) + m.dropped
    ensures |MergeInto(existing, additions, capacity).held| >= |existing|
  {
    AccountedFor(existing, additions, capacity);
    MergeKeepsLatest(existing, additions, capacity);
    var m := MergeInto(existing, additions, capacity);
    assert |Ids(existing)| <= |Ids(m.held)|;
  }

  /** Additions that found their id already held. */
  function Matched(existing: seq<Evidence>, additions: seq<Evidence>, capacity: nat): nat
  {
    if additions == [] then 0
    else
      var k := |additions| - 1;
      Matched(existing, additions[..k], capacity)
      + (if additions[k].id in Ids(MergeInto(existing, additions[..k], capacity).held) then 1 else 0)
  }

  lemma {:induction false} AccountedFor(existing: seq<Evidence>, additions: seq<Evidence>, capacity: nat)
    ensures var m := MergeInto(existing, additions, capacity);
            |additions| == (|m.held| - |existing|) + Matched(existing, additions, capacity) + m.dropped
  {
    if additions != [] {
      AccountedFor(existing, additions[..|additions| - 1], capacity);
    }
  }

  // ----- the loop -----------------------------------------------------------

  datatype MergeNote = Superseded(id: string) | CapacityReached(dropped: nat)

  function Notes(m: Merge): seq<MergeNote>
  {
    seq(|m.superseded|, i requires 0 <= i < |m.superseded| => Superseded(m.superseded[i]))
    + (if m.dropped > 0 then [CapacityReached(m.dropped)] else [])
  }

  /** A dictionary's keys in insertion order and its values hold exactly this list. */
  ghost predicate DictIs(keys: seq<string>, values: map<string, Evidence>, held: seq<Evidence>)
  {
    && keys == Ids(held) && Distinct(keys)
    && (forall i | 0 <= i < |keys| :: keys[i] in values && values[keys[i]] == held[i])
    && (forall id | id in values :: id in keys)
  }

  lemma DictHolds(keys: seq<string>, values: map<string, Evidence>, held: seq<Evidence>, id: string)
    requires DictIs(keys, values, held)
    ensures var i := IndexOf(Ids(held), id);
            if id in values then i < |held| && held[i] == values[id] else i == |held|
  {
  }

  /** A write the merge makes is a write to the dictionary; a key is new only when it is appended. */
  lemma DictPut(keys: seq<string>, values: map<string, Evidence>, m: Merge, item: Evidence, capacity: nat)
    requires DictIs(keys, values, m.held)
    ensures item.id in values || |keys| < capacity ==>
              DictIs(if item.id in values then keys else keys + [item.id], values[item.id := item],
                     MergeOne(m, item, capacity).held)
  {
    DictHolds(keys, values, m.held, item.id);
    var i := IndexOf(Ids(m.held), item.id);
    if i < |m.held| {
      assert Ids(m.held[i := item]) == Ids(m.held);
      assert keys[i] == item.id;
      assert m.held[i := m.held[i]] == m.held;
    } else {
      assert Ids(m.held + [item]) == Ids(m.held) + [item.id];
    }
  }

  /** What the dictionary comprehension over a list of distinct ids stores. */
  function ValuesOf(items: seq<Evidence>): map<string, Evidence>
  {
    var ids := Ids(items);
    map id | id in ids :: items[IndexOf(ids, id)]
  }

  /** merge_evidence, over a dictionary that remembers insertion order. */
  method MergeEvidence(existing: seq<Evidence>, additions: seq<Evidence>, capacity: nat)
    returns (held: seq<Evidence>, notes: seq<MergeNote>)
    requires Distinct(Ids(existing))
    ensures held == MergeInto(existing, additions, capacity).held
    ensures notes == Notes(MergeInto(existing, additions, capacity))
  {
    var keys := Ids(existing);
    var values := ValuesOf(existing);
    ghost var m := Merge(existing, [], 0);
    notes := [];
    var dropped := 0;
    DictOfList(existing);
    assert additions[..0] == [];
    hide DictIs, IndexOf, Put, Ids;
    for k := 0 to |additions|
      invariant m == MergeInto(existing, additions[..k], capacity)
      invariant DictIs(keys, values, m.held) && |keys| == |m.held|
      invariant dropped == m.dropped && notes == Notes(m.(dropped := 0))
    {
      var item := additions[k];
      assert additions[..k + 1][..k] == additions[..k];
      DictHolds(keys, values, m.held, item.id);
      DictPut(keys, values, m, item, capacity);
      m := MergeOne(m, item, capacity);
      if item.id in values && values[item.id] != item {
        notes := notes + [Superseded(item.id)];
      } else if item.id !in values && |keys| >= capacity {
        dropped := dropped + 1;
        continue;
      }
      if item.id !in values { keys := keys + [item.id]; }
      values := values[item.id := item];
      DictSize(keys, values, m.held);
    }
    assert additions[..|additions|] == additions;
    if dropped > 0 { notes := notes + [CapacityReached(dropped)]; }
    DictList(keys, values, m.held);
    held := seq(|keys|, i requires 0 <= i < |keys| && keys[i] in values => values[keys[i]]);
  }

  lemma DictOfList(held: seq<Evidence>)
    requires Distinct(Ids(held))
    ensures DictIs(Ids(held), ValuesOf(held), held)
  {
    var ids := Ids(held);
    forall i | 0 <= i < |ids| ensures ids[i] in ValuesOf(held) && ValuesOf(held)[ids[i]] == held[i] {
      assert ids[i] in ids && IndexOf(ids, ids[i]) == i;
    }
  }

  lemma DictSize(keys: seq<string>, values: map<string, Evidence>, held: seq<Evidence>)
    requires DictIs(keys, values, held)
    ensures |keys| == |held|
  {
  }

  lemma DictList(keys: seq<string>, values: map<string, Evidence>, held: seq<Evidence>)
    requires DictIs(keys, values, held)
    ensures |keys| == |held| && forall i | 0 <= i < |keys| :: keys[i] in values && values[keys[i]] == held[i]
  {
  }
}
