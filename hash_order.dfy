/** The order in which a java.util.HashMap with the default sixteen-slot table hands out
    its keys: slot by slot from slot 0, and within a slot in the order the keys were first
    put (a put on a key already present keeps its place). The maps modelled here never
    hold more than twelve keys, so the table is never resized. */
module HashOrder {
  const Slots: nat := 16

  /** The keys of one slot, in insertion order. */
  function InSlot<K(!new)>(ks: seq<K>, slot: K -> nat, b: nat): seq<K> {
    if ks == [] then []
    else (if slot(ks[0]) == b then [ks[0]] else []) + InSlot(ks[1..], slot, b)
  }

  /** The keys of slot b and above, slot by slot. */
  function OrderFrom<K(!new)>(ks: seq<K>, slot: K -> nat, b: nat): seq<K>
    decreases Slots - b
  {
    if b >= Slots then [] else InSlot(ks, slot, b) + OrderFrom(ks, slot, b + 1)
  }

  lemma {:induction false} InSlotMembers<K(!new)>(ks: seq<K>, slot: K -> nat, b: nat)
    ensures forall k :: k in InSlot(ks, slot, b) <==> k in ks && slot(k) == b
  {
    if ks != [] {
      InSlotMembers(ks[1..], slot, b);
      assert ks == [ks[0]] + ks[1..];
    }
  }

  lemma {:induction false} OrderFromMembers<K(!new)>(ks: seq<K>, slot: K -> nat, b: nat)
    ensures forall k :: k in OrderFrom(ks, slot, b) ==> slot(k) >= b
    decreases Slots - b
  {
    if b < Slots {
      InSlotMembers(ks, slot, b);
      OrderFromMembers(ks, slot, b + 1);
    }
  }

  /** The iteration order of the map's keys (and of its values, which follow their keys). */
  function IterationOrder<K(!new)>(ks: seq<K>, slot: K -> nat): seq<K> {
    OrderFrom(ks, slot, 0)
  }

  /** The keys at slot b or above, in insertion order. */
  function AtLeast<K(!new)>(ks: seq<K>, slot: K -> nat, b: nat): seq<K> {
    if ks == [] then []
    else (if slot(ks[0]) >= b then [ks[0]] else []) + AtLeast(ks[1..], slot, b)
  }

  lemma {:induction false} AtLeastSplit<K(!new)>(ks: seq<K>, slot: K -> nat, b: nat)
    ensures multiset(AtLeast(ks, slot, b)) == multiset(InSlot(ks, slot, b)) + multiset(AtLeast(ks, slot, b + 1))
  {
    if ks != [] {
      AtLeastSplit(ks[1..], slot, b);
    }
  }

  lemma {:induction false} AtLeastNone<K(!new)>(ks: seq<K>, slot: K -> nat, b: nat)
    requires forall k :: k in ks ==> slot(k) < b
    ensures AtLeast(ks, slot, b) == []
  {
    if ks != [] {
      assert ks[0] in ks;
      AtLeastNone(ks[1..], slot, b);
    }
  }

  lemma {:induction false} AtLeastAll<K(!new)>(ks: seq<K>, slot: K -> nat)
    ensures AtLeast(ks, slot, 0) == ks
  {
    if ks != [] {
      AtLeastAll(ks[1..], slot);
      assert ks == [ks[0]] + ks[1..];
    }
  }

  lemma {:induction false} OrderFromCount<K(!new)>(ks: seq<K>, slot: K -> nat, b: nat)
    requires forall k :: k in ks ==> slot(k) < Slots
    ensures multiset(OrderFrom(ks, slot, b)) == multiset(AtLeast(ks, slot, b))
    decreases Slots - b
  {
    if b >= Slots {
      AtLeastNone(ks, slot, b);
    } else {
      OrderFromCount(ks, slot, b + 1);
      AtLeastSplit(ks, slot, b);
    }
  }

  /** Every key is visited exactly once. */
  lemma IterationOrderIsPermutation<K(!new)>(ks: seq<K>, slot: K -> nat)
    requires forall k :: k in ks ==> slot(k) < Slots
    ensures multiset(IterationOrder(ks, slot)) == multiset(ks)
  {
    OrderFromCount(ks, slot, 0);
    AtLeastAll(ks, slot);
  }

  lemma {:induction false} InSlotAppend<K(!new)>(a: seq<K>, c: seq<K>, slot: K -> nat, b: nat)
    ensures InSlot(a + c, slot, b) == InSlot(a, slot, b) + InSlot(c, slot, b)
  {
    if a != [] {
      InSlotAppend(a[1..], c, slot, b);
      assert (a + c)[1..] == a[1..] + c;
    } else {
      assert a + c == c;
    }
  }

  /** Filtering the keys of one slot again keeps them all, or none for another slot. */
  lemma {:induction false} InSlotTwice<K(!new)>(ks: seq<K>, slot: K -> nat, b: nat, c: nat)
    ensures InSlot(InSlot(ks, slot, b), slot, c) == if b == c then InSlot(ks, slot, b) else []
  {
    if ks != [] {
      InSlotTwice(ks[1..], slot, b, c);
      var head := if slot(ks[0]) == b then [ks[0]] else [];
      InSlotAppend(head, InSlot(ks[1..], slot, b), slot, c);
      if head != [] {
        assert head[1..] == [];
      }
    }
  }

  lemma {:induction false} OrderFromInSlot<K(!new)>(ks: seq<K>, slot: K -> nat, b0: nat, b: nat)
    ensures InSlot(OrderFrom(ks, slot, b0), slot, b) == if b0 <= b < Slots then InSlot(ks, slot, b) else []
    decreases Slots - b0
  {
    if b0 < Slots {
      var here, rest := InSlot(ks, slot, b0), OrderFrom(ks, slot, b0 + 1);
      assert OrderFrom(ks, slot, b0) == here + rest;
      InSlotAppend(here, rest, slot, b);
      InSlotTwice(ks, slot, b0, b);
      OrderFromInSlot(ks, slot, b0 + 1, b);
      if b == b0 {
        assert InSlot(here, slot, b) == here;
        assert InSlot(rest, slot, b) == [];
        assert here + [] == here;
      } else {
        assert InSlot(here, slot, b) == [];
        assert [] + InSlot(rest, slot, b) == InSlot(rest, slot, b);
      }
    } else {
      assert OrderFrom(ks, slot, b0) == [];
    }
  }

  /** A key listed once among distinct keys occurs at most once. */
  lemma {:induction false} DistinctOnce<K>(s: seq<K>, x: K)
    requires forall i, j :: 0 <= i < j < |s| ==> s[i] != s[j]
    ensures multiset(s)[x] <= 1
  {
    if s != [] {
      var init, last := s[..|s| - 1], s[|s| - 1];
      assert s == init + [last];
      DistinctOnce(init, x);
      if last == x {
        assert x !in init by {
          forall i | 0 <= i < |init|
            ensures init[i] != x
          {
            assert s[i] == init[i];
          }
        }
      }
    }
  }

  /** Keys sharing a slot are visited in the order they were first put. */
  lemma IterationOrderStable<K(!new)>(ks: seq<K>, slot: K -> nat, b: nat)
    requires b < Slots
    ensures InSlot(IterationOrder(ks, slot), slot, b) == InSlot(ks, slot, b)
  {
    OrderFromInSlot(ks, slot, 0, b);
  }

  /** Keys listed by non-decreasing slot. */
  predicate SlotSorted<K>(o: seq<K>, slot: K -> nat) {
    forall i, j :: 0 <= i < j < |o| ==> slot(o[i]) <= slot(o[j])
  }

  lemma SortedAppend<K>(a: seq<K>, c: seq<K>, slot: K -> nat)
    requires SlotSorted(a, slot) && SlotSorted(c, slot)
    requires forall x, y | x in a && y in c :: slot(x) <= slot(y)
    ensures SlotSorted(a + c, slot)
  {
    var o := a + c;
    forall i, j | 0 <= i < j < |o|
      ensures slot(o[i]) <= slot(o[j])
    {
      if j < |a| {
        assert o[i] == a[i] && o[j] == a[j];
      } else if i < |a| {
        assert o[i] == a[i] && a[i] in a;
        assert o[j] == c[j - |a|] && c[j - |a|] in c;
      } else {
        assert o[i] == c[i - |a|] && o[j] == c[j - |a|];
      }
    }
  }

  lemma InSlotSorted<K(!new)>(ks: seq<K>, slot: K -> nat, b: nat)
    ensures SlotSorted(InSlot(ks, slot, b), slot)
  {
    var here := InSlot(ks, slot, b);
    InSlotMembers(ks, slot, b);
    forall i, j | 0 <= i < j < |here|
      ensures slot(here[i]) <= slot(here[j])
    {
      assert here[i] in here && here[j] in here;
    }
  }

  lemma InSlotBeforeRest<K(!new)>(ks: seq<K>, slot: K -> nat, b: nat)
    ensures forall x, y | x in InSlot(ks, slot, b) && y in OrderFrom(ks, slot, b + 1) :: slot(x) <= slot(y)
  {
    InSlotMembers(ks, slot, b);
    OrderFromMembers(ks, slot, b + 1);
  }

  lemma {:induction false} OrderFromSorted<K(!new)>(ks: seq<K>, slot: K -> nat, b: nat)
    ensures SlotSorted(OrderFrom(ks, slot, b), slot)
    decreases Slots - b
  {
    if b < Slots {
      var here := InSlot(ks, slot, b);
      var rest := OrderFrom(ks, slot, b + 1);
      assert OrderFrom(ks, slot, b) == here + rest;
      OrderFromSorted(ks, slot, b + 1);
      InSlotSorted(ks, slot, b);
      InSlotBeforeRest(ks, slot, b);
      SortedAppend(here, rest, slot);
    }
  }

  /** The map visits its keys slot by slot. */
  lemma IterationOrderSorted<K(!new)>(ks: seq<K>, slot: K -> nat)
    ensures SlotSorted(IterationOrder(ks, slot), slot)
  {
    assert IterationOrder(ks, slot) == OrderFrom(ks, slot, 0);
    OrderFromSorted(ks, slot, 0);
  }
}
