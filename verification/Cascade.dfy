/** `test_free`: dropping a root releases everything that only the root kept alive. */
module Cascade {
  import opened RedoLog

  /** The embedded reference slots of each block; fixed while the block lives. */
  type Layout = map<Obj, seq<Slot>>

  ghost predicate Embeds(lay: Layout, o: Obj, s: Slot) {
    o in lay && s in lay[o]
  }

  /** The slot is embedded in an object of the set. */
  ghost predicate InSome(lay: Layout, objs: set<Obj>, s: Slot) {
    exists o | o in objs :: Embeds(lay, o, s)
  }

  function InSlots(slot: map<Slot, Obj>, o: Obj): set<Slot> {
    set s | s in slot && slot[s] == o
  }

  /** A slot lies in at most one object. */
  ghost predicate WellLaid(lay: Layout, inside: map<Slot, Obj>, slot: map<Slot, Obj>) {
    forall o, s :: Embeds(lay, o, s) ==> s in slot && s in inside && inside[s] == o
  }

  /** A set of objects that reference counting must have freed once slot s and the slots
      of its members are gone: it contains every object that no other slot holds. */
  ghost predicate Closed(lay: Layout, live: set<Obj>, slot: map<Slot, Obj>, s: Slot, dead: set<Obj>) {
    forall o | o in live && (forall x | x in InSlots(slot, o) :: x == s || InSome(lay, dead, x)) :: o in dead
  }

  /** The effect of dropping slot s: the objects freed are the least set closed under "all
      its slots are gone"; besides s, only slots of freed objects change, and they are
      cleared. (That the freed set is itself closed is DroppedIsClosed below.) */
  ghost predicate Dropped(lay: Layout, live: set<Obj>, slot: map<Slot, Obj>, s: Slot, live': set<Obj>,
                          slot': map<Slot, Obj>)
  {
    && live' <= live && slot'.Keys == slot.Keys && s in slot && slot'[s] == 0
    && (forall x | x in slot && slot'[x] != slot[x] :: slot'[x] == 0 && (x == s || InSome(lay, live - live', x)))
    && (forall dead: set<Obj> | Closed(lay, live, slot, s, dead) :: live - live' <= dead)
  }

  /** Halfway: the object behind s, held by s alone, has dropped some of its slots. */
  ghost predicate Opened(lay: Layout, live: set<Obj>, slot: map<Slot, Obj>, s: Slot, live': set<Obj>,
                         slot': map<Slot, Obj>)
  {
    && live' <= live && slot'.Keys == slot.Keys && s in slot && slot[s] in live && InSlots(slot, slot[s]) == {s}
    && (forall x | x in slot && slot'[x] != slot[x] ::
          slot'[x] == 0 && (Embeds(lay, slot[s], x) || InSome(lay, live - live', x)))
    && (forall dead: set<Obj> | Closed(lay, live, slot, s, dead) :: live - live' <= dead)
  }

  lemma OpenedStep(lay: Layout, live: set<Obj>, slot: map<Slot, Obj>, s: Slot,
                   live1: set<Obj>, slot1: map<Slot, Obj>, x: Slot, live2: set<Obj>, slot2: map<Slot, Obj>)
    requires Opened(lay, live, slot, s, live1, slot1) && Embeds(lay, slot[s], x)
    requires Dropped(lay, live1, slot1, x, live2, slot2)
    ensures Opened(lay, live, slot, s, live2, slot2)
  {
    forall dead: set<Obj> | Closed(lay, live, slot, s, dead) ensures live - live2 <= dead {
      assert slot[s] in dead;
      assert InSome(lay, dead, x);
      assert live - live1 <= dead;
      ClosedCarries(lay, live, slot, s, live1, slot1, x, dead);
      assert live1 - live2 <= dead;
    }
    forall y | y in slot && slot2[y] != slot[y]
      ensures slot2[y] == 0 && (Embeds(lay, slot[s], y) || InSome(lay, live - live2, y))
    {
    }
  }

  lemma OpenedDone(lay: Layout, live: set<Obj>, slot: map<Slot, Obj>, s: Slot, live': set<Obj>, slot': map<Slot, Obj>)
    requires Opened(lay, live, slot, s, live', slot')
    ensures Dropped(lay, live, slot, s, live' - {slot[s]}, slot'[s := 0])
  {
    forall dead: set<Obj> | Closed(lay, live, slot, s, dead) ensures slot[s] in dead {
    }
  }

  /** What must be freed initially must still be freed after part of it is gone. */
  lemma ClosedCarries(lay: Layout, live: set<Obj>, slot: map<Slot, Obj>, s: Slot,
                      live': set<Obj>, slot': map<Slot, Obj>, x: Slot, dead: set<Obj>)
    requires Closed(lay, live, slot, s, dead) && live' <= live && slot'.Keys == slot.Keys
    requires forall y | y in slot && slot'[y] != slot[y] :: InSome(lay, dead, y)
    requires InSome(lay, dead, x)
    ensures Closed(lay, live', slot', x, dead)
  {
    forall o | o in live' && (forall y | y in InSlots(slot', o) :: y == x || InSome(lay, dead, y)) ensures o in dead {
      forall y | y in InSlots(slot, o) ensures InSome(lay, dead, y) {
        if slot'[y] == slot[y] {
          assert y in InSlots(slot', o);
        }
      }
    }
  }

  /** Conversely, nothing is left behind: where every live object is still held afterwards,
      the set of freed objects is closed, so it is exactly the least closed set. */
  lemma DroppedIsClosed(lay: Layout, live: set<Obj>, slot: map<Slot, Obj>, s: Slot, live': set<Obj>,
                        slot': map<Slot, Obj>)
    requires Dropped(lay, live, slot, s, live', slot') && 0 !in live
    requires forall o | o in live' :: InSlots(slot', o) != {}
    requires forall o, x | o in live - live' && Embeds(lay, o, x) && x in slot' :: slot'[x] == 0
    ensures Closed(lay, live, slot, s, live - live')
  {
    forall o | o in live' ensures exists x :: x in InSlots(slot, o) && x != s && !InSome(lay, live - live', x) {
      var x :| x in InSlots(slot', o);
      assert slot'[x] == o != 0;
      assert x in InSlots(slot, o);
    }
  }

  lemma TwoSlots(slot: map<Slot, Obj>, s: Slot, x: Slot)
    requires s in slot && x in slot && slot[s] == slot[x] && s != x
    ensures |InSlots(slot, slot[s])| >= 2
  {
    var all := InSlots(slot, slot[s]);
    assert all == {s, x} + (all - {s, x});
  }

  /** Count equals in-degree, which is positive for live objects; freed objects hold nothing. */
  ghost predicate GraphOk(lay: Layout, inside: map<Slot, Obj>, live: set<Obj>, cnt: map<Obj, nat>,
                          slot: map<Slot, Obj>)
  {
    && WellLaid(lay, inside, slot)
    && live <= lay.Keys && live <= cnt.Keys && 0 !in live
    && (forall s | s in slot :: slot[s] == 0 || slot[s] in live)
    && (forall o {:trigger InSlots(slot, o)} | o in live :: cnt[o] == |InSlots(slot, o)|)
    && (forall o | o in live :: cnt[o] >= 1)
    && (forall o, s {:trigger Embeds(lay, o, s)} :: Embeds(lay, o, s) && o !in live ==> slot[s] == 0)
  }

  function Unlinked(live: set<Obj>, cnt: map<Obj, nat>, o: Obj): set<Obj> {
    if o in cnt && cnt[o] == 1 then live - {o} else live
  }

  lemma UnlinkCount(slot: map<Slot, Obj>, s: Slot, o: Obj)
    requires s in slot && slot[s] != 0 && o != 0
    ensures |InSlots(slot[s := 0], o)| == |InSlots(slot, o)| - (if slot[s] == o then 1 else 0)
  {
    assert InSlots(slot[s := 0], o) == InSlots(slot, o) - (if slot[s] == o then {s} else {});
  }

  lemma LastSlot(slot: map<Slot, Obj>, s: Slot)
    requires s in slot && |InSlots(slot, slot[s])| == 1
    ensures InSlots(slot, slot[s]) == {s}
    ensures forall x | x in slot && x != s :: slot[x] != slot[s]
  {
    assert s in InSlots(slot, slot[s]) && |InSlots(slot, slot[s]) - {s}| == 0;
    forall x | x in slot && x != s ensures slot[x] != slot[s] {
      assert x !in InSlots(slot, slot[s]);
    }
  }

  /** Taking one slot off an object that holds nothing if it dies. */
  lemma UnlinkOk(lay: Layout, inside: map<Slot, Obj>, live: set<Obj>, cnt: map<Obj, nat>, slot: map<Slot, Obj>, s: Slot)
    requires GraphOk(lay, inside, live, cnt, slot) && s in slot && slot[s] != 0
    requires cnt[slot[s]] == 1 ==> forall x :: Embeds(lay, slot[s], x) ==> slot[x] == 0
    ensures cnt[slot[s]] > 0
    ensures GraphOk(lay, inside, Unlinked(live, cnt, slot[s]), cnt[slot[s] := cnt[slot[s]] - 1], slot[s := 0])
  {
    var refed := slot[s];
    if cnt[refed] == 1 {
      assert |InSlots(slot, refed)| == 1;
      LastSlot(slot, s);
    }
    forall o | o in Unlinked(live, cnt, refed)
      ensures cnt[refed := cnt[refed] - 1][o] == |InSlots(slot[s := 0], o)|
    {
      UnlinkCount(slot, s, o);
      assert cnt[o] == |InSlots(slot, o)|;
    }
  }

  /** Each object was entered through its only slot. */
  ghost predicate PathOk(live: set<Obj>, cnt: map<Obj, nat>, slot: map<Slot, Obj>, holds: map<Obj, Slot>) {
    forall p {:trigger holds[p]} | p in holds ::
      p in live && p in cnt && cnt[p] == 1 && holds[p] in slot && slot[holds[p]] == p
  }

  /** Leaving the object entered last. */
  lemma PathLeft(live: set<Obj>, cnt: map<Obj, nat>, slot: map<Slot, Obj>, holds: map<Obj, Slot>, o: Obj, s: Slot)
    requires PathOk(live, cnt, slot, holds[o := s]) && o !in holds
    ensures o in live && o in cnt && cnt[o] == 1 && s in slot && slot[s] == o
    ensures PathOk(live, cnt, slot, holds)
  {
    assert holds[o := s][o] == s;
    forall p | p in holds ensures holds[o := s][p] == holds[p] {
    }
  }

  /** No object was entered through the slot. */
  ghost predicate Unentered(holds: map<Obj, Slot>, s: Slot) {
    forall p {:trigger holds[p]} | p in holds :: holds[p] != s
  }

  lemma PathUnlinked(live: set<Obj>, cnt: map<Obj, nat>, slot: map<Slot, Obj>, holds: map<Obj, Slot>, s: Slot)
    requires PathOk(live, cnt, slot, holds) && s in slot && slot[s] !in holds && Unentered(holds, s)
    requires slot[s] in cnt && cnt[slot[s]] > 0
    ensures PathOk(Unlinked(live, cnt, slot[s]), cnt[slot[s] := cnt[slot[s]] - 1], slot[s := 0], holds)
  {
    forall p | p in holds
      ensures holds[p] != s && p in live && holds[p] in slot && slot[holds[p]] == p && p != slot[s]
    {
    }
  }

  class ObjectGraph {
    const lay: Layout
    ghost const inside: map<Slot, Obj> // the object an embedded slot lies in
    var live: set<Obj>
    var cnt: map<Obj, nat>
    var slot: map<Slot, Obj>

    ghost predicate Valid()
      reads this
    {
      GraphOk(lay, inside, live, cnt, slot)
    }

    /** The recursion has entered the objects of `holds` through these slots, each the only
        slot of its object. */
    ghost predicate OnPath(holds: map<Obj, Slot>)
      reads this
    {
      PathOk(live, cnt, slot, holds) && forall p {:trigger holds[p]} | p in holds :: Entered(holds, holds[p])
    }

    /** A slot embedded in an object lies in one already entered. */
    ghost predicate Entered(holds: map<Obj, Slot>, s: Slot) {
      forall q {:trigger Embeds(lay, q, s)} :: Embeds(lay, q, s) ==> q in holds
    }

    /** An object entered is never met again: a second slot would make its count 2. */
    lemma NotEnteredTwice(holds: map<Obj, Slot>, s: Slot)
      requires Valid() && OnPath(holds) && s in slot && slot[s] != 0
      requires Unentered(holds, s)
      ensures slot[s] !in holds
    {
      if slot[s] in holds {
        TwoSlots(slot, s, holds[slot[s]]);
        assert false;
      }
    }

    method UnlinkReference(s: Slot)
      requires Valid() && s in slot && slot[s] != 0
      requires cnt[slot[s]] == 1 ==> forall x :: Embeds(lay, slot[s], x) ==> slot[x] == 0
      modifies this
      ensures Valid()
      ensures slot == old(slot)[s := 0]
      ensures live == if old(cnt[slot[s]]) == 1 then old(live) - {old(slot[s])} else old(live)
      ensures cnt == old(cnt)[old(slot[s]) := old(cnt[slot[s]]) - 1]
    {
      UnlinkOk(lay, inside, live, cnt, slot, s);
      var refed := slot[s];
      cnt := cnt[refed := cnt[refed] - 1];
      slot := slot[s := 0];
      if cnt[refed] == 0 {
        live := live - {refed};
      }
    }

    /** Drops slot s and, if it was the last to hold its object, everything only that
        object kept alive. It terminates on every graph when s is not embedded in an
        object, cyclic graphs included. */
    method TestFree(s: Slot, ghost holds: map<Obj, Slot>)
      requires Valid() && s in slot && OnPath(holds) && Entered(holds, s)
      requires Unentered(holds, s)
      modifies this
      ensures Valid() && OnPath(holds)
      ensures Dropped(lay, old(live), old(slot), s, live, slot)
      decreases live - holds.Keys, 1
    {
      if slot[s] == 0 {
        return;
      }
      var refed := slot[s];
      NotEnteredTwice(holds, s);
      if cnt[refed] - 1 > 0 {
        PathUnlinked(live, cnt, slot, holds, s);
        UnlinkReference(s);
        return;
      }
      assert |InSlots(slot, refed)| == 1;
      LastSlot(slot, s);
      DropEmbedded(s, holds);
      PathLeft(live, cnt, slot, holds, refed, s);
      OpenedDone(lay, old(live), old(slot), s, live, slot);
      PathUnlinked(live, cnt, slot, holds, s);
      UnlinkReference(s);
    }

    /** Nothing was entered through a slot of an object not entered before. */
    lemma EnterOne(holds: map<Obj, Slot>, s: Slot)
      requires Valid() && OnPath(holds) && Entered(holds, s) && s in slot && slot[s] in live && cnt[slot[s]] == 1
      requires slot[s] !in holds
      ensures OnPath(holds[slot[s] := s]) && holds[slot[s] := s].Keys == holds.Keys + {slot[s]}
      ensures forall x | Embeds(lay, slot[s], x) :: Unentered(holds[slot[s] := s], x)
    {
      var o := slot[s];
      var holds' := holds[o := s];
      forall p | p in holds' ensures Entered(holds', holds'[p]) && (p == o || holds[p] == holds'[p]) {
        assert p != o ==> Entered(holds, holds[p]);
      }
      forall x | Embeds(lay, o, x) ensures Unentered(holds', x) {
        forall p | p in holds' ensures holds'[p] != x {
          assert p != o ==> Entered(holds, holds[p]);
        }
      }
    }

    /** The loop over the embedded slots of the object behind s. */
    method DropEmbedded(s: Slot, ghost holds: map<Obj, Slot>)
      requires Valid() && s in slot && OnPath(holds) && Entered(holds, s)
      requires slot[s] in live && slot[s] !in holds && cnt[slot[s]] == 1 && InSlots(slot, slot[s]) == {s}
      modifies this
      ensures Valid() && OnPath(holds[old(slot[s]) := s]) && Opened(lay, old(live), old(slot), s, live, slot)
      ensures forall x :: Embeds(lay, old(slot[s]), x) ==> x in slot && slot[x] == 0
      decreases live - holds.Keys, 0
    {
      var refed := slot[s];
      ghost var holds' := holds[refed := s];
      EnterOne(holds, s);
      for i := 0 to |lay[refed]|
        invariant Valid() && OnPath(holds')
        invariant Opened(lay, old(live), old(slot), s, live, slot)
        invariant forall x | x in lay[refed][..i] :: x in slot && slot[x] == 0
      {
        assert Embeds(lay, refed, lay[refed][i]);
        DropOne(lay[refed][i], s, holds', old(live), old(slot));
      }
      assert lay[refed][..|lay[refed]|] == lay[refed];
    }

    /** One embedded slot of the object behind s. */
    method DropOne(x: Slot, ghost s: Slot, ghost holds: map<Obj, Slot>, ghost live0: set<Obj>,
                   ghost slot0: map<Slot, Obj>)
      requires Valid() && OnPath(holds) && Opened(lay, live0, slot0, s, live, slot)
      requires Embeds(lay, slot0[s], x) && slot0[s] in holds && Unentered(holds, x)
      modifies this
      ensures Valid() && OnPath(holds) && Opened(lay, live0, slot0, s, live, slot)
      ensures slot[x] == 0 && forall y | y in old(slot) && old(slot)[y] == 0 :: y in slot && slot[y] == 0
      decreases live - holds.Keys, 2
    {
      ghost var live1, slot1 := live, slot;
      TestFree(x, holds);
      OpenedStep(lay, live0, slot0, s, live1, slot1, x, live, slot);
    }

    /** Dropping a root (`~CXLRef_s` once its own count is 0). */
    method ReleaseRoot(s: Slot)
      requires Valid() && s in slot && forall q :: !Embeds(lay, q, s)
      modifies this
      ensures Valid()
      ensures Dropped(lay, old(live), old(slot), s, live, slot)
      ensures old(slot[s]) != 0 ==> Closed(lay, old(live), old(slot), s, old(live) - live)
    {
      TestFree(s, map[]);
      forall o | o in live ensures InSlots(slot, o) != {} {
        assert |InSlots(slot, o)| == cnt[o] >= 1;
      }
      DroppedIsClosed(lay, old(live), old(slot), s, live, slot);
    }

    /** The embedded references form no cycle. */
    ghost predicate Acyclic(rank: map<Obj, nat>)
      reads this
    {
      live <= rank.Keys
      && forall p, x | p in live && Embeds(lay, p, x) && x in slot && slot[x] in live :: rank[p] < rank[slot[x]]
    }

    /** On acyclic graphs nothing leaks: every live object hangs on a root. */
    lemma {:induction false} NoLeak(o: Obj, rank: map<Obj, nat>) returns (path: seq<Slot>)
      requires Valid() && o in live && Acyclic(rank)
      ensures ChainTo(lay, slot, path, o)
      decreases rank[o]
    {
      var x :| x in InSlots(slot, o) by {
        assert |InSlots(slot, o)| == cnt[o] >= 1;
      }
      if p :| Embeds(lay, p, x) {
        path := NoLeak(p, rank);
        path := path + [x];
      } else {
        path := [x];
      }
    }
  }

  /** A chain of references from a slot that lies in no object. */
  ghost predicate ChainTo(lay: Layout, slot: map<Slot, Obj>, path: seq<Slot>, o: Obj) {
    && |path| > 0 && (forall i | 0 <= i < |path| :: path[i] in slot)
    && (forall q :: !Embeds(lay, q, path[0]))
    && (forall i | 0 < i < |path| :: Embeds(lay, slot[path[i - 1]], path[i]))
    && slot[path[|path| - 1]] == o
  }
}
