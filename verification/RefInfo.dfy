/** The packed 64-bit reference word of a shared object: owner id in the top 16
    bits, reference count in the next 16, the owner's era in the low 32. */
module RefInfo {

  const ID_LIMIT := 0x1_0000
  const CNT_LIMIT := 0x1_0000
  const ERA_LIMIT := 0x1_0000_0000
  const WORD_LIMIT := 0x1_0000_0000_0000_0000

  /** A reference word, field by field. */
  datatype Word = Word(cid: nat, cnt: nat, era: nat)

  /** The word of a block that is not allocated: `memset` to zero. */
  const ZERO := Word(0, 0, 0)

  ghost predicate InRange(w: Word) {
    w.cid < ID_LIMIT && w.cnt < CNT_LIMIT && w.era < ERA_LIMIT
  }

  /** The packed word, in 64-bit unsigned arithmetic. The count is an `int` since
      the code passes `count - 1` and `count + 1`, unchecked. */
  function Pack(cid: nat, cnt: int, era: nat): nat {
    (cid * 0x1_0000_0000_0000 + cnt * 0x1_0000_0000 + era) % WORD_LIMIT
  }

  function CntOf(info: nat): nat {
    info / 0x1_0000_0000 % CNT_LIMIT
  }

  function EraOf(info: nat): nat {
    info % ERA_LIMIT
  }

  function CidOf(info: nat): nat {
    info / 0x1_0000_0000_0000 % ID_LIMIT
  }

  function PackWord(w: Word): nat {
    Pack(w.cid, w.cnt, w.era)
  }

  function Unpack(info: nat): Word {
    Word(CidOf(info), CntOf(info), EraOf(info))
  }

  /** The getters undo the packing of every word whose fields are in range. */
  lemma UnpackPack(w: Word)
    requires InRange(w)
    ensures PackWord(w) < WORD_LIMIT
    ensures Unpack(PackWord(w)) == w
  {
    var high := w.cid * CNT_LIMIT + w.cnt;
    assert PackWord(w) == high * ERA_LIMIT + w.era;
    assert PackWord(w) / ERA_LIMIT == high;
  }

  /** The packing undoes the getters on every 64-bit word. */
  lemma PackUnpack(info: nat)
    requires info < WORD_LIMIT
    ensures InRange(Unpack(info))
    ensures PackWord(Unpack(info)) == info
  {
    assert info / 0x1_0000_0000_0000 == info / 0x1_0000_0000 / 0x1_0000;
  }

  /** A compare-and-swap of packed words compares exactly the three fields. */
  lemma CasComparesFields(a: Word, b: Word)
    requires InRange(a) && InRange(b)
    ensures PackWord(a) == PackWord(b) <==> a == b
  {
    UnpackPack(a);
    UnpackPack(b);
  }

  /** Counting past 65535 carries into the owner id. */
  lemma IncrementCarries(cid: nat, era: nat)
    requires cid < ID_LIMIT && era < ERA_LIMIT
    ensures Pack(cid, CNT_LIMIT, era) == PackWord(Word((cid + 1) % ID_LIMIT, 0, era))
  {
    if cid + 1 < ID_LIMIT {
      assert (cid + 1) % ID_LIMIT == cid + 1;
    } else {
      assert cid * 0x1_0000_0000_0000 + CNT_LIMIT * 0x1_0000_0000 + era == WORD_LIMIT + era;
    }
  }

  /** Counting below zero borrows from the owner id. */
  lemma DecrementBorrows(cid: nat, era: nat)
    requires cid < ID_LIMIT && era < ERA_LIMIT
    ensures Pack(cid, -1, era) == PackWord(Word((cid + ID_LIMIT - 1) % ID_LIMIT, CNT_LIMIT - 1, era))
  {
    if cid > 0 {
      assert (cid + ID_LIMIT - 1) % ID_LIMIT == cid - 1;
    } else {
      assert -0x1_0000_0000 + era
          == -WORD_LIMIT + ((ID_LIMIT - 1) * 0x1_0000_0000_0000 + (CNT_LIMIT - 1) * 0x1_0000_0000 + era);
    }
  }

  /** What `link_reference` and `unlink_reference` write is the count they meant
      exactly when the step neither passes 65535 nor goes below zero; otherwise
      the carry or borrow also changes the owner id. */
  lemma StepFits(cid: nat, cnt: nat, delta: int, era: nat)
    requires InRange(Word(cid, cnt, era)) && (delta == 1 || delta == -1)
    ensures var w := Unpack(Pack(cid, cnt + delta, era));
            && w.era == era
            && (w.cnt == cnt + delta && w.cid == cid
                <==> !(delta == 1 && cnt == CNT_LIMIT - 1) && !(delta == -1 && cnt == 0))
  {
    if delta == 1 && cnt == CNT_LIMIT - 1 {
      IncrementCarries(cid, era);
      UnpackPack(Word((cid + 1) % ID_LIMIT, 0, era));
    } else if delta == -1 && cnt == 0 {
      DecrementBorrows(cid, era);
      UnpackPack(Word((cid + ID_LIMIT - 1) % ID_LIMIT, CNT_LIMIT - 1, era));
    } else {
      UnpackPack(Word(cid, cnt + delta, era));
    }
  }
}
