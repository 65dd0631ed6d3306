/**
  The status word of a BCPS object and its flags. The C++ field is an `int` used only as
  a bit set, so the model keeps its 32-bit pattern (CTypes.ToBits); `setStatus` ORs bits in.
*/
module StatusBits {
  /** BCPS_NONREMOVALBE: the object may not be removed. */
  const NonRemovable: bv32 := 0x0001
  /** BCPS_BRACNEDON: the object has been branched on. */
  const BranchedOn: bv32 := 0x0010
  /** BCPS_SENDABLE: the object may be sent to a pool. */
  const Sendable: bv32 := 0x0100

  /** Every bit set in `flags` is set in `status`. */
  predicate HasAll(status: bv32, flags: bv32)
  {
    status | flags == status
  }

  /** `f` has exactly one bit set. */
  predicate IsSingleBit(f: bv32)
  {
    f != 0 && f & (f - 1) == 0
  }

  /** The three flags are single bits, pairwise distinct. */
  lemma FlagsAreDistinctBits()
    ensures IsSingleBit(NonRemovable) && IsSingleBit(BranchedOn) && IsSingleBit(Sendable)
    ensures NonRemovable & BranchedOn == 0 && NonRemovable & Sendable == 0
    ensures BranchedOn & Sendable == 0
  {
  }

  /** OR-ing in sets no bit that is neither in `status` nor in `st`. */
  lemma OrAddsNothingElse(status: bv32, st: bv32)
    ensures (status | st) & !status & !st == 0
  {
  }

  /** OR-ing in keeps every bit that was set and sets every bit of `st`. */
  lemma OrKeepsAndSets(status: bv32, st: bv32)
    ensures HasAll(status | st, status) && HasAll(status | st, st)
  {
    assert (status | st) | status == status | st;
    assert (status | st) | st == status | st;
  }

  /** OR-ing in a part of what was OR-ed in already changes nothing. */
  lemma OrAbsorbs(r: bv32, a: bv32, b: bv32)
    ensures (r | (a | b)) | a == r | (a | b)
    ensures (r | (a | b)) | b == r | (a | b)
  {
  }

  /** A status holding all bits of `a | b` holds all bits of `a` and all bits of `b`. */
  lemma HasAllOfUnion(r: bv32, a: bv32, b: bv32)
    requires HasAll(r, a | b)
    ensures HasAll(r, a) && HasAll(r, b)
  {
    OrAbsorbs(r, a, b);
  }
}

/** The OR of two C++ ints, seen on their bit patterns. */
module StatusWord {
  import opened CTypes
  import opened StatusBits

  /** The flags as the C++ ints `setStatus` takes (the macros BCPS_NONREMOVALBE,
      BCPS_BRACNEDON and BCPS_SENDABLE). */
  const NonRemovableWord: int32 := 0x0001
  const BranchedOnWord: int32 := 0x0010
  const SendableWord: int32 := 0x0100

  /** The int flags carry exactly the flag bits. */
  lemma FlagWordBits()
    ensures ToBits(NonRemovableWord) == NonRemovable
    ensures ToBits(BranchedOnWord) == BranchedOn
    ensures ToBits(SendableWord) == Sendable
  {
  }

  /** `a | b` keeps every bit of `a` and has every bit of `b`. */
  lemma IntOrKeepsAndSets(a: int32, b: int32)
    ensures HasAll(ToBits(IntOr(a, b)), ToBits(a))
    ensures HasAll(ToBits(IntOr(a, b)), ToBits(b))
  {
    OrKeepsAndSets(ToBits(a), ToBits(b));
  }
}

/** Sequences of `setStatus` calls. */
module StatusHistory {
  import opened StatusBits

  /** The status after `setStatus(fs[0]); setStatus(fs[1]); ...`. */
  function SetAll(status: bv32, fs: seq<bv32>): bv32
    decreases |fs|
  {
    if fs == [] then status else SetAll(status | fs[0], fs[1..])
  }

  /** One call ORs in its flag. */
  lemma SetAllOne(status: bv32, b: bv32)
    ensures SetAll(status, [b]) == status | b
  {
    assert [b][1..] == [];
  }

  /** Two calls in a row: the first flag is OR-ed in before the second call. */
  lemma SetAllTwo(status: bv32, a: bv32, b: bv32)
    ensures SetAll(status, [a, b]) == SetAll(status | a, [b])
  {
    assert [a, b][1..] == [b];
  }

  /** After any sequence of `setStatus` calls, every bit set before and every flag passed is set. */
  lemma {:induction false} SetAllSticky(status: bv32, fs: seq<bv32>)
    ensures HasAll(SetAll(status, fs), status)
    ensures forall k :: 0 <= k < |fs| ==> HasAll(SetAll(status, fs), fs[k])
    decreases |fs|
  {
    if fs != [] {
      var s1 := status | fs[0];
      SetAllSticky(s1, fs[1..]);
      var r := SetAll(status, fs);
      assert r == SetAll(s1, fs[1..]);
      HasAllOfUnion(r, status, fs[0]);
      forall k | 0 <= k < |fs|
        ensures HasAll(r, fs[k])
      {
        if k > 0 {
          assert fs[k] == fs[1..][k - 1];
        }
      }
    }
  }

  /** `setStatus(BranchedOn)` then `setStatus(Sendable)` leaves both flags, and everything
      set before, present. */
  lemma BranchedOnThenSendable(status: bv32)
    ensures HasAll(SetAll(status, [BranchedOn, Sendable]), BranchedOn)
    ensures HasAll(SetAll(status, [BranchedOn, Sendable]), Sendable)
    ensures HasAll(SetAll(status, [BranchedOn, Sendable]), status)
  {
    SetAllSticky(status, [BranchedOn, Sendable]);
  }
}

/** Calls of `setStatus` with the int flags, seen on the bit patterns. */
module StatusCalls {
  import opened CTypes
  import opened StatusBits
  import opened StatusWord
  import opened StatusHistory

  /** `status | BCPS_BRACNEDON`, then `| BCPS_SENDABLE`, on ints is the fold SetAll over the
      two flags, so both flags and every earlier bit are set. */
  lemma BranchedOnThenSendableWords(status: int32)
    ensures ToBits(IntOr(IntOr(status, BranchedOnWord), SendableWord))
            == SetAll(ToBits(status), [BranchedOn, Sendable])
    ensures HasAll(ToBits(IntOr(IntOr(status, BranchedOnWord), SendableWord)), BranchedOn)
    ensures HasAll(ToBits(IntOr(IntOr(status, BranchedOnWord), SendableWord)), Sendable)
    ensures HasAll(ToBits(IntOr(IntOr(status, BranchedOnWord), SendableWord)), ToBits(status))
  {
    FlagWordBits();
    SetAllTwo(ToBits(status), BranchedOn, Sendable);
    SetAllOne(ToBits(status) | BranchedOn, Sendable);
    BranchedOnThenSendable(ToBits(status));
  }
}
