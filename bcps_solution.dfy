/**
  BcpsSolution: a solution of a BCPS subproblem, `size` values and a quality, and the
  Bcps part of its serialisation. The class header is not part of this model; the
  fields are the ones the serialisation code uses.
*/
module BcpsSolutions {
  import opened Wrappers
  import opened CTypes
  import opened AlpsCodec

  /** The three fields of a BcpsSolution, as a value. */
  datatype SolutionFields = SolutionFields(size: int32, values: seq<real>, quality: real)

  /** The tokens `encodeBcps` writes: `size`, then the array form of the first `size`
      values (which repeats `size` as its length), then `quality`. */
  function EncodeSolution(s: SolutionFields): (ts: seq<Token>)
    requires 0 <= s.size as int <= |s.values|
    ensures |ts| == s.size as int + 3
  {
    [IntTok(s.size)] + DoubleBlock(s.values[..s.size]) + [DoubleTok(s.quality)]
  }

  /** The fields and the cursor after `decodeBcps` reads `size`, the value block (whose
      length lands in `size` again) and `quality` from `ts` at `pos` into a solution whose
      fields were `f`. */
  function DecodeSolution(f: SolutionFields, ts: seq<Token>, pos: nat): (SolutionFields, nat)
  {
    var (size, p1) := ValueOr(ReadIntAt(ts, pos), f.size, pos);
    var ((length, values), p2) := ValueOr(ReadDoubleBlockAt(ts, p1), (size, f.values), p1);
    var (quality, p3) := ValueOr(ReadDoubleAt(ts, p2), f.quality, p2);
    (SolutionFields(length, values, quality), p3)
  }

  /** Decoding what encoding wrote gives back the size, the `size` values written and the
      quality, whatever the solution held before, and leaves the cursor just past the
      Bcps part, so that what follows is read next. */
  lemma SolutionRoundTrip(s: SolutionFields, g: SolutionFields, pre: seq<Token>, post: seq<Token>)
    requires 0 <= s.size as int <= |s.values|
    ensures DecodeSolution(g, pre + EncodeSolution(s) + post, |pre|)
            == (s.(values := s.values[..s.size]), |pre| + |EncodeSolution(s)|)
  {
    var vs := s.values[..s.size];
    var ts := pre + EncodeSolution(s) + post;
    var pre1 := pre + [IntTok(s.size)];
    var post1 := [DoubleTok(s.quality)] + post;
    assert ts == pre1 + DoubleBlock(vs) + post1;
    assert |vs| as int32 == s.size;
    var p1, p2 := |pre| + 1, |pre| + 2 + |vs|;
    assert ReadIntAt(ts, |pre|) == Some((s.size, p1)) by {
      assert ts[|pre|] == IntTok(s.size);
    }
    assert ReadDoubleBlockAt(ts, p1) == Some(((s.size, vs), p2)) by {
      DoubleBlockRoundTrip(pre1, vs, post1);
    }
    assert ReadDoubleAt(ts, p2) == Some((s.quality, p2 + 1)) by {
      assert ts[p2] == DoubleTok(s.quality);
    }
  }

  /** When `size` counts all the values, decoding restores the solution exactly. */
  lemma SolutionRoundTripExact(s: SolutionFields, g: SolutionFields, pre: seq<Token>, post: seq<Token>)
    requires s.size as int == |s.values|
    ensures DecodeSolution(g, pre + EncodeSolution(s) + post, |pre|).0 == s
  {
    SolutionRoundTrip(s, g, pre, post);
    assert s.values[..s.size] == s.values;
  }

  /** Size 3, values [0.0, 1.0, 0.5] and quality 12.5 come back unchanged from an empty buffer. */
  lemma SolutionRoundTripExample(g: SolutionFields)
    ensures var s := SolutionFields(3, [0.0, 1.0, 0.5], 12.5);
            DecodeSolution(g, EncodeSolution(s), 0) == (s, 6)
  {
    var s := SolutionFields(3, [0.0, 1.0, 0.5], 12.5);
    SolutionRoundTripExact(s, g, [], []);
    assert [] + EncodeSolution(s) + [] == EncodeSolution(s);
  }

  /** A solution (class BcpsSolution). */
  class BcpsSolution {
    var size: int32
    var values: seq<real>
    var quality: real

    /** The three fields as a value. */
    function State(): SolutionFields
      reads this
    {
      SolutionFields(size, values, quality)
    }

    /** Not implemented in this version: returns null whatever `etol` is. */
    function SelectNonzeros(etol: real): (r: Option<BcpsSolution>)
      ensures r == None
    {
      None
    }

    /** Not implemented in this version: returns null whatever `etol` is. */
    function SelectFractional(etol: real): (r: Option<BcpsSolution>)
      ensures r == None
    {
      None
    }

    /** `encodeBcps`: appends `size`, the value block and `quality`; the solution is const,
        the read cursor untouched, and the result ALPS_OK. */
    method EncodeBcps(encoded: AlpsEncoded) returns (status: int)
      requires 0 <= size as int <= |values|
      modifies encoded`tokens
      ensures encoded.tokens == old(encoded.tokens) + EncodeSolution(State())
      ensures status == AlpsOk
    {
      status := AlpsOk;
      encoded.WriteInt(size);
      encoded.WriteDoubles(values, size);
      encoded.WriteDouble(quality);
    }

    /** `decodeBcps`: reads `size`, the value block and `quality` back in the same order;
        the result is ALPS_OK. */
    method DecodeBcps(encoded: AlpsEncoded) returns (status: int)
      modifies this, encoded`pos
      ensures (State(), encoded.pos) == DecodeSolution(old(State()), encoded.tokens, old(encoded.pos))
      ensures status == AlpsOk
    {
      status := AlpsOk;
      size := encoded.ReadInt(size);
      values, size := encoded.ReadDoubles(values, size);
      quality := encoded.ReadDouble(quality);
    }
  }

  /** A solution encoded into an empty buffer and decoded into a new solution comes back with
      its size, its first `size` values and its quality; both calls return ALPS_OK. */
  method SolutionWireRoundTrip(s: BcpsSolution) returns (t: BcpsSolution, encodeStatus: int, decodeStatus: int)
    requires 0 <= s.size as int <= |s.values|
    ensures t.size == s.size && t.values == s.values[..s.size] && t.quality == s.quality
    ensures encodeStatus == AlpsOk && decodeStatus == AlpsOk
  {
    var buf := new AlpsEncoded.Empty();
    encodeStatus := s.EncodeBcps(buf);
    t := new BcpsSolution;
    SolutionRoundTrip(s.State(), t.State(), [], []);
    assert buf.tokens == [] + EncodeSolution(s.State()) + [];
    decodeStatus := t.DecodeBcps(buf);
  }
}
