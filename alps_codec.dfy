/**
  The encoding buffer (AlpsEncoded) that BcpsObject and BcpsSolution serialise into.
  Its byte layout belongs to the Alps library and is not part of this model: the buffer
  is a sequence of typed tokens, `writeRep` appends tokens at the end and `readRep`
  consumes them from a read cursor. The array form of `writeRep`/`readRep` is a
  length-prefixed block: the length as an int token, then one double token per entry.
*/
module AlpsCodec {
  import opened Wrappers
  import opened CTypes

  /** The return code ALPS_OK of the Alps library. */
  const AlpsOk: int := 0

  /** The representation kinds of a BCPS object (enum BcpsObjRep_t). */
  datatype ObjRep = Core | Indexed | Algo

  /** One value written by `writeRep`, tagged with the C++ type it was written as. */
  datatype Token =
    | IntTok(i: int32)        // int
    | RepTok(rep: ObjRep)     // BcpsObjRep_t
    | CharTok(c: bv8)         // char (BcpsIntegral_t)
    | DoubleTok(d: real)      // double, stored and copied but never computed with

  /** The tokens of the entries of a double array, in order. */
  function DoubleTokens(vs: seq<real>): (ts: seq<Token>)
    ensures |ts| == |vs|
    ensures forall k :: 0 <= k < |vs| ==> ts[k] == DoubleTok(vs[k])
  {
    seq(|vs|, k requires 0 <= k < |vs| => DoubleTok(vs[k]))
  }

  /** What the array form `writeRep(values, length)` appends: the length, then the entries. */
  function DoubleBlock(vs: seq<real>): (ts: seq<Token>)
    requires |vs| < 0x8000_0000
    ensures |ts| == 1 + |vs|
    ensures ts[0] == IntTok(|vs| as int32) && ts[1..] == DoubleTokens(vs)
  {
    [IntTok(|vs| as int32)] + DoubleTokens(vs)
  }

  // Reading one token at a cursor: the value and the cursor just past it, or None when
  // the cursor is at the end or the token there was written as another type.

  function ReadIntAt(ts: seq<Token>, pos: nat): (r: Option<(int32, nat)>)
    ensures r.Some? <==> pos < |ts| && ts[pos].IntTok?
    ensures r.Some? ==> r.value == (ts[pos].i, pos + 1)
  {
    if pos < |ts| && ts[pos].IntTok? then Some((ts[pos].i, pos + 1)) else None
  }

  function ReadRepAt(ts: seq<Token>, pos: nat): (r: Option<(ObjRep, nat)>)
    ensures r.Some? <==> pos < |ts| && ts[pos].RepTok?
    ensures r.Some? ==> r.value == (ts[pos].rep, pos + 1)
  {
    if pos < |ts| && ts[pos].RepTok? then Some((ts[pos].rep, pos + 1)) else None
  }

  function ReadCharAt(ts: seq<Token>, pos: nat): (r: Option<(bv8, nat)>)
    ensures r.Some? <==> pos < |ts| && ts[pos].CharTok?
    ensures r.Some? ==> r.value == (ts[pos].c, pos + 1)
  {
    if pos < |ts| && ts[pos].CharTok? then Some((ts[pos].c, pos + 1)) else None
  }

  function ReadDoubleAt(ts: seq<Token>, pos: nat): (r: Option<(real, nat)>)
    ensures r.Some? <==> pos < |ts| && ts[pos].DoubleTok?
    ensures r.Some? ==> r.value == (ts[pos].d, pos + 1)
  {
    if pos < |ts| && ts[pos].DoubleTok? then Some((ts[pos].d, pos + 1)) else None
  }

  /** The value and cursor of a read, or `d` and the unmoved cursor `pos` when the read failed:
      a failed read leaves the variable it was reading into as it was. */
  function ValueOr<T>(r: Option<(T, nat)>, d: T, pos: nat): (v: (T, nat))
    ensures r.None? ==> v == (d, pos)
    ensures r.Some? ==> v == r.value
  {
    match r
    case Some(x) => x
    case None => (d, pos)
  }

  /** The `n` double entries starting at `pos`, or None if fewer follow. */
  function TakeDoubles(ts: seq<Token>, pos: nat, n: nat): (r: Option<seq<real>>)
    ensures r.Some? ==> |r.value| == n && (n > 0 ==> pos + n <= |ts|)
    ensures r.Some? ==> forall k :: 0 <= k < n ==> ts[pos + k] == DoubleTok(r.value[k])
    decreases n
  {
    if n == 0 then Some([])
    else if pos < |ts| && ts[pos].DoubleTok? then
      match TakeDoubles(ts, pos + 1, n - 1)
      case Some(rest) => Some([ts[pos].d] + rest)
      case None => None
    else None
  }

  /** The array form of `readRep`: the length, the entries and the cursor past the block. */
  function ReadDoubleBlockAt(ts: seq<Token>, pos: nat): (r: Option<((int32, seq<real>), nat)>)
  {
    match ReadIntAt(ts, pos)
    case None => None
    case Some((n, p)) =>
      if n < 0 then None
      else
        match TakeDoubles(ts, p, n as nat)
        case None => None
        case Some(vs) => Some(((n, vs), p + n as nat))
  }

  /** TakeDoubles returns exactly the entries that DoubleTokens wrote, whatever surrounds them. */
  lemma {:induction false} TakeDoublesOfTokens(pre: seq<Token>, vs: seq<real>, post: seq<Token>)
    ensures TakeDoubles(pre + DoubleTokens(vs) + post, |pre|, |vs|) == Some(vs)
    decreases |vs|
  {
    if |vs| > 0 {
      var ts := pre + DoubleTokens(vs) + post;
      var pre' := pre + [DoubleTok(vs[0])];
      assert ts == pre' + DoubleTokens(vs[1..]) + post;
      TakeDoublesOfTokens(pre', vs[1..], post);
      assert ts[|pre|] == DoubleTok(vs[0]);
      assert [vs[0]] + vs[1..] == vs;
    }
  }

  /** Reading back a block written by the array form of `writeRep` gives the same length and
      entries and leaves the cursor just past the block. */
  lemma DoubleBlockRoundTrip(pre: seq<Token>, vs: seq<real>, post: seq<Token>)
    requires |vs| < 0x8000_0000
    ensures ReadDoubleBlockAt(pre + DoubleBlock(vs) + post, |pre|)
            == Some(((|vs| as int32, vs), |pre| + 1 + |vs|))
  {
    var ts := pre + DoubleBlock(vs) + post;
    assert ts[|pre|] == IntTok(|vs| as int32);
    assert ts == (pre + [IntTok(|vs| as int32)]) + DoubleTokens(vs) + post;
    TakeDoublesOfTokens(pre + [IntTok(|vs| as int32)], vs, post);
  }

  /** The encoding buffer: the tokens written so far and the read cursor. */
  class AlpsEncoded {
    var tokens: seq<Token>
    var pos: nat

    /** An empty buffer, ready to be written to and read from the start. */
    constructor Empty()
      ensures tokens == [] && pos == 0
    {
      tokens, pos := [], 0;
    }

    method WriteInt(v: int32)
      modifies this`tokens
      ensures tokens == old(tokens) + [IntTok(v)]
    {
      tokens := tokens + [IntTok(v)];
    }

    method WriteRep(v: ObjRep)
      modifies this`tokens
      ensures tokens == old(tokens) + [RepTok(v)]
    {
      tokens := tokens + [RepTok(v)];
    }

    method WriteChar(v: bv8)
      modifies this`tokens
      ensures tokens == old(tokens) + [CharTok(v)]
    {
      tokens := tokens + [CharTok(v)];
    }

    method WriteDouble(v: real)
      modifies this`tokens
      ensures tokens == old(tokens) + [DoubleTok(v)]
    {
      tokens := tokens + [DoubleTok(v)];
    }

    /** The array form: `length` is written first, then the first `length` entries. */
    method WriteDoubles(values: seq<real>, length: int32)
      requires 0 <= length as int <= |values|
      modifies this`tokens
      ensures tokens == old(tokens) + DoubleBlock(values[..length])
    {
      tokens := tokens + DoubleBlock(values[..length]);
    }

    // `readRep(value)` takes its target by reference: on success it stores what it read
    // there and moves the cursor past it; otherwise target and cursor stay as they were.

    method ReadInt(value: int32) returns (v: int32)
      modifies this`pos
      ensures (v, pos) == ValueOr(ReadIntAt(tokens, old(pos)), value, old(pos))
    {
      var r := ValueOr(ReadIntAt(tokens, pos), value, pos);
      v, pos := r.0, r.1;
    }

    method ReadRep(value: ObjRep) returns (v: ObjRep)
      modifies this`pos
      ensures (v, pos) == ValueOr(ReadRepAt(tokens, old(pos)), value, old(pos))
    {
      var r := ValueOr(ReadRepAt(tokens, pos), value, pos);
      v, pos := r.0, r.1;
    }

    method ReadChar(value: bv8) returns (v: bv8)
      modifies this`pos
      ensures (v, pos) == ValueOr(ReadCharAt(tokens, old(pos)), value, old(pos))
    {
      var r := ValueOr(ReadCharAt(tokens, pos), value, pos);
      v, pos := r.0, r.1;
    }

    method ReadDouble(value: real) returns (v: real)
      modifies this`pos
      ensures (v, pos) == ValueOr(ReadDoubleAt(tokens, old(pos)), value, old(pos))
    {
      var r := ValueOr(ReadDoubleAt(tokens, pos), value, pos);
      v, pos := r.0, r.1;
    }

    /** The array form `readRep(values, length)`: both are taken by reference and receive the
        block's entries and its length. */
    method ReadDoubles(values: seq<real>, length: int32) returns (vs: seq<real>, len: int32)
      modifies this`pos
      ensures ((len, vs), pos) == ValueOr(ReadDoubleBlockAt(tokens, old(pos)), (length, values), old(pos))
    {
      var r := ValueOr(ReadDoubleBlockAt(tokens, pos), (length, values), pos);
      len, vs, pos := r.0.0, r.0.1, r.1;
    }
  }
}
