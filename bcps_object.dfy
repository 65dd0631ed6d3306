/**
  BcpsObject: one variable or constraint of a BCPS subproblem, with its index,
  representation kind, integrality type, status bits, hard and soft bounds and hash;
  and the two role classes BcpsConstraint and BcpsVariable, which add only the role
  they report. C++ inheritance is modelled by composition: a role object owns the
  BcpsObject part it inherits (`base`).
*/
module BcpsObjects {
  import opened Wrappers
  import opened CTypes
  import opened AlpsCodec
  import opened StatusBits
  import opened StatusWord
  import opened StatusHistory
  import opened StatusCalls

  /** Handle of the external model (BcpsModel); the base hooks never look at it. */
  datatype BcpsModel = BcpsModel(id: nat)

  /** Handle of an external branching object (BcpsBranchObject). */
  datatype BcpsBranchObject = BcpsBranchObject(id: nat)

  /** The role of an object (enum BcpsObject_t). */
  datatype ObjType = PrimalObject | DualObject
  {
    /** The enumerator's value in the C++ enum. */
    function Code(): int
    {
      match this
      case PrimalObject => 0
      case DualObject => 1
    }
  }

  /** BCPS_VARIABLE is another name for BCPS_PRIMAL_OBJECT. */
  const Variable: ObjType := PrimalObject
  /** BCPS_CONSTRAINT is another name for BCPS_DUAL_OBJECT. */
  const Constraint: ObjType := DualObject

  /** The nine fields of a BcpsObject, as a value. */
  datatype ObjectFields = ObjectFields(
    index: int32,
    repType: ObjRep,
    intType: bv8,     // 'C', 'I', 'B' or 'S' by convention; nothing checks it
    status: int32,
    lbHard: real,
    ubHard: real,
    lbSoft: real,
    ubSoft: real,
    hash: real)

  /** What both constructors set: no index yet, the given bounds, hash 0.0. The
      representation kind, the integrality type and the status are left uninitialised. */
  predicate Initialised(f: ObjectFields, lbh: real, ubh: real, lbs: real, ubs: real)
  {
    f.index == -1 && f.lbHard == lbh && f.ubHard == ubh && f.lbSoft == lbs && f.ubSoft == ubs
    && f.hash == 0.0
  }

  /** What the copy constructor copies: the index, the four bounds and the hash (and not the
      representation kind, the integrality type or the status). */
  predicate CopiedFrom(f: ObjectFields, src: ObjectFields)
  {
    f.index == src.index && f.lbHard == src.lbHard && f.ubHard == src.ubHard
    && f.lbSoft == src.lbSoft && f.ubSoft == src.ubSoft && f.hash == src.hash
  }

  /** The tokens `encodeBcps` writes: the nine fields in their fixed wire order. */
  function EncodeFields(f: ObjectFields): (ts: seq<Token>)
    ensures |ts| == 9
  {
    [IntTok(f.index), RepTok(f.repType), CharTok(f.intType), IntTok(f.status),
     DoubleTok(f.lbHard), DoubleTok(f.ubHard), DoubleTok(f.lbSoft), DoubleTok(f.ubSoft),
     DoubleTok(f.hash)]
  }

  /** The fields and the cursor after the `k`-th read of `decodeBcps` (k from 0 to 8, in
      the order EncodeFields writes them), starting from the fields and cursor `s`. */
  function ReadField(ts: seq<Token>, k: nat, s: (ObjectFields, nat)): (ObjectFields, nat)
    requires k < 9
  {
    var (f, pos) := s;
    match k
    case 0 => var (v, p) := ValueOr(ReadIntAt(ts, pos), f.index, pos); (f.(index := v), p)
    case 1 => var (v, p) := ValueOr(ReadRepAt(ts, pos), f.repType, pos); (f.(repType := v), p)
    case 2 => var (v, p) := ValueOr(ReadCharAt(ts, pos), f.intType, pos); (f.(intType := v), p)
    case 3 => var (v, p) := ValueOr(ReadIntAt(ts, pos), f.status, pos); (f.(status := v), p)
    case 4 => var (v, p) := ValueOr(ReadDoubleAt(ts, pos), f.lbHard, pos); (f.(lbHard := v), p)
    case 5 => var (v, p) := ValueOr(ReadDoubleAt(ts, pos), f.ubHard, pos); (f.(ubHard := v), p)
    case 6 => var (v, p) := ValueOr(ReadDoubleAt(ts, pos), f.lbSoft, pos); (f.(lbSoft := v), p)
    case 7 => var (v, p) := ValueOr(ReadDoubleAt(ts, pos), f.ubSoft, pos); (f.(ubSoft := v), p)
    case _ => var (v, p) := ValueOr(ReadDoubleAt(ts, pos), f.hash, pos); (f.(hash := v), p)
  }

  /** The fields and the cursor after `decodeBcps` reads its nine values from `ts` at `pos`
      into an object whose fields were `f`. */
  function DecodeFields(f: ObjectFields, ts: seq<Token>, pos: nat): (ObjectFields, nat)
  {
    var s0 := (f, pos);
    var s1 := ReadField(ts, 0, s0);
    var s2 := ReadField(ts, 1, s1);
    var s3 := ReadField(ts, 2, s2);
    var s4 := ReadField(ts, 3, s3);
    var s5 := ReadField(ts, 4, s4);
    var s6 := ReadField(ts, 5, s5);
    var s7 := ReadField(ts, 6, s6);
    var s8 := ReadField(ts, 7, s7);
    ReadField(ts, 8, s8)
  }

  /** Decoding what encoding wrote restores all nine fields, whatever the object held
      before, and consumes exactly the nine tokens: what follows them (a subclass's own
      fields) is read next. */
  lemma FieldsRoundTrip(f: ObjectFields, g: ObjectFields, pre: seq<Token>, post: seq<Token>)
    ensures DecodeFields(g, pre + EncodeFields(f) + post, |pre|) == (f, |pre| + 9)
  {
  }

  /** A Bcps object (class BcpsObject). */
  class BcpsObject {
    var objectIndex: int32
    var repType: ObjRep
    var intType: bv8
    var status: int32
    var lbHard: real
    var ubHard: real
    var lbSoft: real
    var ubSoft: real
    var hashValue: real

    /** The nine fields as a value. */
    function State(): ObjectFields
      reads this
    {
      ObjectFields(objectIndex, repType, intType, status, lbHard, ubHard, lbSoft, ubSoft, hashValue)
    }

    /** The default constructor: all four bounds 0.0. */
    constructor ()
      ensures Initialised(State(), 0.0, 0.0, 0.0, 0.0)
    {
      objectIndex := -1;
      repType, intType, status := *, *, *;
      lbHard, ubHard, lbSoft, ubSoft := 0.0, 0.0, 0.0, 0.0;
      hashValue := 0.0;
    }

    /** The constructor that takes the hard and soft bounds. */
    constructor WithBounds(lbh: real, ubh: real, lbs: real, ubs: real)
      ensures Initialised(State(), lbh, ubh, lbs, ubs)
    {
      objectIndex := -1;
      repType, intType, status := *, *, *;
      lbHard, ubHard, lbSoft, ubSoft := lbh, ubh, lbs, ubs;
      hashValue := 0.0;
    }

    /** The copy constructor. */
    constructor Copy(rhs: BcpsObject)
      ensures CopiedFrom(State(), rhs.State())
    {
      objectIndex := rhs.objectIndex;
      repType, intType, status := *, *, *;
      lbHard, ubHard, lbSoft, ubSoft := rhs.lbHard, rhs.ubHard, rhs.lbSoft, rhs.ubSoft;
      hashValue := rhs.hashValue;
    }

    // Each getter returns its field of the object's state.
    function GetObjectIndex(): (r: int32) reads this ensures r == State().index { objectIndex }
    function GetRepType(): (r: ObjRep) reads this ensures r == State().repType { repType }
    function GetIntType(): (r: bv8) reads this ensures r == State().intType { intType }
    function GetStatus(): (r: int32) reads this ensures r == State().status { status }
    function GetLbHard(): (r: real) reads this ensures r == State().lbHard { lbHard }
    function GetUbHard(): (r: real) reads this ensures r == State().ubHard { ubHard }
    function GetLbSoft(): (r: real) reads this ensures r == State().lbSoft { lbSoft }
    function GetUbSoft(): (r: real) reads this ensures r == State().ubSoft { ubSoft }
    function HashValue(): (r: real) reads this ensures r == State().hash { hashValue }

    method SetObjectIndex(ind: int32)
      modifies this
      ensures State() == old(State()).(index := ind) && GetObjectIndex() == ind
    {
      objectIndex := ind;
    }

    method SetRepType(rt: ObjRep)
      modifies this
      ensures State() == old(State()).(repType := rt) && GetRepType() == rt
    {
      repType := rt;
    }

    method SetIntType(it: bv8)
      modifies this
      ensures State() == old(State()).(intType := it) && GetIntType() == it
    {
      intType := it;
    }

    /** ORs the bits of `st` into the status: no bit that was set is cleared. */
    method SetStatus(st: int32)
      modifies this
      ensures State() == old(State()).(status := GetStatus())
      ensures GetStatus() == IntOr(old(GetStatus()), st)
      ensures ToBits(GetStatus()) == ToBits(old(GetStatus())) | ToBits(st)
      ensures HasAll(ToBits(GetStatus()), ToBits(old(GetStatus())))
      ensures HasAll(ToBits(GetStatus()), ToBits(st))
    {
      IntOrKeepsAndSets(status, st);
      status := IntOr(status, st);
    }

    method SetLbHard(lb: real)
      modifies this
      ensures State() == old(State()).(lbHard := lb) && GetLbHard() == lb
    {
      lbHard := lb;
    }

    method SetUbHard(ub: real)
      modifies this
      ensures State() == old(State()).(ubHard := ub) && GetUbHard() == ub
    {
      ubHard := ub;
    }

    method SetLbSoft(lb: real)
      modifies this
      ensures State() == old(State()).(lbSoft := lb) && GetLbSoft() == lb
    {
      lbSoft := lb;
    }

    method SetUbSoft(ub: real)
      modifies this
      ensures State() == old(State()).(ubSoft := ub) && GetUbSoft() == ub
    {
      ubSoft := ub;
    }

    /** The base `hashing` resets the hash to 0.0 and touches nothing else. */
    method Hashing(m: Option<BcpsModel>)
      modifies this
      ensures State() == old(State()).(hash := 0.0) && HashValue() == 0.0
    {
      hashValue := 0.0;
    }

    /** The base infeasibility: 0.0 (satisfied), inside the documented range [0.0, 0.5];
        the preferred way passed in comes back as it was. */
    function Infeasibility(m: Option<BcpsModel>, preferredWay: int32): (r: (real, int32))
      ensures 0.0 <= r.0 <= 0.5
      ensures r.0 == 0.0 && r.1 == preferredWay
    {
      (0.0, preferredWay)
    }

    /** The base object cannot be branched on: no branching object. */
    function CreateBranchObject(m: Option<BcpsModel>, way: int32): (r: Option<BcpsBranchObject>)
      ensures r == None
    {
      None
    }

    /** The base object finds no branch towards a new feasible point in a good direction. */
    function PreferredNewFeasible(m: Option<BcpsModel>): (r: Option<BcpsBranchObject>)
      ensures r == None
    {
      None
    }

    /** The base object finds no branch towards a new feasible point in a bad direction. */
    function NotPreferredNewFeasible(m: Option<BcpsModel>): (r: Option<BcpsBranchObject>)
      ensures r == None
    {
      None
    }

    /** Branches on the base object act by changing bounds. */
    function BoundBranch(m: Option<BcpsModel>): (r: bool)
      ensures r
    {
      true
    }

    /** The default "up" pseudo-cost estimate. */
    function UpEstimate(): (r: real)
      ensures r == 1.0e-5
    {
      0.00001
    }

    /** The default "down" pseudo-cost estimate. */
    function DownEstimate(): (r: real)
      ensures r == 1.0e-5
    {
      0.00001
    }

    /** `encodeBcps`: appends the nine fields in their wire order; the object and the read
        cursor are not changed. */
    method EncodeBcps(encoded: AlpsEncoded)
      modifies encoded`tokens
      ensures encoded.tokens == old(encoded.tokens) + EncodeFields(State())
    {
      encoded.WriteInt(objectIndex);
      encoded.WriteRep(repType);
      encoded.WriteChar(intType);
      encoded.WriteInt(status);
      encoded.WriteDouble(lbHard);
      encoded.WriteDouble(ubHard);
      encoded.WriteDouble(lbSoft);
      encoded.WriteDouble(ubSoft);
      encoded.WriteDouble(hashValue);
    }

    /** `decodeBcps`: reads the nine fields in the same order, each read overwriting its field. */
    method DecodeBcps(encoded: AlpsEncoded)
      modifies this, encoded`pos
      ensures (State(), encoded.pos) == DecodeFields(old(State()), encoded.tokens, old(encoded.pos))
    {
      ghost var acc := (State(), encoded.pos);
      objectIndex := encoded.ReadInt(objectIndex);
      acc := ReadField(encoded.tokens, 0, acc);
      assert acc == (State(), encoded.pos);
      repType := encoded.ReadRep(repType);
      acc := ReadField(encoded.tokens, 1, acc);
      assert acc == (State(), encoded.pos);
      intType := encoded.ReadChar(intType);
      acc := ReadField(encoded.tokens, 2, acc);
      assert acc == (State(), encoded.pos);
      status := encoded.ReadInt(status);
      acc := ReadField(encoded.tokens, 3, acc);
      assert acc == (State(), encoded.pos);
      lbHard := encoded.ReadDouble(lbHard);
      acc := ReadField(encoded.tokens, 4, acc);
      assert acc == (State(), encoded.pos);
      ubHard := encoded.ReadDouble(ubHard);
      acc := ReadField(encoded.tokens, 5, acc);
      assert acc == (State(), encoded.pos);
      lbSoft := encoded.ReadDouble(lbSoft);
      acc := ReadField(encoded.tokens, 6, acc);
      assert acc == (State(), encoded.pos);
      ubSoft := encoded.ReadDouble(ubSoft);
      acc := ReadField(encoded.tokens, 7, acc);
      assert acc == (State(), encoded.pos);
      hashValue := encoded.ReadDouble(hashValue);
      acc := ReadField(encoded.tokens, 8, acc);
      assert acc == (State(), encoded.pos);
    }
  }

  /** An object encoded into an empty buffer and decoded into a new object comes back with
      all nine fields, and decoding stops after the nine tokens it wrote. */
  method ObjectWireRoundTrip(o: BcpsObject) returns (copy: BcpsObject, read: nat)
    ensures copy.State() == o.State() && read == 9
  {
    var buf := new AlpsEncoded.Empty();
    o.EncodeBcps(buf);
    copy := new BcpsObject();
    FieldsRoundTrip(o.State(), copy.State(), [], []);
    assert buf.tokens == [] + EncodeFields(o.State()) + [];
    copy.DecodeBcps(buf);
    read := buf.pos;
  }

  /** `setStatus(BCPS_BRACNEDON)` then `setStatus(BCPS_SENDABLE)` on an object leaves both
      flags and every earlier bit set: the status is the fold SetAll over the two flags. */
  method BranchThenSend(o: BcpsObject)
    modifies o
    ensures ToBits(o.GetStatus()) == SetAll(ToBits(old(o.GetStatus())), [BranchedOn, Sendable])
    ensures HasAll(ToBits(o.GetStatus()), BranchedOn) && HasAll(ToBits(o.GetStatus()), Sendable)
    ensures HasAll(ToBits(o.GetStatus()), ToBits(old(o.GetStatus())))
    ensures o.State() == old(o.State()).(status := o.GetStatus())
  {
    BranchedOnThenSendableWords(o.GetStatus());
    o.SetStatus(BranchedOnWord);
    o.SetStatus(SendableWord);
  }

  /** A constraint (class BcpsConstraint): a BcpsObject that reports the dual role. */
  class BcpsConstraint {
    const base: BcpsObject

    constructor ()
      ensures fresh(base) && Initialised(base.State(), 0.0, 0.0, 0.0, 0.0)
    {
      base := new BcpsObject();
    }

    constructor WithBounds(lbh: real, ubh: real, lbs: real, ubs: real)
      ensures fresh(base) && Initialised(base.State(), lbh, ubh, lbs, ubs)
    {
      base := new BcpsObject.WithBounds(lbh, ubh, lbs, ubs);
    }

    constructor Copy(rhs: BcpsConstraint)
      ensures fresh(base) && CopiedFrom(base.State(), rhs.base.State())
    {
      base := new BcpsObject.Copy(rhs.base);
    }

    /** Always BCPS_CONSTRAINT, that is BCPS_DUAL_OBJECT, whose value is 1. */
    function GetObjType(): (t: ObjType)
      ensures t == Constraint && t == DualObject && t.Code() == 1
    {
      Constraint
    }
  }

  /** A variable (class BcpsVariable): a BcpsObject that reports the primal role. */
  class BcpsVariable {
    const base: BcpsObject

    constructor ()
      ensures fresh(base) && Initialised(base.State(), 0.0, 0.0, 0.0, 0.0)
    {
      base := new BcpsObject();
    }

    constructor WithBounds(lbh: real, ubh: real, lbs: real, ubs: real)
      ensures fresh(base) && Initialised(base.State(), lbh, ubh, lbs, ubs)
    {
      base := new BcpsObject.WithBounds(lbh, ubh, lbs, ubs);
    }

    constructor Copy(rhs: BcpsVariable)
      ensures fresh(base) && CopiedFrom(base.State(), rhs.base.State())
    {
      base := new BcpsObject.Copy(rhs.base);
    }

    /** Always BCPS_VARIABLE, that is BCPS_PRIMAL_OBJECT, whose value is 0. */
    function GetObjType(): (t: ObjType)
      ensures t == Variable && t == PrimalObject && t.Code() == 0
    {
      Variable
    }
  }
}
