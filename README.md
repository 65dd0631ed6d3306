# BiCePS objects and solutions in Dafny

This project models two records from BiCePS, the Branch, Constrain and Price layer of
the CHiPPS branch-and-bound framework, and proves properties of the model.

- **BcpsObject** is one variable or constraint of a subproblem. It has nine fields: the
  global index, the representation kind (core, indexed or algorithmic), the integrality
  type, the status bits, the hard and soft lower and upper bounds, and a hash. The model
  covers its constructors, getters and setters, the OR-only `setStatus`, the base
  versions of its virtual hooks, and the protected `encodeBcps`/`decodeBcps` pair.
  **BcpsConstraint** and **BcpsVariable** add only the role they report.
- **BcpsSolution** holds `size` values and a quality. The model covers its `encodeBcps`,
  its `decodeBcps` and its two `select*` stubs.

Files and modules:

- `wrappers.dfy` (`Wrappers`): `Option`, used for pointers that may be null.
- `c_types.dfy` (`CTypes`): the C++ `int` as `int32`, its 32-bit two's complement
  pattern, and `|` on ints.
- `alps_codec.dfy` (`AlpsCodec`): the encoding buffer `AlpsEncoded`, which is a sequence
  of typed tokens with a read cursor. `writeRep` appends tokens. `readRep` consumes them
  and takes its target by reference: a successful read stores the value there and moves
  the cursor on. The array form is a length-prefixed block: an int token with the length,
  then one double token per entry.
- `status_bits.dfy` (`StatusBits`, `StatusWord`, `StatusHistory`): the three status flags
  and what OR-ing bits in does, for one call and for any sequence of calls.
- `bcps_object.dfy` (`BcpsObjects`): `BcpsObject`, `BcpsConstraint` and `BcpsVariable`.
- `bcps_solution.dfy` (`BcpsSolutions`): `BcpsSolution`.

Each serialisation method is specified by a pure function of the tokens. `EncodeFields`
and `DecodeFields` do this for objects, and `EncodeSolution` and `DecodeSolution` do it
for solutions. The round-trip lemmas are proved about those functions.

The C++ macros are spelt `BCPS_NONREMOVALBE` and `BCPS_BRACNEDON` in
`src/BcpsObject.h`. Here they are `NonRemovable` and `BranchedOn`.

Facts about the code that the model keeps as they are:

- `selectNonzeros` and `selectFractional` (src/BcpsSolution.cpp:22-38) return null
  whatever the tolerance and filter nothing.
- `feasibleRegion` is documented as setting the bounds to match the current solution
  (src/BcpsObject.h:192), and `resetBounds` as resetting the bounds to their original
  values (src/BcpsObject.h:225-227). Both have empty bodies, so neither changes a field.
- Nothing orders the hard and soft bounds. The constructors and setters accept any
  values, so the model has no invariant relating them.
- `BcpsSolution::decodeBcps` returns `ALPS_OK` whatever it reads, so it reports no
  malformed stream. The model does the same.

## Model

| member | source | states |
|---|---|---|
| `CTypes.IntOr` | src/BcpsObject.h:163 | The bit pattern of `a OR b` (the C++ bitwise or on ints) is the OR of the patterns of `a` and `b`. |
| `CTypes.ToFromBits` | src/BcpsObject.h:163 | Every 32-bit pattern belongs to exactly the int `FromBits` returns, so OR-ing patterns yields a valid int. |
| `StatusBits.FlagsAreDistinctBits` | src/BcpsObject.h:27-29 | NONREMOVABLE, BRANCHEDON and SENDABLE each have exactly one bit set, and no two share a bit. |
| `StatusBits.OrKeepsAndSets` | src/BcpsObject.h:163 | After OR-ing `st` in, every bit set before is still set and every bit of `st` is set. |
| `StatusBits.OrAddsNothingElse` | src/BcpsObject.h:163 | OR-ing `st` in sets no bit that was in neither the old status nor `st`. |
| `StatusWord.IntOrKeepsAndSets` | src/BcpsObject.h:163 | The same two facts for the C++ ints themselves, seen through their bit patterns. |
| `StatusHistory.SetAllSticky` | src/BcpsObject.h:163 | After any sequence of `setStatus` calls, every bit set before and every flag passed is set. Proved by induction on the sequence. |
| `StatusHistory.BranchedOnThenSendable` | src/BcpsObject.h:163 | `setStatus(BRANCHEDON)` then `setStatus(SENDABLE)` leaves both flags present and keeps the earlier bits. |
| `StatusWord.FlagWordBits` | src/BcpsObject.h:27-29 | The int flags 0x0001, 0x0010 and 0x0100 carry exactly the bits of NONREMOVABLE, BRANCHEDON and SENDABLE. |
| `StatusCalls.BranchedOnThenSendableWords` | src/BcpsObject.h:163 | OR-ing the int BRANCHEDON and then the int SENDABLE into a status gives the fold over the two flags, so both flags and every earlier bit are set. |
| `AlpsCodec.TakeDoublesOfTokens` | src/BcpsSolution.cpp:48-63 | Reading `n` double entries where `n` were written gives back exactly those entries, whatever comes before or after. |
| `AlpsCodec.DoubleBlockRoundTrip` | src/BcpsSolution.cpp:48-63 | Reading a block written by the array form of `writeRep` gives back its length and its entries, and leaves the cursor just past the block. |
| `AlpsCodec.AlpsEncoded.WriteInt` | src/BcpsObject.h:251 | `writeRep` of an int appends one int token and changes nothing else. |
| `AlpsCodec.AlpsEncoded.WriteRep` | src/BcpsObject.h:252 | `writeRep` of a representation kind appends one token for it. |
| `AlpsCodec.AlpsEncoded.WriteChar` | src/BcpsObject.h:253 | `writeRep` of a char appends one char token. |
| `AlpsCodec.AlpsEncoded.WriteDouble` | src/BcpsObject.h:255-259 | `writeRep` of a double appends one double token. |
| `AlpsCodec.AlpsEncoded.WriteDoubles` | src/BcpsSolution.cpp:48 | The array form appends the length, then the first `length` entries. |
| `AlpsCodec.AlpsEncoded.ReadInt` | src/BcpsObject.h:266 | An int read stores the token's value in the target and advances the cursor. If the next token is missing or of another type, target and cursor are unchanged. |
| `AlpsCodec.AlpsEncoded.ReadRep` | src/BcpsObject.h:267 | The same for a representation kind. |
| `AlpsCodec.AlpsEncoded.ReadChar` | src/BcpsObject.h:268 | The same for a char. |
| `AlpsCodec.AlpsEncoded.ReadDouble` | src/BcpsObject.h:270-274 | The same for a double. |
| `AlpsCodec.AlpsEncoded.ReadDoubles` | src/BcpsSolution.cpp:63 | The array form stores a whole block's entries in the values and its length in the length variable. If the block is missing or malformed, both are unchanged. |
| `BcpsObjects.FieldsRoundTrip` | src/BcpsObject.h:249-276 | Decoding what `encodeBcps` wrote restores all nine fields, whatever the object held before. It consumes exactly nine tokens, so the tokens that follow are read next. |
| `BcpsObjects.BcpsObject.constructor` | src/BcpsObject.h:105-113 | Index -1, all four bounds 0.0 and hash 0.0. Representation kind, integrality type and status are left arbitrary. |
| `BcpsObjects.BcpsObject.WithBounds` | src/BcpsObject.h:115-123 | Index -1, the four bounds exactly as given and hash 0.0. The other three fields are arbitrary. |
| `BcpsObjects.BcpsObject.Copy` | src/BcpsObject.h:128-135 | Copies the index, the four bounds and the hash. Representation kind, integrality type and status are not copied. |
| `BcpsObjects.BcpsObject.GetObjectIndex` | src/BcpsObject.h:148 | Returns the index, the same value the object's state holds for it. |
| `BcpsObjects.BcpsObject.GetRepType` | src/BcpsObject.h:149 | Returns the representation kind, the same value the object's state holds for it. |
| `BcpsObjects.BcpsObject.GetIntType` | src/BcpsObject.h:150 | Returns the integrality type, the same value the object's state holds for it. |
| `BcpsObjects.BcpsObject.GetStatus` | src/BcpsObject.h:151 | Returns the status, the same value the object's state holds for it. |
| `BcpsObjects.BcpsObject.GetLbHard` | src/BcpsObject.h:152 | Returns the hard lower bound, the same value the object's state holds for it. |
| `BcpsObjects.BcpsObject.GetUbHard` | src/BcpsObject.h:153 | Returns the hard upper bound, the same value the object's state holds for it. |
| `BcpsObjects.BcpsObject.GetLbSoft` | src/BcpsObject.h:154 | Returns the soft lower bound, the same value the object's state holds for it. |
| `BcpsObjects.BcpsObject.GetUbSoft` | src/BcpsObject.h:155 | Returns the soft upper bound, the same value the object's state holds for it. |
| `BcpsObjects.BcpsObject.SetObjectIndex` | src/BcpsObject.h:160 | Only the index changes, and its getter returns the new value. |
| `BcpsObjects.BcpsObject.SetRepType` | src/BcpsObject.h:161 | Only the representation kind changes, and its getter returns the new value. |
| `BcpsObjects.BcpsObject.SetIntType` | src/BcpsObject.h:162 | Only the integrality type changes, and its getter returns the new value. |
| `BcpsObjects.BcpsObject.SetStatus` | src/BcpsObject.h:163 | Only the status changes. It becomes old status OR `st`: every old bit is kept and every bit of `st` is set. |
| `BcpsObjects.BcpsObject.SetLbHard` | src/BcpsObject.h:164 | Only the hard lower bound changes, and its getter returns the new value. |
| `BcpsObjects.BcpsObject.SetUbHard` | src/BcpsObject.h:165 | Only the hard upper bound changes, and its getter returns the new value. |
| `BcpsObjects.BcpsObject.SetLbSoft` | src/BcpsObject.h:166 | Only the soft lower bound changes, and its getter returns the new value. |
| `BcpsObjects.BcpsObject.SetUbSoft` | src/BcpsObject.h:167 | Only the soft upper bound changes, and its getter returns the new value. |
| `BcpsObjects.BcpsObject.Hashing` | src/BcpsObject.h:172 | The base hashing sets the hash to 0.0 and changes no other field. |
| `BcpsObjects.BcpsObject.HashValue` | src/BcpsObject.h:173 | Returns the hash, the same value the object's state holds for it. |
| `BcpsObjects.BcpsObject.Infeasibility` | src/BcpsObject.h:176-190 | The result lies in the documented range [0.0, 0.5]. In the base class it is exactly 0.0 (satisfied), and the preferred way comes back untouched. |
| `BcpsObjects.BcpsObject.CreateBranchObject` | src/BcpsObject.h:198-201 | The base object yields no branching object (null), whatever the model and the way. |
| `BcpsObjects.BcpsObject.PreferredNewFeasible` | src/BcpsObject.h:209-212 | The base object yields null, meaning no branch towards a new feasible point was found. |
| `BcpsObjects.BcpsObject.NotPreferredNewFeasible` | src/BcpsObject.h:220-223 | The base object yields null here too. |
| `BcpsObjects.BcpsObject.BoundBranch` | src/BcpsObject.h:232 | Branches on the base object act on bounds (true). |
| `BcpsObjects.BcpsObject.UpEstimate` | src/BcpsObject.h:241 | The default up estimate is 1.0e-5. |
| `BcpsObjects.BcpsObject.DownEstimate` | src/BcpsObject.h:244 | The default down estimate is 1.0e-5. |
| `BcpsObjects.BcpsObject.EncodeBcps` | src/BcpsObject.h:249-261 | Appends exactly nine tokens, in this order: index, kind, integrality, status, hard lower, hard upper, soft lower, soft upper, hash. The object and the read cursor are unchanged. |
| `BcpsObjects.BcpsObject.DecodeBcps` | src/BcpsObject.h:264-276 | Reads the nine fields in the same order, each read overwriting its own field. Together with `FieldsRoundTrip`, this restores an encoded object. |
| `BcpsObjects.ObjectWireRoundTrip` | src/BcpsObject.h:249-276 | An object encoded into an empty buffer and decoded into a new object comes back with all nine fields, and decoding stops after the nine tokens. |
| `BcpsObjects.BranchThenSend` | src/BcpsObject.h:163 | On an object, `setStatus(BRANCHEDON)` then `setStatus(SENDABLE)` leaves both flags and every earlier bit set, changes no other field, and matches the fold over the two flags. |
| `BcpsObjects.BcpsConstraint.constructor` | src/BcpsObject.h:303 | A fresh base object with the default constructor's fields. |
| `BcpsObjects.BcpsConstraint.WithBounds` | src/BcpsObject.h:306-309 | A fresh base object built with the given bounds. |
| `BcpsObjects.BcpsConstraint.Copy` | src/BcpsObject.h:315-318 | A fresh base object copied by the base copy constructor. |
| `BcpsObjects.BcpsConstraint.GetObjType` | src/BcpsObject.h:320 | Always BCPS_CONSTRAINT, which is BCPS_DUAL_OBJECT, value 1. |
| `BcpsObjects.BcpsVariable.constructor` | src/BcpsObject.h:330 | A fresh base object with the default constructor's fields. |
| `BcpsObjects.BcpsVariable.WithBounds` | src/BcpsObject.h:333-336 | A fresh base object built with the given bounds. |
| `BcpsObjects.BcpsVariable.Copy` | src/BcpsObject.h:342-345 | A fresh base object copied by the base copy constructor. |
| `BcpsObjects.BcpsVariable.GetObjType` | src/BcpsObject.h:347 | Always BCPS_VARIABLE, which is BCPS_PRIMAL_OBJECT, value 0. |
| `BcpsSolutions.SolutionRoundTrip` | src/BcpsSolution.cpp:43-67 | Decoding what `encodeBcps` wrote gives back the size, the `size` values written and the quality, whatever the solution held before. The cursor ends just past the Bcps part, so later fields are read next. |
| `BcpsSolutions.SolutionRoundTripExact` | src/BcpsSolution.cpp:43-67 | When `size` counts all the values, decoding restores the solution exactly. |
| `BcpsSolutions.SolutionRoundTripExample` | src/BcpsSolution.cpp:43-67 | Size 3, values [0.0, 1.0, 0.5] and quality 12.5 come back unchanged, and the cursor ends after the 6 tokens. |
| `BcpsSolutions.SolutionWireRoundTrip` | src/BcpsSolution.cpp:43-67 | A solution encoded into an empty buffer and decoded into a new solution comes back with its size, its first `size` values and its quality, and both calls return ALPS_OK. |
| `BcpsSolutions.BcpsSolution.SelectNonzeros` | src/BcpsSolution.cpp:22-28 | Returns null for every `etol`; no filtering is done. |
| `BcpsSolutions.BcpsSolution.SelectFractional` | src/BcpsSolution.cpp:32-38 | Returns null for every `etol`; no filtering is done. |
| `BcpsSolutions.BcpsSolution.EncodeBcps` | src/BcpsSolution.cpp:43-52 | Appends `size`, then the array form of the first `size` values, then `quality`, and returns ALPS_OK. The solution and the read cursor are unchanged. |
| `BcpsSolutions.BcpsSolution.DecodeBcps` | src/BcpsSolution.cpp:57-67 | Reads `size`, the value block and `quality` in the same order and returns ALPS_OK. The block's length is stored in `size` again, because `readRep` takes the length by reference. |

## Left out

- `floorCeiling` (src/BcpsObject.h:235-238) is only declared in this code, so it has no behaviour to model.
- The copy assignment operator (src/BcpsObject.h:138) is only declared, so it has no behaviour to model.
- The base `encode` (src/BcpsObject.h:281-285) stops at `assert(0)`. It has no callable behaviour.
- `clone` (src/BcpsObject.h:141-144) returns null. `feasibleRegion` (src/BcpsObject.h:193) and `resetBounds` (src/BcpsObject.h:228) have empty bodies. None of the three changes or computes anything.
- The destructors have empty bodies.
- The result of `BcpsObject::encodeBcps` and `decodeBcps` is not modelled. The code returns a local `status` that is never initialised, so there is no value to state.
- `AlpsKnowledge`, `BcpsModel` and `BcpsBranchObject` are not part of this model. The model and branching objects are opaque handles that the base hooks never look at, and a null pointer is `None`.
- The byte layout of `AlpsEncoded` is not part of this model. The buffer is a token sequence.
- `BcpsSolutions.BcpsSolution.EncodeBcps` requires `0 <= size <= |values|`, and `AlpsCodec.ReadDoubleBlockAt` fails on a negative block length. The code (src/BcpsSolution.cpp:47-48, 62-63) does not rule out a negative `size_`, and what the Alps array form does with a negative length is not shown, so negative sizes and negative block lengths are not modelled.
- `AlpsEncoded` does not show what a read on a truncated or mistyped stream does. Here such a read leaves its target and the cursor unchanged. This is a modelling choice.
- The `BcpsSolution` header is not part of this model. The three fields and their types are inferred from the serialisation code, and its constructors are not modelled.
- `values_` is a heap array in C++. Here it is a sequence, so the model does not capture the array's allocation or aliasing.
- `double` fields are `real` values. Nothing computes with them; they are only stored and copied. NaN and signed zero are not modelled.
- `char` (the integrality type) is an 8-bit value. The representation kind is one of its three enumerators; an enum holding any other value is not modelled.
- C++ inheritance is modelled by composition. A `BcpsConstraint` or `BcpsVariable` owns the `BcpsObject` part (`base`) it inherits, and virtual dispatch between roles is not modelled.
