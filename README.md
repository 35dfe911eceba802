# TypeJSON, modelled in Dafny

TypeJSON is an Objective-C wrapper that gives a read-only, type-coercing view of one
JSON value. A `TypeJSON` is built from UTF-8 data (`fromData:`) or as the empty object
(`emptyObject`). Keyed and indexed subscripts navigate it, and neither one fails the
call. When a subscript does not apply, because the receiver has the wrong kind, the key
is missing or the index is out of range, the result is a `TypeJSON` that represents an
error. An error absorbs every later subscript, so a chain such as `root["a"][3]["b"]` is
checked once, at its end. Coercions (`asString`, `asNumber`, `asNull`, `asArray`,
`asObject`, `asError`) give the payload of the matching kind, or `nil`. Type tests
(`isTrue` … `isError`) tell the kinds apart.

The model is pure: a `Json` datatype with one constructor per kind plus `Error`, and
functions and lemmas over it. Nothing in the header mutates a value.

- `wrappers.dfy`: `Option`, standing for a result that may be `nil`.
- `type_json.dfy` (module `TypeJson`): the value, the subscripts, the coercions, the
  type tests and the error accessor. It also defines the invariant `Document`: a value
  a caller holds is either an error or a tree with no error inside it.
- `chains.dfy` (module `Chains`): chains of subscripts, error absorption along a whole
  chain, and the first failing step of a chain.
- `decoding.dfy` (module `Decoding`): `fromData:`, given what the codec made of the data.

Numbers are the abstract type `Num` (the header's `NSDecimalNumber`). They are only
stored and returned. An error records only which condition produced it (`Cause`).
"Same error" is value equality.

## Model

| member | source | states |
|---|---|---|
| `TypeJson.EmptyObject` | TypeJSON.h:16-19 | the result is an object, not an error, and `asObject` gives the empty map; every key subscript on it is an error |
| `TypeJson.Get` | TypeJSON.h:23-33 | an error receiver is returned unchanged; a present key on an object gives that member; a non-object receiver or a missing key gives an error (cause NotAnObject / KeyNotFound); on a well-formed value the result is an error exactly in those cases; the result is well formed again |
| `TypeJson.At` | TypeJSON.h:35-45 | an error receiver is returned unchanged; an in-bounds index on an array gives that element; a non-array receiver or an index at or past the length gives an error (cause NotAnArray / IndexOutOfBounds); on a well-formed value the result is an error exactly in those cases; the result is well formed again |
| `TypeJson.AsString` | TypeJSON.h:49-52 | present exactly when the value is a string, and then it is that string |
| `TypeJson.AsNumber` | TypeJSON.h:54-57 | present exactly when the value is a number, and then it is that number |
| `TypeJson.AsBool` | TypeJSON.h:59-65 | defined only for `true` and `false`; YES exactly for `true`, NO exactly for `false` |
| `TypeJson.AsNull` | TypeJSON.h:67-72 | gives the null sentinel exactly when the value is JSON `null`, and `None` otherwise, so "is null" and "not null" never coincide |
| `TypeJson.AsArray` | TypeJSON.h:74-77 | present exactly when the value is an array, and then its elements, each still a `Json` |
| `TypeJson.AsObject` | TypeJSON.h:79-82 | present exactly when the value is an object, and then its members, each still a `Json` |
| `TypeJson.AsError` | TypeJSON.h:121-131 | present (non-nil) exactly when `isError` holds, and then it is that error |
| `TypeJson.KindsExclusive` | TypeJSON.h:84-126 | exactly one of the type tests holds of any value (`IsTrue` models `isTrue` at TypeJSON.h:89, `IsFalse` `isFalse` at :94, `IsNull` `isNull` at :99, `IsNumber` `isNumber` at :104, `IsString` `isString` at :109, `IsArray` `isArray` at :114, `IsObject` `isObject` at :119, `IsError` `isError` at :126); `isTrue` and `isFalse` never both hold; `isError` holds exactly when no other test does |
| `TypeJson.AsArrayAgreesWithAt` | TypeJSON.h:74-77 | the elements `asArray` returns are what the indexed subscript reaches, index by index, and every index past them gives an error |
| `TypeJson.AsObjectAgreesWithGet` | TypeJSON.h:79-82 | the members `asObject` returns are what the keyed subscript reaches, key by key, and every other key gives an error |
| `TypeJson.DocumentChildrenAreErrorFree` | TypeJSON.h:74-82 | for a well-formed value, every element or member returned by `asArray` or `asObject` is itself a well-formed tree with no error anywhere inside it, so it can be navigated further like any value the caller holds |
| `Chains.Apply` | TypeJSON.h:21-45 | one subscript step returns an error receiver unchanged and keeps a value well formed |
| `Chains.ErrorAbsorbsChain` | TypeJSON.h:21-45 | any chain of keyed and indexed subscripts applied to an error returns that same error |
| `Chains.FollowAppend` | TypeJSON.h:21-45 | following a chain in two parts gives the same value as following it at once |
| `Chains.Follow` | TypeJSON.h:21-45 | a chain such as `root["a"][3]["b"]`, its subscripts applied left to right: the empty chain gives the value itself, and a chain on a well-formed value ends in an error or in an error-free tree |
| `Chains.SuccessMeansNoStepFailed` | TypeJSON.h:21-45 | when the end of a chain is not an error, no prefix of the chain gave an error |
| `Chains.FirstFailure` | TypeJSON.h:21-45 | when a chain from a non-error ends in an error, there is a step before which every prefix succeeds and whose error is exactly the error the whole chain returns |
| `Decoding.Wrap` | TypeJSON.h:9-14 | the wrapped codec tree contains no error and keeps each node's kind and payload: null for null, the same boolean, number and string, an array of the same length whose elements are the wrapped elements, an object with the same keys whose members are the wrapped members |
| `Decoding.WrapInjective` | TypeJSON.h:9-14 | wrapping loses nothing: two codec trees with the same wrapping are equal |
| `Decoding.FromData` | TypeJSON.h:9-14 | the call never fails: the result is an error (cause Unparseable) exactly when the codec could not decode the data, otherwise the wrapped tree, and always well formed |
| `Decoding.FromDataFaithful` | TypeJSON.h:9-14 | two successful decodings give equal values exactly when the codec produced equal trees |

## Left out

- The JSON codec: decoding bytes for `fromData:` is Foundation's `NSJSONSerialization`, which is not part of this model. `Decoding.FromData` takes the codec's outcome as a parameter.
- `asJSON` and `asJSONWithOptions:` (TypeJSON.h:133-143): serialisation and pretty printing are done by `NSJSONSerialization`, a foreign call.
- `NSDecimalNumber` arithmetic and precision: numbers are the abstract type `Num`, only stored and returned.
- The `NSError` behind an error (domain `TypeJSONErrorDomain`, code, message text): the header does not state them. An error records only which condition produced it.
- `TypeJson.AsBool` requires a boolean. The header leaves the result for any other kind undefined, so the model does not choose one.
- `TypeJson.At` takes an unbounded `nat` where the header has a 64-bit `NSUInteger`. The index is only compared with the array's length, so no wrap-around arises.
- Object identity and memory management: "the same error" is value equality.
- Two slips in the header's comments drive no contract: the keyed subscript documents an `index` parameter (TypeJSON.h:30), and `isString` documents "a `number`" (TypeJSON.h:108). The model follows the method names.
