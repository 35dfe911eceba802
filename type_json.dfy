/**
 * The `TypeJSON` value: one JSON value or an error, never mutated. Subscripting by key
 * or by index always yields another value (an error when the access does not apply),
 * an error absorbs every further subscript, and coercions give the payload of the
 * matching kind or `None` (the header's `nil`).
 */
module TypeJson {
  import opened Wrappers

  /** The decimal number the codec hands over; the model only stores and returns it. */
  type Num(==)

  /** Which condition produced an error. The model keeps the condition only; the
      error's domain, code and message are not part of it. */
  datatype Cause =
    | NotAnObject       // keyed subscript on a value that is not an object
    | KeyNotFound       // keyed subscript with a key the object does not have
    | NotAnArray        // indexed subscript on a value that is not an array
    | IndexOutOfBounds  // indexed subscript at or beyond the array's length
    | Unparseable       // the codec could not decode the data given to `fromData`

  /** Exactly one kind is active. */
  datatype Json =
    | Null
    | Bool(b: bool)
    | Number(n: Num)
    | String(s: string)
    | Array(items: seq<Json>)
    | Object(fields: map<string, Json>)
    | Error(cause: Cause)

  /** The `null` sentinel `asNull` returns: a present result, distinct from `None`. */
  datatype NullSentinel = NullSentinel

  // ---------------------------------------------------------------------------
  // Type checking

  predicate IsTrue(v: Json) { v == Bool(true) }
  predicate IsFalse(v: Json) { v == Bool(false) }
  predicate IsNull(v: Json) { v.Null? }
  predicate IsNumber(v: Json) { v.Number? }
  predicate IsString(v: Json) { v.String? }
  predicate IsArray(v: Json) { v.Array? }
  predicate IsObject(v: Json) { v.Object? }
  predicate IsError(v: Json) { v.Error? }

  /** Number of the type tests that hold of `v`. */
  function KindsHolding(v: Json): nat {
    (if IsNull(v) then 1 else 0) + (if IsTrue(v) then 1 else 0) + (if IsFalse(v) then 1 else 0)
    + (if IsNumber(v) then 1 else 0) + (if IsString(v) then 1 else 0)
    + (if IsArray(v) then 1 else 0) + (if IsObject(v) then 1 else 0) + (if IsError(v) then 1 else 0)
  }

  /** Every value passes exactly one of the type tests; in particular `isTrue` and
      `isFalse` never hold together, and a non-error value never passes `isError`. */
  lemma KindsExclusive(v: Json)
    ensures KindsHolding(v) == 1
    ensures !(IsTrue(v) && IsFalse(v))
    ensures IsError(v) <==> !(IsNull(v) || IsTrue(v) || IsFalse(v) || IsNumber(v)
                              || IsString(v) || IsArray(v) || IsObject(v))
  {
  }

  /** An error never sits inside an array or an object. */
  predicate ErrorFree(v: Json) {
    match v
    case Error(_) => false
    case Array(items) => forall i :: 0 <= i < |items| ==> ErrorFree(items[i])
    case Object(fields) => forall k :: k in fields ==> ErrorFree(fields[k])
    case _ => true
  }

  /** The values a caller can hold: either an error, or a JSON tree with no error in it. */
  predicate Document(v: Json) { IsError(v) || ErrorFree(v) }

  // ---------------------------------------------------------------------------
  // Construction

  /** The empty object `{}`. */
  function EmptyObject(): (r: Json)
    ensures IsObject(r) && !IsError(r) && Document(r)
    ensures AsObject(r) == Some(map[])
    ensures forall key :: IsError(Get(r, key))
  {
    Object(map[])
  }

  // ---------------------------------------------------------------------------
  // Collection accessors

  /** Keyed subscript: never fails the call; an error absorbs it. */
  function Get(v: Json, key: string): (r: Json)
    ensures IsError(v) ==> r == v
    ensures IsObject(v) && key in v.fields ==> r == v.fields[key]
    ensures !IsObject(v) || key !in v.fields ==> IsError(r)
    ensures Document(v) ==> (IsError(r) <==> IsError(v) || !IsObject(v) || key !in v.fields)
    ensures !IsError(v) && !IsObject(v) ==> AsError(r) == Some(NotAnObject)
    ensures IsObject(v) && key !in v.fields ==> AsError(r) == Some(KeyNotFound)
    ensures Document(v) ==> Document(r)
  {
    match v
    case Error(_) => v
    case Object(fields) =>
      if key in fields then
        assert ErrorFree(fields[key]) ==> !IsError(fields[key]);
        fields[key]
      else Error(KeyNotFound)
    case _ => Error(NotAnObject)
  }

  /** Indexed subscript: never fails the call; an error absorbs it. */
  function At(v: Json, index: nat): (r: Json)
    ensures IsError(v) ==> r == v
    ensures IsArray(v) && index < |v.items| ==> r == v.items[index]
    ensures !IsArray(v) || index >= |v.items| ==> IsError(r)
    ensures Document(v) ==> (IsError(r) <==> IsError(v) || !IsArray(v) || index >= |v.items|)
    ensures !IsError(v) && !IsArray(v) ==> AsError(r) == Some(NotAnArray)
    ensures IsArray(v) && index >= |v.items| ==> AsError(r) == Some(IndexOutOfBounds)
    ensures Document(v) ==> Document(r)
  {
    match v
    case Error(_) => v
    case Array(items) =>
      if index < |items| then
        assert ErrorFree(items[index]) ==> !IsError(items[index]);
        items[index]
      else Error(IndexOutOfBounds)
    case _ => Error(NotAnArray)
  }

  // ---------------------------------------------------------------------------
  // Value accessors

  function AsString(v: Json): (r: Option<string>)
    ensures r.Some? <==> IsString(v)
    ensures r.Some? ==> v == String(r.value)
  {
    if v.String? then Some(v.s) else None
  }

  function AsNumber(v: Json): (r: Option<Num>)
    ensures r.Some? <==> IsNumber(v)
    ensures r.Some? ==> v == Number(r.value)
  {
    if v.Number? then Some(v.n) else None
  }

  /** Defined for booleans only: the header leaves every other kind undefined. */
  function AsBool(v: Json): (r: bool)
    requires IsTrue(v) || IsFalse(v)
    ensures r <==> IsTrue(v)
    ensures !r <==> IsFalse(v)
  {
    v.b
  }

  /** The sentinel for JSON `null`; `None` means "not null", never "is null". */
  function AsNull(v: Json): (r: Option<NullSentinel>)
    ensures r == Some(NullSentinel) <==> IsNull(v)
    ensures r == None <==> !IsNull(v)
  {
    if v.Null? then Some(NullSentinel) else None
  }

  /** The elements, each still a `Json` that can be subscripted further. */
  function AsArray(v: Json): (r: Option<seq<Json>>)
    ensures r.Some? <==> IsArray(v)
    ensures r.Some? ==> v == Array(r.value)
  {
    if v.Array? then Some(v.items) else None
  }

  /** The members, each still a `Json` that can be subscripted further. */
  function AsObject(v: Json): (r: Option<map<string, Json>>)
    ensures r.Some? <==> IsObject(v)
    ensures r.Some? ==> v == Object(r.value)
  {
    if v.Object? then Some(v.fields) else None
  }

  // ---------------------------------------------------------------------------
  // Error handling

  function AsError(v: Json): (r: Option<Cause>)
    ensures r.Some? <==> IsError(v)
    ensures r.Some? ==> v == Error(r.value)
  {
    if v.Error? then Some(v.cause) else None
  }

  // ---------------------------------------------------------------------------
  // Lemmas relating the coercions to the subscripts

  /** What `asArray` returns is what indexed subscripting reaches, element by element,
      and every index past its end gives an error. */
  lemma AsArrayAgreesWithAt(v: Json)
    requires AsArray(v).Some?
    ensures forall i :: 0 <= i < |AsArray(v).value| ==> At(v, i) == AsArray(v).value[i]
    ensures forall i: nat :: i >= |AsArray(v).value| ==> IsError(At(v, i))
  {
  }

  /** What `asObject` returns is what keyed subscripting reaches, key by key, and
      every other key gives an error. */
  lemma AsObjectAgreesWithGet(v: Json)
    requires AsObject(v).Some?
    ensures forall k :: k in AsObject(v).value ==> Get(v, k) == AsObject(v).value[k]
    ensures forall k :: k !in AsObject(v).value ==> IsError(Get(v, k))
  {
  }

  /** Of a value a caller holds, the elements and members reached through `asArray` and
      `asObject` are error-free trees themselves, and so can be navigated further. */
  lemma DocumentChildrenAreErrorFree(v: Json)
    requires Document(v)
    ensures AsArray(v).Some? ==> forall i :: 0 <= i < |AsArray(v).value| ==> ErrorFree(AsArray(v).value[i])
    ensures AsObject(v).Some? ==> forall k :: k in AsObject(v).value ==> ErrorFree(AsObject(v).value[k])
  {
  }
}
