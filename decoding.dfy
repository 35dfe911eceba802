/**
 * `fromData`: the codec decodes the bytes into a tree of plain values (or fails), and
 * the result is wrapped as a `Json`. The codec itself is a parameter: what it makes
 * of the bytes is given, not computed.
 */
module Decoding {
  import opened Wrappers
  import opened TypeJson

  /** What the codec produces from valid JSON data. */
  datatype Tree =
    | NullLeaf
    | BoolLeaf(b: bool)
    | NumberLeaf(n: Num)
    | StringLeaf(s: string)
    | List(elements: seq<Tree>)
    | Dictionary(entries: map<string, Tree>)

  /** The `Json` that represents a decoded tree, kind for kind. */
  function Wrap(t: Tree): (r: Json)
    ensures ErrorFree(r)
    ensures IsNull(r) <==> t.NullLeaf?
    ensures t.BoolLeaf? <==> IsTrue(r) || IsFalse(r)
    ensures t.BoolLeaf? ==> r == Bool(t.b)
    ensures t.NumberLeaf? <==> IsNumber(r)
    ensures t.NumberLeaf? ==> AsNumber(r) == Some(t.n)
    ensures t.StringLeaf? <==> IsString(r)
    ensures t.StringLeaf? ==> AsString(r) == Some(t.s)
    ensures IsArray(r) <==> t.List?
    ensures t.List? ==> |r.items| == |t.elements|
                        && forall i :: 0 <= i < |t.elements| ==> r.items[i] == Wrap(t.elements[i])
    ensures IsObject(r) <==> t.Dictionary?
    ensures t.Dictionary? ==> r.fields.Keys == t.entries.Keys
                              && forall k :: k in t.entries ==> r.fields[k] == Wrap(t.entries[k])
  {
    match t
    case NullLeaf => Null
    case BoolLeaf(b) => Bool(b)
    case NumberLeaf(n) => Number(n)
    case StringLeaf(s) => String(s)
    case List(elements) => Array(seq(|elements|, i requires 0 <= i < |elements| => Wrap(elements[i])))
    case Dictionary(entries) => Object(map k | k in entries :: Wrap(entries[k]))
  }

  /** Wrapping loses nothing: different trees give different values. */
  lemma {:induction false} WrapInjective(s: Tree, t: Tree)
    requires Wrap(s) == Wrap(t)
    ensures s == t
  {
    match s
    case List(es) =>
      var ts := t.elements;
      assert |es| == |ts| by { assert |Wrap(s).items| == |Wrap(t).items|; }
      forall i | 0 <= i < |es| ensures es[i] == ts[i] {
        assert Wrap(s).items[i] == Wrap(t).items[i];
        WrapInjective(es[i], ts[i]);
      }
    case Dictionary(es) =>
      var ts := t.entries;
      assert es.Keys == ts.Keys by {
        assert Wrap(s).fields == map k | k in es :: Wrap(es[k]);
        assert Wrap(t).fields == map k | k in ts :: Wrap(ts[k]);
        assert forall k :: k in es <==> k in Wrap(s).fields;
        assert forall k :: k in ts <==> k in Wrap(t).fields;
      }
      forall k | k in es ensures es[k] == ts[k] {
        assert Wrap(s).fields[k] == Wrap(t).fields[k];
        WrapInjective(es[k], ts[k]);
      }
    case _ =>
  }

  /** `fromData` given what the codec made of the data: the wrapped tree, or an error
      when the data could not be decoded. The call itself never fails. */
  function FromData(decoded: Option<Tree>): (r: Json)
    ensures IsError(r) <==> decoded.None?
    ensures decoded.None? ==> AsError(r) == Some(Unparseable)
    ensures decoded.Some? ==> r == Wrap(decoded.value)
    ensures Document(r)
  {
    match decoded
    case None => Error(Unparseable)
    case Some(t) => Wrap(t)
  }

  /** Two successful decodings give the same value exactly when the codec produced
      the same tree. */
  lemma FromDataFaithful(s: Tree, t: Tree)
    ensures FromData(Some(s)) == FromData(Some(t)) <==> s == t
  {
    if FromData(Some(s)) == FromData(Some(t)) {
      WrapInjective(s, t);
    }
  }
}
