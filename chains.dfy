/**
 * Chains of subscripts such as `root["a"][3]["b"]`: a path of keyed and indexed steps
 * applied one after another. Because an error absorbs every later subscript, a chain
 * needs checking once, at its end.
 */
module Chains {
  import opened Wrappers
  import opened TypeJson

  datatype Step = Key(key: string) | Index(index: nat)

  /** One subscript: `v[key]` or `v[index]`. */
  function Apply(v: Json, step: Step): (r: Json)
    ensures IsError(v) ==> r == v
    ensures Document(v) ==> Document(r)
  {
    match step
    case Key(key) => Get(v, key)
    case Index(index) => At(v, index)
  }

  /** The subscripts of `path`, applied left to right; the empty chain leaves the value
      as it is, and a chain keeps the caller's value well formed: the result is an error
      or an error-free tree. */
  function Follow(v: Json, path: seq<Step>): (r: Json)
    ensures path == [] ==> r == v
    ensures Document(v) ==> Document(r)
    decreases |path|
  {
    if path == [] then v else Follow(Apply(v, path[0]), path[1..])
  }

  /** An error comes out of any chain of subscripts unchanged. */
  lemma {:induction false} ErrorAbsorbsChain(e: Json, path: seq<Step>)
    requires IsError(e)
    ensures Follow(e, path) == e
    decreases |path|
  {
    if path != [] {
      ErrorAbsorbsChain(Apply(e, path[0]), path[1..]);
    }
  }

  /** Following `p + q` is following `p`, then `q` from where `p` ended. */
  lemma {:induction false} FollowAppend(v: Json, p: seq<Step>, q: seq<Step>)
    ensures Follow(v, p + q) == Follow(Follow(v, p), q)
    decreases |p|
  {
    if p == [] {
      assert p + q == q;
    } else {
      assert (p + q)[0] == p[0];
      assert (p + q)[1..] == p[1..] + q;
      FollowAppend(Apply(v, p[0]), p[1..], q);
    }
  }

  /** If the end of a chain is not an error, no step along it failed. */
  lemma SuccessMeansNoStepFailed(v: Json, path: seq<Step>)
    requires !IsError(Follow(v, path))
    ensures forall k :: 0 <= k <= |path| ==> !IsError(Follow(v, path[..k]))
  {
    forall k | 0 <= k <= |path| ensures !IsError(Follow(v, path[..k])) {
      assert path == path[..k] + path[k..];
      FollowAppend(v, path[..k], path[k..]);
      if IsError(Follow(v, path[..k])) {
        ErrorAbsorbsChain(Follow(v, path[..k]), path[k..]);
      }
    }
  }

  /** The step at which a chain that starts from a non-error first fails: every
      prefix up to it succeeds, and the error it produces is exactly the error the
      whole chain ends with, so checking once at the end loses nothing. */
  function FirstFailure(v: Json, path: seq<Step>): (k: nat)
    requires !IsError(v) && IsError(Follow(v, path))
    ensures k < |path|
    ensures forall j :: 0 <= j <= k ==> !IsError(Follow(v, path[..j]))
    ensures Follow(v, path[..k + 1]) == Follow(v, path)
    decreases |path|
  {
    var next := Apply(v, path[0]);
    assert Follow(v, path[..1]) == next by {
      assert path[..1][1..] == [];
    }
    if IsError(next) then
      ErrorAbsorbsChain(next, path[1..]);
      assert forall j :: 0 <= j <= 0 ==> path[..j] == [];
      0
    else
      var k' := FirstFailure(next, path[1..]);
      FollowStep(v, path, k' + 2);
      assert forall j :: 1 <= j <= k' + 1 ==> Follow(v, path[..j]) == Follow(next, path[1..][..j - 1]) by {
        forall j | 1 <= j <= k' + 1 ensures Follow(v, path[..j]) == Follow(next, path[1..][..j - 1]) {
          FollowStep(v, path, j);
        }
      }
      assert path[..0] == [];
      k' + 1
  }

  /** Following a non-empty prefix is one step, then the rest of that prefix. */
  lemma FollowStep(v: Json, path: seq<Step>, j: nat)
    requires 1 <= j <= |path|
    ensures Follow(v, path[..j]) == Follow(Apply(v, path[0]), path[1..][..j - 1])
  {
    assert path[..j][0] == path[0];
    assert path[..j][1..] == path[1..][..j - 1];
  }
}
