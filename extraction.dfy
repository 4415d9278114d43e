/**
 * The leaf rule shared by the chart and the summary: a leaf inside a per-route
 * array is taken as it is when it is a number, and otherwise goes through
 * `parseFloat`; a NaN outcome is dropped.
 *
 * `parseFloat` on strings is a parameter (None stands for NaN); it is assumed
 * to return a finite number or NaN. Any other leaf reaches `parseFloat` through
 * JavaScript's String() conversion: "null", "true" and "false" have no numeric
 * prefix, and an array converts to its elements joined by ",". Since a comma
 * ends every numeric prefix and String() of a finite number parses back to that
 * number, an array leaf yields what its first element yields, and nothing when
 * it is empty. An object leaf converts to "[object Object]" and is dropped,
 * unless it carries its own `toString` key: then the conversion throws a
 * TypeError, which this model does not follow (it drops that leaf too).
 */
module Extraction {
  import opened Json

  /** The number a leaf yields after `typeof value === 'number' ? value : parseFloat(value)`, or None for NaN. */
  function LeafNumber(leaf: Value, parseFloat: string -> Option<real>): Option<real>
  {
    match leaf
    case Num(x) => Some(x)
    case NaN => None
    case Str(s) => parseFloat(s)
    case Arr(items) => if items == [] then None else LeafNumber(items[0], parseFloat)
    case Null => None
    case Bool(_) => None
    case Obj(_) => None
  }

  /** The leaf rule case by case; an array leaf is read through its first element. */
  lemma LeafRule(leaf: Value, parseFloat: string -> Option<real>)
    ensures leaf.Num? ==> LeafNumber(leaf, parseFloat) == Some(leaf.x)
    ensures leaf.Str? ==> LeafNumber(leaf, parseFloat) == parseFloat(leaf.s)
    ensures leaf.Null? || leaf.Bool? || leaf.NaN? || leaf.Obj? ==> LeafNumber(leaf, parseFloat) == None
    ensures leaf == Arr([]) ==> LeafNumber(leaf, parseFloat) == None
    ensures leaf.Arr? && leaf.items != [] ==> LeafNumber(leaf, parseFloat) == LeafNumber(leaf.items[0], parseFloat)
  {
  }

  function Accepted(v: Option<real>): seq<real> {
    if v.Some? then [v.value] else []
  }

  /** The accepted samples of one per-route array, in order. */
  function LeafSamples(leaves: seq<Value>, parseFloat: string -> Option<real>): seq<real>
  {
    if leaves == [] then []
    else LeafSamples(leaves[..|leaves| - 1], parseFloat) + Accepted(LeafNumber(leaves[|leaves| - 1], parseFloat))
  }

  lemma LeafSamplesStep(leaves: seq<Value>, parseFloat: string -> Option<real>, l: nat)
    requires l < |leaves|
    ensures LeafSamples(leaves[..l + 1], parseFloat) == LeafSamples(leaves[..l], parseFloat) + Accepted(LeafNumber(leaves[l], parseFloat))
  {
    assert leaves[..l + 1][..l] == leaves[..l];
  }

  /** A value is collected from a per-route array exactly when some leaf of it yields that value. */
  lemma {:induction false} LeafSamplesMembers(leaves: seq<Value>, parseFloat: string -> Option<real>, x: real)
    ensures x in LeafSamples(leaves, parseFloat) <==>
            exists j :: 0 <= j < |leaves| && LeafNumber(leaves[j], parseFloat) == Some(x)
  {
    if leaves != [] {
      var init := leaves[..|leaves| - 1];
      LeafSamplesMembers(init, parseFloat, x);
      if x in LeafSamples(leaves, parseFloat) {
        if x in LeafSamples(init, parseFloat) {
          var j :| 0 <= j < |init| && LeafNumber(init[j], parseFloat) == Some(x);
          assert leaves[j] == init[j];
        } else {
          assert LeafNumber(leaves[|leaves| - 1], parseFloat) == Some(x);
        }
      }
      if exists j :: 0 <= j < |leaves| && LeafNumber(leaves[j], parseFloat) == Some(x) {
        var j :| 0 <= j < |leaves| && LeafNumber(leaves[j], parseFloat) == Some(x);
        if j < |init| {
          assert init[j] == leaves[j];
        }
      }
    }
  }

  /** The inner `routeData.forEach` of the pooling passes: every leaf that yields a number is pushed. */
  method CollectLeaves(leaves: seq<Value>, parseFloat: string -> Option<real>, allValues: seq<real>)
    returns (next: seq<real>)
    ensures next == allValues + LeafSamples(leaves, parseFloat)
  {
    next := allValues;
    for l := 0 to |leaves|
      invariant next == allValues + LeafSamples(leaves[..l], parseFloat)
    {
      LeafSamplesStep(leaves, parseFloat, l);
      var numValue := LeafNumber(leaves[l], parseFloat);
      if numValue.Some? {
        next := next + [numValue.value];
      }
    }
    assert leaves[..|leaves|] == leaves;
  }
}
