/**
 The slice of JavaScript value semantics the relay and the page rely on:
 optional strings (a key that may be missing, `undefined` or `null`), their
 truthiness, the `||` operator and template-literal interpolation.
 */
module JsValues {

  datatype Option<T> = None | Some(value: T)

  /** Truthiness of a string-or-missing value: `undefined`, `null` and `""`
      are falsy, every other string is truthy. */
  predicate Truthy(v: Option<string>) {
    v.Some? && v.value != ""
  }

  /** Position `i` holds the first truthy element of `xs`. */
  predicate FirstTruthyAt(xs: seq<Option<string>>, i: int) {
    0 <= i < |xs| && Truthy(xs[i]) && forall j :: 0 <= j < i ==> !Truthy(xs[j])
  }

  /** `a || b`: the left operand when it is truthy, the right one otherwise. */
  function Or(a: Option<string>, b: Option<string>): Option<string> {
    if Truthy(a) then a else b
  }

  /** A chain `x0 || x1 || ... || xn` as JavaScript parses it, left-associatively:
      `((x0 || x1) || ...) || xn`. */
  function LeftOr(xs: seq<Option<string>>): Option<string>
    requires xs != []
  {
    if |xs| == 1 then xs[0] else Or(LeftOr(xs[..|xs| - 1]), xs[|xs| - 1])
  }

  /** The first truthy source, scanning left to right, or `fallback` when every
      source is falsy. */
  function FirstTruthy(sources: seq<Option<string>>, fallback: string): (r: string)
    ensures (forall i :: 0 <= i < |sources| ==> !Truthy(sources[i])) ==> r == fallback
    ensures forall i :: FirstTruthyAt(sources, i) ==> r == sources[i].value
    ensures r == fallback || r != ""
    decreases |sources|
  {
    if sources == [] then fallback
    else if Truthy(sources[0]) then sources[0].value
    else FirstTruthy(sources[1..], fallback)
  }

  /** `v || 'literal'`: the value when it is truthy, the literal otherwise. */
  function OrElse(v: Option<string>, literal: string): (r: string)
    ensures Truthy(v) ==> r == v.value
    ensures !Truthy(v) ==> r == literal
  {
    FirstTruthy([v], literal)
  }

  /** A non-empty left-associative `||` chain yields its first truthy operand,
      or its last operand when none is truthy. */
  lemma {:induction false} LeftOrPicksFirstTruthy(xs: seq<Option<string>>)
    requires xs != []
    ensures (forall i :: 0 <= i < |xs| ==> !Truthy(xs[i])) ==> LeftOr(xs) == xs[|xs| - 1]
    ensures forall i :: FirstTruthyAt(xs, i) ==> LeftOr(xs) == xs[i]
    decreases |xs|
  {
    if |xs| > 1 {
      var init := xs[..|xs| - 1];
      LeftOrPicksFirstTruthy(init);
      assert forall i :: 0 <= i < |init| ==> init[i] == xs[i];
      if exists i :: 0 <= i < |init| && Truthy(init[i]) {
        var k := FirstTruthyIndex(init);
        assert LeftOr(init) == init[k];
      }
    }
  }

  /** The position of the first truthy element of a sequence that has one. */
  function FirstTruthyIndex(xs: seq<Option<string>>): (k: nat)
    requires exists i :: 0 <= i < |xs| && Truthy(xs[i])
    ensures FirstTruthyAt(xs, k)
    decreases |xs|
  {
    if Truthy(xs[0]) then 0
    else
      assert exists i :: 0 <= i < |xs[1..]| && Truthy(xs[1..][i]) by {
        var i :| 0 <= i < |xs| && Truthy(xs[i]);
        assert i > 0 && xs[1..][i - 1] == xs[i];
      }
      1 + FirstTruthyIndex(xs[1..])
  }

  /** The source's chains `x0 || ... || x(n-1) || 'literal'` (left-associative)
      compute exactly `FirstTruthy`, so one helper stands for every one of them. */
  lemma {:induction false} FirstTruthyIsOrChain(sources: seq<Option<string>>, literal: string)
    requires literal != ""
    ensures LeftOr(sources + [Some(literal)]) == Some(FirstTruthy(sources, literal))
  {
    var xs := sources + [Some(literal)];
    LeftOrPicksFirstTruthy(xs);
    assert forall i :: 0 <= i < |sources| ==> xs[i] == sources[i];
    if exists i :: 0 <= i < |sources| && Truthy(sources[i]) {
      var k := FirstTruthyIndex(sources);
      assert LeftOr(xs) == xs[k];
    } else {
      assert Truthy(xs[|sources|]);
      assert LeftOr(xs) == xs[|sources|];
    }
  }

  /** `${v}` in a template literal: the string itself, or "undefined" for a
      missing value. */
  function Interpolate(v: Option<string>): string {
    match v
    case Some(s) => s
    case None => "undefined"
  }
}
