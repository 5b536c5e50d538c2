/** Logits: reals with an explicit minus infinity. */
module Logits {
  datatype Logit = NegInf | Fin(v: real)

  predicate AtMost(a: Logit, b: Logit) { a.NegInf? || (b.Fin? && a.v <= b.v) }

  function Shift(a: Logit, d: real): Logit { if a.NegInf? then NegInf else Fin(a.v + d) }

  /** amax over lanes; an empty or fully masked block has minus infinity. */
  function Top(xs: seq<Logit>): (m: Logit)
    ensures forall i :: 0 <= i < |xs| ==> AtMost(xs[i], m)
    ensures |xs| > 0 ==> m in xs
    ensures xs == [] ==> m == NegInf
  {
    if xs == [] then NegInf
    else
      var rest, last := Top(xs[..|xs| - 1]), xs[|xs| - 1];
      if AtMost(rest, last) then last else rest
  }

  /** The greatest element is what bounds all lanes and is one of them, or minus infinity. */
  lemma {:induction false} TopIs(xs: seq<Logit>, m: Logit)
    requires forall i :: 0 <= i < |xs| ==> AtMost(xs[i], m)
    requires m == NegInf || m in xs
    ensures Top(xs) == m
  {
  }

  /** argmax: the first position of the maximum. */
  function ArgMax(xs: seq<Logit>): (k: nat)
    requires |xs| > 0
    ensures k < |xs| && xs[k] == Top(xs)
    ensures forall i :: 0 <= i < k ==> xs[i] != Top(xs)
  {
    FirstAt(xs, Top(xs), 0)
  }

  function FirstAt(xs: seq<Logit>, x: Logit, from: nat): (k: nat)
    requires from <= |xs| && x in xs[from..]
    ensures from <= k < |xs| && xs[k] == x
    ensures forall i :: from <= i < k ==> xs[i] != x
    decreases |xs| - from
  {
    if xs[from] == x then from else FirstAt(xs, x, from + 1)
  }
}
