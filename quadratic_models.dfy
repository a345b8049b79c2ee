/** The part of a constrained quadratic model over binary variables that the
    feature selector builds: ordered variable labels, linear constraints and
    an objective handed over as a sequence of (u, v, bias) triples. */
module QuadraticModels {

  /** Comparison sense of a linear constraint. */
  datatype Sense = Eq | Le

  /** One objective entry `bias * x_u * x_v`. */
  datatype Term = Term(u: int, v: int, bias: real)

  /** `sum(coefficient * x_label for (label, coefficient) in terms) <sense> rhs`. */
  datatype LinearConstraint = LinearConstraint(terms: seq<(int, int)>, sense: Sense, rhs: int)

  /** The labels 0, 1, ..., n - 1 in order. */
  function Range(n: nat): (r: seq<int>)
    ensures |r| == n
    ensures forall i :: 0 <= i < n ==> r[i] == i
  {
    seq(n, i => i)
  }

  /** The labels of `range(n)` that are not yet in `existing`, in order:
      what adding the integer `n` as a variable collection contributes. */
  function NewLabels(existing: seq<int>, n: nat): seq<int>
  {
    if n == 0 then []
    else NewLabels(existing, n - 1) + (if n - 1 in existing then [] else [n - 1])
  }

  /** On a model with no variables, adding `n` variables yields labels 0..n-1. */
  lemma {:induction false} NewLabelsOnEmpty(n: nat)
    ensures NewLabels([], n) == Range(n)
  {
    if n > 0 {
      NewLabelsOnEmpty(n - 1);
      assert Range(n) == Range(n - 1) + [n - 1];
    }
  }

  /** Each label of `vars` with coefficient 1, in order. */
  function UnitTerms(vars: seq<int>): (r: seq<(int, int)>)
    ensures |r| == |vars|
    ensures forall i :: 0 <= i < |vars| ==> r[i] == (vars[i], 1)
  {
    seq(|vars|, i requires 0 <= i < |vars| => (vars[i], 1))
  }

  /** Whether a term contributes to the unordered pair {u, v}. */
  predicate Matches(t: Term, u: int, v: int) {
    (t.u == u && t.v == v) || (t.u == v && t.v == u)
  }

  /** The coefficient the model holds for {u, v} after all `terms` are added:
      for u == v the linear bias (x * x == x for a binary variable), for u != v
      the quadratic bias, to which both (u, v) and (v, u) terms add up. */
  function Bias(terms: seq<Term>, u: int, v: int): real
  {
    if terms == [] then 0.0
    else (if Matches(terms[0], u, v) then terms[0].bias else 0.0) + Bias(terms[1..], u, v)
  }

  /** Accumulation is additive over concatenated term sequences. */
  lemma {:induction false} BiasAppend(a: seq<Term>, b: seq<Term>, u: int, v: int)
    ensures Bias(a + b, u, v) == Bias(a, u, v) + Bias(b, u, v)
  {
    if a == [] {
      assert a + b == b;
    } else {
      assert (a + b)[1..] == a[1..] + b;
      BiasAppend(a[1..], b, u, v);
    }
  }

  /** Left-hand side of a constraint under an assignment. */
  function Activity(terms: seq<(int, int)>, assignment: map<int, int>): int
    requires forall i :: 0 <= i < |terms| ==> terms[i].0 in assignment
  {
    if terms == [] then 0
    else terms[0].1 * assignment[terms[0].0] + Activity(terms[1..], assignment)
  }

  /** Whether an assignment satisfies a linear constraint. */
  predicate Satisfied(c: LinearConstraint, assignment: map<int, int>)
    requires forall i :: 0 <= i < |c.terms| ==> c.terms[i].0 in assignment
  {
    match c.sense
    case Eq => Activity(c.terms, assignment) == c.rhs
    case Le => Activity(c.terms, assignment) <= c.rhs
  }

  /** A constrained quadratic model that is grown in place. */
  class ConstrainedQuadraticModel {
    var variables: seq<int>
    var constraints: seq<LinearConstraint>
    var objective: seq<Term>

    /** An empty model. */
    constructor ()
      ensures variables == [] && constraints == [] && objective == []
    {
      variables := [];
      constraints := [];
      objective := [];
    }

    /** Adds `n` binary variables: the integer `n` is read as `range(n)` and
        labels already present are skipped. */
    method AddVariables(n: nat)
      modifies this
      ensures variables == old(variables) + NewLabels(old(variables), n)
      ensures constraints == old(constraints) && objective == old(objective)
    {
      variables := variables + NewLabels(variables, n);
    }

    /** Appends one linear constraint. */
    method AddConstraint(c: LinearConstraint)
      modifies this
      ensures constraints == old(constraints) + [c]
      ensures variables == old(variables) && objective == old(objective)
    {
      constraints := constraints + [c];
    }

    /** Replaces the objective by the given terms. */
    method SetObjective(terms: seq<Term>)
      modifies this
      ensures objective == terms
      ensures variables == old(variables) && constraints == old(constraints)
    {
      objective := terms;
    }
  }
}
