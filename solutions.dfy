/** Turning the samples returned by a solver into a feature mask: keep the
    feasible samples, take the one of lowest energy, read its 0/1 values in
    variable order. */
module Solutions {
  import opened QuadraticModels

  /** One returned sample: a 0/1 value per variable label, its objective
      value and whether it satisfies every constraint. */
  datatype Sample = Sample(assignment: map<int, int>, energy: real, isFeasible: bool)

  /** The feasible samples, in their original order. */
  function FeasibleSamples(samples: seq<Sample>): (r: seq<Sample>)
    ensures |r| <= |samples|
    ensures forall s :: s in r <==> s in samples && s.isFeasible
  {
    if samples == [] then []
    else (if samples[0].isFeasible then [samples[0]] else []) + FeasibleSamples(samples[1..])
  }

  /** Filtering distributes over concatenation, so it keeps the order and the
      multiplicity of the samples it retains. */
  lemma {:induction false} FeasibleSamplesAppend(a: seq<Sample>, b: seq<Sample>)
    ensures FeasibleSamples(a + b) == FeasibleSamples(a) + FeasibleSamples(b)
  {
    if a == [] {
      assert a + b == b;
    } else {
      assert (a + b)[1..] == a[1..] + b;
      FeasibleSamplesAppend(a[1..], b);
    }
  }

  /** A single sample is kept exactly when it is feasible. */
  lemma FeasibleSamplesSingle(s: Sample)
    ensures FeasibleSamples([s]) == if s.isFeasible then [s] else []
  {
    assert [s][1..] == [];
  }

  /** The filter comes out empty exactly when no sample is feasible. */
  lemma NoFeasibleSamples(samples: seq<Sample>)
    ensures |FeasibleSamples(samples)| == 0 <==> forall i :: 0 <= i < |samples| ==> !samples[i].isFeasible
  {
    var r := FeasibleSamples(samples);
    if |r| > 0 {
      assert r[0] in r;
    }
    if exists i :: 0 <= i < |samples| && samples[i].isFeasible {
      var i :| 0 <= i < |samples| && samples[i].isFeasible;
      assert samples[i] in r;
    }
  }

  /** The index of the first sample of lowest energy. */
  function LowestEnergyIndex(samples: seq<Sample>): (k: nat)
    requires |samples| > 0
    ensures k < |samples|
    ensures forall i :: 0 <= i < |samples| ==> samples[k].energy <= samples[i].energy
    ensures forall i :: 0 <= i < k ==> samples[k].energy < samples[i].energy
  {
    if |samples| == 1 then 0
    else
      var k' := LowestEnergyIndex(samples[1..]);
      assert forall i :: 1 <= i < |samples| ==> samples[i] == samples[1..][i - 1];
      if samples[0].energy <= samples[k' + 1].energy then 0 else k' + 1
  }

  /** The boolean mask read from an assignment in the order of `variables`:
      entry i is true when variable `variables[i]` is set. */
  function SupportMask(variables: seq<int>, assignment: map<int, int>): (mask: seq<bool>)
    requires forall i :: 0 <= i < |variables| ==> variables[i] in assignment
    ensures |mask| == |variables|
    ensures forall i :: 0 <= i < |variables| ==> mask[i] == (assignment[variables[i]] != 0)
  {
    seq(|variables|, i requires 0 <= i < |variables| => assignment[variables[i]] != 0)
  }

  /** The number of true entries. */
  function CountTrue(mask: seq<bool>): nat
  {
    if mask == [] then 0 else (if mask[0] then 1 else 0) + CountTrue(mask[1..])
  }

  /** For a 0/1 assignment, the left-hand side of the all-ones constraint over
      `vars` is the number of selected entries in the mask read over `vars`. */
  lemma {:induction false} UnitActivityCountsSelected(vars: seq<int>, assignment: map<int, int>)
    requires forall i :: 0 <= i < |vars| ==> vars[i] in assignment
    requires forall i :: 0 <= i < |vars| ==> assignment[vars[i]] == 0 || assignment[vars[i]] == 1
    ensures Activity(UnitTerms(vars), assignment) == CountTrue(SupportMask(vars, assignment))
  {
    if vars != [] {
      assert UnitTerms(vars)[1..] == UnitTerms(vars[1..]);
      assert SupportMask(vars, assignment)[1..] == SupportMask(vars[1..], assignment);
      UnitActivityCountsSelected(vars[1..], assignment);
    }
  }
}
