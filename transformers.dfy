/** The feature selector: hyperparameter validation, assembly of the
    constrained quadratic model from a correlation matrix, selection of the
    mask from the solver's samples, and the fit/unfit lifecycle of the mask. */
module Transformers {
  import opened Results
  import opened QuadraticModels
  import opened Correlations
  import opened Solutions

  /** The exceptions the selector raises. */
  datatype Error =
    | AlphaOutOfRange        // ValueError: alpha must be between 0 and 1
    | UnsupportedMethod      // ValueError: method must be one of the accepted methods
    | NumFeaturesNotPositive // ValueError: num_features must be a positive integer
    | XNotTwoDimensional     // ValueError: X must be a 2-dimensional array-like
    | YNotOneDimensional     // ValueError: y must be a 1-dimensional array-like
    | EmptyBlockIteration    // ValueError: iterating over a zero-sized block is not enabled
    | SolverUnavailable      // RuntimeError: instantiating the hybrid solver failed
    | SamplingError          // whatever sampling raised, e.g. a rejected time limit
    | NoFeasibleSolution     // RuntimeError: no feasible solutions found
    | NotFitted              // the estimator has no mask yet
    | MaskMissing            // AttributeError: deleting a mask that does not exist

  /** What the solver gives back for a model: no solver could be instantiated
      (configuration or authentication failure), sampling raised (for one,
      when the time limit, validated only there, is rejected), or a set of
      samples. */
  datatype SolverResponse = Unavailable | SamplingFailed | Returned(samples: seq<Sample>)

  /** The selection methods implemented. */
  const AcceptedMethods: seq<string> := ["correlation"]

  /** The constructor's default hyperparameters; the default time limit is None. */
  const DefaultAlpha: real := 0.5
  const DefaultMethod: string := "correlation"
  const DefaultNumFeatures: int := 10

  /** Constructor validation: alpha first, then the method name, then the
      number of features. */
  function CheckHyperparameters(alpha: real, methodName: string, numFeatures: int): (r: Outcome<Error>)
    ensures r == Pass <==> 0.0 <= alpha <= 1.0 && methodName in AcceptedMethods && numFeatures > 0
    ensures !(0.0 <= alpha <= 1.0) ==> r == Fail(AlphaOutOfRange)
    ensures 0.0 <= alpha <= 1.0 && methodName !in AcceptedMethods ==> r == Fail(UnsupportedMethod)
    ensures 0.0 <= alpha <= 1.0 && methodName in AcceptedMethods && numFeatures <= 0 ==>
              r == Fail(NumFeaturesNotPositive)
  {
    if !(0.0 <= alpha <= 1.0) then Fail(AlphaOutOfRange)
    else if methodName !in AcceptedMethods then Fail(UnsupportedMethod)
    else if numFeatures <= 0 then Fail(NumFeaturesNotPositive)
    else Pass
  }

  /** The shape of an array after promotion to at least two dimensions:
      a scalar becomes 1 x 1 and a vector of length n becomes 1 x n. */
  function AtLeast2d(shape: seq<nat>): (r: seq<nat>)
    ensures |r| >= 2
    ensures |shape| >= 2 ==> r == shape
    ensures |shape| == 1 ==> r == [1, shape[0]]
    ensures |shape| == 0 ==> r == [1, 1]
  {
    if |shape| == 0 then [1, 1]
    else if |shape| == 1 then [1, shape[0]]
    else shape
  }

  /** Promotion is idempotent, so a shape already promoted is left alone. */
  lemma AtLeast2dIdempotent(shape: seq<nat>)
    ensures AtLeast2d(AtLeast2d(shape)) == AtLeast2d(shape)
  {
  }

  /** Validation done when building the model, on the promoted X: X is 2-D,
      then y is 1-D, then alpha is in [0, 1], then num_features is positive. */
  function CheckModelInputs(xShape: seq<nat>, yShape: seq<nat>, alpha: real, numFeatures: int): (r: Outcome<Error>)
    ensures r == Pass <==> |xShape| == 2 && |yShape| == 1 && 0.0 <= alpha <= 1.0 && numFeatures > 0
    ensures |xShape| != 2 ==> r == Fail(XNotTwoDimensional)
    ensures |xShape| == 2 && |yShape| != 1 ==> r == Fail(YNotOneDimensional)
    ensures |xShape| == 2 && |yShape| == 1 && !(0.0 <= alpha <= 1.0) ==> r == Fail(AlphaOutOfRange)
    ensures |xShape| == 2 && |yShape| == 1 && 0.0 <= alpha <= 1.0 && numFeatures <= 0 ==>
              r == Fail(NumFeaturesNotPositive)
  {
    if |xShape| != 2 then Fail(XNotTwoDimensional)
    else if |yShape| != 1 then Fail(YNotOneDimensional)
    else if !(0.0 <= alpha <= 1.0) then Fail(AlphaOutOfRange)
    else if numFeatures <= 0 then Fail(NumFeaturesNotPositive)
    else Pass
  }

  /** The k-hot constraint: the variables, each with coefficient 1, sum to
      exactly k when strict and to at most k otherwise. */
  function KHot(vars: seq<int>, strict: bool, k: int): LinearConstraint
  {
    LinearConstraint(UnitTerms(vars), if strict then Eq else Le, k)
  }

  /** The model built for m columns from the correlation matrix C. */
  ghost predicate IsCorrelationModel(cqm: ConstrainedQuadraticModel, C: Matrix, m: nat,
                                    alpha: real, numFeatures: int, strict: bool)
    reads cqm
  {
    && IsSquare(C, m + 1)
    && cqm.variables == Range(m)
    && cqm.constraints == [KHot(Range(m), strict, numFeatures)]
    && cqm.objective == BlockTerms(ObjectiveMatrix(C, alpha), m)
  }

  /** Builds the constrained quadratic model for X of shape `xShape`, y of
      shape `yShape`, and the correlation matrix `corr` of the columns of X
      followed by y. */
  method CorrelationCqm(xShape: seq<nat>, yShape: seq<nat>, corr: Matrix,
                        alpha: real, numFeatures: int, strict: bool)
    returns (r: Result<ConstrainedQuadraticModel, Error>)
    requires IsSquare(corr, AtLeast2d(xShape)[1] + 1)
    ensures r.Failure? <==>
              CheckModelInputs(AtLeast2d(xShape), yShape, alpha, numFeatures).Fail? || AtLeast2d(xShape)[1] == 0
    ensures r.Failure? && CheckModelInputs(AtLeast2d(xShape), yShape, alpha, numFeatures).Fail? ==>
              r.error == CheckModelInputs(AtLeast2d(xShape), yShape, alpha, numFeatures).error
    ensures r.Failure? && CheckModelInputs(AtLeast2d(xShape), yShape, alpha, numFeatures).Pass? ==>
              r.error == EmptyBlockIteration
    ensures r.Success? ==> fresh(r.value)
    ensures r.Success? ==>
              var m := AtLeast2d(xShape)[1];
              && IsCorrelationModel(r.value, corr, m, alpha, numFeatures, strict)
              && HasCorrelationCoefficients(r.value.objective, corr, alpha)
  {
    var shape := AtLeast2d(xShape);
    var checked := CheckModelInputs(shape, yShape, alpha, numFeatures);
    if checked.Fail? {
      return Failure(checked.error);
    }
    var m := shape[1];
    if m == 0 {
      // the objective block without the label is 0 x 0, and iterating over it raises
      return Failure(EmptyBlockIteration);
    }

    var cqm := new ConstrainedQuadraticModel();
    cqm.AddVariables(m);
    NewLabelsOnEmpty(m);
    cqm.AddConstraint(KHot(cqm.variables, strict, numFeatures));

    var terms := CorrelationObjective(corr, alpha);
    cqm.SetObjective(terms);
    AllObjectiveCoefficients(corr, alpha);
    return Success(cqm);
  }

  /** Every returned sample assigns a value to each of the variables 0..m-1. */
  ghost predicate CoversVariables(response: SolverResponse, m: nat) {
    response.Returned? ==>
      forall s, v :: s in response.samples && 0 <= v < m ==> v in s.assignment
  }

  /** Whether fitting reaches the solver: X is 2-D after promotion, fewer
      features are requested than there are columns, and the model inputs
      pass validation. */
  predicate ReachesSolver(cfgAlpha: real, cfgNumFeatures: int, xShape: seq<nat>, yShape: seq<nat>,
                          alphaArg: Option<real>, numFeaturesArg: Option<int>)
  {
    var shape := AtLeast2d(xShape);
    && |shape| == 2
    && numFeaturesArg.GetOr(cfgNumFeatures) < shape[1]
    && CheckModelInputs(shape, yShape, alphaArg.GetOr(cfgAlpha), numFeaturesArg.GetOr(cfgNumFeatures)) == Pass
  }

  /** The mask a fit stores, or the exception it raises, given the constructor
      values and the solver's response to the model it builds. */
  function FitResult(cfgAlpha: real, cfgNumFeatures: int, xShape: seq<nat>, yShape: seq<nat>,
                     alphaArg: Option<real>, numFeaturesArg: Option<int>,
                     response: SolverResponse): Result<seq<bool>, Error>
    requires CoversVariables(response, AtLeast2d(xShape)[1])
  {
    var shape := AtLeast2d(xShape);
    if |shape| != 2 then Failure(XNotTwoDimensional)
    else
      var alpha := alphaArg.GetOr(cfgAlpha);
      var k := numFeaturesArg.GetOr(cfgNumFeatures);
      var m := shape[1];
      if k >= m then Success(seq(m, _ => true))
      else match CheckModelInputs(shape, yShape, alpha, k)
        case Fail(e) => Failure(e)
        case Pass =>
          match response
          case Unavailable => Failure(SolverUnavailable)
          case SamplingFailed => Failure(SamplingError)
          case Returned(samples) =>
            var feasible := FeasibleSamples(samples);
            if |feasible| == 0 then Failure(NoFeasibleSolution)
            else
              var lowest := feasible[LowestEnergyIndex(feasible)];
              assert lowest in samples;
              Success(SupportMask(Range(m), lowest.assignment))
  }

  /** When at least as many features are requested as X has columns, the fit
      selects every column, whatever y, alpha and the solver would do. */
  lemma FitShortCircuit(cfgAlpha: real, cfgNumFeatures: int, xShape: seq<nat>, yShape: seq<nat>,
                        alphaArg: Option<real>, numFeaturesArg: Option<int>, response: SolverResponse)
    requires CoversVariables(response, AtLeast2d(xShape)[1])
    requires |AtLeast2d(xShape)| == 2 && numFeaturesArg.GetOr(cfgNumFeatures) >= AtLeast2d(xShape)[1]
    ensures !ReachesSolver(cfgAlpha, cfgNumFeatures, xShape, yShape, alphaArg, numFeaturesArg)
    ensures var r := FitResult(cfgAlpha, cfgNumFeatures, xShape, yShape, alphaArg, numFeaturesArg, response);
            && r.Success?
            && |r.value| == AtLeast2d(xShape)[1]
            && forall i :: 0 <= i < |r.value| ==> r.value[i]
  {
  }

  /** A stored mask has one entry per column of X. */
  lemma FitMaskLength(cfgAlpha: real, cfgNumFeatures: int, xShape: seq<nat>, yShape: seq<nat>,
                      alphaArg: Option<real>, numFeaturesArg: Option<int>, response: SolverResponse)
    requires CoversVariables(response, AtLeast2d(xShape)[1])
    requires FitResult(cfgAlpha, cfgNumFeatures, xShape, yShape, alphaArg, numFeaturesArg, response).Success?
    ensures |FitResult(cfgAlpha, cfgNumFeatures, xShape, yShape, alphaArg, numFeaturesArg, response).value|
              == AtLeast2d(xShape)[1]
  {
  }

  /** On the solver path, a fit fails with NoFeasibleSolution exactly when
      the solver returned samples of which none is feasible. */
  lemma FitFailsWithoutFeasibleSample(cfgAlpha: real, cfgNumFeatures: int, xShape: seq<nat>, yShape: seq<nat>,
                                      alphaArg: Option<real>, numFeaturesArg: Option<int>, samples: seq<Sample>)
    requires CoversVariables(Returned(samples), AtLeast2d(xShape)[1])
    requires ReachesSolver(cfgAlpha, cfgNumFeatures, xShape, yShape, alphaArg, numFeaturesArg)
    ensures FitResult(cfgAlpha, cfgNumFeatures, xShape, yShape, alphaArg, numFeaturesArg, Returned(samples))
              == Failure(NoFeasibleSolution)
            <==> forall i :: 0 <= i < |samples| ==> !samples[i].isFeasible
  {
    NoFeasibleSamples(samples);
  }

  /** On the solver path, a stored mask is the one read, in variable order,
      from a feasible sample whose energy no feasible sample undercuts. */
  lemma FitSelectsLowestFeasible(cfgAlpha: real, cfgNumFeatures: int, xShape: seq<nat>, yShape: seq<nat>,
                                 alphaArg: Option<real>, numFeaturesArg: Option<int>, samples: seq<Sample>)
    requires CoversVariables(Returned(samples), AtLeast2d(xShape)[1])
    requires ReachesSolver(cfgAlpha, cfgNumFeatures, xShape, yShape, alphaArg, numFeaturesArg)
    requires FitResult(cfgAlpha, cfgNumFeatures, xShape, yShape, alphaArg, numFeaturesArg, Returned(samples)).Success?
    ensures exists s :: s in samples && s.isFeasible
              && (forall t :: t in samples && t.isFeasible ==> s.energy <= t.energy)
              && FitResult(cfgAlpha, cfgNumFeatures, xShape, yShape, alphaArg, numFeaturesArg, Returned(samples)).value
                 == SupportMask(Range(AtLeast2d(xShape)[1]), s.assignment)
  {
    var feasible := FeasibleSamples(samples);
    var s := feasible[LowestEnergyIndex(feasible)];
    assert s in feasible;
    forall t | t in samples && t.isFeasible
      ensures s.energy <= t.energy
    {
      assert t in feasible;
      var i :| 0 <= i < |feasible| && feasible[i] == t;
    }
  }

  /** If every sample the solver flags feasible is a 0/1 assignment that
      satisfies the k-hot constraint, a mask stored on the solver path selects
      exactly k features (the constraint is strict when fitting). */
  lemma FitSelectsExactlyK(cfgAlpha: real, cfgNumFeatures: int, xShape: seq<nat>, yShape: seq<nat>,
                           alphaArg: Option<real>, numFeaturesArg: Option<int>, samples: seq<Sample>)
    requires CoversVariables(Returned(samples), AtLeast2d(xShape)[1])
    requires ReachesSolver(cfgAlpha, cfgNumFeatures, xShape, yShape, alphaArg, numFeaturesArg)
    requires forall s, v :: s in samples && 0 <= v < AtLeast2d(xShape)[1] ==>
               (s.assignment[v] == 0 || s.assignment[v] == 1)
    requires forall s :: s in samples && s.isFeasible ==>
               Satisfied(KHot(Range(AtLeast2d(xShape)[1]), true, numFeaturesArg.GetOr(cfgNumFeatures)), s.assignment)
    requires FitResult(cfgAlpha, cfgNumFeatures, xShape, yShape, alphaArg, numFeaturesArg, Returned(samples)).Success?
    ensures CountTrue(FitResult(cfgAlpha, cfgNumFeatures, xShape, yShape, alphaArg, numFeaturesArg, Returned(samples)).value)
              == numFeaturesArg.GetOr(cfgNumFeatures)
  {
    var m := AtLeast2d(xShape)[1];
    var feasible := FeasibleSamples(samples);
    var s := feasible[LowestEnergyIndex(feasible)];
    assert s in feasible;
    UnitActivityCountsSelected(Range(m), s.assignment);
  }

  /** The k-hot constraint bounds the selection: a 0/1 assignment satisfying
      it selects exactly k variables when strict and at most k otherwise. */
  lemma KHotBoundsSelection(vars: seq<int>, strict: bool, k: int, assignment: map<int, int>)
    requires forall i :: 0 <= i < |vars| ==> vars[i] in assignment
    requires forall i :: 0 <= i < |vars| ==> assignment[vars[i]] == 0 || assignment[vars[i]] == 1
    requires Satisfied(KHot(vars, strict, k), assignment)
    ensures strict ==> CountTrue(SupportMask(vars, assignment)) == k
    ensures !strict ==> CountTrue(SupportMask(vars, assignment)) <= k
  {
    UnitActivityCountsSelected(vars, assignment);
  }

  /** The estimator. The hyperparameters are fixed at construction; the mask
      is present exactly when the estimator is fitted. */
  class SelectFromQuadraticModel {
    const alpha: real
    const methodName: string
    const numFeatures: int
    const timeLimit: Option<real>
    var mask: Option<seq<bool>>

    /** The hyperparameters passed validation. */
    ghost predicate Valid() {
      CheckHyperparameters(alpha, methodName, numFeatures) == Pass
    }

    /** Stores the validated hyperparameters; the estimator starts unfitted. */
    constructor (alpha: real, methodName: string, numFeatures: int, timeLimit: Option<real>)
      requires CheckHyperparameters(alpha, methodName, numFeatures) == Pass
      ensures Valid()
      ensures this.alpha == alpha && this.methodName == methodName
      ensures this.numFeatures == numFeatures && this.timeLimit == timeLimit
      ensures mask == None
    {
      this.alpha := alpha;
      this.methodName := methodName;
      this.numFeatures := numFeatures;
      this.timeLimit := timeLimit;
      mask := None;
    }

    /** Whether a mask is stored. */
    predicate IsFitted()
      reads this
    {
      mask.Some?
    }

    /** The stored mask, or NotFitted. */
    method GetSupportMask() returns (r: Result<seq<bool>, Error>)
      ensures r.Success? <==> IsFitted()
      ensures r.Failure? ==> r.error == NotFitted
      ensures r.Success? ==> r.value == mask.value
    {
      if mask.None? {
        return Failure(NotFitted);
      }
      return Success(mask.value);
    }

    /** Selects the features to keep. `corr` is the correlation matrix of the
        columns of X followed by y, and `response` is what the solver returns
        for the model built here. On success the new mask is stored; on any
        failure the mask is left as it was. `built` is the model that was
        built, if any. */
    method Fit(xShape: seq<nat>, yShape: seq<nat>, corr: Matrix,
               alphaArg: Option<real>, numFeaturesArg: Option<int>, timeLimitArg: Option<real>,
               response: SolverResponse)
      returns (r: Outcome<Error>, built: Option<ConstrainedQuadraticModel>)
      requires Valid()
      requires IsSquare(corr, AtLeast2d(xShape)[1] + 1)
      requires CoversVariables(response, AtLeast2d(xShape)[1])
      modifies this
      ensures var res := FitResult(alpha, numFeatures, xShape, yShape, alphaArg, numFeaturesArg, response);
              && (res.Success? ==> r == Pass && mask == Some(res.value))
              && (res.Failure? ==> r == Fail(res.error) && mask == old(mask))
      ensures built.Some? <==> ReachesSolver(alpha, numFeatures, xShape, yShape, alphaArg, numFeaturesArg)
      ensures built.Some? ==>
                && fresh(built.value)
                && IsCorrelationModel(built.value, corr, AtLeast2d(xShape)[1],
                                      alphaArg.GetOr(alpha), numFeaturesArg.GetOr(numFeatures), true)
    {
      built := None;
      var shape := AtLeast2d(xShape);
      if |shape| != 2 {
        return Fail(XNotTwoDimensional), None;
      }
      var a := alphaArg.GetOr(alpha);
      var k := numFeaturesArg.GetOr(numFeatures);
      if k >= shape[1] {
        mask := Some(seq(shape[1], _ => true));
        return Pass, None;
      }

      AtLeast2dIdempotent(xShape);
      var model := CorrelationCqm(shape, yShape, corr, a, k, true);
      if model.Failure? {
        return Fail(model.error), None;
      }
      var cqm := model.value;
      built := Some(cqm);

      match response
      case Unavailable =>
        r := Fail(SolverUnavailable);
      case SamplingFailed =>
        r := Fail(SamplingError);
      case Returned(samples) =>
        var filtered := FeasibleSamples(samples);
        if |filtered| == 0 {
          r := Fail(NoFeasibleSolution);
        } else {
          var lowest := filtered[LowestEnergyIndex(filtered)];
          assert lowest in samples;
          mask := Some(SupportMask(cqm.variables, lowest.assignment));
          r := Pass;
        }
    }

    /** Removes the stored mask; fails with MaskMissing when there is none. */
    method Unfit() returns (r: Outcome<Error>)
      modifies this
      ensures r == if old(mask).Some? then Pass else Fail(MaskMissing)
      ensures mask == None
    {
      if mask.None? {
        return Fail(MaskMissing);
      }
      mask := None;
      return Pass;
    }
  }

  /** Validates the hyperparameters and constructs an unfitted estimator, or
      raises the first validation error. */
  method Create(alpha: real, methodName: string, numFeatures: int, timeLimit: Option<real>)
    returns (r: Result<SelectFromQuadraticModel, Error>)
    ensures r.Failure? <==> CheckHyperparameters(alpha, methodName, numFeatures).Fail?
    ensures r.Failure? ==> r.error == CheckHyperparameters(alpha, methodName, numFeatures).error
    ensures r.Success? ==>
              && fresh(r.value) && r.value.Valid() && r.value.mask == None
              && r.value.alpha == alpha && r.value.methodName == methodName
              && r.value.numFeatures == numFeatures && r.value.timeLimit == timeLimit
  {
    var checked := CheckHyperparameters(alpha, methodName, numFeatures);
    if checked.Fail? {
      return Failure(checked.error);
    }
    var selector := new SelectFromQuadraticModel(alpha, methodName, numFeatures, timeLimit);
    return Success(selector);
  }

  /** Constructs an estimator with every hyperparameter at its default; the
      defaults pass validation, so this cannot fail. */
  method CreateDefault() returns (selector: SelectFromQuadraticModel)
    ensures fresh(selector) && selector.Valid() && selector.mask == None
    ensures selector.alpha == DefaultAlpha && selector.methodName == DefaultMethod
    ensures selector.numFeatures == DefaultNumFeatures && selector.timeLimit == None
  {
    selector := new SelectFromQuadraticModel(DefaultAlpha, DefaultMethod, DefaultNumFeatures, None);
  }

  /** A client of the lifecycle: four columns with four features requested
      selects all four without a solver; unfitting clears the mask, after
      which the mask is unavailable and a second unfit fails. */
  method LifecycleScenario(corr: Matrix)
    requires IsSquare(corr, 5)
  {
    var created := Create(1.0, "correlation", 4, None);
    var selector := created.value;
    var r, built := selector.Fit([5, 4], [5], corr, None, None, None, Unavailable);
    assert built == None && r == Pass;
    var m1 := selector.GetSupportMask();
    var m2 := selector.GetSupportMask();
    assert seq(4, _ => true) == [true, true, true, true];
    assert m1 == m2 == Success([true, true, true, true]);
    var u := selector.Unfit();
    assert u == Pass;
    var m3 := selector.GetSupportMask();
    assert m3 == Failure(NotFitted);
    u := selector.Unfit();
    assert u == Fail(MaskMissing);
  }
}
