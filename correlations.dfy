/** From a correlation matrix over the feature columns and the label to the
    objective terms of the feature-selection model. The (m+1) x (m+1) matrix
    (features at 0..m-1, the label at m) is turned in place into absolute
    values, its diagonal is overwritten with the alpha-scaled negated label
    column, and the top-left m x m block is emitted row by row as terms. */
module Correlations {
  import opened QuadraticModels

  type Matrix = seq<seq<real>>

  /** `M` has `n` rows of `n` entries each. */
  predicate IsSquare(M: Matrix, n: nat) {
    |M| == n && forall i :: 0 <= i < n ==> |M[i]| == n
  }

  /** `M` has at least an m x m top-left block. */
  predicate HasBlock(M: Matrix, m: nat) {
    m <= |M| && forall i :: 0 <= i < m ==> m <= |M[i]|
  }

  function Abs(x: real): (r: real)
    ensures r >= 0.0 && (r == x || r == -x)
  {
    if x < 0.0 then -x else x
  }

  /** The matrix the objective is read from: every entry in absolute value,
      except that the diagonal holds `-|C[i][n-1]| * alpha`, the negated
      relevance of row i to the label scaled by alpha. */
  function ObjectiveMatrix(C: Matrix, alpha: real): (M: Matrix)
    requires |C| > 0 && IsSquare(C, |C|)
    ensures IsSquare(M, |C|)
    ensures forall i, j :: 0 <= i < |C| && 0 <= j < |C| ==>
              M[i][j] == if i == j then -Abs(C[i][|C| - 1]) * alpha else Abs(C[i][j])
  {
    var n := |C|;
    seq(n, i requires 0 <= i < n =>
      seq(n, j requires 0 <= j < n =>
        if i == j then -Abs(C[i][n - 1]) * alpha else Abs(C[i][j])))
  }

  /** Row i of the top-left m x m block as terms (i, j, M[i][j]), j ascending. */
  function RowTerms(M: Matrix, m: nat, i: nat): (r: seq<Term>)
    requires i < |M| && m <= |M[i]|
    ensures |r| == m
    ensures forall j :: 0 <= j < m ==> r[j] == Term(i, j, M[i][j])
  {
    seq(m, j requires 0 <= j < m => Term(i, j, M[i][j]))
  }

  /** The first `rows` rows of the top-left m x m block, in row-major order. */
  function RowsTerms(M: Matrix, m: nat, rows: nat): seq<Term>
    requires HasBlock(M, m) && rows <= m
  {
    if rows == 0 then [] else RowsTerms(M, m, rows - 1) + RowTerms(M, m, rows - 1)
  }

  /** Every entry of the top-left m x m block as a term, in row-major order:
      what iterating over the block with a multi-index produces. */
  function BlockTerms(M: Matrix, m: nat): seq<Term>
    requires HasBlock(M, m)
  {
    RowsTerms(M, m, m)
  }

  /** Accumulating a prefix of row i picks up M[i][v] for the pair (i, v) and
      M[i][u] for the mirrored pair (u, i), each only once it is reached. */
  lemma {:induction false} BiasOfRowPrefix(M: Matrix, m: nat, i: nat, k: nat, u: int, v: int)
    requires i < |M| && m <= |M[i]| && k <= m
    requires 0 <= u < m && 0 <= v < m
    ensures Bias(RowTerms(M, m, i)[..k], u, v) ==
              (if i == u && v < k then M[i][v] else 0.0) +
              (if i == v && u != v && u < k then M[i][u] else 0.0)
  {
    var row := RowTerms(M, m, i);
    if k == 0 {
      assert row[..0] == [];
    } else {
      assert row[..k] == row[..k - 1] + [row[k - 1]];
      BiasAppend(row[..k - 1], [row[k - 1]], u, v);
      BiasOfRowPrefix(M, m, i, k - 1, u, v);
      assert [row[k - 1]][1..] == [];
    }
  }

  /** Accumulating the first `rows` rows: the entry (u, v) once row u is
      included, plus the mirrored entry (v, u) once row v is included. */
  lemma {:induction false} BiasOfRows(M: Matrix, m: nat, rows: nat, u: int, v: int)
    requires HasBlock(M, m) && rows <= m
    requires 0 <= u < m && 0 <= v < m
    ensures Bias(RowsTerms(M, m, rows), u, v) ==
              (if u < rows then M[u][v] else 0.0) +
              (if v < rows && u != v then M[v][u] else 0.0)
  {
    if rows > 0 {
      var row := RowTerms(M, m, rows - 1);
      BiasAppend(RowsTerms(M, m, rows - 1), row, u, v);
      BiasOfRows(M, m, rows - 1, u, v);
      assert row[..m] == row;
      BiasOfRowPrefix(M, m, rows - 1, m, u, v);
    }
  }

  /** Every term of the first `rows` rows refers to variables below m. */
  lemma {:induction false} RowsTermsInBlock(M: Matrix, m: nat, rows: nat)
    requires HasBlock(M, m) && rows <= m
    ensures forall t :: t in RowsTerms(M, m, rows) ==> 0 <= t.u < rows && 0 <= t.v < m
  {
    if rows > 0 {
      RowsTermsInBlock(M, m, rows - 1);
      var row := RowTerms(M, m, rows - 1);
      forall t | t in RowsTerms(M, m, rows)
        ensures 0 <= t.u < rows && 0 <= t.v < m
      {
        if t !in RowsTerms(M, m, rows - 1) {
          assert t in row;
        }
      }
    }
  }

  /** The objective over m features read from an (m+1) x (m+1) correlation
      matrix C: the linear coefficient of feature i is -alpha * |C[i][m]|, and
      the pair {i, j} of distinct features gets |C[i][j]| + |C[j][i]| because
      both orderings are emitted. */
  lemma ObjectiveCoefficients(C: Matrix, alpha: real, i: nat, j: nat)
    requires |C| > 0 && IsSquare(C, |C|)
    requires i < |C| - 1 && j < |C| - 1
    ensures Bias(BlockTerms(ObjectiveMatrix(C, alpha), |C| - 1), i, j) ==
              if i == j then -alpha * Abs(C[i][|C| - 1]) else Abs(C[i][j]) + Abs(C[j][i])
  {
    BiasOfRows(ObjectiveMatrix(C, alpha), |C| - 1, |C| - 1, i, j);
  }

  /** No objective term refers to the label's index m (or beyond). */
  lemma ObjectiveOmitsLabel(C: Matrix, alpha: real)
    requires |C| > 0 && IsSquare(C, |C|)
    ensures forall t :: t in BlockTerms(ObjectiveMatrix(C, alpha), |C| - 1) ==>
              0 <= t.u < |C| - 1 && 0 <= t.v < |C| - 1
  {
    RowsTermsInBlock(ObjectiveMatrix(C, alpha), |C| - 1, |C| - 1);
  }

  /** The pair coefficient does not depend on alpha, and for a symmetric
      correlation matrix it is twice the absolute correlation. */
  lemma PairBiasIgnoresAlpha(C: Matrix, alpha1: real, alpha2: real, i: nat, j: nat)
    requires |C| > 0 && IsSquare(C, |C|)
    requires i < |C| - 1 && j < |C| - 1 && i != j
    ensures Bias(BlockTerms(ObjectiveMatrix(C, alpha1), |C| - 1), i, j) ==
            Bias(BlockTerms(ObjectiveMatrix(C, alpha2), |C| - 1), i, j)
    ensures C[i][j] == C[j][i] ==>
              Bias(BlockTerms(ObjectiveMatrix(C, alpha1), |C| - 1), i, j) == 2.0 * Abs(C[i][j])
  {
    ObjectiveCoefficients(C, alpha1, i, j);
    ObjectiveCoefficients(C, alpha2, i, j);
  }

  /** Replaces every entry by its absolute value, in place. */
  method AbsoluteInPlace(a: array2<real>)
    modifies a
    ensures forall i, j :: 0 <= i < a.Length0 && 0 <= j < a.Length1 ==> a[i, j] == Abs(old(a[i, j]))
  {
    var i := 0;
    while i < a.Length0
      invariant 0 <= i <= a.Length0
      invariant forall p, q :: 0 <= p < i && 0 <= q < a.Length1 ==> a[p, q] == Abs(old(a[p, q]))
      invariant forall p, q :: i <= p < a.Length0 && 0 <= q < a.Length1 ==> a[p, q] == old(a[p, q])
    {
      var j := 0;
      while j < a.Length1
        invariant 0 <= j <= a.Length1
        invariant forall p, q :: 0 <= p < i && 0 <= q < a.Length1 ==> a[p, q] == Abs(old(a[p, q]))
        invariant forall q :: 0 <= q < j ==> a[i, q] == Abs(old(a[i, q]))
        invariant forall p, q :: i <= p < a.Length0 && 0 <= q < a.Length1 && (p > i || q >= j) ==>
                    a[p, q] == old(a[p, q])
      {
        a[i, j] := Abs(a[i, j]);
        j := j + 1;
      }
      i := i + 1;
    }
  }

  /** Writes `vals[k]` at position (k, k) for every k, in place. */
  method FillDiagonal(a: array2<real>, vals: seq<real>)
    requires a.Length0 == a.Length1 == |vals|
    modifies a
    ensures forall i, j :: 0 <= i < a.Length0 && 0 <= j < a.Length1 ==>
              a[i, j] == if i == j then vals[i] else old(a[i, j])
  {
    var k := 0;
    while k < |vals|
      invariant 0 <= k <= |vals|
      invariant forall i, j :: 0 <= i < a.Length0 && 0 <= j < a.Length1 ==>
                  a[i, j] == if i == j && i < k then vals[i] else old(a[i, j])
    {
      a[k, k] := vals[k];
      k := k + 1;
    }
  }

  /** The top-left m x m block of `a` as terms, in row-major order. */
  method TopLeftTerms(a: array2<real>, m: nat, ghost M: Matrix) returns (terms: seq<Term>)
    requires m <= a.Length0 && m <= a.Length1 && HasBlock(M, m)
    requires forall i, j :: 0 <= i < m && 0 <= j < m ==> a[i, j] == M[i][j]
    ensures terms == BlockTerms(M, m)
  {
    terms := [];
    var i := 0;
    while i < m
      invariant 0 <= i <= m
      invariant terms == RowsTerms(M, m, i)
    {
      var row := [];
      var j := 0;
      while j < m
        invariant 0 <= j <= m
        invariant |row| == j
        invariant forall q :: 0 <= q < j ==> row[q] == Term(i, q, M[i][q])
      {
        row := row + [Term(i, j, a[i, j])];
        j := j + 1;
      }
      assert row == RowTerms(M, m, i);
      terms := terms + row;
      i := i + 1;
    }
  }

  /** A fresh n x n buffer holding the correlations in absolute value:
      the correlations are written into it and then made absolute in place. */
  method AbsoluteBuffer(corr: Matrix) returns (a: array2<real>)
    requires IsSquare(corr, |corr|)
    ensures fresh(a) && a.Length0 == |corr| && a.Length1 == |corr|
    ensures forall i, j :: 0 <= i < |corr| && 0 <= j < |corr| ==> a[i, j] == Abs(corr[i][j])
  {
    var n := |corr|;
    a := new real[n, n]((i, j) requires 0 <= i < n && 0 <= j < n => corr[i][j]);
    AbsoluteInPlace(a);
  }

  /** A fresh buffer holding ObjectiveMatrix(corr, alpha): the absolute
      correlations with the diagonal overwritten by the negated label column
      scaled by alpha. */
  method ObjectiveBuffer(corr: Matrix, alpha: real) returns (a: array2<real>)
    requires |corr| > 0 && IsSquare(corr, |corr|)
    ensures fresh(a) && a.Length0 == |corr| && a.Length1 == |corr|
    ensures forall i, j :: 0 <= i < |corr| && 0 <= j < |corr| ==>
              a[i, j] == if i == j then -Abs(corr[i][|corr| - 1]) * alpha else Abs(corr[i][j])
  {
    var n := |corr|;
    a := AbsoluteBuffer(corr);
    var diagonal := seq(n, k requires 0 <= k < n reads a => -a[k, n - 1] * alpha);
    FillDiagonal(a, diagonal);
  }

  /** The objective terms read from a square correlation matrix (features
      first, the label last): the block of the objective buffer without the
      label's row and column, in row-major order. */
  method CorrelationObjective(corr: Matrix, alpha: real) returns (terms: seq<Term>)
    requires |corr| > 0 && IsSquare(corr, |corr|)
    ensures terms == BlockTerms(ObjectiveMatrix(corr, alpha), |corr| - 1)
  {
    var correlations := ObjectiveBuffer(corr, alpha);
    terms := TopLeftTerms(correlations, |corr| - 1, ObjectiveMatrix(corr, alpha));
  }

  /** The coefficients of the objective read from C: -alpha * |C[i][m]| for
      feature i alone and |C[i][j]| + |C[j][i]| for distinct features i, j,
      where m = |C| - 1 is the label's index; no term mentions index m. */
  ghost predicate HasCorrelationCoefficients(terms: seq<Term>, C: Matrix, alpha: real)
    requires |C| > 0 && IsSquare(C, |C|)
  {
    && (forall i, j :: 0 <= i < |C| - 1 && 0 <= j < |C| - 1 ==>
          Bias(terms, i, j) ==
            if i == j then -alpha * Abs(C[i][|C| - 1]) else Abs(C[i][j]) + Abs(C[j][i]))
    && (forall t :: t in terms ==> 0 <= t.u < |C| - 1 && 0 <= t.v < |C| - 1)
  }

  /** All coefficients of the objective read from C at once. */
  lemma AllObjectiveCoefficients(C: Matrix, alpha: real)
    requires |C| > 0 && IsSquare(C, |C|)
    ensures HasCorrelationCoefficients(BlockTerms(ObjectiveMatrix(C, alpha), |C| - 1), C, alpha)
  {
    forall i, j | 0 <= i < |C| - 1 && 0 <= j < |C| - 1
      ensures Bias(BlockTerms(ObjectiveMatrix(C, alpha), |C| - 1), i, j) ==
                if i == j then -alpha * Abs(C[i][|C| - 1]) else Abs(C[i][j]) + Abs(C[j][i])
    {
      ObjectiveCoefficients(C, alpha, i, j);
    }
    ObjectiveOmitsLabel(C, alpha);
  }
}
