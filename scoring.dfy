/**
 * The arithmetic of the scorer: per-case threshold tests, per-file penalties,
 * the clamp at zero and the totals. Error values are inputs; how they are
 * measured is not part of this module.
 */
module Scoring {
  import opened Errors

  const JacobianScoreMax: real := 10.0
  const JacobianErrorThresh: real := 0.05
  const FkScoreMax: real := 10.0
  const FkErrorThresh: real := 0.005
  const Task1ScoreMax: real := JacobianScoreMax + FkScoreMax

  /** The pose error and the Jacobian error measured for one test case. */
  datatype CaseErrors = CaseErrors(fkError: real, jacobianError: real)

  /** Per-file scores and error counts, and the two totals. */
  datatype ScoreReport = ScoreReport(
    fkScore: seq<real>, fkErrorCnt: seq<nat>,
    jacobianScore: seq<real>, jacobianErrorCnt: seq<nat>,
    totalFkScore: real, totalJacobianScore: real)

  function FkErrors(cases: seq<CaseErrors>): (e: seq<real>)
    ensures |e| == |cases| && forall i :: 0 <= i < |cases| ==> e[i] == cases[i].fkError
  {
    seq(|cases|, i requires 0 <= i < |cases| => cases[i].fkError)
  }

  function JacobianErrors(cases: seq<CaseErrors>): (e: seq<real>)
    ensures |e| == |cases| && forall i :: 0 <= i < |cases| ==> e[i] == cases[i].jacobianError
  {
    seq(|cases|, i requires 0 <= i < |cases| => cases[i].jacobianError)
  }

  /** How many errors are strictly above the threshold, counted in case order. */
  function CountAbove(errors: seq<real>, thresh: real): (n: nat)
    ensures n <= |errors|
  {
    if errors == [] then 0
    else CountAbove(errors[..|errors| - 1], thresh) + (if errors[|errors| - 1] > thresh then 1 else 0)
  }

  /** Counting one more case adds one exactly when that case is above the threshold. */
  lemma CountAboveStep(errors: seq<real>, thresh: real, i: nat)
    requires i < |errors|
    ensures CountAbove(errors[..i + 1], thresh) == CountAbove(errors[..i], thresh) + if errors[i] > thresh then 1 else 0
  {
    assert errors[..i + 1][..i] == errors[..i];
  }

  /** No case fails exactly when every error is at most the threshold (equality passes). */
  lemma {:induction false} CountAboveZeroIff(errors: seq<real>, thresh: real)
    ensures CountAbove(errors, thresh) == 0 <==> forall i :: 0 <= i < |errors| ==> errors[i] <= thresh
  {
    if errors != [] {
      var init := errors[..|errors| - 1];
      CountAboveZeroIff(init, thresh);
      assert forall i :: 0 <= i < |init| ==> init[i] == errors[i];
    }
  }

  /** Every case fails exactly when every error is strictly above the threshold. */
  lemma {:induction false} CountAboveAllIff(errors: seq<real>, thresh: real)
    ensures CountAbove(errors, thresh) == |errors| <==> forall i :: 0 <= i < |errors| ==> errors[i] > thresh
  {
    if errors != [] {
      var init := errors[..|errors| - 1];
      CountAboveAllIff(init, thresh);
      assert forall i :: 0 <= i < |init| ==> init[i] == errors[i];
    }
  }

  /** The deduction for one failing case in a file of casesNum cases. */
  function Penalty(fileNum: nat, casesNum: nat): (p: real)
    requires 0 < fileNum && 0 < casesNum
    ensures p > 0.0
    ensures p * (0.3 * casesNum as real) * fileNum as real == Task1ScoreMax
  {
    (Task1ScoreMax / fileNum as real) / (0.3 * casesNum as real)
  }

  /** A file's score: its share of the maximum less count penalties, clamped at zero. */
  function FileScore(maxScore: real, fileNum: nat, casesNum: nat, count: nat): (s: real)
    requires 0 < fileNum && 0 < casesNum && 0.0 <= maxScore
    ensures 0.0 <= s <= maxScore / fileNum as real
    ensures count == 0 ==> s == maxScore / fileNum as real
    ensures s == 0.0 <==> count as real * Penalty(fileNum, casesNum) >= maxScore / fileNum as real
  {
    var raw := maxScore / fileNum as real - count as real * Penalty(fileNum, casesNum);
    if raw < 0.0 then 0.0 else raw
  }

  /** Clamping the running score at the end of a file gives the file's score. */
  method ClampScore(maxScore: real, fileNum: nat, casesNum: nat, count: nat, running: real) returns (s: real)
    requires 0 < fileNum && 0 < casesNum && 0.0 <= maxScore
    requires running == maxScore / fileNum as real - count as real * Penalty(fileNum, casesNum)
    ensures s == FileScore(maxScore, fileNum, casesNum, count)
  {
    s := running;
    if s < 0.0 {
      s := 0.0;
    }
  }

  /**
   * Both maxima are half the task's total, so a file's score drops to zero
   * exactly when at least 15% of its cases fail.
   */
  lemma FileScoreVanishesIff(maxScore: real, fileNum: nat, casesNum: nat, count: nat)
    requires maxScore == FkScoreMax || maxScore == JacobianScoreMax
    requires 0 < fileNum && 0 < casesNum
    ensures FileScore(maxScore, fileNum, casesNum, count) == 0.0 <==> count as real >= 0.15 * casesNum as real
  {
    var n, c, k := fileNum as real, casesNum as real, count as real;
    var p := Penalty(fileNum, casesNum);
    assert p * (0.3 * c) * n == 20.0;
    assert k * p >= 10.0 / n <==> k * p * n >= 10.0 by {
      assert (10.0 / n) * n == 10.0;
    }
    assert k * p * n * (0.3 * c) == 20.0 * k by {
      assert k * p * n * (0.3 * c) == k * (p * (0.3 * c) * n);
    }
    assert k * p * n >= 10.0 <==> 20.0 * k >= 10.0 * (0.3 * c);
  }

  /** The sum of the scores, added in file order. */
  function Sum(xs: seq<real>): real {
    if xs == [] then 0.0 else Sum(xs[..|xs| - 1]) + xs[|xs| - 1]
  }

  /** A sum of values in [0, hi] lies in [0, |xs| * hi]. */
  lemma {:induction false} SumBounds(xs: seq<real>, hi: real)
    requires forall i :: 0 <= i < |xs| ==> 0.0 <= xs[i] <= hi
    ensures 0.0 <= Sum(xs) <= |xs| as real * hi
  {
    if xs != [] {
      var init := xs[..|xs| - 1];
      assert forall i :: 0 <= i < |init| ==> init[i] == xs[i];
      SumBounds(init, hi);
    }
  }


  /** The total taken off after count penalties, one subtraction at a time. */
  function Deduction(count: nat, penalty: real): real {
    if count == 0 then 0.0 else Deduction(count - 1, penalty) + penalty
  }

  lemma {:induction false} DeductionIsProduct(count: nat, penalty: real)
    ensures Deduction(count, penalty) == count as real * penalty
  {
    if count > 0 {
      DeductionIsProduct(count - 1, penalty);
      assert count as real * penalty == (count - 1) as real * penalty + penalty;
    }
  }

  /**
   * The loop over one file's cases: each case whose error is strictly above
   * its threshold takes one penalty off the score and adds one to the count.
   * The counts of a file start at zero.
   */
  method TallyCases(cases: seq<CaseErrors>, penalty: real, fkStart: real, jacobianStart: real)
    returns (fkScore: real, fkErrorCnt: nat, jacobianScore: real, jacobianErrorCnt: nat)
    ensures fkErrorCnt == CountAbove(FkErrors(cases), FkErrorThresh)
    ensures jacobianErrorCnt == CountAbove(JacobianErrors(cases), JacobianErrorThresh)
    ensures fkScore == fkStart - Deduction(fkErrorCnt, penalty)
    ensures jacobianScore == jacobianStart - Deduction(jacobianErrorCnt, penalty)
  {
    fkScore, fkErrorCnt, jacobianScore, jacobianErrorCnt := fkStart, 0, jacobianStart, 0;
    for i := 0 to |cases|
      invariant fkErrorCnt == CountAbove(FkErrors(cases)[..i], FkErrorThresh)
      invariant jacobianErrorCnt == CountAbove(JacobianErrors(cases)[..i], JacobianErrorThresh)
      invariant fkScore == fkStart - Deduction(fkErrorCnt, penalty)
      invariant jacobianScore == jacobianStart - Deduction(jacobianErrorCnt, penalty)
    {
      CountAboveStep(FkErrors(cases), FkErrorThresh, i);
      CountAboveStep(JacobianErrors(cases), JacobianErrorThresh, i);
      if cases[i].fkError > FkErrorThresh {
        fkScore := fkScore - penalty;
        fkErrorCnt := fkErrorCnt + 1;
      }
      if cases[i].jacobianError > JacobianErrorThresh {
        jacobianScore := jacobianScore - penalty;
        jacobianErrorCnt := jacobianErrorCnt + 1;
      }
    }
    assert FkErrors(cases)[..|cases|] == FkErrors(cases);
    assert JacobianErrors(cases)[..|cases|] == JacobianErrors(cases);
  }

  /** The loop that adds up the per-file scores. */
  method Total(scores: seq<real>) returns (total: real)
    ensures total == Sum(scores)
  {
    total := 0.0;
    for fileId := 0 to |scores|
      invariant total == Sum(scores[..fileId])
    {
      assert scores[..fileId + 1][..fileId] == scores[..fileId];
      total := total + scores[fileId];
    }
    assert scores[..|scores|] == scores;
  }

  /** The scores and error counts of one test-case file. */
  datatype FileReport = FileReport(fkScore: real, fkErrorCnt: nat, jacobianScore: real, jacobianErrorCnt: nat)

  /** What the scorer records for a file of cases when there are fileNum files. */
  ghost predicate FileReported(cases: seq<CaseErrors>, fileNum: nat, rep: FileReport)
    requires 0 < fileNum
  {
    && cases != []
    && rep.fkErrorCnt == CountAbove(FkErrors(cases), FkErrorThresh)
    && rep.jacobianErrorCnt == CountAbove(JacobianErrors(cases), JacobianErrorThresh)
    && rep.fkScore == FileScore(FkScoreMax, fileNum, |cases|, rep.fkErrorCnt)
    && rep.jacobianScore == FileScore(JacobianScoreMax, fileNum, |cases|, rep.jacobianErrorCnt)
  }

  /**
   * One pass of the loop over files: compute the penalty (dividing by zero when
   * the file has no cases), tally the cases from the file's initial share, clamp.
   */
  method ScoreFile(cases: seq<CaseErrors>, fileNum: nat, fkStart: real, jacobianStart: real)
    returns (r: Result<FileReport>)
    requires 0 < fileNum
    requires fkStart == FkScoreMax / fileNum as real && jacobianStart == JacobianScoreMax / fileNum as real
    ensures r.Success? <==> cases != []
    ensures r.Failure? ==> r.error == DivisionByZero
    ensures r.Success? ==> FileReported(cases, fileNum, r.value)
  {
    var casesNum := |cases|;
    if casesNum == 0 {
      return Failure(DivisionByZero);
    }
    var penalty := (Task1ScoreMax / fileNum as real) / (0.3 * casesNum as real);
    assert penalty == Penalty(fileNum, casesNum);
    var fk, fkCnt, jac, jacCnt := TallyCases(cases, penalty, fkStart, jacobianStart);
    assert fk == fkStart - fkCnt as real * penalty by {
      DeductionIsProduct(fkCnt, penalty);
    }
    assert jac == jacobianStart - jacCnt as real * penalty by {
      DeductionIsProduct(jacCnt, penalty);
    }
    fk := ClampScore(FkScoreMax, fileNum, casesNum, fkCnt, fk);
    jac := ClampScore(JacobianScoreMax, fileNum, casesNum, jacCnt, jac);
    return Success(FileReport(fk, fkCnt, jac, jacCnt));
  }

  /** The report score_fk computes for these files, given every file has a case. */
  ghost predicate Reports(files: seq<seq<CaseErrors>>, rep: ScoreReport) {
    var n := |files|;
    && |rep.fkScore| == n && |rep.fkErrorCnt| == n
    && |rep.jacobianScore| == n && |rep.jacobianErrorCnt| == n
    && (forall f :: 0 <= f < n ==>
          FileReported(files[f], n, FileReport(rep.fkScore[f], rep.fkErrorCnt[f], rep.jacobianScore[f], rep.jacobianErrorCnt[f])))
    && rep.totalFkScore == Sum(rep.fkScore)
    && rep.totalJacobianScore == Sum(rep.jacobianScore)
  }

  /** n file scores each at most maxScore / n add up to at most maxScore. */
  lemma TotalBounds(scores: seq<real>, maxScore: real)
    requires 0 < |scores| && 0.0 <= maxScore
    requires forall f :: 0 <= f < |scores| ==> 0.0 <= scores[f] <= maxScore / |scores| as real
    ensures 0.0 <= Sum(scores) <= maxScore
  {
    var n := |scores| as real;
    SumBounds(scores, maxScore / n);
    assert n * (maxScore / n) == maxScore;
  }

  /**
   * score_fk without its I/O: files[f][i] holds the two errors of case i of
   * file f. A file without cases makes the penalty divide by zero.
   */
  method ScoreFk(files: seq<seq<CaseErrors>>) returns (r: Result<ScoreReport>)
    ensures r.Failure? <==> exists f :: 0 <= f < |files| && files[f] == []
    ensures r.Failure? ==> r.error == DivisionByZero
    ensures r.Success? ==> Reports(files, r.value)
    ensures r.Success? ==> 0.0 <= r.value.totalFkScore <= FkScoreMax
    ensures r.Success? ==> 0.0 <= r.value.totalJacobianScore <= JacobianScoreMax
  {
    var n := |files|;
    var fkScore := seq(n, _ requires 0 < n => FkScoreMax / n as real);
    var fkErrorCnt: seq<nat> := seq(n, _ => 0);
    var jacobianScore := seq(n, _ requires 0 < n => JacobianScoreMax / n as real);
    var jacobianErrorCnt: seq<nat> := seq(n, _ => 0);

    for fileId := 0 to n
      invariant |fkScore| == n && |fkErrorCnt| == n && |jacobianScore| == n && |jacobianErrorCnt| == n
      invariant forall f :: 0 <= f < fileId ==>
        FileReported(files[f], n, FileReport(fkScore[f], fkErrorCnt[f], jacobianScore[f], jacobianErrorCnt[f]))
      invariant forall f :: fileId <= f < n ==>
        fkScore[f] == FkScoreMax / n as real && jacobianScore[f] == JacobianScoreMax / n as real
    {
      var file := ScoreFile(files[fileId], n, fkScore[fileId], jacobianScore[fileId]);
      if file.Failure? {
        return Failure(file.error);
      }
      var rep := file.value;
      fkScore, fkErrorCnt := fkScore[fileId := rep.fkScore], fkErrorCnt[fileId := rep.fkErrorCnt];
      jacobianScore, jacobianErrorCnt := jacobianScore[fileId := rep.jacobianScore], jacobianErrorCnt[fileId := rep.jacobianErrorCnt];
    }

    var totalFkScore := Total(fkScore);
    var totalJacobianScore := Total(jacobianScore);
    if 0 < n {
      TotalBounds(fkScore, FkScoreMax);
      TotalBounds(jacobianScore, JacobianScoreMax);
    }
    return Success(ScoreReport(fkScore, fkErrorCnt, jacobianScore, jacobianErrorCnt, totalFkScore, totalJacobianScore));
  }
}
