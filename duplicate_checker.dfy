/**
 * `checkDuplicateRisk`: decide whether a new risk description duplicates one
 * of the existing descriptions. Three tiers run in strict order, and the first
 * that decides returns:
 *   1. verbatim membership of the new description in the existing list;
 *   2. the best fuzzy string rating, compared strictly against 0.85;
 *   3. a scan of the per-document TF-IDF measures for the largest one and its
 *      position, followed by the verdict rule (duplicate above 2.5).
 *
 * The rating and the measures come from foreign libraries whose computation is
 * not part of this model; they are parameters here. The measure at index i is
 * the one the TF-IDF index reports for the i-th existing description.
 */
module DuplicateChecker {

  /** The fuzzy rating must be strictly above this to count as a duplicate. */
  const StringThreshold: real := 0.85
  /** The best TF-IDF measure must be strictly above this to count as a duplicate. */
  const TfIdfThreshold: real := 2.5

  /** The explanation carried by a verdict. */
  datatype Reason =
    | ExactMatch                           // 'Exact match found'
    | HighStringSimilarity(rating: real)   // 'High string similarity (<rating as a whole percentage>%)'
    | SemanticSimilarity(riskNumber: nat)  // 'Semantic similarity with risk #<riskNumber>'
    | NoSimilarity                         // 'No similarity detected'

  /** The object returned by every tier: exactly these two fields, nothing else. */
  datatype Verdict = Verdict(isDuplicate: bool, reason: Reason)

  // ---------------------------------------------------------------------------
  // Specification of the TF-IDF scan

  /** The largest of 0 and all the measures. */
  function MaxScore(measures: seq<real>): (m: real)
    ensures 0.0 <= m
    ensures forall i :: 0 <= i < |measures| ==> measures[i] <= m
    ensures m == 0.0 || m in measures
  {
    if measures == [] then 0.0
    else
      var rest := MaxScore(measures[1..]);
      if measures[0] > rest then measures[0] else rest
  }

  /** The first position at which `x` occurs in `s`. */
  function FirstIndexOf(s: seq<real>, x: real): (i: nat)
    requires x in s
    ensures i < |s| && s[i] == x
    ensures forall j :: 0 <= j < i ==> s[j] != x
  {
    if s[0] == x then 0 else 1 + FirstIndexOf(s[1..], x)
  }

  /** The position of the earliest largest positive measure, or 0 when no measure is positive. */
  function BestIndex(measures: seq<real>): nat
  {
    var m := MaxScore(measures);
    if m > 0.0 then FirstIndexOf(measures, m) else 0
  }

  /** What the scan promises of the pair (`maxScore`, `bestIndex`) it leaves behind
      after looking at `measures`: `maxScore` is the largest of 0 and the measures,
      and when it is positive `bestIndex` is the first position holding it. */
  predicate IsScanResult(measures: seq<real>, maxScore: real, bestIndex: nat)
  {
    && 0.0 <= maxScore
    && (forall j :: 0 <= j < |measures| ==> measures[j] <= maxScore)
    && (maxScore > 0.0 ==>
          && bestIndex < |measures| && measures[bestIndex] == maxScore
          && forall j :: 0 <= j < bestIndex ==> measures[j] < maxScore)
    && (maxScore == 0.0 ==> bestIndex == 0)
  }

  /** The scan's promise pins its outcome down completely. */
  lemma ScanResultUnique(measures: seq<real>, m1: real, b1: nat, m2: real, b2: nat)
    requires IsScanResult(measures, m1, b1) && IsScanResult(measures, m2, b2)
    ensures m1 == m2 && b1 == b2
  {
    if m1 > 0.0 {
      assert measures[b1] <= m2;
    }
    if m2 > 0.0 {
      assert measures[b2] <= m1;
    }
  }

  /** `MaxScore` and `BestIndex` are that unique outcome. */
  lemma ScanSpec(measures: seq<real>)
    ensures IsScanResult(measures, MaxScore(measures), BestIndex(measures))
  {
    var m := MaxScore(measures);
    if m > 0.0 {
      var b := FirstIndexOf(measures, m);
      forall j | 0 <= j < b ensures measures[j] < m {
        assert measures[j] != m && measures[j] <= m;
      }
    }
  }

  /**
   * The callback loop over the TF-IDF measures: start from 0 and index 0, and
   * take a measure only when it is strictly greater than the best so far, so
   * an earlier measure wins a tie.
   */
  method ScanMeasures(measures: seq<real>) returns (maxScore: real, bestIndex: nat)
    ensures IsScanResult(measures, maxScore, bestIndex)
    ensures maxScore == MaxScore(measures) && bestIndex == BestIndex(measures)
  {
    maxScore, bestIndex := 0.0, 0;
    for i := 0 to |measures|
      invariant 0.0 <= maxScore
      invariant forall j :: 0 <= j < i ==> measures[j] <= maxScore
      invariant maxScore > 0.0 ==>
        && bestIndex < i && measures[bestIndex] == maxScore
        && forall j :: 0 <= j < bestIndex ==> measures[j] < maxScore
      invariant maxScore == 0.0 ==> bestIndex == 0
    {
      if measures[i] > maxScore {
        maxScore, bestIndex := measures[i], i;
      }
    }
    ScanSpec(measures);
    ScanResultUnique(measures, maxScore, bestIndex, MaxScore(measures), BestIndex(measures));
  }

  // ---------------------------------------------------------------------------
  // The decision

  /** The verdict of the last tier, from the outcome of the scan. */
  function TfIdfVerdict(measures: seq<real>): Verdict
  {
    var maxScore := MaxScore(measures);
    Verdict(maxScore > TfIdfThreshold,
            if maxScore > 0.0 then SemanticSimilarity(BestIndex(measures) + 1) else NoSimilarity)
  }

  /** The verdict of the whole pipeline, tier by tier. */
  function Decide(newDescription: string, existing: seq<string>, rating: real, measures: seq<real>): Verdict
    requires |existing| > 0 && |measures| == |existing|
  {
    if newDescription in existing then Verdict(true, ExactMatch)
    else if rating > StringThreshold then Verdict(true, HighStringSimilarity(rating))
    else TfIdfVerdict(measures)
  }

  /**
   * `checkDuplicateRisk(newDescription, existingDescriptions)`, where `rating`
   * is the best rating `findBestMatch` reports and `measures[i]` the TF-IDF
   * measure the index reports for the i-th existing description.
   */
  method CheckDuplicateRisk(newDescription: string, existing: seq<string>, rating: real, measures: seq<real>)
    returns (verdict: Verdict)
    requires |existing| > 0 && |measures| == |existing|
    ensures verdict == Decide(newDescription, existing, rating, measures)
    ensures verdict.isDuplicate <==>
      newDescription in existing || rating > StringThreshold || MaxScore(measures) > TfIdfThreshold
  {
    if newDescription in existing {
      return Verdict(true, ExactMatch);
    }
    if rating > StringThreshold {
      return Verdict(true, HighStringSimilarity(rating));
    }
    var maxScore, bestIndex := ScanMeasures(measures);
    verdict := Verdict(maxScore > TfIdfThreshold,
                       if maxScore > 0.0 then SemanticSimilarity(bestIndex + 1) else NoSimilarity);
  }

  // ---------------------------------------------------------------------------
  // Properties of the decision

  /** A verbatim match decides at once: neither the rating nor the measures matter. */
  lemma ExactMatchShortCircuits(newDescription: string, existing: seq<string>,
                                rating: real, measures: seq<real>, rating': real, measures': seq<real>)
    requires |existing| > 0 && |measures| == |existing| && |measures'| == |existing|
    requires newDescription in existing
    ensures Decide(newDescription, existing, rating, measures) == Verdict(true, ExactMatch)
    ensures Decide(newDescription, existing, rating, measures) == Decide(newDescription, existing, rating', measures')
  {
  }

  /** Only a verbatim match gives the exact-match reason. */
  lemma ExactMatchReasonIff(newDescription: string, existing: seq<string>, rating: real, measures: seq<real>)
    requires |existing| > 0 && |measures| == |existing|
    ensures Decide(newDescription, existing, rating, measures).reason == ExactMatch <==> newDescription in existing
  {
  }

  /** Without a verbatim match, a rating strictly above 0.85 decides; 0.85 itself does not. */
  lemma StringTier(newDescription: string, existing: seq<string>, rating: real, measures: seq<real>)
    requires |existing| > 0 && |measures| == |existing|
    requires newDescription !in existing
    ensures rating > StringThreshold ==>
      Decide(newDescription, existing, rating, measures) == Verdict(true, HighStringSimilarity(rating))
    ensures rating <= StringThreshold ==>
      Decide(newDescription, existing, rating, measures) == TfIdfVerdict(measures)
    ensures Decide(newDescription, existing, 0.85, measures).reason != HighStringSimilarity(0.85)
  {
  }

  /** The pipeline flags a duplicate iff one of the three tiers fires. */
  lemma DuplicateIff(newDescription: string, existing: seq<string>, rating: real, measures: seq<real>)
    requires |existing| > 0 && |measures| == |existing|
    ensures Decide(newDescription, existing, rating, measures).isDuplicate <==>
      newDescription in existing || rating > StringThreshold || (exists i :: 0 <= i < |measures| && measures[i] > TfIdfThreshold)
  {
    var m := MaxScore(measures);
    if m > TfIdfThreshold {
      assert measures[FirstIndexOf(measures, m)] > TfIdfThreshold;
    }
  }

  /** The last tier: duplicate iff the best measure exceeds 2.5; no similarity iff no
      measure is positive; otherwise the reason names the 1-based number of the
      earliest document with the best measure, which lies between 1 and the
      number of existing descriptions. */
  lemma TfIdfTier(measures: seq<real>)
    ensures TfIdfVerdict(measures).isDuplicate <==> MaxScore(measures) > TfIdfThreshold
    ensures TfIdfVerdict(measures).reason == NoSimilarity <==> forall i :: 0 <= i < |measures| ==> measures[i] <= 0.0
    ensures TfIdfVerdict(measures).reason != NoSimilarity ==>
      exists k: nat ::
        && TfIdfVerdict(measures).reason == SemanticSimilarity(k)
        && 1 <= k <= |measures|
        && measures[k - 1] == MaxScore(measures)
        && forall j :: 0 <= j < k - 1 ==> measures[j] < measures[k - 1]
  {
    ScanSpec(measures);
    var m := MaxScore(measures);
    if m > 0.0 {
      var b := BestIndex(measures);
      assert measures[b] > 0.0;
      assert TfIdfVerdict(measures).reason == SemanticSimilarity(b + 1);
    }
  }

  /** A non-duplicate can still name a risk: a best measure in (0, 2.5] gives
      `isDuplicate == false` with a semantic-similarity reason. */
  lemma WeakSimilarityNamesRisk(measures: seq<real>)
    requires 0.0 < MaxScore(measures) <= TfIdfThreshold
    ensures !TfIdfVerdict(measures).isDuplicate
    ensures TfIdfVerdict(measures).reason == SemanticSimilarity(BestIndex(measures) + 1)
    ensures 1 <= BestIndex(measures) + 1 <= |measures|
  {
    ScanSpec(measures);
  }
}
