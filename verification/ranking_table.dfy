/**
 * The leaderboard panel: the k-th score shown as the winning threshold,
 * the signed-in user's row marked "(You)", and a notice for a user ranked
 * below the top k. The rows are the server's ranking items.
 */
module RankingTable {
  import opened Common
  import Bidding

  /**
   * The value of `rankings.length >= k ? rankings[k - 1]?.score : null`:
   * null, undefined (an index below 0 reads nothing), or a score.
   */
  datatype ThresholdValue = Null | Undefined | Score(value: real)

  /** thresholdScore exactly as written. */
  function ThresholdAsWritten(rankings: seq<Bidding.RankingItem>, k: int): (t: ThresholdValue)
    ensures t.Score? <==> 1 <= k <= |rankings|
    ensures t.Score? ==> t.value == rankings[k - 1].score
  {
    if |rankings| >= k then (if 0 <= k - 1 < |rankings| then Score(rankings[k - 1].score) else Undefined)
    else Null
  }

  /**
   * As written, any k <= 0 (the admin form's default k is 0) gives
   * undefined, which passes the `!== null` test, so the panel calls
   * toFixed on undefined and the render throws.
   */
  lemma ThresholdAsWrittenUndefinedForNonPositiveK(rankings: seq<Bidding.RankingItem>, k: int)
    requires k <= 0
    ensures ThresholdAsWritten(rankings, k) == Undefined
    ensures ThresholdAsWritten(rankings, k) != Null
  {
  }

  /**
   * The threshold as evidently intended: the k-th score when there are at
   * least k rows, and nothing to show otherwise.
   */
  function Threshold(rankings: seq<Bidding.RankingItem>, k: int): (t: Option<real>)
    ensures t.Some? <==> 1 <= k <= |rankings|
    ensures t.Some? ==> t.value == rankings[k - 1].score
  {
    if 1 <= k <= |rankings| then Some(rankings[k - 1].score) else None
  }

  /** The threshold line is drawn only for a score, so the corrected rule never draws it for k <= 0. */
  lemma ThresholdAgreesWhereDefined(rankings: seq<Bidding.RankingItem>, k: int)
    ensures k >= 1 ==> (ThresholdAsWritten(rankings, k) == Null <==> Threshold(rankings, k).None?)
    ensures ThresholdAsWritten(rankings, k).Score? ==> Threshold(rankings, k) == Some(ThresholdAsWritten(rankings, k).value)
    ensures k <= 0 ==> Threshold(rankings, k).None?
  {
  }

  /**
   * Against the server's thresholdScore: with at least k rows both are the
   * k-th score; with fewer rows the server reports the last row's score (or
   * 0 for none) while the panel shows no threshold.
   */
  lemma ThresholdAgainstServer(rankings: seq<Bidding.RankingItem>, k: int)
    requires k >= 1
    ensures |rankings| >= k ==> Threshold(rankings, k) == Some(Bidding.Threshold(rankings, k))
    ensures 0 < |rankings| < k ==>
              Threshold(rankings, k).None? && Bidding.Threshold(rankings, k) == rankings[|rankings| - 1].score
    ensures rankings == [] ==> Threshold(rankings, k).None? && Bidding.Threshold(rankings, k) == 0.0
  {
  }

  /** Which rows get the "(You)" mark: those whose user id is the signed-in user's. */
  function YouMarks(rankings: seq<Bidding.RankingItem>, user: Option<string>): (marks: seq<bool>)
    ensures |marks| == |rankings|
    ensures forall i :: 0 <= i < |rankings| ==> (marks[i] <==> user.Some? && rankings[i].userID == user.value)
  {
    seq(|rankings|, i requires 0 <= i < |rankings| => user.Some? && rankings[i].userID == user.value)
  }

  /** On a board whose user ids are distinct, at most one row is marked, and none when nobody is signed in. */
  lemma AtMostOneYou(rankings: seq<Bidding.RankingItem>, user: Option<string>)
    requires forall i, j :: 0 <= i < j < |rankings| ==> rankings[i].userID != rankings[j].userID
    ensures var marks := YouMarks(rankings, user);
            && (forall i, j :: 0 <= i < j < |marks| ==> !(marks[i] && marks[j]))
            && (user.None? ==> forall i :: 0 <= i < |marks| ==> !marks[i])
  {
  }

  /** The below-top-K notice: shown only for a known rank greater than k. */
  function ShowsNotice(userRank: Option<int>, k: int): (shown: bool)
    ensures shown ==> userRank.Some? && userRank.value > k
    ensures userRank.Some? && userRank.value > k ==> shown
  {
    userRank.Some? && userRank.value > k
  }

  /** A user within the top k, or without a rank, never sees the notice. */
  lemma NoNoticeInsideTopK(userRank: Option<int>, k: int)
    requires userRank.None? || userRank.value <= k
    ensures !ShowsNotice(userRank, k)
  {
  }
}
