/**
 * The scan history page: the colour and risk label of a score, the
 * headline statistics, and the delete dialog with the list update it
 * makes. The scans are given newest first, as the server returns them;
 * the delete request itself is a parameter that says whether it succeeded.
 */
module ScanHistory {
  import opened Common

  // ---------------------------------------------------------------------
  // getScoreColor and getRiskLevel
  // ---------------------------------------------------------------------

  datatype Tone = Green | Yellow | Orange | Red

  /** `getScoreColor`: the colour family of a score. */
  function ScoreColor(score: int): Tone {
    if score >= 80 then Green
    else if score >= 60 then Yellow
    else if score >= 40 then Orange
    else Red
  }

  datatype RiskLevel = RiskLevel(caption: string, tone: Tone)

  /** `getRiskLevel`: the label of a score and the colour of that label. */
  function RiskLevelOf(score: int): RiskLevel {
    if score >= 80 then RiskLevel("Low Risk", Green)
    else if score >= 60 then RiskLevel("Moderate", Yellow)
    else if score >= 30 then RiskLevel("High Risk", Orange)
    else RiskLevel("Critical", Red)
  }

  /** How alarming a colour is: 0 for green up to 3 for red. */
  function Severity(t: Tone): nat {
    match t
    case Green => 0
    case Yellow => 1
    case Orange => 2
    case Red => 3
  }

  /** A higher score never gets a more alarming colour or label. */
  lemma BandsMonotone(a: int, b: int)
    requires a <= b
    ensures Severity(ScoreColor(b)) <= Severity(ScoreColor(a))
    ensures Severity(RiskLevelOf(b).tone) <= Severity(RiskLevelOf(a).tone)
  {
  }

  /**
   * The two bandings differ only in their lowest threshold (30 against 40):
   * the score colour and the risk label's colour disagree exactly for scores
   * in [30, 40), which are labelled "High Risk" but coloured red.
   */
  lemma ColourAgreesWithRiskLabel(score: int)
    ensures ScoreColor(score) != RiskLevelOf(score).tone <==> 30 <= score < 40
    ensures 30 <= score < 40 ==> RiskLevelOf(score).caption == "High Risk" && ScoreColor(score) == Red
  {
  }

  // ---------------------------------------------------------------------
  // stats
  // ---------------------------------------------------------------------

  datatype Stats = Stats(total: nat, avgScore: int, lastScan: Option<Scan>)

  /** `stats`: the count, the rounded mean of `score || 0`, and the newest scan. */
  function StatsOf(history: seq<Scan>): Stats {
    Stats(|history|, MeanScore(Scores(history)), if |history| > 0 then Some(history[0]) else None)
  }

  /**
   * An empty history has total 0, average 0 and no last scan; otherwise the
   * last scan is the newest and the average is the rounded mean, so scores in
   * [0, 100] average in [0, 100].
   */
  lemma StatsCorrect(history: seq<Scan>)
    ensures history == [] ==> StatsOf(history) == Stats(0, 0, None)
    ensures history != [] ==> StatsOf(history).lastScan == Some(history[0])
    ensures history != [] ==>
      2 * |history| * StatsOf(history).avgScore - |history| <= 2 * SumOrZero(Scores(history))
      < 2 * |history| * StatsOf(history).avgScore + |history|
    ensures (forall i :: 0 <= i < |history| ==> 0 <= OrZero(history[i].score) <= 100) ==>
      0 <= StatsOf(history).avgScore <= 100
  {
    if history != [] && forall i :: 0 <= i < |history| ==> 0 <= OrZero(history[i].score) <= 100 {
      MeanScoreBounds(Scores(history), 0, 100);
    }
  }

  // ---------------------------------------------------------------------
  // Deleting a scan
  // ---------------------------------------------------------------------

  /** `prev.filter(s => s.id !== scanId)` */
  function WithoutScan(history: seq<Scan>, scanId: int): seq<Scan> {
    Filter(history, (s: Scan) => s.id != scanId)
  }

  /** Deleting keeps exactly the scans with another id, in their order. */
  lemma WithoutScanMembers(history: seq<Scan>, scanId: int, s: Scan)
    ensures s in WithoutScan(history, scanId) <==> s in history && s.id != scanId
    ensures forall k :: 0 <= k < |WithoutScan(history, scanId)| ==> WithoutScan(history, scanId)[k].id != scanId
  {
    FilterMembers(history, (s: Scan) => s.id != scanId, s);
  }

  /** Deleting an id no scan has leaves the list as it is. */
  lemma WithoutAbsentScan(history: seq<Scan>, scanId: int)
    requires forall k :: 0 <= k < |history| ==> history[k].id != scanId
    ensures WithoutScan(history, scanId) == history
  {
    FilterAll(history, (s: Scan) => s.id != scanId);
  }

  /** Deleting the same id twice is deleting it once. */
  lemma WithoutScanTwice(history: seq<Scan>, scanId: int)
    ensures WithoutScan(WithoutScan(history, scanId), scanId) == WithoutScan(history, scanId)
  {
    var p := (s: Scan) => s.id != scanId;
    FilterTwice(history, p, p, p);
  }

  /** The ids of the scans, in order. */
  function Ids(history: seq<Scan>): (r: seq<int>)
    ensures |r| == |history| && forall i :: 0 <= i < |history| ==> r[i] == history[i].id
  {
    seq(|history|, i requires 0 <= i < |history| => history[i].id)
  }

  /** With ids unique, deleting an id that is present removes exactly one scan. */
  lemma {:induction false} WithoutOneScan(history: seq<Scan>, scanId: int)
    requires forall i, j :: 0 <= i < j < |history| ==> history[i].id != history[j].id
    requires scanId in Ids(history)
    ensures |WithoutScan(history, scanId)| == |history| - 1
  {
    var pre := history[..|history| - 1];
    var last := history[|history| - 1];
    if last.id == scanId {
      WithoutAbsentScan(pre, scanId);
    } else {
      var j :| 0 <= j < |history| && Ids(history)[j] == scanId;
      assert Ids(pre)[j] == scanId;
      WithoutOneScan(pre, scanId);
    }
  }

  /** The delete dialog's state. */
  datatype DeleteModal = DeleteModal(isOpen: bool, scanId: Option<int>, isDeleting: bool)

  const ClosedModal: DeleteModal := DeleteModal(false, None, false)

  /** `!deleteModal.scanId`: no id, or the id 0. */
  predicate NoScanId(m: DeleteModal) {
    m.scanId.None? || m.scanId.value == 0
  }

  class ScanHistoryPage {
    var scanHistory: seq<Scan>
    var deleteModal: DeleteModal

    /** The page once the scans of the user have been fetched. */
    constructor(fetched: seq<Scan>)
      ensures scanHistory == fetched && deleteModal == ClosedModal
    {
      scanHistory := fetched;
      deleteModal := ClosedModal;
    }

    /** `openDeleteModal`: the dialog opens for `scanId`, not yet deleting. */
    method OpenDeleteModal(scanId: int)
      modifies this
      ensures deleteModal == DeleteModal(true, Some(scanId), false)
      ensures scanHistory == old(scanHistory)
    {
      deleteModal := DeleteModal(true, Some(scanId), false);
    }

    /** `closeDeleteModal`: every field of the dialog is reset. */
    method CloseDeleteModal()
      modifies this
      ensures deleteModal == ClosedModal
      ensures scanHistory == old(scanHistory)
    {
      deleteModal := ClosedModal;
    }

    /**
     * `confirmDelete`. Without an id nothing happens. Otherwise the dialog
     * is marked as deleting and the request is sent; on success the scans
     * with that id leave the list and the dialog closes, on failure the list
     * is kept and the dialog stays as it was, no longer deleting.
     */
    method ConfirmDelete(deleteSucceeds: bool)
      modifies this
      ensures NoScanId(old(deleteModal)) ==>
        scanHistory == old(scanHistory) && deleteModal == old(deleteModal)
      ensures !NoScanId(old(deleteModal)) && deleteSucceeds ==>
        scanHistory == WithoutScan(old(scanHistory), old(deleteModal).scanId.value) && deleteModal == ClosedModal
      ensures !NoScanId(old(deleteModal)) && !deleteSucceeds ==>
        scanHistory == old(scanHistory) && deleteModal == old(deleteModal).(isDeleting := false)
    {
      if NoScanId(deleteModal) {
        return;
      }
      var scanId := deleteModal.scanId.value;
      deleteModal := deleteModal.(isDeleting := true);
      if deleteSucceeds {
        scanHistory := WithoutScan(scanHistory, scanId);
        CloseDeleteModal();
      } else {
        deleteModal := deleteModal.(isDeleting := false);
      }
    }
  }
}
