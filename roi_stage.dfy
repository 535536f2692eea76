/** Stage 1: find the region of interest (the mouth) as the top-confidence box. */
module RoiStage {
  import opened Results
  import opened Geometry
  import opened Detections

  /** Confidence threshold the region detector is called with. */
  const RoiThreshold: real := 0.25

  /** The `stage` field of the Stage 1 report. */
  const RoiStageName: string := "01_roi_detection"

  /** The Stage 1 JSON record; `roiBbox` and `confidence` are present only when detected. */
  datatype RoiReport = RoiReport(stage: string, detected: bool, roiBbox: Option<IntBox>, confidence: Option<real>)

  /** What Stage 1 hands back: the integer ROI corners (None when nothing was found) and the report. */
  datatype RoiOutcome = RoiOutcome(coords: Option<IntBox>, report: RoiReport)

  /** Detections ordered by non-increasing confidence. */
  ghost predicate SortedByConfidenceDesc(s: seq<Detection>)
  {
    forall i, j :: 0 <= i < j < |s| ==> s[i].conf >= s[j].conf
  }

  /** Insert `d` into a list sorted by descending confidence, ahead of every element whose
      confidence it equals: `d` comes earlier in the input than everything in `sorted`. */
  function Insert(d: Detection, sorted: seq<Detection>): (r: seq<Detection>)
    ensures multiset(r) == multiset(sorted) + multiset{d}
  {
    if sorted == [] || d.conf >= sorted[0].conf then [d] + sorted
    else
      assert sorted == [sorted[0]] + sorted[1..];
      [sorted[0]] + Insert(d, sorted[1..])
  }

  /** Python's stable `sorted(boxes, key=conf, reverse=True)`, as an insertion sort. */
  function SortByConfidence(s: seq<Detection>): (r: seq<Detection>)
    ensures multiset(r) == multiset(s)
    ensures |r| == |s|
  {
    if s == [] then []
    else
      assert s == [s[0]] + s[1..];
      Insert(s[0], SortByConfidence(s[1..]))
  }

  /** Insertion keeps the list sorted. */
  lemma {:induction false} InsertSorted(d: Detection, sorted: seq<Detection>)
    requires SortedByConfidenceDesc(sorted)
    ensures SortedByConfidenceDesc(Insert(d, sorted))
  {
    if sorted == [] || d.conf >= sorted[0].conf {
    } else {
      var rest := sorted[1..];
      InsertSorted(d, rest);
      var tail := Insert(d, rest);
      forall k | 0 <= k < |tail|
        ensures sorted[0].conf >= tail[k].conf
      {
        assert tail[k] in multiset(rest) + multiset{d};
        if tail[k] != d {
          assert tail[k] in rest;
        }
      }
    }
  }

  /** The sort's output is a permutation of its input, sorted by descending confidence. */
  lemma {:induction false} SortByConfidenceSorted(s: seq<Detection>)
    ensures SortedByConfidenceDesc(SortByConfidence(s))
    ensures multiset(SortByConfidence(s)) == multiset(s)
  {
    if s != [] {
      SortByConfidenceSorted(s[1..]);
      InsertSorted(s[0], SortByConfidence(s[1..]));
    }
  }

  /** Reference definition of the winner: the earliest index holding the maximum confidence. */
  function FirstMaxIndex(s: seq<Detection>): (k: nat)
    requires |s| > 0
    ensures k < |s|
    ensures forall j :: 0 <= j < |s| ==> s[j].conf <= s[k].conf
    ensures forall j :: 0 <= j < k ==> s[j].conf < s[k].conf
  {
    if |s| == 1 then 0
    else
      var k := 1 + FirstMaxIndex(s[1..]);
      assert forall j :: 1 <= j < |s| ==> s[j] == s[1..][j - 1];
      if s[0].conf >= s[k].conf then 0 else k
  }

  /** The head of the stable descending sort is the first box of maximum confidence. */
  lemma {:induction false} SortHeadIsFirstMax(s: seq<Detection>)
    requires |s| > 0
    ensures SortByConfidence(s)[0] == s[FirstMaxIndex(s)]
  {
    if |s| > 1 {
      SortHeadIsFirstMax(s[1..]);
    }
  }

  /** `run_stage_1` once the detector has run: no box gives "not detected"; otherwise the
      head of the sorted boxes is cast to integers and reported with its confidence. */
  function SelectRoi(dets: seq<Detection>): (r: RoiOutcome)
    ensures r.coords.None? <==> |dets| == 0
    ensures r.report.stage == RoiStageName
    ensures r.report.detected == r.coords.Some? && r.report.roiBbox == r.coords
    ensures |dets| == 0 ==> r.report.confidence.None?
  {
    if |dets| > 0 then
      var best := SortByConfidence(dets)[0];
      var coords := TruncateBox(best.box);
      RoiOutcome(Some(coords), RoiReport(RoiStageName, true, Some(coords), Some(best.conf)))
    else
      RoiOutcome(None, RoiReport(RoiStageName, false, None, None))
  }

  /** With at least one box, the ROI is the first box of maximum confidence, its four corners
      truncated toward zero, and the reported confidence is that box's. */
  lemma SelectRoiPicksFirstMax(dets: seq<Detection>)
    requires |dets| > 0
    ensures var k := FirstMaxIndex(dets); var b := dets[k].box;
      (forall j :: 0 <= j < |dets| ==> dets[j].conf <= dets[k].conf) &&
      (forall j :: 0 <= j < k ==> dets[j].conf < dets[k].conf) &&
      SelectRoi(dets).coords == Some(IntBox(Truncate(b.x1), Truncate(b.y1), Truncate(b.x2), Truncate(b.y2))) &&
      SelectRoi(dets).report.confidence == Some(dets[k].conf)
  {
    SortHeadIsFirstMax(dets);
  }

  /** A single mouth box at [50, 60, 250, 260] with confidence 0.91 is reported as such. */
  lemma SelectRoiSingleBox()
    ensures SelectRoi([Detection(Box(50.0, 60.0, 250.0, 260.0), 0.91, 0)]) ==
      RoiOutcome(Some(IntBox(50, 60, 250, 260)),
        RoiReport(RoiStageName, true, Some(IntBox(50, 60, 250, 260)), Some(0.91)))
  {
    var dets := [Detection(Box(50.0, 60.0, 250.0, 260.0), 0.91, 0)];
    assert SortByConfidence(dets) == dets;
  }

  /** Of two boxes with the same confidence the earlier one wins; fractional corners
      such as 10.7 are truncated to 10, not rounded to 11. */
  lemma SelectRoiTieAndTruncation()
    ensures SelectRoi([Detection(Box(10.7, 20.2, 99.9, 120.5), 0.8, 0),
                       Detection(Box(0.0, 0.0, 5.0, 5.0), 0.8, 0)]).coords ==
      Some(IntBox(10, 20, 99, 120))
  {
    var dets := [Detection(Box(10.7, 20.2, 99.9, 120.5), 0.8, 0), Detection(Box(0.0, 0.0, 5.0, 5.0), 0.8, 0)];
    SelectRoiPicksFirstMax(dets);
    assert FirstMaxIndex(dets) == 0;
  }
}
