/** Stage 2: run the finding detector on the crop in both channel orders, keep the run with
    more boxes, and translate its boxes into the coordinates of the whole image. */
module FindingStage {
  import opened Results
  import opened Geometry
  import opened Raster
  import opened Detections

  /** Confidence threshold the finding detector is called with, on both runs. */
  const FindingThreshold: real := 0.10

  /** The `stage` field of the Stage 2 report. */
  const FindingStageName: string := "02_disease_detection"

  /** Which of the two runs is authoritative. */
  datatype Mode = Rgb | Bgr
  {
    /** The `mode_used` label of the report: one of the two strings, telling the modes apart. */
    function Label(): (s: string)
      ensures s == "RGB (Standard)" || s == "BGR (Color Flip)"
      ensures s == "BGR (Color Flip)" <==> this == Bgr
    {
      match this
      case Rgb => "RGB (Standard)"
      case Bgr => "BGR (Color Flip)"
    }
  }

  /** One entry of `findings`; `bboxGlobal` is in whole-image coordinates. */
  datatype Finding = Finding(classId: int, className: string, confidence: real, bboxGlobal: Box)

  /** The Stage 2 JSON record. */
  datatype FindingReport = FindingReport(stage: string, modeUsed: string, totalFindings: nat, findings: seq<Finding>)

  /** The lookup `names[cls_id]` raises for a class id the model has no name for. */
  datatype FindingError = UnknownClassId(classId: int)

  /** The colour-flipped run wins only with strictly more boxes; equal counts keep RGB. */
  function ChooseMode(rgbCount: nat, bgrCount: nat): (m: Mode)
    ensures m == Bgr <==> bgrCount > rgbCount
  {
    if bgrCount > rgbCount then Bgr else Rgb
  }

  /** `final_results`: the boxes of the run the mode designates. It has the most boxes of
      the two runs, and on a tie it is the RGB run. */
  function SelectedRun(rgb: seq<Detection>, bgr: seq<Detection>): (sel: seq<Detection>)
    ensures sel == rgb || sel == bgr
    ensures |sel| >= |rgb| && |sel| >= |bgr|
    ensures |rgb| == |bgr| ==> sel == rgb
  {
    if ChooseMode(|rgb|, |bgr|) == Bgr then bgr else rgb
  }

  /** The finding built for one local box once its class name is known. It keeps the box's
      class id and confidence, and shifting its global box back by the origin recovers the local box. */
  function FindingOf(d: Detection, name: string, ox: int, oy: int): (f: Finding)
    ensures f.classId == d.cls && f.className == name && f.confidence == d.conf
    ensures Translate(f.bboxGlobal, -ox, -oy) == d.box
  {
    Finding(d.cls, name, d.conf, Translate(d.box, ox, oy))
  }

  /** The `findings` list built for `boxes` in order, or the error of the first box whose
      class id has no name. A list that is built has one finding per box. */
  function Findings(boxes: seq<Detection>, names: map<int, string>, ox: int, oy: int): (r: Result<seq<Finding>, FindingError>)
    ensures r.Ok? ==> |r.value| == |boxes|
    ensures r.Err? ==> exists k :: 0 <= k < |boxes| && r.error == UnknownClassId(boxes[k].cls)
  {
    if boxes == [] then Ok([])
    else
      var d := boxes[|boxes| - 1];
      match Findings(boxes[..|boxes| - 1], names, ox, oy)
      case Err(e) => Err(e)
      case Ok(f) =>
        if d.cls in names then Ok(f + [FindingOf(d, names[d.cls], ox, oy)])
        else Err(UnknownClassId(d.cls))
  }

  /** Box k is the first of `boxes` whose class id has no name. */
  ghost predicate FirstUnknownAt(boxes: seq<Detection>, names: map<int, string>, k: int)
  {
    0 <= k < |boxes| && boxes[k].cls !in names && forall j :: 0 <= j < k ==> boxes[j].cls in names
  }

  /** Findings succeeds exactly when every class id has a name; then it holds one finding
      per box, in order, each the translated box with its class id, name and confidence;
      otherwise it reports the first class id without a name. */
  lemma {:induction false} FindingsSpec(boxes: seq<Detection>, names: map<int, string>, ox: int, oy: int)
    ensures var r := Findings(boxes, names, ox, oy);
      (r.Ok? <==> forall k :: 0 <= k < |boxes| ==> boxes[k].cls in names) &&
      (r.Ok? ==> (|r.value| == |boxes| &&
        forall k :: 0 <= k < |boxes| ==> r.value[k] == FindingOf(boxes[k], names[boxes[k].cls], ox, oy))) &&
      (r.Err? ==> exists k :: FirstUnknownAt(boxes, names, k) && r.error == UnknownClassId(boxes[k].cls))
  {
    if boxes != [] {
      var n := |boxes| - 1;
      var front := boxes[..n];
      FindingsSpec(front, names, ox, oy);
      assert forall k :: 0 <= k < n ==> front[k] == boxes[k];
      var rf := Findings(front, names, ox, oy);
      if rf.Err? {
        var k :| FirstUnknownAt(front, names, k) && rf.error == UnknownClassId(front[k].cls);
        assert FirstUnknownAt(boxes, names, k);
      } else if boxes[n].cls !in names {
        assert FirstUnknownAt(boxes, names, n);
      }
    }
  }

  /** Once the findings of a prefix have failed, those of the whole list fail with the same
      error: the lookup raises and nothing after that box is looked at. */
  lemma {:induction false} FindingsErrorSticks(boxes: seq<Detection>, names: map<int, string>, ox: int, oy: int, n: nat)
    requires n <= |boxes|
    requires Findings(boxes[..n], names, ox, oy).Err?
    ensures Findings(boxes, names, ox, oy) == Findings(boxes[..n], names, ox, oy)
    decreases |boxes| - n
  {
    if n < |boxes| {
      assert boxes[..n + 1][..n] == boxes[..n];
      FindingsErrorSticks(boxes, names, ox, oy, n + 1);
    } else {
      assert boxes[..n] == boxes;
    }
  }

  /** `run_stage_2` once both detector runs are known: pick the run, translate its boxes by
      the ROI origin and build the report, whose count is the length of its findings. */
  function FindingResult(rgb: seq<Detection>, bgr: seq<Detection>, names: map<int, string>, roi: IntBox): (r: Result<FindingReport, FindingError>)
    ensures r.Ok? ==> r.value.stage == FindingStageName && r.value.totalFindings == |r.value.findings|
    ensures r.Ok? ==> |r.value.findings| == |SelectedRun(rgb, bgr)|
  {
    var m := ChooseMode(|rgb|, |bgr|);
    match Findings(SelectedRun(rgb, bgr), names, roi.x1, roi.y1)
    case Err(e) => Err(e)
    case Ok(f) => Ok(FindingReport(FindingStageName, m.Label(), |f|, f))
  }

  /** What Stage 2 reports, stated against the two runs directly: the BGR run is used exactly
      when it has strictly more boxes; there is one finding per box of that run, in order,
      whose global box is the local box shifted by the ROI's top-left corner and whose class
      name is the model's name for its class id; the count equals the list's length; and the
      stage fails exactly when some class id has no name, naming the first such id. */
  lemma FindingResultSpec(rgb: seq<Detection>, bgr: seq<Detection>, names: map<int, string>, roi: IntBox)
    ensures var sel := if |bgr| > |rgb| then bgr else rgb;
      var r := FindingResult(rgb, bgr, names, roi);
      (r.Ok? <==> forall k :: 0 <= k < |sel| ==> sel[k].cls in names) &&
      (r.Ok? ==>
        r.value.stage == FindingStageName &&
        (r.value.modeUsed == "BGR (Color Flip)" <==> |bgr| > |rgb|) &&
        (r.value.modeUsed == "RGB (Standard)" <==> |bgr| <= |rgb|) &&
        r.value.totalFindings == |r.value.findings| == |sel| &&
        forall k :: 0 <= k < |sel| ==>
          r.value.findings[k].classId == sel[k].cls &&
          r.value.findings[k].className == names[sel[k].cls] &&
          r.value.findings[k].confidence == sel[k].conf &&
          r.value.findings[k].bboxGlobal == Box(sel[k].box.x1 + roi.x1 as real, sel[k].box.y1 + roi.y1 as real,
                                                 sel[k].box.x2 + roi.x1 as real, sel[k].box.y2 + roi.y1 as real)) &&
      (r.Err? ==> exists k :: FirstUnknownAt(sel, names, k) && r.error == UnknownClassId(sel[k].cls))
  {
    FindingsSpec(SelectedRun(rgb, bgr), names, roi.x1, roi.y1);
  }

  /** The example of a single cavity at local [10, 10, 40, 40] in a crop at (50, 60), found by
      the RGB run only: RGB mode, one finding at global [60, 70, 90, 100]. */
  lemma FindingResultCavity()
    ensures FindingResult([Detection(Box(10.0, 10.0, 40.0, 40.0), 0.55, 2)], [], map[2 := "cavity"], IntBox(50, 60, 250, 260)) ==
      Ok(FindingReport(FindingStageName, "RGB (Standard)", 1, [Finding(2, "cavity", 0.55, Box(60.0, 70.0, 90.0, 100.0))]))
  {
    var boxes, none := [Detection(Box(10.0, 10.0, 40.0, 40.0), 0.55, 2)], [];
    FindingResultSpec(boxes, none, map[2 := "cavity"], IntBox(50, 60, 250, 260));
    var r := FindingResult(boxes, none, map[2 := "cavity"], IntBox(50, 60, 250, 260));
    assert r.value.findings == [r.value.findings[0]];
  }

  /** run_stage_2: both detector calls, the mode choice and the loop appending one finding
      per selected box. */
  method RunFindingStage(model: Detector, crop: Image, roi: IntBox) returns (r: Result<FindingReport, FindingError>)
    ensures r == FindingResult(model.detect(crop, FindingThreshold),
                               model.detect(ReverseChannels(crop), FindingThreshold), model.names, roi)
  {
    var rgb := model.detect(crop, FindingThreshold);
    var flipped := ReverseChannels(crop);
    var bgr := model.detect(flipped, FindingThreshold);
    var mode := ChooseMode(|rgb|, |bgr|);
    var selected := if mode == Bgr then bgr else rgb;
    var originX, originY := roi.x1, roi.y1;
    var findings: seq<Finding> := [];
    var i := 0;
    while i < |selected|
      invariant 0 <= i <= |selected|
      invariant Findings(selected[..i], model.names, originX, originY) == Ok(findings)
    {
      var box := selected[i];
      assert selected[..i + 1][..i] == selected[..i];
      if box.cls !in model.names {
        FindingsErrorSticks(selected, model.names, originX, originY, i + 1);
        return Err(UnknownClassId(box.cls));
      }
      var global := Translate(box.box, originX, originY);
      findings := findings + [Finding(box.cls, model.names[box.cls], box.conf, global)];
      i := i + 1;
    }
    assert selected[..i] == selected;
    r := Ok(FindingReport(FindingStageName, mode.Label(), |findings|, findings));
  }
}
