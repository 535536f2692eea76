/** The analysis run behind "Run Complete Analysis": Stage 1, then the crop, then Stage 2. */
module Pipeline {
  import opened Results
  import opened Geometry
  import opened Raster
  import opened Detections
  import opened RoiStage
  import opened FindingStage

  /** The error shown when Stage 1 finds no mouth. */
  const RoiMissingMessage: string := "Error: Could not detect mouth (Stage 1 Failed)."

  /** Either the run stopped after Stage 1, or both stage reports exist; the second may be
      the error the name lookup raised. */
  datatype Analysis =
    | Aborted(message: string)
    | Completed(roiReport: RoiReport, findingReport: Result<FindingReport, FindingError>)

  /** The dispatch behind "Run Complete Analysis" in `app.py`: Stage 2 runs only on the crop
      of a detected ROI, with that ROI's corner as origin; with no ROI the run ends with the
      error message. */
  method Analyze(image: Image, roiModel: Detector, findingModel: Detector) returns (a: Analysis)
    ensures a.Aborted? <==> |roiModel.detect(image, RoiThreshold)| == 0
    ensures a.Aborted? ==> a.message == RoiMissingMessage
    ensures a.Completed? ==>
      var stage1 := SelectRoi(roiModel.detect(image, RoiThreshold));
      var crop := Crop(image, stage1.coords.value);
      a.roiReport == stage1.report &&
      a.findingReport == FindingResult(findingModel.detect(crop, FindingThreshold),
                                       findingModel.detect(ReverseChannels(crop), FindingThreshold),
                                       findingModel.names, stage1.coords.value)
  {
    var stage1 := SelectRoi(roiModel.detect(image, RoiThreshold));
    if stage1.coords.Some? {
      var roi := stage1.coords.value;
      var crop := Crop(image, roi);
      var stage2 := RunFindingStage(findingModel, crop, roi);
      a := Completed(stage1.report, stage2);
    } else {
      a := Aborted(RoiMissingMessage);
    }
  }

  /** Every box lies inside the w x h image with its corners in order. */
  ghost predicate BoxesInside(dets: seq<Detection>, h: nat, w: nat)
  {
    forall k :: 0 <= k < |dets| ==>
      0.0 <= dets[k].box.x1 <= dets[k].box.x2 <= w as real &&
      0.0 <= dets[k].box.y1 <= dets[k].box.y2 <= h as real
  }

  /** When the region detector's boxes lie inside the image, the truncated ROI does too, so
      the crop handed to Stage 2 is exactly the ROI's pixels: crop pixel (i, j) is image
      pixel (y1 + i, x1 + j), the same offset Stage 2 adds to its local boxes. */
  lemma DetectedRoiCrop(image: Image, dets: seq<Detection>, h: nat, w: nat, c: nat)
    requires IsRaster(image, h, w, c)
    requires |dets| > 0 && BoxesInside(dets, h, w)
    ensures var roi := SelectRoi(dets).coords.value;
      0 <= roi.x1 <= roi.x2 <= w && 0 <= roi.y1 <= roi.y2 <= h &&
      IsRaster(Crop(image, roi), roi.y2 - roi.y1, roi.x2 - roi.x1, c) &&
      forall i, j :: 0 <= i < roi.y2 - roi.y1 && 0 <= j < roi.x2 - roi.x1 ==>
        Crop(image, roi)[i][j] == image[roi.y1 + i][roi.x1 + j]
  {
    SelectRoiPicksFirstMax(dets);
    var b := dets[FirstMaxIndex(dets)].box;
    TruncateMonotone(b.x1, b.x2);
    TruncateMonotone(b.y1, b.y2);
    CropInBounds(image, SelectRoi(dets).coords.value, h, w, c);
  }
}
