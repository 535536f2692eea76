# Two-stage dental analysis pipeline, modelled in Dafny

This project models the decision logic and coordinate arithmetic of a two-stage visual inference
demo. A region detector (Stage 1) finds the mouth in a photograph. The image is cropped to that
region. A disease detector (Stage 2) runs on the crop twice: once with the channels as given
("RGB") and once with them reversed ("BGR"). The run with strictly more boxes wins. Its boxes are
translated from crop-local coordinates back into the coordinates of the whole image.

The two detection models are pretrained black boxes. Each is modelled as a value
`Detector(detect, names)`. `detect` is an opaque function from an image and a confidence threshold
to a sequence of detections (box, confidence, class id). `names` maps class ids to class names.
The thresholds 0.25 (Stage 1) and 0.10 (Stage 2) are constants of the model. Any statement about
"what the detector returned" is therefore a statement about every possible detector.

Modules (`RoiStage` models `run_stage_1`, `FindingStage` models `run_stage_2`, `Pipeline` models the dispatch; the others are support modules):

- `Results`: `Option` and `Result`.
- `Geometry`: boxes, the integer cast `astype(int)` (truncation toward zero), and the translation by the ROI origin.
- `Raster`: images as H x W x C sequences, the channel reversal `img[..., ::-1]`, Python slice-bound normalisation and the crop `image[y1:y2, x1:x2]`.
- `Detections`: a detection and a detector.
- `RoiStage`: `run_stage_1`. Python's stable `sorted(..., reverse=True)` is modelled as a stable insertion sort. It is proved to be a sorted permutation whose head is the first box of maximum confidence (`FirstMaxIndex`, an independent reference).
- `FindingStage`: `run_stage_2`. `RunFindingStage` is a method with the source's `for` loop that appends findings. It is proved against the function `FindingResult`, whose properties are proved as lemmas.
- `Pipeline`: the guarded Stage 1 → crop → Stage 2 dispatch.

Two behaviours of the code are modelled as written rather than assumed away:

- `names[cls_id]` is a dictionary lookup that raises for an unknown class id. It is modelled as `Err(UnknownClassId(id))` for the first such id.
- numpy slicing is modelled with Python's full bound normalisation: negative bounds count from the end, and bounds are clamped to the array. In-bounds corners are a lemma's hypothesis, not a precondition of the crop.

## Model

| member | source | states |
|---|---|---|
| `Geometry.Truncate` | app.py:23 | the integer cast is truncation toward zero: for x >= 0 the result n has n <= x < n + 1; for x < 0 it has n - 1 < x <= n (not rounding) |
| `Geometry.TruncateUnique` | app.py:23 | those bounds determine the cast's result uniquely |
| `Geometry.TruncateMonotone` | app.py:23 | on non-negative values the cast is monotone, so ordered corners stay ordered |
| `Geometry.TruncateBox` | app.py:23 | each of the ROI's four integer corners is the box's real corner truncated toward zero (the bounds of `Truncate`) |
| `Geometry.Translate` | app.py:67-71 | translation keeps the box's width and height: no scaling |
| `Geometry.TranslateInverse` | app.py:67-71 | translating by the negated origin gives back the local box |
| `Raster.ReverseChannels` | app.py:46 | the reversed image has the same number of rows and of pixels per row |
| `Raster.ReverseChannelsRgb` | app.py:46 | on an H x W x 3 image the result is H x W x 3 with pixel [i][j][c] = crop[i][j][2 - c] |
| `Raster.ReverseChannelsInvolution` | app.py:46 | reversing the channels twice gives back the original image |
| `Raster.SliceBound` | app.py:129 | a slice bound inside [0, n] is kept; a negative one counts from the end; the rest clamp to 0 or n |
| `Raster.Slice` | app.py:129 | `s[start:stop]` holds the items from the normalised start up to, not including, the normalised stop, in order |
| `Raster.Crop` | app.py:129 | the crop has as many rows as the normalised y1:y2 range, and row i is image row ylo + i sliced by x1:x2 (shape and pixels stated by `CropIsRaster` and `CropInBounds`) |
| `Raster.CropIsRaster` | app.py:128-129 | for any corners, the crop of an H x W x C image is a rectangular sub-array at the normalised bounds |
| `Raster.CropInBounds` | app.py:128-129 | with 0 <= x1 <= x2 <= W and 0 <= y1 <= y2 <= H, the crop is (y2 - y1) x (x2 - x1) x C and crop[i][j] = image[y1 + i][x1 + j] |
| `RoiStage.Insert` | app.py:22 | inserting a box adds exactly that box to the multiset of boxes |
| `RoiStage.SortByConfidence` | app.py:22 | the sort returns a permutation of the boxes, of the same length |
| `RoiStage.InsertSorted` | app.py:22 | insertion keeps the list in descending confidence order |
| `RoiStage.SortByConfidenceSorted` | app.py:22 | the sorted boxes are in non-increasing confidence order and are a permutation of the input |
| `RoiStage.FirstMaxIndex` | app.py:22 | the reference winner: its confidence is >= every box's, and every earlier box's is strictly lower |
| `RoiStage.SortHeadIsFirstMax` | app.py:22 | the head of the stable descending sort is the first box of maximum confidence |
| `RoiStage.SelectRoi` | app.py:21-35 | no ROI and `detected = false` exactly when there are no boxes; otherwise `detected = true` with `roi_bbox` equal to the returned coordinates |
| `RoiStage.SelectRoiPicksFirstMax` | app.py:21-29 | with boxes, the ROI is the first maximum-confidence box with all four corners truncated toward zero, and the reported confidence is that box's |
| `RoiStage.SelectRoiSingleBox` | app.py:21-30 | one box [50, 60, 250, 260] with confidence 0.91 gives `roi_bbox` [50, 60, 250, 260] and confidence 0.91 |
| `RoiStage.SelectRoiTieAndTruncation` | app.py:22-23 | of two boxes with equal confidence the first wins, and 10.7 becomes 10 |
| `FindingStage.ChooseMode` | app.py:50-58 | the mode is BGR exactly when the BGR run has strictly more boxes |
| `FindingStage.SelectedRun` | app.py:50-57 | `final_results` is one of the two runs, has at least as many boxes as either, and equal counts (0 vs 0 included) pick the RGB run |
| `FindingStage.Mode.Label` | app.py:52-58 | the `mode_used` label is "RGB (Standard)" or "BGR (Color Flip)", and "BGR (Color Flip)" exactly for the BGR mode |
| `FindingStage.FindingOf` | app.py:68-80 | a finding keeps its box's class id and confidence, carries the looked-up name, and its global box shifted back by the origin is the local box |
| `FindingStage.Findings` | app.py:62-81 | a built findings list has one entry per box; a failure names the class id of one of the boxes (the full statement is `FindingsSpec`) |
| `FindingStage.FindingsSpec` | app.py:62-81 | the loop succeeds exactly when every class id has a name; then it yields one finding per box, in order, each the translated box with its id, name and confidence; otherwise it fails on the first unnamed id |
| `FindingStage.FindingsErrorSticks` | app.py:73-74 | once the lookup has raised on a box, the result is that error whatever boxes follow |
| `FindingStage.FindingResult` | app.py:49-88 | a built report has stage "02_disease_detection", `total_findings` equal to the findings' length, and one finding per box of the selected run (the full statement is `FindingResultSpec`) |
| `FindingStage.FindingResultSpec` | app.py:49-88 | `mode_used` is "BGR (Color Flip)" exactly when BGR has strictly more boxes, else "RGB (Standard)"; `total_findings` equals the findings' length and the selected run's length; finding k has global box (lx1 + ox, ly1 + oy, lx2 + ox, ly2 + oy), the box's class id and `names[class_id]`; failure exactly when an id is unnamed |
| `FindingStage.FindingResultCavity` | app.py:61-88 | one cavity at local [10, 10, 40, 40] in a crop at (50, 60), RGB 1 box vs BGR 0, gives RGB mode and one finding at [60, 70, 90, 100] |
| `FindingStage.RunFindingStage` | app.py:39-90 | the method (two detector calls on the crop and its channel reversal, the mode choice, the append loop) returns exactly `FindingResult` of the two runs |
| `Pipeline.Analyze` | app.py:113-131 | the run aborts with the Stage 1 error message exactly when the region detector returns no box; otherwise Stage 2 runs on the crop of the ROI with the ROI's corner as origin |
| `Pipeline.DetectedRoiCrop` | app.py:128-131 | if the region detector's boxes lie inside the image, the truncated ROI does too, and the crop handed to Stage 2 is exactly the ROI's pixels at the offset Stage 2 adds |

## Left out

- Model loading and caching (`load_models`, app.py:8-13): process-wide resource caching and file I/O.
- The Streamlit interface (page layout, upload, `st.image`, `st.json`, `st.error`, the button; app.py:94-145): presentation. Only the guard and the crop are modelled, and the error text becomes `Aborted(message)`.
- The detector internals (app.py:19, 43, 47): each call is the opaque `detect` function of a `Detector`.
- The annotated images of `.plot()` (app.py:32, 55, 59): rendering is a foreign call. In BGR mode the source draws the BGR boxes on the un-reversed crop. That is recorded here but not modelled.
- `round(float(conf), 4)` on confidences (app.py:29, 79): floating-point rounding. Confidences are carried as exact reals.
- Coordinates are exact reals, not float32/float64, so no floating-point error in the cast or the translation is modelled.
- `int(box.cls)` (app.py:73): a detection's class id is already an integer in the model.
- Tensor, numpy and PIL conversions (`.cpu().numpy()`, `.tolist()`, `convert('RGB')`): library plumbing. Output lists such as `roi_bbox` and `bbox_global` are boxes rather than four-element lists.
- Pixel values are unbounded integers rather than 8-bit values. No operation in the core does arithmetic on them.
- numpy's negative-bound slicing is modelled, but the pipeline says nothing about a ROI with negative corners. Its crop would then start elsewhere than the origin Stage 2 adds. `DetectedRoiCrop` covers the case where the region detector's boxes lie inside the image.
