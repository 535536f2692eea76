/** What a detector returns, and the detector itself as an opaque function. */
module Detections {
  import opened Geometry
  import opened Raster

  /** One detected box with its confidence and class id, in the detector's order. */
  datatype Detection = Detection(box: Box, conf: real, cls: int)

  /** A pretrained detection model: given an image and a confidence threshold it returns
      its detections; `names` maps class ids to class names. */
  datatype Detector = Detector(detect: (Image, real) -> seq<Detection>, names: map<int, string>)
}
