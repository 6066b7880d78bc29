/** The 9:16 crop window of `track_and_crop`. */
module Crop {
  import opened Numbers

  /** `int(height * 9 / 16)`, lowered by one when odd: the largest even width
      not above nine sixteenths of the height. */
  function TargetWidth(height: nat): (tw: nat)
    ensures tw % 2 == 0
    ensures tw as real <= (height * 9) as real / 16.0 < (tw + 2) as real
    ensures tw == 2 * ((height * 9) / 32)
  {
    var t := Trunc((height * 9) as real / 16.0);
    assert t * 16 <= height * 9 < t * 16 + 16;
    if t % 2 != 0 then t - 1 else t
  }

  /** Either the clip is skipped (it is already no wider than the target), or
      it is cropped to `targetWidth` columns starting at `left`. */
  datatype CropDecision = Skip | Crop(targetWidth: nat, centerX: int, left: int)

  /** The crop for an estimated centre: skip a frame that is narrow enough,
      otherwise pull the centre into `[tw // 2, width - tw // 2]` and start the
      window half a target width to its left. */
  function ResolveCrop(width: nat, height: nat, estimate: int): (d: CropDecision)
    ensures d.Skip? <==> width <= TargetWidth(height)
    ensures d.Crop? ==> d.targetWidth == TargetWidth(height)
    ensures d.Crop? ==> d.left == d.centerX - d.targetWidth / 2
    ensures d.Crop? ==> 0 <= d.left && d.left + d.targetWidth <= width
    ensures d.Crop? && d.targetWidth / 2 <= estimate <= width - d.targetWidth / 2 ==> d.centerX == estimate
    ensures d.Crop? && estimate < d.targetWidth / 2 ==> d.left == 0
    ensures d.Crop? && estimate > width - d.targetWidth / 2 ==> d.left + d.targetWidth == width
  {
    var tw := TargetWidth(height);
    if width <= tw then Skip
    else
      var centerX := Max(tw / 2, Min(width - tw / 2, estimate));
      Crop(tw, centerX, centerX - tw / 2)
  }

  /** The scenario of a 1920x1080 frame with the speaker at x = 1400. */
  lemma FullHdExample()
    ensures TargetWidth(1080) == 606
    ensures ResolveCrop(1920, 1080, 1400) == Crop(606, 1400, 1097)
  {
  }

  /** A portrait 1080x1920 frame is skipped. */
  lemma PortraitSkipped()
    ensures ResolveCrop(1080, 1920, 540) == Skip
  {
  }
}
