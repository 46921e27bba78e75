/** The three fixed horizontal zones of a camera frame. */
module Zones {

  datatype Zone = Left | Center | Right

  /** `width // 3`: boxes centred left of it are in the left zone. */
  function LeftCut(width: nat): nat {
    width / 3
  }

  /** `2 * width // 3`: boxes centred right of it are in the right zone. */
  function RightCut(width: nat): nat {
    2 * width / 3
  }

  lemma CutsOrdered(width: nat)
    ensures LeftCut(width) <= RightCut(width)
  {
    assert 3 * (width / 3) <= width;
    assert 3 * (2 * width / 3) > 2 * width - 3;
  }

  /** The zone of a detection whose box centre is at `centerX` in a frame `width`
      pixels wide. Both cut points belong to the centre zone. */
  function Classify(centerX: real, width: nat): (z: Zone)
    ensures z == Left <==> centerX < LeftCut(width) as real
    ensures z == Right <==> centerX > RightCut(width) as real
    ensures z == Center <==> LeftCut(width) as real <= centerX <= RightCut(width) as real
  {
    CutsOrdered(width);
    if centerX < LeftCut(width) as real then Left
    else if centerX > RightCut(width) as real then Right
    else Center
  }

  /** A box centred exactly on either cut point is in the centre zone. */
  lemma CutPointsAreCenter(width: nat)
    ensures Classify(LeftCut(width) as real, width) == Center
    ensures Classify(RightCut(width) as real, width) == Center
  {
    CutsOrdered(width);
  }
}
