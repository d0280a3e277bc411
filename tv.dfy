/** The TV's source list and the "Change Video" control's index arithmetic
    (script.js:143-144, 336-344). */
module Tv {

  /** videoSources (script.js:143). */
  const VideoSources: seq<string> := ["video.webm", "video2.mp4", "video3.mp4"]

  /** The index that changeVideo moves to: the next source, wrapping after the last. */
  function NextVideo(i: nat): (r: nat)
    requires i < |VideoSources|
    ensures r < |VideoSources|
    ensures r != i && VideoSources[r] != VideoSources[i]
    ensures i + 1 < |VideoSources| ==> r == i + 1
    ensures i + 1 == |VideoSources| ==> r == 0
  {
    (i + 1) % |VideoSources|
  }

  /** The index after n presses of "Change Video". */
  function Presses(i: nat, n: nat): (r: nat)
    requires i < |VideoSources|
    ensures r < |VideoSources|
  {
    if n == 0 then i else NextVideo(Presses(i, n - 1))
  }

  lemma {:induction false} PressesAdvanceModulo(i: nat, n: nat)
    requires i < |VideoSources|
    ensures Presses(i, n) == (i + n) % |VideoSources|
  {
    if n > 0 {
      PressesAdvanceModulo(i, n - 1);
    }
  }

  /** Three presses bring the TV back to the video it was showing. */
  lemma ThreePressesReturn(i: nat)
    requires i < |VideoSources|
    ensures Presses(i, 3) == i
  {
    PressesAdvanceModulo(i, 3);
  }

  /** Every source is reached from every source in fewer than three presses. */
  lemma EverySourceReached(i: nat, j: nat)
    requires i < |VideoSources| && j < |VideoSources|
    ensures exists n: nat :: n < |VideoSources| && Presses(i, n) == j
  {
    var n: nat := (j + |VideoSources| - i) % |VideoSources|;
    PressesAdvanceModulo(i, n);
    assert Presses(i, n) == j;
  }
}
