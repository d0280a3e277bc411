/** The intensities the "Toggle Lights" control sets (script.js:191, 205-216, 318-321). */
module Lights {

  /** The six point lights placed under the ceiling (script.js:206-209). */
  const ExtraLightCount: nat := 6

  /** tubeLight.intensity after the toggle: lit exactly when the switch is on. */
  function TubeLevel(on: bool): (r: int)
    ensures r >= 0 && (r > 0 <==> on)
  {
    if on then 6 else 0
  }

  /** Each extra light's intensity after the toggle: lit exactly when the switch is
      on, and never brighter than the tube. */
  function ExtraLevel(on: bool): (r: int)
    ensures r >= 0 && (r > 0 <==> on)
    ensures r <= TubeLevel(on)
  {
    if on then 3 else 0
  }
}
