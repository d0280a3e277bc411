/** The mutable state of script.js and the GUI callbacks and frame step that change it.
    The script keeps this state in module-level variables and in library objects
    (materials, lights, the man's model); class Room holds it as fields, and each
    callback is a method that changes exactly the fields its handler assigns. */
module Script {
  import opened Sequencing
  import Tv
  import Textures
  import Lights

  /** A MeshStandardMaterial, reduced to the texture it shows and its re-upload flag. */
  class Material {
    var texture: string  // material.map
    var needsUpdate: bool

    constructor (file: string)
      ensures texture == file && !needsUpdate
    {
      texture := file;
      needsUpdate := false;
    }
  }

  class Room {
    // the man (script.js:273-280)
    var man: Option<Pose>
    var walkClip: bool
    var sitClip: bool
    var walking: bool
    var sitting: bool
    var walkRunning: bool
    var sitRunning: bool
    var target: Vec3

    // the TV (script.js:143-146)
    var videoIndex: nat
    var videoSrc: string

    // the lights (script.js:191, 211-216, 313)
    var lightOn: bool
    var tubeIntensity: int
    var extraLights: array<int>

    // the fan (script.js:259, 314, 393)
    var fanLoaded: bool
    var fanOn: bool
    var fanRotation: bool

    // the wall and floor textures (script.js:89, 97, 376-379)
    var wallTexture: nat
    var floorTexture: nat
    var roomMaterial: Material
    var floorMaterial: Material

    /** The man's sequencing state as a value. */
    ghost function Man(): Character
      reads this
    {
      Character(man, walkClip, sitClip, walking, sitting, walkRunning, sitRunning, target)
    }

    ghost predicate Valid()
      reads this, roomMaterial, floorMaterial
    {
      && Inv(Man())
      && videoIndex < |Tv.VideoSources| && videoSrc == Tv.VideoSources[videoIndex]
      && extraLights.Length == Lights.ExtraLightCount
      && fanOn == fanRotation
      && roomMaterial != floorMaterial
      && wallTexture < Textures.Choices && roomMaterial.texture == Textures.WallTextures[wallTexture]
      && floorTexture < Textures.Choices && floorMaterial.texture == Textures.FloorTextures[floorTexture]
    }

    /** The lights show what the "Toggle Lights" switch says. This is not so at start-up,
        where the switch is on and the extra lights are off. */
    ghost predicate LightsFollowSwitch()
      reads this, extraLights
    {
      && tubeIntensity == Lights.TubeLevel(lightOn)
      && forall k :: 0 <= k < extraLights.Length ==> extraLights[k] == Lights.ExtraLevel(lightOn)
    }

    /** The state once the script's top level has run and before any callback fires. */
    constructor ()
      ensures Valid() && fresh(extraLights) && fresh(roomMaterial) && fresh(floorMaterial)
      ensures Man() == Sequencing.Init
      ensures videoIndex == 0 && videoSrc == "video.webm"
      ensures lightOn && tubeIntensity == 6
      ensures forall k :: 0 <= k < extraLights.Length ==> extraLights[k] == 0
      ensures !fanLoaded && !fanOn && !fanRotation
      ensures wallTexture == 0 && floorTexture == 0
      ensures !roomMaterial.needsUpdate && !floorMaterial.needsUpdate
    {
      man := None;
      walkClip, sitClip := false, false;
      walking, sitting := false, false;
      walkRunning, sitRunning := false, false;
      target := InitialTarget;
      videoIndex := 0;
      videoSrc := Tv.VideoSources[0];
      lightOn := true;
      tubeIntensity := 6;
      extraLights := new int[Lights.ExtraLightCount](_ => 0);
      fanLoaded := false;
      fanOn, fanRotation := false, false;
      wallTexture, floorTexture := 0, 0;
      roomMaterial := new Material(Textures.WallTextures[0]);
      floorMaterial := new Material(Textures.FloorTextures[0]);
    }

    /** manControls.walk (script.js:358-365). */
    method Walk()
      requires Valid()
      modifies this`walking, this`walkRunning, this`target
      ensures Valid()
      ensures Man() == Sequencing.Walk(old(Man()))
    {
      if !walking && !sitting {
        walking := true;
        if walkClip {
          walkRunning := true;
        }
        target := SofaTarget;
      }
    }

    /** manControls.sit (script.js:366-371); defined but never added to the GUI. */
    method Sit()
      requires Valid()
      modifies this`sitting, this`sitRunning
      ensures Valid()
      ensures Man() == Sequencing.Sit(old(Man()))
    {
      if !walking && !sitting {
        sitting := true;
        if sitClip {
          sitRunning := true;
        }
      }
    }

    /** One call of animate (script.js:413-454): whether the fan turns this frame, and
        the man's step. stepped and turned are the position and heading that the
        unmodelled floating-point step computes. */
    method FrameStep(stepped: Vec3, turned: real) returns (fanTurns: bool)
      requires Valid()
      modifies this`man, this`walking, this`walkRunning, this`sitting, this`sitRunning
      ensures Valid()
      ensures fanTurns <==> fanRotation && fanLoaded
      ensures Man() == Frame(old(Man()), stepped, turned)
    {
      fanTurns := fanRotation && fanLoaded;
      ghost var before := Man();
      if man.Some? && walking {
        man := Some(Pose(stepped, turned));
        if Arrived(stepped, target) {
          walking := false;
          if walkClip {
            walkRunning := false;
          }
          man := Some(Pose(target, Pi));
          if sitClip && !sitting {
            sitting := true;
            sitRunning := true;
            man := Some(Pose(SeatPosition, Pi));
          }
        }
      }
      assert Man() == Frame(before, stepped, turned);
    }

    /** tvControls.changeVideo (script.js:336-344): the next source, wrapping round. */
    method ChangeVideo()
      requires Valid()
      modifies this`videoIndex, this`videoSrc
      ensures Valid()
      ensures videoIndex == Tv.NextVideo(old(videoIndex))
      ensures videoSrc == Tv.VideoSources[videoIndex] && videoSrc != old(videoSrc)
    {
      videoIndex := (videoIndex + 1) % |Tv.VideoSources|;
      videoSrc := Tv.VideoSources[videoIndex];
    }

    /** The "Toggle Lights" handler (script.js:318-321), with lil-gui's update of lightOn. */
    method ToggleLights(on: bool)
      requires Valid()
      modifies this`lightOn, this`tubeIntensity, extraLights
      ensures Valid()
      ensures lightOn == on && LightsFollowSwitch()
      ensures tubeIntensity == (if on then 6 else 0)
      ensures forall k :: 0 <= k < extraLights.Length ==> extraLights[k] == (if on then 3 else 0)
      ensures (tubeIntensity > 0 <==> on) && forall k :: 0 <= k < extraLights.Length ==> (extraLights[k] > 0 <==> on)
    {
      lightOn := on;
      tubeIntensity := if on then 6 else 0;
      var k := 0;
      while k < extraLights.Length
        modifies extraLights
        invariant 0 <= k <= extraLights.Length
        invariant forall j :: 0 <= j < k ==> extraLights[j] == Lights.ExtraLevel(on)
      {
        extraLights[k] := if on then 3 else 0;
        k := k + 1;
      }
    }

    /** The "Toggle Fan" handler (script.js:324-326), with lil-gui's update of fanOn. */
    method ToggleFan(on: bool)
      requires Valid()
      modifies this`fanOn, this`fanRotation
      ensures Valid()
      ensures fanOn == on && fanRotation == on
    {
      fanOn := on;
      fanRotation := on;
    }

    /** The "Wall Texture" handler (script.js:381-384); the dropdown offers 0 to 3. */
    method SelectWall(i: nat)
      requires Valid() && i < Textures.Choices
      modifies this`wallTexture, roomMaterial
      ensures Valid()
      ensures wallTexture == i && roomMaterial.texture == Textures.WallTextures[i] && roomMaterial.needsUpdate
    {
      wallTexture := i;
      roomMaterial.texture := Textures.WallTextures[i];
      roomMaterial.needsUpdate := true;
    }

    /** The "Floor Texture" handler (script.js:386-389); the dropdown offers 0 to 3. */
    method SelectFloor(i: nat)
      requires Valid() && i < Textures.Choices
      modifies this`floorTexture, floorMaterial
      ensures Valid()
      ensures floorTexture == i && floorMaterial.texture == Textures.FloorTextures[i] && floorMaterial.needsUpdate
    {
      floorTexture := i;
      floorMaterial.texture := Textures.FloorTextures[i];
      floorMaterial.needsUpdate := true;
    }

    /** The outcome of the Standing Idle.fbx callback (script.js:284-291). */
    method OnManLoaded()
      requires Valid() && man.None?
      modifies this`man
      ensures Valid()
      ensures Man() == LoadMan(old(Man()))
    {
      man := Some(Pose(StartPosition, HalfPi));
    }

    /** The outcome of the Walking.fbx callback (script.js:293-295). */
    method OnWalkClipLoaded()
      requires Valid() && man.Some? && !walkClip
      modifies this`walkClip
      ensures Valid()
      ensures Man() == LoadWalkClip(old(Man()))
    {
      walkClip := true;
    }

    /** The outcome of the Stand To Sit.fbx callback (script.js:297-301). */
    method OnSitClipLoaded()
      requires Valid() && man.Some? && !sitClip
      modifies this`sitClip
      ensures Valid()
      ensures Man() == LoadSitClip(old(Man()))
    {
      sitClip := true;
    }

    /** The outcome of the Ceiling fan.glb callback (script.js:261-269). */
    method OnFanLoaded()
      requires Valid() && !fanLoaded
      modifies this`fanLoaded
      ensures Valid() && fanLoaded
    {
      fanLoaded := true;
    }
  }
}
