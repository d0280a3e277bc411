/** The walk-to-sofa sequencing of the animated man, as values.
    The script keeps this state in module-level variables (script.js:273-280) that the
    "walk" and "sit" controls (script.js:357-372), the loader callbacks (script.js:284-302)
    and the frame loop (script.js:426-453) reassign; class Room in room.dfy holds them as
    fields and its methods are proved against the functions here. */
module Sequencing {

  datatype Option<T> = None | Some(value: T)

  datatype Vec3 = Vec3(x: real, y: real, z: real)

  /** Where the man stands and which way he faces (man.position, man.rotation.y). */
  datatype Pose = Pose(position: Vec3, heading: real)

  /** Math.PI and Math.PI / 2, as the doubles the script computes. */
  const Pi: real := 3.141592653589793
  const HalfPi: real := 1.5707963267948966

  /** Where the loaded model is placed, facing into the room (script.js:287-288). */
  const StartPosition := Vec3(-26.9, -12.5, 0.0)
  /** targetPosition before the first walk (script.js:273). */
  const InitialTarget := Vec3(0.0, -8.5, 15.0)
  /** The point in front of the sofa that every walk heads for (script.js:363). */
  const SofaTarget := Vec3(0.0, -8.5, 9.0)
  /** The sitting position on the sofa (script.js:451). */
  const SeatPosition := Vec3(0.0, -11.2, 9.5)
  /** The man has arrived when he is closer than this to the target (script.js:437). */
  const ArrivalRadius: real := 10.0

  function SquaredDistance(a: Vec3, b: Vec3): (d: real)
    ensures d >= 0.0
  {
    var dx, dy, dz := a.x - b.x, a.y - b.y, a.z - b.z;
    assert dx * dx >= 0.0 && dy * dy >= 0.0 && dz * dz >= 0.0;
    dx * dx + dy * dy + dz * dz
  }

  /** distanceTo(target) < 10, compared on squares so that no root is needed. */
  predicate Arrived(p: Vec3, target: Vec3)
    ensures p == target ==> Arrived(p, target)
  {
    SquaredDistance(p, target) < ArrivalRadius * ArrivalRadius
  }

  /** The man's sequencing state.
      man: the loaded model, None while Standing Idle.fbx has not loaded;
      walkClip, sitClip: walkAction and sitAction are defined (their files have loaded);
      walkRunning, sitRunning: the clip has been played and not stopped since;
      target: targetPosition. */
  datatype Character = Character(
    man: Option<Pose>,
    walkClip: bool,
    sitClip: bool,
    walking: bool,
    sitting: bool,
    walkRunning: bool,
    sitRunning: bool,
    target: Vec3)

  /** The state when the script starts: nothing loaded, idle (script.js:273, 278-280). */
  const Init := Character(None, false, false, false, false, false, false, InitialTarget)

  predicate Idle(c: Character)
  {
    !c.walking && !c.sitting
  }

  /** What holds in every state the script can reach. */
  predicate Inv(c: Character)
  {
    && !(c.walking && c.sitting)
    && (c.walkClip || c.sitClip ==> c.man.Some?)
    && (c.walkRunning ==> c.walking && c.walkClip)
    && (c.sitRunning ==> c.sitting && c.sitClip)
    && (c.walking ==> c.target == SofaTarget)
  }

  /** manControls.walk: from idle only, start walking (and the walk clip, when it
      has loaded) towards the sofa; otherwise nothing happens. */
  function Walk(c: Character): (r: Character)
    ensures !Idle(c) ==> r == c
    ensures Idle(c) ==> r.walking && !r.sitting && r.target == SofaTarget
    ensures Idle(c) ==> (r.walkRunning <==> c.walkClip || c.walkRunning)
    ensures r.man == c.man && r.walkClip == c.walkClip && r.sitClip == c.sitClip
    ensures r.sitRunning == c.sitRunning
  {
    if !c.walking && !c.sitting then
      c.(walking := true,
         walkRunning := if c.walkClip then true else c.walkRunning,
         target := SofaTarget)
    else
      c
  }

  /** manControls.sit: from idle only, sit down where the man is (and start the sit
      clip, when it has loaded); otherwise nothing happens. */
  function Sit(c: Character): (r: Character)
    ensures !Idle(c) ==> r == c
    ensures Idle(c) ==> r.sitting && !r.walking
    ensures Idle(c) ==> (r.sitRunning <==> c.sitClip || c.sitRunning)
    ensures r.man == c.man && r.target == c.target && r.walkRunning == c.walkRunning
    ensures r.walkClip == c.walkClip && r.sitClip == c.sitClip
  {
    if !c.walking && !c.sitting then
      c.(sitting := true, sitRunning := if c.sitClip then true else c.sitRunning)
    else
      c
  }

  /** The character part of one call of animate. stepped is man.position after the
      step of moveSpeed towards the target and turned is the interpolated
      man.rotation.y; both come from floating-point geometry that is not modelled. */
  function Frame(c: Character, stepped: Vec3, turned: real): (r: Character)
    ensures !(c.man.Some? && c.walking) ==> r == c
    ensures c.man.Some? && c.walking && !Arrived(stepped, c.target) ==>
              r == c.(man := Some(Pose(stepped, turned)))
    ensures c.man.Some? && c.walking && Arrived(stepped, c.target) ==>
              && !r.walking && !r.walkRunning
              && (r.sitting <==> c.sitting || c.sitClip)
              && r.target == c.target && r.walkClip == c.walkClip && r.sitClip == c.sitClip
    ensures c.man.Some? && c.walking && Arrived(stepped, c.target) && c.sitClip && !c.sitting ==>
              r.sitRunning && r.man == Some(Pose(SeatPosition, Pi))
    ensures c.man.Some? && c.walking && Arrived(stepped, c.target) && !(c.sitClip && !c.sitting) ==>
              r.man == Some(Pose(c.target, Pi)) && r.sitRunning == c.sitRunning
  {
    if c.man.Some? && c.walking then
      if Arrived(stepped, c.target) then
        var stopped := c.(walking := false, walkRunning := false, man := Some(Pose(c.target, Pi)));
        if c.sitClip && !c.sitting then
          stopped.(sitting := true, sitRunning := true, man := Some(Pose(SeatPosition, Pi)))
        else
          stopped
      else
        c.(man := Some(Pose(stepped, turned)))
    else
      c
  }

  /** The outcome of the Standing Idle.fbx callback: the model appears at the door. */
  function LoadMan(c: Character): (r: Character)
    requires c.man.None?
    ensures r.man == Some(Pose(StartPosition, HalfPi))
    ensures r.(man := None) == c
  {
    c.(man := Some(Pose(StartPosition, HalfPi)))
  }

  /** The outcome of the Walking.fbx callback, which is only requested once the model has loaded. */
  function LoadWalkClip(c: Character): (r: Character)
    requires c.man.Some? && !c.walkClip
    ensures r.walkClip && r.(walkClip := false) == c
  {
    c.(walkClip := true)
  }

  /** The outcome of the Stand To Sit.fbx callback, which is only requested once the model has loaded. */
  function LoadSitClip(c: Character): (r: Character)
    requires c.man.Some? && !c.sitClip
    ensures r.sitClip && r.(sitClip := false) == c
  {
    c.(sitClip := true)
  }

  /** Everything that can happen to the man: the two controls, a frame, and each
      loader callback. SitCalled is manControls.sit, which the GUI never registers. */
  datatype Event =
    | WalkPressed
    | SitCalled
    | FrameTick(stepped: Vec3, turned: real)
    | ManLoaded
    | WalkClipLoaded
    | SitClipLoaded

  /** A loader callback fires once, and the clip loads start only inside the model's callback. */
  predicate Enabled(c: Character, e: Event)
  {
    match e
    case ManLoaded => c.man.None?
    case WalkClipLoaded => c.man.Some? && !c.walkClip
    case SitClipLoaded => c.man.Some? && !c.sitClip
    case _ => true
  }

  function Step(c: Character, e: Event): (r: Character)
    requires Enabled(c, e)
  {
    match e
    case WalkPressed => Walk(c)
    case SitCalled => Sit(c)
    case FrameTick(stepped, turned) => Frame(c, stepped, turned)
    case ManLoaded => LoadMan(c)
    case WalkClipLoaded => LoadWalkClip(c)
    case SitClipLoaded => LoadSitClip(c)
  }

  predicate ValidRun(c: Character, es: seq<Event>)
    decreases |es|
  {
    es == [] || (Enabled(c, es[0]) && ValidRun(Step(c, es[0]), es[1..]))
  }

  function Run(c: Character, es: seq<Event>): (r: Character)
    requires ValidRun(c, es)
    decreases |es|
  {
    if es == [] then c else Run(Step(c, es[0]), es[1..])
  }

  /** How many events of the run take the man from not sitting to sitting. */
  function SitStarts(c: Character, es: seq<Event>): (n: nat)
    requires ValidRun(c, es)
    decreases |es|
  {
    if es == [] then 0
    else
      var next := Step(c, es[0]);
      (if !c.sitting && next.sitting then 1 else 0) + SitStarts(next, es[1..])
  }

  /** The event calls sitAction.play(): sit from idle with the clip loaded
      (script.js:367-369), or the arriving frame that sits (script.js:446-448). */
  predicate PlaysSitClip(c: Character, e: Event)
  {
    match e
    case SitCalled => Idle(c) && c.sitClip
    case FrameTick(stepped, _) =>
      c.man.Some? && c.walking && Arrived(stepped, c.target) && c.sitClip && !c.sitting
    case _ => false
  }

  /** How many events of the run start the sit animation. */
  function SitClipPlays(c: Character, es: seq<Event>): (n: nat)
    requires ValidRun(c, es)
    decreases |es|
  {
    if es == [] then 0
    else (if PlaysSitClip(c, es[0]) then 1 else 0) + SitClipPlays(Step(c, es[0]), es[1..])
  }

  /** The GUI only registers "walk" (script.js:374): no run driven through it calls sit. */
  predicate GuiOnly(es: seq<Event>)
  {
    forall i :: 0 <= i < |es| ==> !es[i].SitCalled?
  }

  /** Sitting reached through the GUI always means on the sofa, facing the TV, with the sit clip playing. */
  predicate SeatedOnSofa(c: Character)
  {
    c.sitting ==> c.sitRunning && c.man == Some(Pose(SeatPosition, Pi))
  }

  lemma InitInv()
    ensures Inv(Init) && SeatedOnSofa(Init) && Idle(Init)
  {
  }

  lemma StepPreservesInv(c: Character, e: Event)
    requires Inv(c) && Enabled(c, e)
    ensures Inv(Step(c, e))
  {
  }

  lemma {:induction false} RunPreservesInv(c: Character, es: seq<Event>)
    requires Inv(c) && ValidRun(c, es)
    ensures Inv(Run(c, es))
    decreases |es|
  {
    if es != [] {
      StepPreservesInv(c, es[0]);
      RunPreservesInv(Step(c, es[0]), es[1..]);
    }
  }

  /** walking and sitting are never both true, whatever order the controls, the
      frames and the loads come in. */
  lemma NeverWalkingAndSitting(es: seq<Event>)
    requires ValidRun(Init, es)
    ensures !(Run(Init, es).walking && Run(Init, es).sitting)
  {
    InitInv();
    RunPreservesInv(Init, es);
  }

  /** Nothing ever clears sitting; once seated, the man never walks again, is never
      moved again once loaded, and his target stays put. */
  lemma {:induction false} SeatedIsFinal(c: Character, es: seq<Event>)
    requires Inv(c) && c.sitting && ValidRun(c, es)
    ensures Run(c, es).sitting && !Run(c, es).walking
    ensures Run(c, es).target == c.target
    ensures c.man.Some? ==> Run(c, es).man == c.man
    decreases |es|
  {
    if es != [] {
      StepPreservesInv(c, es[0]);
      SeatedIsFinal(Step(c, es[0]), es[1..]);
    }
  }

  /** Sitting starts at most once in any run, and not at all once seated. */
  lemma {:induction false} SitStartsAtMostOnce(c: Character, es: seq<Event>)
    requires ValidRun(c, es)
    ensures SitStarts(c, es) <= if c.sitting then 0 else 1
    decreases |es|
  {
    if es != [] {
      var next := Step(c, es[0]);
      assert c.sitting ==> next.sitting;
      SitStartsAtMostOnce(next, es[1..]);
    }
  }

  /** The sit animation is started at most once in any run, and not at all once
      seated: every start of it also starts sitting, which nothing ever clears. */
  lemma {:induction false} SitClipPlaysAtMostOnce(c: Character, es: seq<Event>)
    requires ValidRun(c, es)
    ensures SitClipPlays(c, es) <= if c.sitting then 0 else 1
    decreases |es|
  {
    if es != [] {
      var next := Step(c, es[0]);
      assert c.sitting ==> next.sitting;
      assert PlaysSitClip(c, es[0]) ==> !c.sitting && next.sitting && next.sitRunning;
      SitClipPlaysAtMostOnce(next, es[1..]);
    }
  }

  lemma GuiStepKeepsSeat(c: Character, e: Event)
    requires Inv(c) && SeatedOnSofa(c) && Enabled(c, e) && !e.SitCalled?
    ensures SeatedOnSofa(Step(c, e))
  {
  }

  lemma {:induction false} GuiRunKeepsSeat(c: Character, es: seq<Event>)
    requires Inv(c) && SeatedOnSofa(c) && GuiOnly(es) && ValidRun(c, es)
    ensures SeatedOnSofa(Run(c, es))
    decreases |es|
  {
    if es != [] {
      StepPreservesInv(c, es[0]);
      GuiStepKeepsSeat(c, es[0]);
      assert GuiOnly(es[1..]) by {
        forall i | 0 <= i < |es[1..]| ensures !es[1..][i].SitCalled? {
          assert es[1..][i] == es[i + 1];
        }
      }
      GuiRunKeepsSeat(Step(c, es[0]), es[1..]);
    }
  }

  /** Through the GUI, the man only ever sits on the sofa at (0, -11.2, 9.5), facing
      the TV, with the sit clip running. */
  lemma GuiSittingIsOnSofa(es: seq<Event>)
    requires ValidRun(Init, es) && GuiOnly(es)
    ensures Run(Init, es).sitting ==>
              Run(Init, es).sitRunning && Run(Init, es).man == Some(Pose(SeatPosition, Pi))
  {
    InitInv();
    GuiRunKeepsSeat(Init, es);
  }

  /** sit, not reachable from the GUI, would seat the man wherever he stands, even
      before his model has loaded and without any animation. */
  lemma SitOutsideGuiSeatsAnywhere()
    ensures Sit(Init).sitting && Sit(Init).man.None? && !Sit(Init).sitRunning
    ensures !SeatedOnSofa(Sit(Init))
  {
  }

  /** The `!sitting` half of the arrival test (script.js:446) never decides anything:
      a walking man is never sitting. */
  lemma ArrivalSitGuardRedundant(c: Character)
    requires Inv(c) && c.walking
    ensures !c.sitting
  {
  }

  /** Arriving without the sit clip leaves the man idle at the sofa target, and
      "walk" can start him again. */
  lemma ArrivalWithoutSitClipIsIdle(c: Character, stepped: Vec3, turned: real)
    requires Inv(c) && c.man.Some? && c.walking && !c.sitClip && Arrived(stepped, c.target)
    ensures Idle(Frame(c, stepped, turned))
    ensures Frame(c, stepped, turned).man == Some(Pose(SofaTarget, Pi))
    ensures Walk(Frame(c, stepped, turned)).walking
  {
  }

  /** In one step, walking only ever stops on a frame that arrives. */
  lemma WalkingStopsOnlyOnArrival(c: Character, e: Event)
    requires Enabled(c, e) && c.walking && !Step(c, e).walking
    ensures e.FrameTick? && c.man.Some? && Arrived(e.stepped, c.target)
  {
  }

  /** Through the GUI, sitting only ever starts on the frame that arrives with the sit clip loaded. */
  lemma GuiSittingStartsOnlyOnArrival(c: Character, e: Event)
    requires Enabled(c, e) && !e.SitCalled? && !c.sitting && Step(c, e).sitting
    ensures e.FrameTick? && c.man.Some? && c.walking && c.sitClip && Arrived(e.stepped, c.target)
  {
  }

  /** "walk" pressed before the model has loaded still sets walking, with no clip to
      play, and frames leave the man alone until the model arrives. */
  lemma WalkBeforeLoad(stepped: Vec3, turned: real)
    ensures Walk(Init).walking && !Walk(Init).walkRunning
    ensures Frame(Walk(Init), stepped, turned) == Walk(Init)
  {
  }

  /** After an arrival without the sit clip, once the clip loads, a second "walk"
      arrives on its first frame (the man already stands on the target) and seats
      him on the sofa with the sit clip running. */
  lemma SecondWalkSits(c: Character, stepped: Vec3, turned: real, turned2: real)
    requires Inv(c) && c.man.Some? && c.walking && !c.sitClip && Arrived(stepped, c.target)
    ensures var idle := Frame(c, stepped, turned);
            var seated := Frame(Walk(LoadSitClip(idle)), SofaTarget, turned2);
            && seated.sitting && !seated.walking && seated.sitRunning
            && seated.man == Some(Pose(SeatPosition, Pi))
  {
    var idle := Frame(c, stepped, turned);
    var again := Walk(LoadSitClip(idle));
    assert again.walking && again.target == SofaTarget && again.sitClip && !again.sitting;
    assert Arrived(SofaTarget, again.target);
  }

}
