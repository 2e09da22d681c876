/** The state-driven parts of the 3D scene: the lighting targets of the
    lighting controller and the gating props of the orbit controls. All of
    them read only the focused-locket identifier, through its truthiness. */
module Scene {
  import opened Types
  import Store

  /** Spotlight intensity the light is created with, and its two targets. */
  const SpotInitial: real := 200.0
  const SpotFocused: real := 140.0
  const SpotUnfocused: real := 200.0
  /** Ambient light intensity the light is created with, and its two targets. */
  const AmbientInitial: real := 0.5
  const AmbientFocused: real := 0.3
  const AmbientUnfocused: real := 0.5
  /** Environment map intensity. */
  const EnvironmentFocused: real := 0.7
  const EnvironmentUnfocused: real := 1.0
  /** Rim (point) light intensity. */
  const RimFocused: real := 30.0
  const RimUnfocused: real := 50.0
  /** Smoothing time handed to the damping call of both animated lights;
      recorded only, since the damping itself is not modelled. */
  const SmoothTime: real := 0.5

  /** The values the lighting controller aims for in one frame. */
  datatype LightTargets = LightTargets(spot: real, ambient: real, environment: real, rim: real)

  /** The orbit-control flags. */
  datatype OrbitGate = OrbitGate(enablePan: bool, enableZoom: bool, autoRotate: bool)

  /** Target resolver: the dimmed set while a locket is focused, the full set
      otherwise. The body keeps the literals of the lighting controller; the
      contract checks them against the named constants above. */
  function Targets(id: Option<string>): (t: LightTargets)
    ensures Focused(id) ==>
      t.spot == SpotFocused && t.ambient == AmbientFocused &&
      t.environment == EnvironmentFocused && t.rim == RimFocused
    ensures !Focused(id) ==>
      t.spot == SpotUnfocused && t.ambient == AmbientUnfocused &&
      t.environment == EnvironmentUnfocused && t.rim == RimUnfocused
  {
    if Focused(id) then LightTargets(140.0, 0.3, 0.7, 30.0)
    else LightTargets(200.0, 0.5, 1.0, 50.0)
  }

  /** Interaction gate of the camera: zoom and auto-rotation only while
      nothing is focused, panning never. */
  function Controls(id: Option<string>): (g: OrbitGate)
    ensures !g.enablePan
    ensures g.enableZoom <==> !Focused(id)
    ensures g.autoRotate <==> !Focused(id)
  {
    var free := !Focused(id);
    OrbitGate(false, free, free)
  }

  /** Focusing dims every light: each focused target lies strictly below the
      unfocused one, and the whole set is pointwise lower. */
  lemma FocusDims(a: Option<string>, b: Option<string>)
    requires Focused(a) && !Focused(b)
    ensures Targets(a).spot < Targets(b).spot
    ensures Targets(a).ambient < Targets(b).ambient
    ensures Targets(a).environment < Targets(b).environment
    ensures Targets(a).rim < Targets(b).rim
  {
  }

  /** The targets and the camera flags depend on the identifier only through
      its truthiness: `null` and `""` give the same scene. */
  lemma OnlyTruthinessMatters(a: Option<string>, b: Option<string>)
    requires Focused(a) == Focused(b)
    ensures Targets(a) == Targets(b) && Controls(a) == Controls(b)
  {
  }

  /** The lights are created at the targets of the store's initial state. */
  lemma InitialIntensitiesAtRest()
    ensures Targets(Store.Initial().activeLocketId).spot == SpotInitial
    ensures Targets(Store.Initial().activeLocketId).ambient == AmbientInitial
  {
  }
}
