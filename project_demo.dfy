/**
 * The per-frame key dispatch of the solar-system demo (projectdemo.py) and
 * the UFO's position overwrite later in the same frame.
 *
 * The dispatch is five independent if/elif chains: UP/DOWN on the UFO's z
 * offset, RIGHT/LEFT on its x offset, a/d and w/s on the sun (two chains,
 * so both axes can move in one frame), and z/x/c/v on the camera rotation.
 */
module ProjectDemo {
  import opened Wrappers
  import opened Input
  import opened Scene

  const SPOT_LIGHT_POSITION := "spotLight.position"
  const POINT_LIGHT_POSITION := "pointLight.position"

  /** What one branch of a chain does. */
  datatype Action = UfoZ(dz: real) | UfoX(dx: real) | SunMove(delta: Vec3) | CameraTurn(angle: real)

  const UFO_Z_CHAIN: seq<(Key, Action)> := [(Up, UfoZ(-0.01)), (Down, UfoZ(0.01))]
  const UFO_X_CHAIN: seq<(Key, Action)> := [(Right, UfoX(0.03)), (Left, UfoX(-0.03))]
  const SUN_X_CHAIN: seq<(Key, Action)> :=
    [(A, SunMove(Vec3(-0.01, 0.0, 0.0))), (D, SunMove(Vec3(0.01, 0.0, 0.0)))]
  const SUN_Z_CHAIN: seq<(Key, Action)> :=
    [(W, SunMove(Vec3(0.0, 0.0, -0.01))), (S, SunMove(Vec3(0.0, 0.0, 0.01)))]
  const CAMERA_CHAIN: seq<(Key, Action)> :=
    [(Z, CameraTurn(-0.02)), (X, CameraTurn(-0.01)), (C, CameraTurn(0.01)), (V, CameraTurn(0.02))]

  /**
   * The scene state the dispatch and the UFO update touch: the loop's locals
   * `cameraRotation`, `ufo_x_offset`, `ufo_z_offset` and `ufo_orbit_angle`,
   * the sun's and the UFO's positions, and the renderer's uniforms.
   */
  datatype State = State(
    cameraRotation: real, ufoXOffset: real, ufoZOffset: real, ufoOrbitAngle: real,
    sun: Vec3, ufo: Vec3, uniforms: map<string, Uniform>)

  /**
   * One branch. The arrow branches re-send the UFO's current position as the
   * spot light's; the sun branches move the sun and re-send its new position
   * as the point light's.
   */
  function Apply(s: State, a: Action): State
  {
    match a
    case UfoZ(dz) =>
      s.(ufoZOffset := s.ufoZOffset + dz, uniforms := s.uniforms[SPOT_LIGHT_POSITION := Vec3Uniform(s.ufo)])
    case UfoX(dx) =>
      s.(ufoXOffset := s.ufoXOffset + dx, uniforms := s.uniforms[SPOT_LIGHT_POSITION := Vec3Uniform(s.ufo)])
    case SunMove(d) =>
      s.(sun := s.sun.Plus(d), uniforms := s.uniforms[POINT_LIGHT_POSITION := Vec3Uniform(s.sun.Plus(d))])
    case CameraTurn(da) =>
      s.(cameraRotation := s.cameraRotation + da)
  }

  /** One chain: the branch it takes, if any. */
  function RunChain(s: State, keys: set<Key>, chain: seq<(Key, Action)>): State
  {
    match Choose(keys, chain)
    case None => s
    case Some(a) => Apply(s, a)
  }

  /** The whole dispatch: the five chains, in source order. */
  function Dispatch(keys: set<Key>, s: State): State
  {
    var s1 := RunChain(s, keys, UFO_Z_CHAIN);
    var s2 := RunChain(s1, keys, UFO_X_CHAIN);
    var s3 := RunChain(s2, keys, SUN_X_CHAIN);
    var s4 := RunChain(s3, keys, SUN_Z_CHAIN);
    RunChain(s4, keys, CAMERA_CHAIN)
  }

  function UfoZDelta(keys: set<Key>): real {
    if Up in keys then -0.01 else if Down in keys then 0.01 else 0.0
  }

  function UfoXDelta(keys: set<Key>): real {
    if Right in keys then 0.03 else if Left in keys then -0.03 else 0.0
  }

  function SunDelta(keys: set<Key>): Vec3 {
    Vec3(if A in keys then -0.01 else if D in keys then 0.01 else 0.0,
         0.0,
         if W in keys then -0.01 else if S in keys then 0.01 else 0.0)
  }

  function CameraDelta(keys: set<Key>): real {
    if Z in keys then -0.02 else if X in keys then -0.01
    else if C in keys then 0.01 else if V in keys then 0.02 else 0.0
  }

  predicate SunKeyHeld(keys: set<Key>) { A in keys || D in keys || W in keys || S in keys }

  predicate ArrowKeyHeld(keys: set<Key>) { Up in keys || Down in keys || Right in keys || Left in keys }

  /** The UP/DOWN chain: UP wins, and either re-sends the UFO's position as the spot light's. */
  lemma UfoZChain(keys: set<Key>, s: State)
    ensures RunChain(s, keys, UFO_Z_CHAIN) ==
      if Up in keys || Down in keys
      then s.(ufoZOffset := s.ufoZOffset + UfoZDelta(keys),
              uniforms := s.uniforms[SPOT_LIGHT_POSITION := Vec3Uniform(s.ufo)])
      else s
  {
    ChooseTwo(keys, Up, UfoZ(-0.01), Down, UfoZ(0.01));
  }

  /** The RIGHT/LEFT chain: RIGHT wins, and either re-sends the UFO's position as the spot light's. */
  lemma UfoXChain(keys: set<Key>, s: State)
    ensures RunChain(s, keys, UFO_X_CHAIN) ==
      if Right in keys || Left in keys
      then s.(ufoXOffset := s.ufoXOffset + UfoXDelta(keys),
              uniforms := s.uniforms[SPOT_LIGHT_POSITION := Vec3Uniform(s.ufo)])
      else s
  {
    ChooseTwo(keys, Right, UfoX(0.03), Left, UfoX(-0.03));
  }

  /** The a/d chain: a wins; the sun moves along x and the point light follows it. */
  lemma SunXChain(keys: set<Key>, s: State)
    ensures RunChain(s, keys, SUN_X_CHAIN) ==
      if A in keys || D in keys
      then var p := s.sun.Plus(Vec3(SunDelta(keys).x, 0.0, 0.0));
        s.(sun := p, uniforms := s.uniforms[POINT_LIGHT_POSITION := Vec3Uniform(p)])
      else s
  {
    ChooseTwo(keys, A, SunMove(Vec3(-0.01, 0.0, 0.0)), D, SunMove(Vec3(0.01, 0.0, 0.0)));
  }

  /** The w/s chain: w wins; the sun moves along z and the point light follows it. */
  lemma SunZChain(keys: set<Key>, s: State)
    ensures RunChain(s, keys, SUN_Z_CHAIN) ==
      if W in keys || S in keys
      then var p := s.sun.Plus(Vec3(0.0, 0.0, SunDelta(keys).z));
        s.(sun := p, uniforms := s.uniforms[POINT_LIGHT_POSITION := Vec3Uniform(p)])
      else s
  {
    ChooseTwo(keys, W, SunMove(Vec3(0.0, 0.0, -0.01)), S, SunMove(Vec3(0.0, 0.0, 0.01)));
  }

  /** The z/x/c/v chain: exactly the first held of z, x, c, v turns the camera. */
  lemma CameraChain(keys: set<Key>, s: State)
    ensures RunChain(s, keys, CAMERA_CHAIN) == s.(cameraRotation := s.cameraRotation + CameraDelta(keys))
  {
    ChooseFour(keys, Z, CameraTurn(-0.02), X, CameraTurn(-0.01), C, CameraTurn(0.01), V, CameraTurn(0.02));
  }

  /** The dispatch as the composition of its five chains, each stated on its own. */
  lemma DispatchSteps(keys: set<Key>, s: State)
    ensures var s1 := if Up in keys || Down in keys
              then s.(ufoZOffset := s.ufoZOffset + UfoZDelta(keys),
                      uniforms := s.uniforms[SPOT_LIGHT_POSITION := Vec3Uniform(s.ufo)])
              else s;
      var s2 := if Right in keys || Left in keys
              then s1.(ufoXOffset := s1.ufoXOffset + UfoXDelta(keys),
                       uniforms := s1.uniforms[SPOT_LIGHT_POSITION := Vec3Uniform(s1.ufo)])
              else s1;
      var s3 := if A in keys || D in keys
              then var p := s2.sun.Plus(Vec3(SunDelta(keys).x, 0.0, 0.0));
                s2.(sun := p, uniforms := s2.uniforms[POINT_LIGHT_POSITION := Vec3Uniform(p)])
              else s2;
      var s4 := if W in keys || S in keys
              then var p := s3.sun.Plus(Vec3(0.0, 0.0, SunDelta(keys).z));
                s3.(sun := p, uniforms := s3.uniforms[POINT_LIGHT_POSITION := Vec3Uniform(p)])
              else s3;
      Dispatch(keys, s) == s4.(cameraRotation := s4.cameraRotation + CameraDelta(keys))
  {
    var s1 := RunChain(s, keys, UFO_Z_CHAIN);
    var s2 := RunChain(s1, keys, UFO_X_CHAIN);
    var s3 := RunChain(s2, keys, SUN_X_CHAIN);
    var s4 := RunChain(s3, keys, SUN_Z_CHAIN);
    UfoZChain(keys, s);
    UfoXChain(keys, s1);
    SunXChain(keys, s2);
    SunZChain(keys, s3);
    CameraChain(keys, s4);
  }

  /** The dispatch's effect on the locals, the sun and the UFO, as a relation between `s` and `r`. */
  predicate EffectOn(keys: set<Key>, s: State, r: State)
  {
    && r.ufoZOffset == s.ufoZOffset + UfoZDelta(keys)
    && r.ufoXOffset == s.ufoXOffset + UfoXDelta(keys)
    && r.sun == s.sun.Plus(SunDelta(keys))
    && r.cameraRotation == s.cameraRotation + CameraDelta(keys)
    && r.ufo == s.ufo && r.ufoOrbitAngle == s.ufoOrbitAngle
  }

  /** The dispatch's effect on the uniform table, as a relation between `s` and `r`. */
  ghost predicate UniformsOn(keys: set<Key>, s: State, r: State)
  {
    && (SunKeyHeld(keys) ==> POINT_LIGHT_POSITION in r.uniforms && r.uniforms[POINT_LIGHT_POSITION] == Vec3Uniform(r.sun))
    && (!SunKeyHeld(keys) ==> EqualAt(r.uniforms, s.uniforms, POINT_LIGHT_POSITION))
    && (ArrowKeyHeld(keys) ==> SPOT_LIGHT_POSITION in r.uniforms && r.uniforms[SPOT_LIGHT_POSITION] == Vec3Uniform(s.ufo))
    && (!ArrowKeyHeld(keys) ==> EqualAt(r.uniforms, s.uniforms, SPOT_LIGHT_POSITION))
    && forall n :: n != POINT_LIGHT_POSITION && n != SPOT_LIGHT_POSITION ==> EqualAt(r.uniforms, s.uniforms, n)
  }

  /**
   * What one frame's dispatch does to the loop's locals and the sun: each
   * chain adds the delta of its first held key (UP over DOWN, RIGHT over
   * LEFT, a over d, w over s, z over x over c over v), both sun axes can
   * move in one frame, and the UFO's position and orbit angle stay.
   */
  lemma DispatchEffect(keys: set<Key>, s: State)
    ensures EffectOn(keys, s, Dispatch(keys, s))
  {
    DispatchSteps(keys, s);
  }

  /**
   * What one frame's dispatch does to the uniforms: after any sun move the
   * point light sits at the sun's new position, after any arrow key the spot
   * light at the UFO's position, and nothing else changes.
   */
  lemma DispatchUniforms(keys: set<Key>, s: State)
    ensures UniformsOn(keys, s, Dispatch(keys, s))
  {
    DispatchSteps(keys, s);
  }

  /** Two maps agree on a name: both lack it, or both map it to the same value. */
  predicate EqualAt(m: map<string, Uniform>, m': map<string, Uniform>, n: string)
  {
    (n in m <==> n in m') && (n in m ==> m[n] == m'[n])
  }

  /** With no key held the dispatch changes nothing. */
  lemma NoKeysNoChange(s: State)
    ensures Dispatch({}, s) == s
  {
    DispatchSteps({}, s);
  }

  /** a and w held together move the sun on both axes in one frame. */
  lemma SunMovesOnBothAxes(keys: set<Key>, s: State)
    requires A in keys && W in keys
    ensures Dispatch(keys, s).sun == Vec3(s.sun.x - 0.01, s.sun.y, s.sun.z - 0.01)
  {
    DispatchEffect(keys, s);
  }

  /**
   * The UFO update after the physics step: `ufo_orbit_angle += .1`, the UFO
   * is put at the earth's x and z plus the orbit offset for the new angle, at
   * height .25, and the spot light follows it. `orbit(angle)` stands for
   * `(.05 * cos(angle), .05 * sin(angle))`.
   */
  function OrbitUfo(s: State, earth: Vec3, orbit: real -> (real, real)): State
  {
    var angle := s.ufoOrbitAngle + 0.1;
    var p := Vec3(earth.x + orbit(angle).0, 0.25, earth.z + orbit(angle).1);
    s.(ufoOrbitAngle := angle, ufo := p, uniforms := s.uniforms[SPOT_LIGHT_POSITION := Vec3Uniform(p)])
  }

  /** The key-dependent part of one frame: dispatch, then the UFO update. */
  function Frame(keys: set<Key>, s: State, earth: Vec3, orbit: real -> (real, real)): State
  {
    OrbitUfo(Dispatch(keys, s), earth, orbit)
  }

  /** The uniform table holds the UFO's position as the spot light's. */
  predicate SpotOnUfo(s: State)
  {
    SPOT_LIGHT_POSITION in s.uniforms && s.uniforms[SPOT_LIGHT_POSITION] == Vec3Uniform(s.ufo)
  }

  /**
   * The spot light sits on the UFO from the set-up before the loop onwards:
   * the UFO update re-establishes it whatever came before, and a frame keeps
   * it.
   */
  lemma SpotFollowsUfo(keys: set<Key>, s: State, earth: Vec3, orbit: real -> (real, real))
    ensures SpotOnUfo(OrbitUfo(s, earth, orbit))
    ensures SpotOnUfo(s) ==> SpotOnUfo(Dispatch(keys, s))
  {
    DispatchEffect(keys, s);
    DispatchUniforms(keys, s);
  }

  /**
   * While the spot light sits on the UFO, the arrow keys do nothing but
   * change the two offsets: the dispatch equals the dispatch without them,
   * with the offsets moved by their chains.
   */
  lemma ArrowKeysOnlyOffsets(keys: set<Key>, s: State)
    requires SpotOnUfo(s)
    ensures Dispatch(keys, s) ==
      Dispatch(keys - {Up, Down, Right, Left}, s).(ufoZOffset := s.ufoZOffset + UfoZDelta(keys),
                                                    ufoXOffset := s.ufoXOffset + UfoXDelta(keys))
  {
    var rest := keys - {Up, Down, Right, Left};
    DispatchDescribed(keys, s);
    DispatchDescribed(rest, s);
    ArrowKeysOnlyOffsetsOn(keys, s, Dispatch(keys, s), Dispatch(rest, s));
  }

  /** What DispatchEffect and DispatchUniforms say of a dispatch result `r`. */
  ghost predicate Described(keys: set<Key>, s: State, r: State)
  {
    EffectOn(keys, s, r) && UniformsOn(keys, s, r)
  }

  lemma DispatchDescribed(keys: set<Key>, s: State)
    ensures Described(keys, s, Dispatch(keys, s))
  {
    DispatchEffect(keys, s);
    DispatchUniforms(keys, s);
  }

  lemma ArrowKeysOnlyOffsetsOn(keys: set<Key>, s: State, r: State, r': State)
    requires SpotOnUfo(s)
    requires Described(keys, s, r) && Described(keys - {Up, Down, Right, Left}, s, r')
    ensures r == r'.(ufoZOffset := s.ufoZOffset + UfoZDelta(keys), ufoXOffset := s.ufoXOffset + UfoXDelta(keys))
  {
    var rest := keys - {Up, Down, Right, Left};
    assert SunKeyHeld(keys) == SunKeyHeld(rest) && SunDelta(keys) == SunDelta(rest);
    forall n ensures EqualAt(r.uniforms, r'.uniforms, n) {
      if n == SPOT_LIGHT_POSITION {
        assert !ArrowKeyHeld(rest);
      } else if n != POINT_LIGHT_POSITION {
        assert EqualAt(r.uniforms, s.uniforms, n) && EqualAt(r'.uniforms, s.uniforms, n);
      }
    }
    SameEverywhere(r.uniforms, r'.uniforms);
  }

  lemma SameEverywhere(m: map<string, Uniform>, m': map<string, Uniform>)
    requires forall n :: EqualAt(m, m', n)
    ensures m == m'
  {
    assert m.Keys == m'.Keys by {
      forall n | n in m ensures n in m' { assert EqualAt(m, m', n); }
      forall n | n in m' ensures n in m { assert EqualAt(m, m', n); }
    }
    forall n | n in m ensures m[n] == m'[n] { assert EqualAt(m, m', n); }
  }

  /**
   * For a given earth position, neither the arrow keys nor the offsets can
   * steer the UFO: after a frame its position and the spot light depend only
   * on the earth's position and the orbit angle, not on the offsets or where
   * the UFO was. (In the program the earth's position comes from the physics
   * step, which reads the sun that a/d/w/s move; here it is a parameter.)
   */
  lemma UfoIgnoresOffsets(keys: set<Key>, keys': set<Key>, s: State, s': State,
                          earth: Vec3, orbit: real -> (real, real))
    requires s.ufoOrbitAngle == s'.ufoOrbitAngle
    ensures Frame(keys, s, earth, orbit).ufo == Frame(keys', s', earth, orbit).ufo
    ensures Frame(keys, s, earth, orbit).uniforms[SPOT_LIGHT_POSITION] ==
            Frame(keys', s', earth, orbit).uniforms[SPOT_LIGHT_POSITION]
    ensures Frame(keys, s, earth, orbit).ufo ==
            Vec3(earth.x + orbit(s.ufoOrbitAngle + 0.1).0, 0.25, earth.z + orbit(s.ufoOrbitAngle + 0.1).1)
  {
    DispatchEffect(keys, s);
    DispatchEffect(keys', s');
  }

  /**
   * The held-key dispatch as the loop runs it: the camera rotation and the
   * UFO offsets are the loop's locals, the sun and the renderer are changed
   * in place. Each if/elif chain is one call.
   */
  method DispatchKeys(keys: set<Key>, sun: SceneObject, ufo: SceneObject, renderer: Renderer,
                      cameraRotation: real, ufoXOffset: real, ufoZOffset: real, ufoOrbitAngle: real)
    returns (camera: real, ufoX: real, ufoZ: real)
    requires sun != ufo
    modifies sun, renderer
    ensures State(camera, ufoX, ufoZ, ufoOrbitAngle, sun.position, ufo.position, renderer.uniforms) ==
      Dispatch(keys, State(cameraRotation, ufoXOffset, ufoZOffset, ufoOrbitAngle,
                           old(sun.position), old(ufo.position), old(renderer.uniforms)))
    ensures sun.rotation == old(sun.rotation)
  {
    DispatchSteps(keys, State(cameraRotation, ufoXOffset, ufoZOffset, ufoOrbitAngle,
                              sun.position, ufo.position, renderer.uniforms));
    ufoZ := UfoZKeys(keys, ufo, renderer, ufoZOffset);
    ufoX := UfoXKeys(keys, ufo, renderer, ufoXOffset);
    SunXKeys(keys, sun, renderer);
    SunZKeys(keys, sun, renderer);
    camera := CameraKeys(keys, cameraRotation);
  }

  /** `if K_UP ... elif K_DOWN ...` on the UFO's z offset. */
  method UfoZKeys(keys: set<Key>, ufo: SceneObject, renderer: Renderer, ufoZOffset: real) returns (ufoZ: real)
    modifies renderer
    ensures ufoZ == ufoZOffset + UfoZDelta(keys)
    ensures renderer.uniforms == if Up in keys || Down in keys
      then old(renderer.uniforms)[SPOT_LIGHT_POSITION := Vec3Uniform(ufo.position)]
      else old(renderer.uniforms)
  {
    ufoZ := ufoZOffset;
    if Up in keys {
      ufoZ := ufoZ - 0.01;
      renderer.SetUniform(SPOT_LIGHT_POSITION, Vec3Uniform(ufo.position));
    } else if Down in keys {
      ufoZ := ufoZ + 0.01;
      renderer.SetUniform(SPOT_LIGHT_POSITION, Vec3Uniform(ufo.position));
    }
  }

  /** `if K_RIGHT ... elif K_LEFT ...` on the UFO's x offset. */
  method UfoXKeys(keys: set<Key>, ufo: SceneObject, renderer: Renderer, ufoXOffset: real) returns (ufoX: real)
    modifies renderer
    ensures ufoX == ufoXOffset + UfoXDelta(keys)
    ensures renderer.uniforms == if Right in keys || Left in keys
      then old(renderer.uniforms)[SPOT_LIGHT_POSITION := Vec3Uniform(ufo.position)]
      else old(renderer.uniforms)
  {
    ufoX := ufoXOffset;
    if Right in keys {
      ufoX := ufoX + 0.03;
      renderer.SetUniform(SPOT_LIGHT_POSITION, Vec3Uniform(ufo.position));
    } else if Left in keys {
      ufoX := ufoX - 0.03;
      renderer.SetUniform(SPOT_LIGHT_POSITION, Vec3Uniform(ufo.position));
    }
  }

  /** `if K_a ... elif K_d ...`: the sun along x, the point light after it. */
  method SunXKeys(keys: set<Key>, sun: SceneObject, renderer: Renderer)
    modifies sun, renderer
    ensures sun.position == old(sun.position).Plus(Vec3(SunDelta(keys).x, 0.0, 0.0))
    ensures sun.rotation == old(sun.rotation)
    ensures renderer.uniforms == if A in keys || D in keys
      then old(renderer.uniforms)[POINT_LIGHT_POSITION := Vec3Uniform(sun.position)]
      else old(renderer.uniforms)
  {
    if A in keys {
      sun.Move(Vec3(-0.01, 0.0, 0.0));
      renderer.SetUniform(POINT_LIGHT_POSITION, Vec3Uniform(sun.position));
    } else if D in keys {
      sun.Move(Vec3(0.01, 0.0, 0.0));
      renderer.SetUniform(POINT_LIGHT_POSITION, Vec3Uniform(sun.position));
    }
  }

  /** `if K_w ... elif K_s ...`: the sun along z, the point light after it. */
  method SunZKeys(keys: set<Key>, sun: SceneObject, renderer: Renderer)
    modifies sun, renderer
    ensures sun.position == old(sun.position).Plus(Vec3(0.0, 0.0, SunDelta(keys).z))
    ensures sun.rotation == old(sun.rotation)
    ensures renderer.uniforms == if W in keys || S in keys
      then old(renderer.uniforms)[POINT_LIGHT_POSITION := Vec3Uniform(sun.position)]
      else old(renderer.uniforms)
  {
    if W in keys {
      sun.Move(Vec3(0.0, 0.0, -0.01));
      renderer.SetUniform(POINT_LIGHT_POSITION, Vec3Uniform(sun.position));
    } else if S in keys {
      sun.Move(Vec3(0.0, 0.0, 0.01));
      renderer.SetUniform(POINT_LIGHT_POSITION, Vec3Uniform(sun.position));
    }
  }

  /** `if K_z ... elif K_x ... elif K_c ... elif K_v ...` on `cameraRotation`. */
  method CameraKeys(keys: set<Key>, cameraRotation: real) returns (camera: real)
    ensures camera == cameraRotation + CameraDelta(keys)
  {
    camera := cameraRotation;
    if Z in keys {
      camera := camera - 0.02;
    } else if X in keys {
      camera := camera - 0.01;
    } else if C in keys {
      camera := camera + 0.01;
    } else if V in keys {
      camera := camera + 0.02;
    }
  }

  /** The UFO update as the loop runs it, on the UFO object and the renderer. */
  method MoveUfo(ufo: SceneObject, earth: SceneObject, renderer: Renderer, s: State,
                 orbit: real -> (real, real))
    returns (ufoOrbitAngle: real)
    requires ufo != earth && s.ufo == ufo.position && s.uniforms == renderer.uniforms
    modifies ufo, renderer
    ensures s.(ufoOrbitAngle := ufoOrbitAngle, ufo := ufo.position, uniforms := renderer.uniforms) ==
      OrbitUfo(s, old(earth.position), orbit)
    ensures ufo.rotation == old(ufo.rotation)
  {
    ufoOrbitAngle := s.ufoOrbitAngle + 0.1;
    var (ufoX, ufoZ) := orbit(ufoOrbitAngle);
    ufo.SetPosition(Vec3(earth.position.x + ufoX, 0.25, earth.position.z + ufoZ));
    renderer.SetUniform(SPOT_LIGHT_POSITION, Vec3Uniform(ufo.position));
  }
}
