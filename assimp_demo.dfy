/**
 * The per-frame key dispatch of the simpler demo (assimpdemo.py), and its
 * whole main loop, which has no physics step: poll the events, dispatch on
 * the held keys, render.
 *
 * The dispatch is three if/elif chains: UP/DOWN and RIGHT/LEFT turn the
 * earth about x and y, and a single four-way chain a/d/w/s moves the light,
 * so at most one light move happens per frame.
 */
module AssimpDemo {
  import opened Wrappers
  import opened Input
  import opened Scene

  const POINT_POSITION := "pointPosition"

  /** What one branch of a chain does. */
  datatype Action = EarthTurn(delta: Vec3) | LightMove(delta: Vec3)

  const EARTH_X_CHAIN: seq<(Key, Action)> :=
    [(Up, EarthTurn(Vec3(-0.001, 0.0, 0.0))), (Down, EarthTurn(Vec3(0.001, 0.0, 0.0)))]
  const EARTH_Y_CHAIN: seq<(Key, Action)> :=
    [(Right, EarthTurn(Vec3(0.0, 0.001, 0.0))), (Left, EarthTurn(Vec3(0.0, -0.001, 0.0)))]
  const LIGHT_CHAIN: seq<(Key, Action)> :=
    [(A, LightMove(Vec3(-0.003, 0.0, 0.0))), (D, LightMove(Vec3(0.003, 0.0, 0.0))),
     (W, LightMove(Vec3(0.0, 0.0, -0.003))), (S, LightMove(Vec3(0.0, 0.0, 0.003)))]

  /** The scene state the dispatch touches: the earth's rotation, the light's position, the uniforms. */
  datatype State = State(earthRotation: Vec3, light: Vec3, uniforms: map<string, Uniform>)

  /** One branch; a light move re-sends the light's new position as `pointPosition`. */
  function Apply(s: State, a: Action): State
  {
    match a
    case EarthTurn(d) => s.(earthRotation := s.earthRotation.Plus(d))
    case LightMove(d) =>
      s.(light := s.light.Plus(d), uniforms := s.uniforms[POINT_POSITION := Vec3Uniform(s.light.Plus(d))])
  }

  /** One chain: the branch it takes, if any. */
  function RunChain(s: State, keys: set<Key>, chain: seq<(Key, Action)>): State
  {
    match Choose(keys, chain)
    case None => s
    case Some(a) => Apply(s, a)
  }

  /** The whole dispatch: the three chains, in source order. */
  function Dispatch(keys: set<Key>, s: State): State
  {
    var s1 := RunChain(s, keys, EARTH_X_CHAIN);
    var s2 := RunChain(s1, keys, EARTH_Y_CHAIN);
    RunChain(s2, keys, LIGHT_CHAIN)
  }

  function EarthDelta(keys: set<Key>): Vec3 {
    Vec3(if Up in keys then -0.001 else if Down in keys then 0.001 else 0.0,
         if Right in keys then 0.001 else if Left in keys then -0.001 else 0.0,
         0.0)
  }

  function LightDelta(keys: set<Key>): Vec3 {
    if A in keys then Vec3(-0.003, 0.0, 0.0)
    else if D in keys then Vec3(0.003, 0.0, 0.0)
    else if W in keys then Vec3(0.0, 0.0, -0.003)
    else if S in keys then Vec3(0.0, 0.0, 0.003)
    else ZERO
  }

  predicate LightKeyHeld(keys: set<Key>) { A in keys || D in keys || W in keys || S in keys }

  /** The UP/DOWN chain: UP wins; the earth turns about x. */
  lemma EarthXChain(keys: set<Key>, s: State)
    ensures RunChain(s, keys, EARTH_X_CHAIN) ==
      s.(earthRotation := s.earthRotation.Plus(Vec3(EarthDelta(keys).x, 0.0, 0.0)))
  {
    ChooseTwo(keys, Up, EarthTurn(Vec3(-0.001, 0.0, 0.0)), Down, EarthTurn(Vec3(0.001, 0.0, 0.0)));
  }

  /** The RIGHT/LEFT chain: RIGHT wins; the earth turns about y. */
  lemma EarthYChain(keys: set<Key>, s: State)
    ensures RunChain(s, keys, EARTH_Y_CHAIN) ==
      s.(earthRotation := s.earthRotation.Plus(Vec3(0.0, EarthDelta(keys).y, 0.0)))
  {
    ChooseTwo(keys, Right, EarthTurn(Vec3(0.0, 0.001, 0.0)), Left, EarthTurn(Vec3(0.0, -0.001, 0.0)));
  }

  /** The a/d/w/s chain: the first held of a, d, w, s moves the light, and `pointPosition` follows it. */
  lemma LightChain(keys: set<Key>, s: State)
    ensures RunChain(s, keys, LIGHT_CHAIN) ==
      if LightKeyHeld(keys)
      then s.(light := s.light.Plus(LightDelta(keys)),
              uniforms := s.uniforms[POINT_POSITION := Vec3Uniform(s.light.Plus(LightDelta(keys)))])
      else s
  {
    ChooseFour(keys, A, LightMove(Vec3(-0.003, 0.0, 0.0)), D, LightMove(Vec3(0.003, 0.0, 0.0)),
               W, LightMove(Vec3(0.0, 0.0, -0.003)), S, LightMove(Vec3(0.0, 0.0, 0.003)));
  }

  /**
   * What one frame's dispatch does: the earth turns by the first held key of
   * each arrow pair (UP over DOWN, RIGHT over LEFT; both pairs can apply in
   * one frame), the light moves by the first held of a, d, w, s, after any
   * light move `pointPosition` is the light's new position, and with no light
   * key held neither the light nor any uniform changes.
   */
  lemma DispatchEffect(keys: set<Key>, s: State)
    ensures var r := Dispatch(keys, s);
      && r.earthRotation == s.earthRotation.Plus(EarthDelta(keys))
      && r.light == s.light.Plus(LightDelta(keys))
      && (LightKeyHeld(keys) ==> r.uniforms == s.uniforms[POINT_POSITION := Vec3Uniform(r.light)])
      && (!LightKeyHeld(keys) ==> r.light == s.light && r.uniforms == s.uniforms)
  {
    var s1 := RunChain(s, keys, EARTH_X_CHAIN);
    var s2 := RunChain(s1, keys, EARTH_Y_CHAIN);
    EarthXChain(keys, s);
    EarthYChain(keys, s1);
    LightChain(keys, s2);
  }

  /** At most one light move per frame: the light never moves on both axes at once. */
  lemma OneLightMovePerFrame(keys: set<Key>, s: State)
    ensures var r := Dispatch(keys, s);
      r.light.y == s.light.y && (r.light.x == s.light.x || r.light.z == s.light.z)
  {
    DispatchEffect(keys, s);
  }

  /** With a and w both held only the x-move happens. */
  lemma AOverridesW(keys: set<Key>, s: State)
    requires A in keys && W in keys
    ensures Dispatch(keys, s).light == Vec3(s.light.x - 0.003, s.light.y, s.light.z)
  {
    DispatchEffect(keys, s);
  }

  /** With no key held the dispatch changes nothing. */
  lemma NoKeysNoChange(s: State)
    ensures Dispatch({}, s) == s
  {
    DispatchEffect({}, s);
  }

  /** The dispatch of every frame of a session, in order. */
  function Replay(frames: seq<set<Key>>, s: State): State
    decreases |frames|
  {
    if frames == [] then s else Dispatch(frames[|frames| - 1], Replay(frames[..|frames| - 1], s))
  }

  /** The UP/DOWN and RIGHT/LEFT chains on the earth's rotation, as the loop runs them. */
  method EarthKeys(keys: set<Key>, earth: SceneObject)
    modifies earth
    ensures earth.rotation == old(earth.rotation).Plus(Vec3(EarthDelta(keys).x, 0.0, 0.0))
                                                  .Plus(Vec3(0.0, EarthDelta(keys).y, 0.0))
    ensures earth.position == old(earth.position)
  {
    if Up in keys {
      earth.Rotate(Vec3(-0.001, 0.0, 0.0));
    } else if Down in keys {
      earth.Rotate(Vec3(0.001, 0.0, 0.0));
    }
    if Right in keys {
      earth.Rotate(Vec3(0.0, 0.001, 0.0));
    } else if Left in keys {
      earth.Rotate(Vec3(0.0, -0.001, 0.0));
    }
  }

  /** `if K_a ... elif K_d ... elif K_w ... elif K_s ...` on the light, as the loop runs it. */
  method LightKeys(keys: set<Key>, light: SceneObject, renderer: Renderer)
    modifies light, renderer
    ensures light.position == old(light.position).Plus(LightDelta(keys))
    ensures light.rotation == old(light.rotation)
    ensures renderer.uniforms == if LightKeyHeld(keys)
      then old(renderer.uniforms)[POINT_POSITION := Vec3Uniform(light.position)]
      else old(renderer.uniforms)
  {
    if A in keys {
      light.Move(Vec3(-0.003, 0.0, 0.0));
      renderer.SetUniform(POINT_POSITION, Vec3Uniform(light.position));
    } else if D in keys {
      light.Move(Vec3(0.003, 0.0, 0.0));
      renderer.SetUniform(POINT_POSITION, Vec3Uniform(light.position));
    } else if W in keys {
      light.Move(Vec3(0.0, 0.0, -0.003));
      renderer.SetUniform(POINT_POSITION, Vec3Uniform(light.position));
    } else if S in keys {
      light.Move(Vec3(0.0, 0.0, 0.003));
      renderer.SetUniform(POINT_POSITION, Vec3Uniform(light.position));
    }
  }

  /** The held-key dispatch as the loop runs it, on the earth, the light and the renderer. */
  method DispatchKeys(keys: set<Key>, earth: SceneObject, light: SceneObject, renderer: Renderer)
    requires earth != light
    modifies earth, light, renderer
    ensures State(earth.rotation, light.position, renderer.uniforms) ==
      Dispatch(keys, State(old(earth.rotation), old(light.position), old(renderer.uniforms)))
    ensures earth.position == old(earth.position) && light.rotation == old(light.rotation)
  {
    ghost var s0 := State(earth.rotation, light.position, renderer.uniforms);
    EarthKeys(keys, earth);
    LightKeys(keys, light, renderer);
    var s1 := RunChain(s0, keys, EARTH_X_CHAIN);
    EarthXChain(keys, s0);
    EarthYChain(keys, s1);
    LightChain(keys, RunChain(s1, keys, EARTH_Y_CHAIN));
  }

  /**
   * The main loop over a finite sequence of frames: each iteration polls the
   * frame's events and, unless a key-up crashed it, dispatches on the held
   * keys, also on the frame that saw the quit event.
   */
  method MainLoop(batches: seq<seq<Event>>, earth: SceneObject, light: SceneObject, renderer: Renderer)
    returns (exit: Exit)
    requires earth != light
    modifies earth, light, renderer
    ensures exit == Run(INITIAL, batches).exit
    ensures State(earth.rotation, light.position, renderer.uniforms) ==
      Replay(Run(INITIAL, batches).frames, State(old(earth.rotation), old(light.position), old(renderer.uniforms)))
    ensures earth.position == old(earth.position) && light.rotation == old(light.rotation)
  {
    ghost var s0 := State(earth.rotation, light.position, renderer.uniforms);
    ghost var frames: seq<set<Key>> := [];
    var done, keysDown := false, {};
    var i := 0;
    while !done && i < |batches|
      invariant 0 <= i <= |batches|
      invariant Run(INITIAL, batches) ==
        Session(frames + Run(InputState(done, keysDown), batches[i..]).frames,
                Run(InputState(done, keysDown), batches[i..]).exit)
      invariant State(earth.rotation, light.position, renderer.uniforms) == Replay(frames, s0)
      invariant earth.position == old(earth.position) && light.rotation == old(light.rotation)
      decreases |batches| - i
    {
      var r := PollEvents(done, keysDown, batches[i]);
      assert batches[i..][0] == batches[i] && batches[i..][1..] == batches[i + 1..];
      if r.Failure? {
        assert frames + [] == frames;
        return Crashed(r.error);
      }
      done, keysDown := r.value.done, r.value.keysDown;
      DispatchKeys(keysDown, earth, light, renderer);
      assert (frames + [keysDown])[..|frames|] == frames;
      frames := frames + [keysDown];
      i := i + 1;
    }
    assert frames + [] == frames;
    exit := if done then QuitRequested else OutOfFrames;
  }
}
