/**
 * What the two demos' key dispatch acts on: 3D vectors, the objects it
 * moves or turns, the renderer's uniform table, and if/elif chains over held
 * keys stated as priority lists.
 *
 * `Object3D_animated` and `RenderProgram` are not part of this model; the
 * behaviour assumed here is that `move` and `rotate` add their argument
 * component-wise, `set_position` overwrites, and `set_uniform` records the
 * value under its name.
 */
module Scene {
  import opened Wrappers
  import opened Input

  /** A glm.vec3, with exact real components in place of floats. */
  datatype Vec3 = Vec3(x: real, y: real, z: real) {
    function Plus(d: Vec3): Vec3 {
      Vec3(x + d.x, y + d.y, z + d.z)
    }
  }

  const ZERO: Vec3 := Vec3(0.0, 0.0, 0.0)

  /**
   * A uniform's value; its glm type tag is implied by the constructor. The
   * loops only send vectors; the float constants set before the loop (the
   * lights' attenuation and cut-off) may sit in the same table, and the
   * dispatch lemmas say that they are kept.
   */
  datatype Uniform = Vec3Uniform(v: Vec3) | FloatUniform(f: real)

  /**
   * The branch an if/elif chain takes: the index of the first entry whose
   * key is held, or None when no key of the chain is held.
   */
  function FirstHeld<T>(keys: set<Key>, chain: seq<(Key, T)>): (r: Option<nat>)
    ensures r.Some? ==> r.value < |chain| && chain[r.value].0 in keys
    ensures r.Some? ==> forall j :: 0 <= j < r.value ==> chain[j].0 !in keys
    ensures r.None? <==> forall j :: 0 <= j < |chain| ==> chain[j].0 !in keys
  {
    if chain == [] then None
    else if chain[0].0 in keys then Some(0)
    else
      match FirstHeld(keys, chain[1..])
      case None => None
      case Some(i) => Some(i + 1)
  }

  /** The action of the branch an if/elif chain takes, if any. */
  function Choose<T>(keys: set<Key>, chain: seq<(Key, T)>): Option<T>
  {
    match FirstHeld(keys, chain)
    case None => None
    case Some(i) => Some(chain[i].1)
  }

  /** An if/elif chain takes at most one branch, and the earliest held key wins. */
  lemma ChooseTwo<T>(keys: set<Key>, k1: Key, a1: T, k2: Key, a2: T)
    ensures Choose(keys, [(k1, a1), (k2, a2)]) ==
      if k1 in keys then Some(a1) else if k2 in keys then Some(a2) else None
  {
    var chain := [(k1, a1), (k2, a2)];
    var r := FirstHeld(keys, chain);
    assert chain[0].0 == k1 && chain[1].0 == k2;
    if r.Some? {
      assert r.value == 0 || r.value == 1;
    }
  }

  /** The same for a four-way chain. */
  lemma ChooseFour<T>(keys: set<Key>, k1: Key, a1: T, k2: Key, a2: T, k3: Key, a3: T, k4: Key, a4: T)
    ensures Choose(keys, [(k1, a1), (k2, a2), (k3, a3), (k4, a4)]) ==
      if k1 in keys then Some(a1) else if k2 in keys then Some(a2)
      else if k3 in keys then Some(a3) else if k4 in keys then Some(a4) else None
  {
    var chain := [(k1, a1), (k2, a2), (k3, a3), (k4, a4)];
    var r := FirstHeld(keys, chain);
    assert chain[0].0 == k1 && chain[1].0 == k2 && chain[2].0 == k3 && chain[3].0 == k4;
    if r.Some? {
      assert 0 <= r.value < 4;
    }
  }

  /** The transform state of an Object3D_animated that the loop changes. */
  class SceneObject {
    var position: Vec3
    var rotation: Vec3

    constructor (position: Vec3)
      ensures this.position == position && rotation == ZERO
    {
      this.position := position;
      rotation := ZERO;
    }

    /** `move(delta)`: position += delta. */
    method Move(delta: Vec3)
      modifies this
      ensures position == old(position).Plus(delta) && rotation == old(rotation)
    {
      position := position.Plus(delta);
    }

    /** `rotate(delta)`: rotation += delta, component-wise, not normalised. */
    method Rotate(delta: Vec3)
      modifies this
      ensures rotation == old(rotation).Plus(delta) && position == old(position)
    {
      rotation := rotation.Plus(delta);
    }

    /** `set_position(p)`: position := p. */
    method SetPosition(p: Vec3)
      modifies this
      ensures position == p && rotation == old(rotation)
    {
      position := p;
    }
  }

  /** The part of a RenderProgram that the loop changes: its uniform table. */
  class Renderer {
    var uniforms: map<string, Uniform>

    constructor ()
      ensures uniforms == map[]
    {
      uniforms := map[];
    }

    /** `set_uniform(name, value, type)`: the table maps `name` to `value`, other names are kept. */
    method SetUniform(name: string, value: Uniform)
      modifies this
      ensures uniforms == old(uniforms)[name := value]
    {
      uniforms := uniforms[name := value];
    }
  }
}
