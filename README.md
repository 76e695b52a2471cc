# Key handling and asset grouping of the BigGraphicsProject demos

Two pygame/OpenGL demos, `projectdemo.py` (a solar system with a sun, four
planets and an orbiting UFO) and `assimpdemo.py` (the same bodies standing
still, with a movable light). This model covers the parts of them that are
decisions rather than rendering or floating-point physics:

- **The input fold and the main loop's control** (module `Input`, file
  `input.dfy`). Each frame drains the pending events into the `done` flag and
  the `keys_down` set: a key-down adds its key, a key-up removes it with
  `set.remove` (a KeyError when the key is not held, which ends the program),
  a quit event sets `done` without stopping the batch, and every other event
  is ignored. `while not done` then runs one more dispatch on the frame that
  saw the quit event and stops at the next check. The code is the same in
  both demos.
- **The held-key dispatch** (modules `Scene`, `ProjectDemo`, `AssimpDemo`).
  Every if/elif chain is stated as a priority list of (key, action) pairs.
  `Scene.FirstHeld` says which branch a chain takes. Each demo's dispatch is
  the composition of its chains. Beside it is the imperative code, one method
  per chain, except assimpdemo's two earth chains, which share `EarthKeys`.
  Each method changes a `SceneObject` (position, rotation) or a `Renderer`
  (uniform table) in place, returns the new value of a loop local (the camera
  rotation, a UFO offset), or both, and each is proved equal to its chain
  table. In
  projectdemo, a/d and w/s are two independent chains on the sun, so both
  axes can move in one frame. In assimpdemo, a/d/w/s is one four-way chain on
  the light, so at most one light move happens per frame. For projectdemo the
  model also includes the UFO update later in the frame (lines 298-302). The
  arrow branches change the offsets `ufo_x_offset` and `ufo_z_offset`, which
  nothing reads, and re-send the UFO's position as the spot light's. Since the
  spot light already sits on the UFO (set before the loop, restored by every
  UFO update), the arrow keys change nothing but the offsets, and they cannot
  move the UFO. For
  assimpdemo, which has no physics step, `AssimpDemo.MainLoop` models the
  whole loop: poll, then dispatch.
- **Asset grouping** (module `Assets`). This covers `mesh_to_object3d`'s
  choice of texture file and `assimp_load_object`'s choice between a bare
  object and a mesh-less root with one child per mesh. The two demos define
  both functions with identical text. Rows below cite `projectdemo.py`, and
  the same rules hold at `assimpdemo.py:23-56`.

Assumed behaviour of modules that are not part of this model.
`Object3D_animated`, `Mesh3D_normals` and `RenderProgram` are not part of
this model. The model assumes that `move` and `rotate` add component-wise,
`set_position` overwrites, `add_child` appends, and `set_uniform` stores the
value under its name. Key codes are a datatype: the twelve keys the demos
test, plus `Other(code)` for all the rest.

Two behaviours of the code that a reader might not expect, both modelled as
written:

- The quit event does not stop the frame. The rest of the batch is folded,
  the dispatch still runs, and only the next loop test exits.
- `add_child` is modelled as a plain append. Any check against re-parenting
  would be in `Object3D_animated`, which is not part of this model.

## Model

| member | source | states |
|---|---|---|
| `Input.Fold` | projectdemo.py:219-225 | reference definition of one frame's event loop: the events folded in order by `Step`, stopping at the first KeyError |
| `Input.Step` | projectdemo.py:219-225 | an event fails exactly when it is a key-up of a key that is not held, and the failure names that key |
| `Input.FoldSucceedsIff` | projectdemo.py:219-225 | a batch folds without KeyError exactly when every key-up in it releases a key that is held at that point (by the reference `HeldAfter`) |
| `Input.FoldKeys` | projectdemo.py:222-225 | after a batch, a key is held exactly when the last event mentioning it is a key-down, or no event mentions it and it was held before; keys not mentioned are untouched |
| `Input.FoldDone` | projectdemo.py:220-221 | after a batch, `done` holds exactly when it held before or the batch contains a quit event |
| `Input.FoldAppend` | projectdemo.py:219 | folding two batches in turn equals folding their concatenation; a failure in the first is kept |
| `Input.FoldWhenDone` | projectdemo.py:218-225 | the `done` flag a batch starts with does not affect its held keys or whether it fails |
| `Input.QuitKeepsFolding` | projectdemo.py:219-225 | a quit event in the middle of a batch does not abort it: the result equals folding the batch without the quit event, with `done` set |
| `Input.HeldSetSemantics` | assimpdemo.py:182-185 | pressing A, pressing D, releasing A leaves only D newly held; pressing A twice and releasing once leaves A released (set, not counter) |
| `Input.PollEvents` | assimpdemo.py:179-185 | the `for event in pygame.event.get()` loop over the local `done` and `keys_down` computes exactly `Fold`, including the KeyError |
| `Input.QuitFrameIsLast` | projectdemo.py:218-266 | the frame whose batch has a quit event still dispatches, with the held set of the whole batch, and no later frame runs |
| `Input.RunShape` | assimpdemo.py:178-185 | one dispatch per batch consumed; the loop quits exactly when the last consumed batch had a quit event and no earlier one did; a crash happens in the batch right after the last frame, whose fold from the last frame's held set fails with the crash key; running out of frames means all batches ran |
| `Input.Run` | projectdemo.py:218-225 | reference definition of `while not done`: fold each batch, record its held set as a frame, stop after a quit batch, on a KeyError, or when the batches run out |
| `Input.RunLoop` | projectdemo.py:207-225 | `done = False`, `keys_down = set()`, `while not done` over the frames' batches computes exactly the frames and exit of `Run` |
| `Scene.FirstHeld` | projectdemo.py:259-266 | an if/elif chain takes the first branch whose key is held, none before it is held, and no branch when no key of the chain is held |
| `Scene.ChooseTwo` | projectdemo.py:227-236 | a two-branch chain picks the first key's action if held, else the second's if held, else nothing |
| `Scene.ChooseFour` | assimpdemo.py:195-206 | a four-branch chain picks the action of the first held key in order, else nothing |
| `Scene.SceneObject.Move` | projectdemo.py:248 | `move(delta)` adds delta to the position and leaves the rotation (assumed behaviour of `Object3D_animated`) |
| `Scene.SceneObject.Rotate` | assimpdemo.py:188 | `rotate(delta)` adds delta to the rotation and leaves the position (assumed) |
| `Scene.SceneObject.SetPosition` | projectdemo.py:301 | `set_position(p)` overwrites the position (assumed) |
| `Scene.Renderer.SetUniform` | projectdemo.py:249 | `set_uniform(name, value)` maps name to value and keeps every other entry (assumed) |
| `ProjectDemo.Dispatch` | projectdemo.py:227-266 | reference definition of the frame's dispatch: the five chain tables applied in source order |
| `ProjectDemo.UfoZChain` | projectdemo.py:227-236 | UP wins over DOWN: z offset -0.01 / +0.01 and the spot light re-set to the UFO's (unchanged) position; neither held: nothing |
| `ProjectDemo.UfoXChain` | projectdemo.py:237-246 | RIGHT wins over LEFT: x offset +0.03 / -0.03 and the spot light re-set to the UFO's position; neither held: nothing |
| `ProjectDemo.SunXChain` | projectdemo.py:247-252 | a wins over d: the sun moves -0.01 / +0.01 on x and `pointLight.position` becomes its new position; neither held: nothing |
| `ProjectDemo.SunZChain` | projectdemo.py:253-258 | w wins over s: the sun moves -0.01 / +0.01 on z and `pointLight.position` becomes its new position; neither held: nothing |
| `ProjectDemo.CameraChain` | projectdemo.py:259-266 | the first held of z, x, c, v changes `cameraRotation` by -0.02, -0.01, +0.01, +0.02; none held: unchanged |
| `ProjectDemo.DispatchSteps` | projectdemo.py:227-266 | the frame's dispatch is the five chains applied one after the other in source order |
| `ProjectDemo.DispatchEffect` | projectdemo.py:227-266 | per frame, the offsets, sun and camera rotation change by the first held key of each chain; both sun axes can move in one frame; the UFO position and orbit angle stay |
| `ProjectDemo.DispatchUniforms` | projectdemo.py:227-258 | after any sun key `pointLight.position` is the sun's new position, after any arrow key `spotLight.position` is the UFO's position; without such keys those entries are unchanged, and no other uniform ever changes |
| `ProjectDemo.NoKeysNoChange` | projectdemo.py:227-266 | with no key held the dispatch changes nothing |
| `ProjectDemo.SunMovesOnBothAxes` | projectdemo.py:247-258 | with a and w held the sun moves on both x and z in the same frame |
| `ProjectDemo.OrbitUfo` | projectdemo.py:298-302 | reference definition of the UFO update: angle + .1, the UFO at the earth's x and z plus the orbit offset at height .25, spot light set to it |
| `ProjectDemo.Frame` | projectdemo.py:227-302 | reference definition of the key-dependent part of a frame: the dispatch, then the UFO update |
| `ProjectDemo.UfoIgnoresOffsets` | projectdemo.py:298-302 | for a given earth position, after a frame the UFO's position and spot light are the earth's x and z plus the orbit offset at angle + .1, height .25, whatever the arrow keys, the offsets or the UFO's old position were |
| `ProjectDemo.SpotFollowsUfo` | projectdemo.py:198-302 | the UFO update always leaves the spot light on the UFO, and a dispatch keeps it there |
| `ProjectDemo.ArrowKeysOnlyOffsets` | projectdemo.py:227-246 | while the spot light sits on the UFO, a dispatch with arrow keys held equals the dispatch without them, with only the two offsets moved by their chains |
| `ProjectDemo.DispatchKeys` | projectdemo.py:227-266 | the loop's if/elif code, on the loop's locals and on the sun and renderer in place, computes exactly `Dispatch`; the sun's rotation stays |
| `ProjectDemo.UfoZKeys` | projectdemo.py:227-236 | the UP/DOWN code: z offset plus the chain's delta, spot light updated exactly when UP or DOWN is held |
| `ProjectDemo.UfoXKeys` | projectdemo.py:237-246 | the RIGHT/LEFT code: x offset plus the chain's delta, spot light updated exactly when RIGHT or LEFT is held |
| `ProjectDemo.SunXKeys` | projectdemo.py:247-252 | the a/d code: sun x moved by the chain's delta, point light set to the new position exactly when a or d is held |
| `ProjectDemo.SunZKeys` | projectdemo.py:253-258 | the w/s code: sun z moved by the chain's delta, point light set to the new position exactly when w or s is held |
| `ProjectDemo.CameraKeys` | projectdemo.py:259-266 | the z/x/c/v code returns `cameraRotation` plus the delta of the first held key |
| `ProjectDemo.MoveUfo` | projectdemo.py:298-302 | the orbit angle grows by .1, the UFO is placed at the earth's x and z plus the orbit offset at height .25, and the spot light follows; equals `OrbitUfo` |
| `AssimpDemo.Dispatch` | assimpdemo.py:187-206 | reference definition of the frame's dispatch: the two earth chains, then the light chain |
| `AssimpDemo.Replay` | assimpdemo.py:178-206 | reference definition of a session's effect: the dispatch of every frame, in order |
| `AssimpDemo.EarthXChain` | assimpdemo.py:187-190 | UP wins over DOWN: the earth turns -0.001 / +0.001 about x; neither held: nothing |
| `AssimpDemo.EarthYChain` | assimpdemo.py:191-194 | RIGHT wins over LEFT: the earth turns +0.001 / -0.001 about y; neither held: nothing |
| `AssimpDemo.LightChain` | assimpdemo.py:195-206 | the first held of a, d, w, s moves the light by -0.003 x, +0.003 x, -0.003 z, +0.003 z and `pointPosition` becomes its new position; none held: nothing |
| `AssimpDemo.DispatchEffect` | assimpdemo.py:187-206 | per frame the earth turns by both arrow chains independently, the light moves by the single four-way chain, `pointPosition` is the light's new position after any light move, and with no light key neither the light nor any uniform changes |
| `AssimpDemo.OneLightMovePerFrame` | assimpdemo.py:195-206 | the light never moves on two axes in one frame |
| `AssimpDemo.AOverridesW` | assimpdemo.py:195-202 | with a and w both held only the x move happens |
| `AssimpDemo.NoKeysNoChange` | assimpdemo.py:187-206 | with no key held the dispatch changes neither the earth's rotation, the light, nor the uniforms |
| `AssimpDemo.EarthKeys` | assimpdemo.py:187-194 | the arrow-key code turns the earth by the x chain's then the y chain's delta and leaves its position |
| `AssimpDemo.LightKeys` | assimpdemo.py:195-206 | the a/d/w/s code moves the light by the chain's delta and sets `pointPosition` exactly when a light key is held |
| `AssimpDemo.DispatchKeys` | assimpdemo.py:187-206 | the dispatch code, on the earth, light and renderer in place, computes exactly `Dispatch`; the earth's position and the light's rotation stay |
| `AssimpDemo.MainLoop` | assimpdemo.py:170-216 | the whole loop ends as `Run` says, and the scene state is the dispatch of every frame `Run` lists, in order, from the initial state, the quit frame included; the earth's position and the light's rotation stay |
| `Assets.PyIndex` | projectdemo.py:24 | Python indexing succeeds exactly for indices in `[-len, len)` |
| `Assets.LastSlash` | projectdemo.py:35 | the index of the last '/' of a path, or none when the path has none |
| `Assets.StripSlashes` | projectdemo.py:35 | `rstrip('/')`: the longest prefix not ending in '/', with only '/' after it |
| `Assets.DirName` | projectdemo.py:35 | POSIX `os.path.dirname`: "" without a '/'; otherwise a non-empty prefix up to the last '/', where the removed tail is all '/', and which is the whole head when that is all '/' and otherwise does not end in '/' |
| `Assets.DirNameShape` | projectdemo.py:35 | for a path with a '/', the directory is non-empty and ends in '/' exactly when it is all '/'; with an undoubled last '/', it plus '/' is the path up to that '/' |
| `Assets.DirNameKeepsRoot` | projectdemo.py:35 | `dirname("/b")` is "/" and `dirname("//b")` is "//" |
| `Assets.DirNameStripsDoubled` | projectdemo.py:35 | `dirname("a//b")` is "a" |
| `Assets.Join` | projectdemo.py:36 | POSIX `os.path.join`: an absolute name replaces the directory; otherwise the directory followed by the name, with a '/' between them added only when the directory is non-empty and does not end in '/'; with a non-empty directory there is a '/' where they meet |
| `Assets.TextureBesideModel` | projectdemo.py:34-36 | the texture path is the name alone when the model path has no '/' or the name is absolute; otherwise the model's directory, a '/' (none after an all-'/' directory) and the name; when the model's last '/' is not doubled, that is the model path up to and including its last '/' followed by the name |
| `Assets.TextureRule` | projectdemo.py:23-36 | an out-of-range material index fails even with a given path; a given path is used as is; without one a negative index fails, and otherwise resolution succeeds exactly when material i has diffuse textures, or i > 0, material i has no textures at all and material 0 has diffuse textures; the result is that material's first diffuse entry next to the model |
| `Assets.ResolveTexture` | projectdemo.py:23-36 | reference definition of `mesh_to_object3d`'s texture choice and its exceptions, in source order |
| `Assets.MeshToObject3D` | projectdemo.py:23-44 | succeeds exactly when the texture resolves, with its error otherwise, and gives a leaf object holding the mesh and the resolved texture |
| `Assets.LoadChildren` | projectdemo.py:52-55 | reference definition of the loop over the meshes: each converted in order, the first exception propagated |
| `Assets.LoadObject` | projectdemo.py:46-56 | reference definition of `assimp_load_object` on the imported scene |
| `Assets.LoadChildrenSpec` | projectdemo.py:52-56 | the children correspond one to one and in order to the meshes; loading fails exactly when some mesh fails, with the error of the first one that does |
| `Assets.PrefixFailure` | projectdemo.py:53-55 | once a mesh fails, the load fails with that error whatever follows |
| `Assets.LoadObjectShape` | projectdemo.py:46-56 | one mesh gives that mesh's bare object; any other count, zero included, gives a mesh-less root whose children are the meshes' leaf objects in scene order; failure exactly when some texture does not resolve |
| `Assets.AssimpLoadObject` | projectdemo.py:46-56 | the `add_child` loop computes exactly `LoadObject` |

## Left out

- The gravitational attraction and Euler integration of the planets (projectdemo.py:94-104 and 274-310). They are floating-point numerics with `sqrt`, `atan2`, `cos` and `sin`. So projectdemo's main loop is modelled in pieces (`RunLoop`, `DispatchKeys`, `MoveUfo`), not as one loop. The earth position that `MoveUfo` reads is whatever the physics step left there.
- The camera orbit (`cameraLocationX`/`cameraLocationZ`, `glm.lookAt`) and `glm.perspective`. These are float trigonometry and library matrix calls. Only the `cameraRotation` accumulator is modelled.
- The UFO's orbit offsets `.05 * cos(angle)` and `.05 * sin(angle)`. They are a function parameter `orbit` of `OrbitUfo` and `MoveUfo`.
- Floating point in general. Deltas are exact `real`s, so rounding of repeated `.01` steps is not modelled.
- Rendering and GL state: `render`, `use_program`, `glClear`, `glEnable`, `display.flip`, `clock.tick`, frame counters, `time.perf_counter`. Also the uniforms set once before the loop. These are I/O and timing.
- Importing the model file (`assimp_py.ImportFile`), loading the image (`pygame.image.load`), building the mesh (`Mesh3D.load_assimp_mesh`), and `load_obj`, `load_shader_source`, `get_program`. These are file I/O and foreign calls. The import result is an `ImportedScene` value. Errors inside these calls are not modelled.
- `material["TEXTURES"]` is assumed present in every material, as the importer provides it.
- `Assets.DirName` and `Assets.Join` follow the POSIX definition of `os.path`; Windows paths (drive letters, backslash separators) are not modelled.
- `ProjectDemo.UfoIgnoresOffsets` takes the earth's position as a parameter. In the program it comes from the physics step, whose attraction reads the sun's position, which a/d/w/s move in the same frame; so those keys do reach the UFO, through the physics, which is not modelled.
- `Scene.Renderer.SetUniform` stores the value. If `RenderProgram` keeps a reference to the mutable `glm.vec3` it was passed, any later aliasing is not modelled.
- `set_material`, `grow` and the setup `move` calls before the loop. They run once at start-up and are not part of the per-frame logic.
- A session is modelled over a finite sequence of frame batches. The exit `OutOfFrames` only means the model stopped supplying frames.
