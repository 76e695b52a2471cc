/**
 * Turning an imported scene into the demo's object tree
 * (`mesh_to_object3d` and `assimp_load_object`, identical in both demos).
 *
 * The importer is not modelled: its result is given as the scene's meshes
 * and, per material, the `material["TEXTURES"]` table from texture type to
 * file names. Loading the image and building the GPU mesh are not modelled
 * either: a loaded mesh records which imported mesh it came from and which
 * texture file it would read.
 */
module Assets {
  import opened Wrappers

  /** An imported mesh: its material index and its geometry, which is opaque here. */
  datatype Mesh = Mesh(materialIndex: int, geometry: nat)

  /** A material's `"TEXTURES"` entry: texture type to file names. */
  type Textures = map<int, seq<string>>

  datatype ImportedScene = ImportedScene(meshes: seq<Mesh>, materials: seq<Textures>)

  /** `Mesh3D.load_assimp_mesh(mesh, pygame.image.load(texture_path))`. */
  datatype LoadedMesh = LoadedMesh(source: Mesh, texturePath: string)

  /** An Object3D as built here: an optional mesh and its children (`add_child` appends). */
  datatype Object3D = Object3D(mesh: Option<LoadedMesh>, children: seq<Object3D>)

  /** The exceptions the two functions can raise. */
  datatype LoadError =
    | MaterialIndexError(index: int)  // `scene.materials[mesh.material_index]` out of range
    | NoTexture                       // the explicit `raise Exception(...)`
    | NoDiffuseTextures               // `material["TEXTURES"][1]`: no such key
    | EmptyTextureList                // `textures[0]` on an empty list

  /** The texture type whose first file is used (assimp's diffuse type). */
  const DIFFUSE: int := 1

  /** Python's `s[i]`: negative indices count from the end; anything else out of range raises. */
  function PyIndex<T>(s: seq<T>, i: int): (r: Option<T>)
    ensures r.Some? <==> -|s| <= i < |s|
  {
    if 0 <= i < |s| then Some(s[i])
    else if -|s| <= i < 0 then Some(s[|s| + i])
    else None
  }

  /** The index of the last '/' of a path, if any. */
  function LastSlash(p: string): (r: Option<nat>)
    ensures r.Some? ==> r.value < |p| && p[r.value] == '/' && forall j :: r.value < j < |p| ==> p[j] != '/'
    ensures r.None? ==> forall j :: 0 <= j < |p| ==> p[j] != '/'
    decreases |p|
  {
    if p == [] then None
    else if p[|p| - 1] == '/' then Some(|p| - 1)
    else LastSlash(p[..|p| - 1])
  }

  /** Every character of the string is a '/'. */
  predicate AllSlashes(p: string)
  {
    forall j :: 0 <= j < |p| ==> p[j] == '/'
  }

  /** `head.rstrip('/')`: the string without its trailing run of '/'. */
  function StripSlashes(p: string): (r: string)
    ensures |r| <= |p| && r == p[..|r|]
    ensures forall j :: |r| <= j < |p| ==> p[j] == '/'
    ensures r == [] || r[|r| - 1] != '/'
    decreases |p|
  {
    if p != [] && p[|p| - 1] == '/' then StripSlashes(p[..|p| - 1]) else p
  }

  /**
   * POSIX `os.path.dirname`: the path up to its last '/', with the trailing
   * run of '/' removed unless nothing but '/' is left; "" without a '/'.
   */
  function DirName(p: string): (r: string)
    ensures LastSlash(p).None? ==> r == ""
    ensures LastSlash(p).Some? ==> var i := LastSlash(p).value;
      && 0 < |r| <= i + 1 && r == p[..|r|]
      && (forall j :: |r| <= j <= i ==> p[j] == '/')
      && (if AllSlashes(p[..i + 1]) then r == p[..i + 1] else r[|r| - 1] != '/')
  {
    match LastSlash(p)
    case None => ""
    case Some(i) =>
      var head := p[..i + 1];
      if AllSlashes(head) then head
      else
        StripSlashes(head)
  }

  /** `dirname` keeps a leading run of '/'. */
  lemma DirNameKeepsRoot()
    ensures DirName("/b") == "/"
    ensures DirName("//b") == "//"
  {
    LastSlashAt("/b", 0);
    LastSlashAt("//b", 1);
    assert "//b"[..2] == "//";
  }

  /** `dirname` strips a doubled '/' before the file name. */
  lemma DirNameStripsDoubled()
    ensures DirName("a//b") == "a"
  {
    var p := "a//b";
    LastSlashAt(p, 2);
    assert p[..3] == "a//";
    assert !AllSlashes(p[..3]) by { assert p[..3][0] == 'a'; }
    assert StripSlashes("a//") == StripSlashes("a/") == StripSlashes("a") == "a" by {
      assert "a//"[..2] == "a/" && "a/"[..1] == "a";
    }
  }

  /** The last '/' is at `i` when `p[i]` is one and none follows it. */
  lemma LastSlashAt(p: string, i: nat)
    requires i < |p| && p[i] == '/' && forall j :: i < j < |p| ==> p[j] != '/'
    ensures LastSlash(p) == Some(i)
  {
  }

  /**
   * POSIX `os.path.join` of two parts: an absolute second part replaces the
   * first; otherwise a '/' is put between them only when the first is not
   * empty and does not already end in one.
   */
  function Join(dir: string, name: string): (r: string)
    ensures 0 < |name| && name[0] == '/' ==> r == name
    ensures !(0 < |name| && name[0] == '/') ==>
      r == dir + name || (dir != "" && dir[|dir| - 1] != '/' && r == dir + "/" + name)
    ensures !(0 < |name| && name[0] == '/') && dir != "" ==>
      (&& |dir| + |name| <= |r|
       && r[..|dir|] == dir && r[|r| - |name|..] == name
       && '/' in r[|dir| - 1..|r| - |name|])
  {
    if 0 < |name| && name[0] == '/' then name
    else if dir == "" || dir[|dir| - 1] == '/' then
      var r := dir + name;
      assert dir != "" ==> r[|dir| - 1..|r| - |name|][0] == '/';
      r
    else
      var r := dir + "/" + name;
      assert r[|dir| - 1..|r| - |name|][1] == '/';
      r
  }

  /**
   * The texture file next to the model. Without a '/' in the model's path it
   * is the name alone, and so is an absolute name. Otherwise it is the
   * model's directory, one '/' and the name (no '/' added after a directory
   * made only of '/'); when the model's last '/' is not doubled, that is the
   * model path up to and including its last '/', followed by the name.
   */
  lemma TextureBesideModel(filename: string, name: string)
    ensures LastSlash(filename).None? ==> Join(DirName(filename), name) == name
    ensures 0 < |name| && name[0] == '/' ==> Join(DirName(filename), name) == name
    ensures LastSlash(filename).Some? && !(0 < |name| && name[0] == '/') ==>
      var d := DirName(filename);
      Join(d, name) == if AllSlashes(d) then d + name else d + "/" + name
    ensures LastSlash(filename).Some? && !(0 < |name| && name[0] == '/') &&
            (LastSlash(filename).value == 0 || filename[LastSlash(filename).value - 1] != '/') ==>
      Join(DirName(filename), name) == filename[..LastSlash(filename).value + 1] + name
  {
    if LastSlash(filename).Some? {
      DirNameShape(filename);
    }
  }

  /** A directory from `DirName` ends in '/' exactly when it is all '/'. */
  lemma DirNameShape(p: string)
    requires LastSlash(p).Some?
    ensures var i, d := LastSlash(p).value, DirName(p);
      && d != [] && (AllSlashes(d) <==> d[|d| - 1] == '/')
      && ((i == 0 || p[i - 1] != '/') ==> d + "/" == p[..i + 1] || d == p[..i + 1] == "/")
  {
    var i, d := LastSlash(p).value, DirName(p);
    if AllSlashes(p[..i + 1]) {
      assert d == p[..i + 1];
    } else {
      assert !AllSlashes(d) by { assert d[|d| - 1] != '/'; }
      if i == 0 || p[i - 1] != '/' {
        assert |d| == i;
        assert d + "/" == p[..i + 1];
      }
    }
  }

  /** The material has a non-empty list of diffuse textures. */
  predicate HasDiffuse(textures: Textures)
  {
    DIFFUSE in textures && textures[DIFFUSE] != []
  }

  /**
   * `mesh_to_object3d`'s choice of texture file. The material lookup happens
   * first, so an out-of-range index raises even when a path is given; a
   * given path is used as it is; otherwise an index above 0 whose material
   * has no textures at all falls back to material 0, and a negative index or
   * a material still without textures raises.
   */
  function ResolveTexture(mesh: Mesh, scene: ImportedScene, filename: string, texturePath: Option<string>)
    : Result<string, LoadError>
  {
    match PyIndex(scene.materials, mesh.materialIndex)
    case None => Failure(MaterialIndexError(mesh.materialIndex))
    case Some(material) =>
      if texturePath.Some? then Success(texturePath.value)
      else
        var chosen := if mesh.materialIndex > 0 && |material| == 0 then scene.materials[0] else material;
        if mesh.materialIndex < 0 || |chosen| == 0 then Failure(NoTexture)
        else if DIFFUSE !in chosen then Failure(NoDiffuseTextures)
        else if chosen[DIFFUSE] == [] then Failure(EmptyTextureList)
        else Success(Join(DirName(filename), chosen[DIFFUSE][0]))
  }

  /**
   * The texture rule as the caller sees it. A material index outside
   * Python's range fails whatever path is given; inside it a given path
   * wins. Without a path, resolution succeeds exactly when the index is not
   * negative and either its material has diffuse textures, or it is above 0,
   * its material has no textures at all and material 0 has diffuse textures;
   * the file is then the first diffuse entry of that material, next to the
   * model file.
   */
  lemma TextureRule(mesh: Mesh, scene: ImportedScene, filename: string, texturePath: Option<string>)
    ensures var i, n, r := mesh.materialIndex, |scene.materials|, ResolveTexture(mesh, scene, filename, texturePath);
      && (!(-n <= i < n) ==> r == Failure(MaterialIndexError(i)))
      && (-n <= i < n && texturePath.Some? ==> r == Success(texturePath.value))
      && (-n <= i < 0 && texturePath.None? ==> r == Failure(NoTexture))
      && (0 <= i < n && texturePath.None? ==>
            (r.Success? <==> HasDiffuse(scene.materials[i]) ||
                             (0 < i && |scene.materials[i]| == 0 && HasDiffuse(scene.materials[0]))))
      && (0 <= i < n && texturePath.None? && r.Success? ==>
            var source := if 0 < i && |scene.materials[i]| == 0 then scene.materials[0] else scene.materials[i];
            r.value == Join(DirName(filename), source[DIFFUSE][0]))
  {
  }

  /** `mesh_to_object3d`: a leaf object holding the mesh, with the resolved texture. */
  function MeshToObject3D(mesh: Mesh, scene: ImportedScene, filename: string, texturePath: Option<string>)
    : (r: Result<Object3D, LoadError>)
    ensures r.Success? <==> ResolveTexture(mesh, scene, filename, texturePath).Success?
    ensures r.Failure? ==> r.error == ResolveTexture(mesh, scene, filename, texturePath).error
    ensures r.Success? ==>
      (r.value.children == [] &&
       r.value.mesh == Some(LoadedMesh(mesh, ResolveTexture(mesh, scene, filename, texturePath).value)))
  {
    match ResolveTexture(mesh, scene, filename, texturePath)
    case Failure(e) => Failure(e)
    case Success(path) => Success(Object3D(Some(LoadedMesh(mesh, path)), []))
  }

  /** The children for a list of meshes, in order; the first mesh that fails aborts the load. */
  function LoadChildren(meshes: seq<Mesh>, scene: ImportedScene, filename: string, texturePath: Option<string>)
    : Result<seq<Object3D>, LoadError>
    decreases |meshes|
  {
    if meshes == [] then Success([])
    else
      match LoadChildren(meshes[..|meshes| - 1], scene, filename, texturePath)
      case Failure(e) => Failure(e)
      case Success(children) =>
        match MeshToObject3D(meshes[|meshes| - 1], scene, filename, texturePath)
        case Failure(e) => Failure(e)
        case Success(obj) => Success(children + [obj])
  }

  /** `assimp_load_object`: one mesh gives its object; any other count a mesh-less root with one child per mesh. */
  function LoadObject(scene: ImportedScene, filename: string, texturePath: Option<string>)
    : Result<Object3D, LoadError>
  {
    if |scene.meshes| == 1 then MeshToObject3D(scene.meshes[0], scene, filename, texturePath)
    else
      match LoadChildren(scene.meshes, scene, filename, texturePath)
      case Failure(e) => Failure(e)
      case Success(children) => Success(Object3D(None, children))
  }

  /**
   * The children correspond one to one, in order, to the meshes: loading
   * succeeds exactly when every mesh loads, and then child i is mesh i's
   * object; otherwise the error is that of the first mesh that fails.
   */
  lemma {:induction false} LoadChildrenSpec(meshes: seq<Mesh>, scene: ImportedScene, filename: string,
                                           texturePath: Option<string>)
    ensures var r := LoadChildren(meshes, scene, filename, texturePath);
      && (r.Success? <==> forall i :: 0 <= i < |meshes| ==> MeshToObject3D(meshes[i], scene, filename, texturePath).Success?)
      && (r.Success? ==>
            (|r.value| == |meshes| &&
             forall i :: 0 <= i < |meshes| ==> MeshToObject3D(meshes[i], scene, filename, texturePath) == Success(r.value[i])))
      && (r.Failure? ==>
            exists i :: (0 <= i < |meshes| &&
              MeshToObject3D(meshes[i], scene, filename, texturePath) == Failure(r.error) &&
              forall j :: 0 <= j < i ==> MeshToObject3D(meshes[j], scene, filename, texturePath).Success?))
    decreases |meshes|
  {
    if meshes != [] {
      var n := |meshes| - 1;
      var front := meshes[..n];
      LoadChildrenSpec(front, scene, filename, texturePath);
      assert forall i :: 0 <= i < n ==> front[i] == meshes[i];
      var r := LoadChildren(meshes, scene, filename, texturePath);
      if LoadChildren(front, scene, filename, texturePath).Failure? {
        var i :| 0 <= i < n && MeshToObject3D(front[i], scene, filename, texturePath) == Failure(r.error) &&
          forall j :: 0 <= j < i ==> MeshToObject3D(front[j], scene, filename, texturePath).Success?;
        assert MeshToObject3D(meshes[i], scene, filename, texturePath) == Failure(r.error);
      } else if r.Failure? {
        assert MeshToObject3D(meshes[n], scene, filename, texturePath) == Failure(r.error);
      }
    }
  }

  /**
   * The grouping rule: a scene of exactly one mesh gives that mesh's object
   * with no wrapper; any other count, zero included, gives a root without a
   * mesh whose children are the meshes' leaf objects, one per mesh, in scene
   * order; and the load fails exactly when some mesh's texture cannot be
   * resolved.
   */
  lemma LoadObjectShape(scene: ImportedScene, filename: string, texturePath: Option<string>)
    ensures var r := LoadObject(scene, filename, texturePath);
      && (r.Success? <==> forall i :: 0 <= i < |scene.meshes| ==>
            ResolveTexture(scene.meshes[i], scene, filename, texturePath).Success?)
      && (r.Success? && |scene.meshes| == 1 ==>
            r.value == Object3D(Some(LoadedMesh(scene.meshes[0],
                                 ResolveTexture(scene.meshes[0], scene, filename, texturePath).value)), []))
      && (r.Success? && |scene.meshes| != 1 ==>
            r.value.mesh == None && |r.value.children| == |scene.meshes| &&
            forall i :: 0 <= i < |scene.meshes| ==>
              r.value.children[i] == Object3D(Some(LoadedMesh(scene.meshes[i],
                ResolveTexture(scene.meshes[i], scene, filename, texturePath).value)), []))
  {
    LoadChildrenSpec(scene.meshes, scene, filename, texturePath);
  }

  /** A prefix that fails makes the whole list fail with the same error. */
  lemma {:induction false} PrefixFailure(meshes: seq<Mesh>, k: nat, scene: ImportedScene, filename: string,
                                        texturePath: Option<string>)
    requires k <= |meshes| && LoadChildren(meshes[..k], scene, filename, texturePath).Failure?
    ensures LoadChildren(meshes, scene, filename, texturePath) == LoadChildren(meshes[..k], scene, filename, texturePath)
    decreases |meshes| - k
  {
    if k < |meshes| {
      assert meshes[..k + 1][..k] == meshes[..k];
      PrefixFailure(meshes, k + 1, scene, filename, texturePath);
    } else {
      assert meshes[..k] == meshes;
    }
  }

  /** `assimp_load_object` as written: the root is built by `add_child` in a loop over the meshes. */
  method AssimpLoadObject(scene: ImportedScene, filename: string, texturePath: Option<string>)
    returns (r: Result<Object3D, LoadError>)
    ensures r == LoadObject(scene, filename, texturePath)
  {
    if |scene.meshes| == 1 {
      return MeshToObject3D(scene.meshes[0], scene, filename, texturePath);
    }
    var root := Object3D(None, []);
    for i := 0 to |scene.meshes|
      invariant root.mesh == None
      invariant LoadChildren(scene.meshes[..i], scene, filename, texturePath) == Success(root.children)
    {
      assert scene.meshes[..i + 1][..i] == scene.meshes[..i];
      var obj := MeshToObject3D(scene.meshes[i], scene, filename, texturePath);
      if obj.Failure? {
        PrefixFailure(scene.meshes, i + 1, scene, filename, texturePath);
        return Failure(obj.error);
      }
      root := root.(children := root.children + [obj.value]);
    }
    assert scene.meshes[..|scene.meshes|] == scene.meshes;
    return Success(root);
  }
}
