/** model_loader.hpp: the older copy of the model loader. Textures are
    plain records (`texture`: id, type, raw path) in one `loaded_textures`
    array that doubles as the memo. `load_texture` generates a GPU id
    before it tries to decode the file, and returns that id whatever the
    decoder did, so a texture that fails to decode is recorded and reused
    like any other; nothing here throws. */
module ModelLoader {
  import opened Wrappers
  import opened CString
  import opened Paths
  import opened Scene
  import TextureHpp
  import opened GlTrace
  import opened UniformNaming

  /** `texture_type`: `DIFFUSE = 0`, `SPECULAR = 1`. */
  datatype LoaderType = Diffuse | Specular

  /** `texture_type_string`, indexed by enumerator value. */
  const TEXTURE_TYPE_STRING: seq<string> := ["diffuse", "specular"]

  function LoaderOrdinal(t: LoaderType): (n: nat)
    ensures n < |TEXTURE_TYPE_STRING|
  {
    match t
    case Diffuse => 0
    case Specular => 1
  }

  /** The texture.hpp type with the same meaning. */
  function AsTextureType(t: LoaderType): TextureHpp.TextureType {
    match t
    case Diffuse => TextureHpp.Diffuse
    case Specular => TextureHpp.Specular
  }

  /** The loader's name table spells each type as texture.hpp's table does,
      so `draw` builds the same uniform names as model.hpp's. */
  lemma TypeStringAgrees(t: LoaderType)
    ensures TEXTURE_TYPE_STRING[LoaderOrdinal(t)] == TextureHpp.TypeName(AsTextureType(t))
    ensures AsTextureType(t) == TextureHpp.Diffuse || AsTextureType(t) == TextureHpp.Specular
  {
  }

  /** `texture`: GPU id, type, and the raw path the material stores. */
  datatype LoadedTexture = LoadedTexture(id: nat, kind: LoaderType, path: string)

  /** `loaded_textures`, with the counter the fresh `glGenTextures` ids come from. */
  datatype Loaded = Loaded(textures: seq<LoadedTexture>, nextId: nat)

  /** The raw paths of the loaded textures, in load order. */
  function PathsOf(ts: seq<LoadedTexture>): (ps: seq<string>)
    ensures |ps| == |ts| && forall j | 0 <= j < |ts| :: ps[j] == ts[j].path
  {
    seq(|ts|, j requires 0 <= j < |ts| => ts[j].path)
  }

  /** The texture the array holds for a raw path: the first one loaded from it. */
  function Cached(st: Loaded, raw: string): (r: Option<LoadedTexture>)
    ensures r.Some? <==> raw in PathsOf(st.textures)
    ensures r.Some? ==> r.value in st.textures && r.value.path == raw
  {
    match FirstIndexOf(PathsOf(st.textures), raw)
    case None => None
    case Some(j) => Some(st.textures[j])
  }

  /** `st2` is `st` with textures appended. */
  predicate Extends(st: Loaded, st2: Loaded) {
    |st.textures| <= |st2.textures| && st2.textures[..|st.textures|] == st.textures
  }

  /** What the array holds for a path it already records never changes as it grows. */
  lemma CachedStable(st: Loaded, st2: Loaded, raw: string)
    requires Extends(st, st2) && raw in PathsOf(st.textures)
    ensures Cached(st2, raw) == Cached(st, raw)
  {
    var ps, ps2 := PathsOf(st.textures), PathsOf(st2.textures);
    assert ps2 == ps + ps2[|ps|..];
    FirstIndexOfExtend(ps, ps2[|ps|..], raw);
  }

  /** One iteration of the slot loop of `load_material_textures`: a raw
      path already recorded is served from the array; otherwise a texture
      with a fresh id, the requested type and the raw path is appended. */
  function LoadSlot(st: Loaded, raw: string, texType: LoaderType): (r: (LoadedTexture, Loaded))
    ensures raw in PathsOf(st.textures) ==> Some(r.0) == Cached(st, raw) && r.1 == st
    ensures raw !in PathsOf(st.textures) ==>
      r.0 == LoadedTexture(st.nextId, texType, raw) && r.1 == Loaded(st.textures + [r.0], st.nextId + 1)
  {
    match FirstIndexOf(PathsOf(st.textures), raw)
    case Some(j) => (st.textures[j], st)
    case None =>
      var t := LoadedTexture(st.nextId, texType, raw);
      (t, Loaded(st.textures + [t], st.nextId + 1))
  }

  /** `load_material_textures(mat, type, tex_type)` over the material's
      slots of that type, in slot order: one texture per slot. */
  function LoadMaterialTextures(st: Loaded, slots: seq<string>, texType: LoaderType): (r: (seq<LoadedTexture>, Loaded))
    ensures |r.0| == |slots| && Extends(st, r.1)
    decreases |slots|
  {
    if |slots| == 0 then ([], st)
    else
      var first := LoadSlot(st, slots[0], texType);
      var rest := LoadMaterialTextures(first.1, slots[1..], texType);
      assert rest.1.textures[..|st.textures|] == rest.1.textures[..|first.1.textures|][..|st.textures|];
      ([first.0] + rest.0, rest.1)
  }

  /** Each returned texture is the one the array ends up holding for its
      slot's raw path, so it carries that path. */
  lemma {:induction false} LoadMaterialTexturesCached(st: Loaded, slots: seq<string>, texType: LoaderType)
    ensures var r := LoadMaterialTextures(st, slots, texType);
      forall k | 0 <= k < |slots| :: Cached(r.1, slots[k]) == Some(r.0[k]) && r.0[k].path == slots[k]
    decreases |slots|
  {
    if |slots| > 0 {
      var r := LoadMaterialTextures(st, slots, texType);
      var first := LoadSlot(st, slots[0], texType);
      var rest := LoadMaterialTextures(first.1, slots[1..], texType);
      LoadMaterialTexturesCached(first.1, slots[1..], texType);
      LoadSlotCached(st, slots[0], texType);
      CachedStable(first.1, rest.1, slots[0]);
      forall k | 0 <= k < |slots| ensures Cached(r.1, slots[k]) == Some(r.0[k]) && r.0[k].path == slots[k] {
        if k > 0 {
          assert slots[k] == slots[1..][k - 1];
        }
      }
    }
  }

  /** After one slot the array records the texture it returned. */
  lemma LoadSlotCached(st: Loaded, raw: string, texType: LoaderType)
    ensures var r := LoadSlot(st, raw, texType);
      Cached(r.1, raw) == Some(r.0) && raw in PathsOf(r.1.textures)
  {
    var r := LoadSlot(st, raw, texType);
    if raw !in PathsOf(st.textures) {
      assert PathsOf(r.1.textures) == PathsOf(st.textures) + [raw];
      FirstIndexOfExtend(PathsOf(st.textures), [raw], raw);
    }
  }

  /** A slot whose raw path is already recorded gets the recorded texture,
      whatever type is requested now. */
  lemma LoadMaterialTexturesHits(st: Loaded, slots: seq<string>, texType: LoaderType)
    ensures var r := LoadMaterialTextures(st, slots, texType);
      forall k | 0 <= k < |slots| :: slots[k] in PathsOf(st.textures) ==> Cached(st, slots[k]) == Some(r.0[k])
  {
    var r := LoadMaterialTextures(st, slots, texType);
    LoadMaterialTexturesCached(st, slots, texType);
    forall k | 0 <= k < |slots| && slots[k] in PathsOf(st.textures)
      ensures Cached(st, slots[k]) == Some(r.0[k])
    {
      CachedStable(st, r.1, slots[k]);
    }
  }

  /** The textures a call appends are fresh loads: of the requested type,
      from a slot's raw path the array did not record, with consecutive
      fresh ids. */
  lemma {:induction false} LoadMaterialTexturesFresh(st: Loaded, slots: seq<string>, texType: LoaderType)
    ensures var st2 := LoadMaterialTextures(st, slots, texType).1;
      st2.nextId == st.nextId + (|st2.textures| - |st.textures|) &&
      forall j | |st.textures| <= j < |st2.textures| ::
        st2.textures[j].kind == texType && st2.textures[j].id == st.nextId + (j - |st.textures|) &&
        st2.textures[j].path in slots && st2.textures[j].path !in PathsOf(st.textures)
    decreases |slots|
  {
    if |slots| > 0 {
      var first := LoadSlot(st, slots[0], texType);
      var st2 := LoadMaterialTextures(st, slots, texType).1;
      LoadMaterialTexturesFresh(first.1, slots[1..], texType);
      forall j | |st.textures| <= j < |st2.textures|
        ensures st2.textures[j].kind == texType && st2.textures[j].id == st.nextId + (j - |st.textures|) &&
                st2.textures[j].path in slots && st2.textures[j].path !in PathsOf(st.textures)
      {
        if j < |first.1.textures| {
          assert st2.textures[j] == st2.textures[..|first.1.textures|][j] == first.0;
        } else {
          assert st2.textures[j].path in slots[1..];
          assert PathsOf(first.1.textures)[..|st.textures|] == PathsOf(st.textures);
        }
      }
    }
  }

  /** model_loader.hpp's `Mesh`: the lists it keeps (buffer ids left out). */
  datatype Mesh = Mesh(vertices: seq<Vertex>, indices: seq<nat>, textures: seq<LoadedTexture>)

  /** `process_mesh`: vertices (texture coordinates (0, 0) without a UV
      channel), the faces' indices in order, then the diffuse maps followed
      by the specular maps of the mesh's material. */
  function ProcessMesh(materials: seq<AiMaterial>, m: ImportedMesh, st: Loaded): (r: (Mesh, Loaded))
    ensures r.0.vertices == Vertices(m) && r.0.indices == FaceIndices(m.faces)
    ensures Extends(st, r.1)
    ensures |r.0.textures| == |Slots(MaterialOf(materials, m), DiffuseMaps)| + |Slots(MaterialOf(materials, m), SpecularMaps)|
  {
    var mat := MaterialOf(materials, m);
    var diffuse := LoadMaterialTextures(st, Slots(mat, DiffuseMaps), Diffuse);
    var specular := LoadMaterialTextures(diffuse.1, Slots(mat, SpecularMaps), Specular);
    assert specular.1.textures[..|st.textures|] == specular.1.textures[..|diffuse.1.textures|][..|st.textures|];
    (Mesh(Vertices(m), FaceIndices(m.faces), diffuse.0 + specular.0), specular.1)
  }

  /** A mesh's texture list is its material's diffuse slots, then its
      specular slots, each entry the texture recorded for that slot's path. */
  lemma ProcessMeshTextureOrder(materials: seq<AiMaterial>, m: ImportedMesh, st: Loaded)
    ensures var r := ProcessMesh(materials, m, st);
      var ds := Slots(MaterialOf(materials, m), DiffuseMaps);
      var ss := Slots(MaterialOf(materials, m), SpecularMaps);
      (forall k | 0 <= k < |ds| :: Cached(r.1, ds[k]) == Some(r.0.textures[k])) &&
      (forall k | 0 <= k < |ss| :: Cached(r.1, ss[k]) == Some(r.0.textures[|ds| + k]))
  {
    var mat := MaterialOf(materials, m);
    var ds, ss := Slots(mat, DiffuseMaps), Slots(mat, SpecularMaps);
    var diffuse := LoadMaterialTextures(st, ds, Diffuse);
    var specular := LoadMaterialTextures(diffuse.1, ss, Specular);
    LoadMaterialTexturesCached(st, ds, Diffuse);
    LoadMaterialTexturesCached(diffuse.1, ss, Specular);
    forall k | 0 <= k < |ds| ensures Cached(specular.1, ds[k]) == Some(diffuse.0[k]) {
      CachedStable(diffuse.1, specular.1, ds[k]);
    }
  }

  /** `process_mesh` as the per-mesh work of `process_node`. */
  function MeshStep(materials: seq<AiMaterial>): (ImportedMesh, Loaded) -> (Mesh, Loaded) {
    (m: ImportedMesh, st: Loaded) => ProcessMesh(materials, m, st)
  }

  /** `model_object`: its path, directory, meshes, and loaded textures. */
  datatype ModelObject = ModelObject(path: string, dir: string, meshes: seq<Mesh>, loaded: Loaded)

  /** The import failed: no scene, an incomplete one, or no root node. */
  predicate ImportFailed(scene: Option<AiScene>) {
    scene.None? || scene.value.incomplete || scene.value.root.None?
  }

  /** `model_object(path)`, given what the importer returned for `path` and
      the first free GPU id. A failed import returns before `dir` is set and
      before any mesh is added; otherwise `dir` is cut from the path and the
      node tree is processed. */
  function NewModelObject(path: string, scene: Option<AiScene>, nextId: nat): (r: ModelObject)
    requires ValidString(path)
    requires scene.Some? ==> SceneWellFormed(scene.value)
    ensures r.path == path
    ensures ImportFailed(scene) ==> r.dir == "" && r.meshes == [] && r.loaded == Loaded([], nextId)
    ensures !ImportFailed(scene) ==> r.dir == Directory(path) && |r.meshes| == |PreOrder(scene.value.root.value)|
  {
    if ImportFailed(scene) then ModelObject(path, "", [], Loaded([], nextId))
    else
      var s := scene.value;
      var built := ProcessNode(s.meshes, s.root.value, Loaded([], nextId), MeshStep(s.materials));
      ProcessNodeIsPreOrder(s.meshes, s.root.value, Loaded([], nextId), MeshStep(s.materials));
      ModelObject(path, Directory(path), built.0, built.1)
  }

  /** The meshes are the scene's meshes in pre-order, each with its own
      vertices and flattened face indices. */
  lemma ModelObjectPreOrder(path: string, s: AiScene, nextId: nat)
    requires ValidString(path) && SceneWellFormed(s) && !ImportFailed(Some(s))
    ensures var ids := PreOrder(s.root.value);
      var md := NewModelObject(path, Some(s), nextId);
      (forall k | 0 <= k < |ids| :: ids[k] < |s.meshes|) &&
      forall k | 0 <= k < |ids| ::
        md.meshes[k].vertices == Vertices(s.meshes[ids[k]]) && md.meshes[k].indices == FaceIndices(s.meshes[ids[k]].faces)
  {
    var ids := PreOrder(s.root.value);
    PreOrderBelow(s.root.value, |s.meshes|);
    ProcessNodeIsPreOrder(s.meshes, s.root.value, Loaded([], nextId), MeshStep(s.materials));
    ProcessMeshesMap(s.meshes, ids, Loaded([], nextId), MeshStep(s.materials),
                     (mesh: Mesh) => (mesh.vertices, mesh.indices),
                     (m: ImportedMesh) => (Vertices(m), FaceIndices(m.faces)));
  }

  /** What `Mesh::draw` reads of a texture: its id and its type. */
  function DrawView(ts: seq<LoadedTexture>): (v: seq<MeshTexture>)
    ensures |v| == |ts| && DiffuseSpecularOnly(v)
    ensures forall i | 0 <= i < |ts| :: v[i] == MeshTexture(Some(ts[i].id), AsTextureType(ts[i].kind))
  {
    seq(|ts|, i requires 0 <= i < |ts| => MeshTexture(Some(ts[i].id), AsTextureType(ts[i].kind)))
  }

  /** `model_object::draw`: each mesh's `draw` in order. */
  function ModelDraw(meshes: seq<Mesh>): seq<Call> {
    if |meshes| == 0 then []
    else DrawCalls(DrawView(meshes[0].textures), |meshes[0].indices|) + ModelDraw(meshes[1..])
  }

  /** Drawing issues one indexed draw per mesh, in mesh order, each of all
      that mesh's indices. */
  lemma {:induction false} ModelDrawDraws(s: GlState, meshes: seq<Mesh>)
    ensures Run(s, ModelDraw(meshes)).draws
         == s.draws + seq(|meshes|, k requires 0 <= k < |meshes| => Indexed(|meshes[k].indices|))
    decreases |meshes|
  {
    if |meshes| > 0 {
      var first := DrawCalls(DrawView(meshes[0].textures), |meshes[0].indices|);
      RunAppend(s, first, ModelDraw(meshes[1..]));
      DrawCallsDrawOnce(s, DrawView(meshes[0].textures), |meshes[0].indices|);
      ModelDrawDraws(Run(s, first), meshes[1..]);
      IndexedDrawsSplit(meshes);
    }
  }

  /** The draws of a mesh list are the first mesh's, then the rest's. */
  lemma IndexedDrawsSplit(meshes: seq<Mesh>)
    requires |meshes| > 0
    ensures seq(|meshes|, k requires 0 <= k < |meshes| => Indexed(|meshes[k].indices|))
         == [Indexed(|meshes[0].indices|)] + seq(|meshes| - 1, k requires 0 <= k < |meshes| - 1 => Indexed(|meshes[1..][k].indices|))
  {
  }

  /** After one mesh's `draw`, the sampler uniform of texture `i`, named
      from the loader's own table and counters, reads texture `i`'s id. */
  lemma MeshDrawSamples(s: GlState, mesh: Mesh)
    ensures var v := DrawView(mesh.textures);
      var r := Run(s, DrawCalls(v, |mesh.indices|));
      forall i | 0 <= i < |mesh.textures| ::
        UniformName(v, i) == "material." + TEXTURE_TYPE_STRING[LoaderOrdinal(mesh.textures[i].kind)] + NumberSuffix(v, i) &&
        Sampled(r, UniformName(v, i)) == Some(Some(mesh.textures[i].id))
  {
    var v := DrawView(mesh.textures);
    DrawSamplesEachTexture(s, v, |mesh.indices|);
    forall i | 0 <= i < |mesh.textures|
      ensures UniformName(v, i) == "material." + TEXTURE_TYPE_STRING[LoaderOrdinal(mesh.textures[i].kind)] + NumberSuffix(v, i)
    {
      TypeStringAgrees(mesh.textures[i].kind);
    }
  }
}
