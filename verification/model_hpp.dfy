/** model.hpp: the first model loader. A `Model` imports a scene, resolves
    its textures against the directory of the model file, and keeps a
    per-model memo of the textures already loaded in two parallel arrays,
    keyed by the raw path the material stores. Every texture goes through
    texture.hpp's constructor, so a file name without a usable '.' makes
    the constructor throw; that exception escapes the `Model` constructor
    and is this module's `Err`. */
module ModelHpp {
  import opened Wrappers
  import opened CString
  import opened Paths
  import opened Scene
  import opened TextureHpp
  import opened GlTrace
  import opened UniformNaming

  /** model.hpp's `Mesh`: the vertex, index and texture lists it keeps
      (the buffer ids it generates are left out). */
  datatype Mesh = Mesh(vertices: seq<Vertex>, indices: seq<nat>, textures: seq<Texture>)

  /** `loaded_textures` and `loaded_textures_paths`, with the counter the
      fresh `glGenTextures` ids come from. */
  datatype TextureMemo = TextureMemo(textures: seq<Texture>, paths: seq<string>, nextId: nat)

  /** The two arrays stay index-aligned: entry `j` was loaded from `paths[j]`. */
  type Memo = m: TextureMemo | |m.textures| == |m.paths| witness TextureMemo([], [], 0)

  /** `Model`: its path, the directory textures are resolved against, its
      meshes in load order, and its memo. */
  datatype Model = Model(path: string, dir: string, meshes: seq<Mesh>, memo: Memo)

  /** The texture the memo holds for a raw path: the first entry recorded
      under it, as the search loop finds it. */
  function Cached(memo: Memo, raw: string): (r: Option<Texture>)
    ensures r.Some? <==> raw in memo.paths
  {
    match FirstIndexOf(memo.paths, raw)
    case None => None
    case Some(j) => Some(memo.textures[j])
  }

  /** `memo2` is `memo` with entries appended: nothing recorded is lost or moved. */
  predicate Extends(memo: Memo, memo2: Memo) {
    |memo.paths| <= |memo2.paths| &&
    memo2.paths[..|memo.paths|] == memo.paths && memo2.textures[..|memo.textures|] == memo.textures
  }

  /** What the memo holds for a path it already records never changes as it grows. */
  lemma CachedStable(memo: Memo, memo2: Memo, raw: string)
    requires Extends(memo, memo2) && raw in memo.paths
    ensures Cached(memo2, raw) == Cached(memo, raw)
  {
    assert memo2.paths == memo.paths + memo2.paths[|memo.paths|..];
    FirstIndexOfExtend(memo.paths, memo2.paths[|memo.paths|..], raw);
  }

  /** The path a slot's texture is loaded from: `dir + '/' + str`. */
  function SlotPath(dir: string, raw: string): string {
    dir + "/" + raw
  }

  /** Loading the slot `raw` from scratch does not throw: the path fits in a
      string, and either the image does not decode or its last '.' is at
      index 2 or later, where texture.hpp's suffix `substr` can start. */
  predicate LoadsCleanly(dir: string, raw: string, decoded: string -> bool) {
    var path := SlotPath(dir, raw);
    ValidString(path) &&
    (!decoded(path) || (FindLastOf(path, '.').Some? && FindLastOf(path, '.').value >= 2))
  }

  /** One iteration of the slot loop of `load_material_textures`: a raw
      path the memo records is served from it; otherwise the texture is
      constructed from `dir + '/' + raw`, given the requested type, and
      recorded in both arrays. `decoded` says which files stb_image decodes. */
  function LoadSlot(dir: string, memo: Memo, raw: string, texType: TextureType, decoded: string -> bool)
    : (r: Result<(Texture, Memo), StringError>)
    ensures raw in memo.paths ==> r.Ok? && Some(r.value.0) == Cached(memo, raw) && r.value.1 == memo
    ensures raw !in memo.paths ==> (r.Ok? <==> LoadsCleanly(dir, raw, decoded))
    ensures raw !in memo.paths && r.Ok? ==>
      r.value.1 == TextureMemo(memo.textures + [r.value.0], memo.paths + [raw], memo.nextId + 1) &&
      r.value.0.kind == Some(texType) &&
      r.value.0.id == (if decoded(SlotPath(dir, raw)) then Some(memo.nextId) else None)
  {
    match FirstIndexOf(memo.paths, raw)
    case Some(j) => Ok((memo.textures[j], memo))
    case None =>
      var path :- Concat(dir + "/", raw);
      var tex :- TextureFromPath(path, decoded(path), memo.nextId);
      var t := tex.(kind := Some(texType));
      Ok((t, TextureMemo(memo.textures + [t], memo.paths + [raw], memo.nextId + 1)))
  }

  /** `load_material_textures(mat, type, tex_type)` over the material's
      slots of that type, in slot order: one texture per slot. */
  function LoadMaterialTextures(dir: string, memo: Memo, slots: seq<string>, texType: TextureType, decoded: string -> bool)
    : (r: Result<(seq<Texture>, Memo), StringError>)
    ensures r.Ok? ==> |r.value.0| == |slots| && Extends(memo, r.value.1)
    decreases |slots|
  {
    if |slots| == 0 then Ok(([], memo))
    else
      var first :- LoadSlot(dir, memo, slots[0], texType, decoded);
      var rest :- LoadMaterialTextures(dir, first.1, slots[1..], texType, decoded);
      assert rest.1.paths[..|memo.paths|] == rest.1.paths[..|first.1.paths|][..|memo.paths|];
      assert rest.1.textures[..|memo.textures|] == rest.1.textures[..|first.1.textures|][..|memo.textures|];
      Ok(([first.0] + rest.0, rest.1))
  }

  /** Each returned texture is the one the memo ends up holding for its
      slot's raw path. */
  lemma {:induction false} LoadMaterialTexturesCached(dir: string, memo: Memo, slots: seq<string>, texType: TextureType, decoded: string -> bool)
    requires LoadMaterialTextures(dir, memo, slots, texType, decoded).Ok?
    ensures var r := LoadMaterialTextures(dir, memo, slots, texType, decoded).value;
      forall k | 0 <= k < |slots| :: Cached(r.1, slots[k]) == Some(r.0[k])
    decreases |slots|
  {
    if |slots| > 0 {
      var r := LoadMaterialTextures(dir, memo, slots, texType, decoded).value;
      var first := LoadSlot(dir, memo, slots[0], texType, decoded).value;
      var rest := LoadMaterialTextures(dir, first.1, slots[1..], texType, decoded).value;
      assert r == ([first.0] + rest.0, rest.1);
      LoadMaterialTexturesCached(dir, first.1, slots[1..], texType, decoded);
      LoadSlotCached(dir, memo, slots[0], texType, decoded);
      CachedStable(first.1, rest.1, slots[0]);
      forall k | 0 <= k < |slots| ensures Cached(r.1, slots[k]) == Some(r.0[k]) {
        if k > 0 {
          assert slots[k] == slots[1..][k - 1];
        }
      }
    }
  }

  /** After one slot the memo records the texture it returned. */
  lemma LoadSlotCached(dir: string, memo: Memo, raw: string, texType: TextureType, decoded: string -> bool)
    requires LoadSlot(dir, memo, raw, texType, decoded).Ok?
    ensures var r := LoadSlot(dir, memo, raw, texType, decoded).value;
      Cached(r.1, raw) == Some(r.0) && raw in r.1.paths
  {
    if raw !in memo.paths {
      FirstIndexOfExtend(memo.paths, [raw], raw);
    }
  }

  /** A slot the memo already recorded gets the recorded texture, with the
      type it was first loaded as, whatever type is requested now, and
      without a new load. */
  lemma LoadMaterialTexturesHits(dir: string, memo: Memo, slots: seq<string>, texType: TextureType, decoded: string -> bool)
    requires LoadMaterialTextures(dir, memo, slots, texType, decoded).Ok?
    ensures var r := LoadMaterialTextures(dir, memo, slots, texType, decoded).value;
      forall k | 0 <= k < |slots| :: slots[k] in memo.paths ==> Cached(memo, slots[k]) == Some(r.0[k])
  {
    var r := LoadMaterialTextures(dir, memo, slots, texType, decoded).value;
    LoadMaterialTexturesCached(dir, memo, slots, texType, decoded);
    forall k | 0 <= k < |slots| && slots[k] in memo.paths
      ensures Cached(memo, slots[k]) == Some(r.0[k])
    {
      CachedStable(memo, r.1, slots[k]);
    }
  }

  /** The entries a call appends: each freshly loaded, of the requested
      type, from a slot whose raw path the memo did not record; one GPU id
      is spent per entry and none on a memo hit. */
  lemma {:induction false} LoadMaterialTexturesFresh(dir: string, memo: Memo, slots: seq<string>, texType: TextureType, decoded: string -> bool)
    requires LoadMaterialTextures(dir, memo, slots, texType, decoded).Ok?
    ensures var memo2 := LoadMaterialTextures(dir, memo, slots, texType, decoded).value.1;
      memo2.nextId == memo.nextId + (|memo2.paths| - |memo.paths|) &&
      forall j | |memo.paths| <= j < |memo2.paths| ::
        memo2.textures[j].kind == Some(texType) && memo2.paths[j] in slots && memo2.paths[j] !in memo.paths
    decreases |slots|
  {
    if |slots| > 0 {
      var first := LoadSlot(dir, memo, slots[0], texType, decoded).value;
      var memo2 := LoadMaterialTextures(dir, memo, slots, texType, decoded).value.1;
      LoadMaterialTexturesFresh(dir, first.1, slots[1..], texType, decoded);
      forall j | |memo.paths| <= j < |memo2.paths|
        ensures memo2.textures[j].kind == Some(texType) && memo2.paths[j] in slots && memo2.paths[j] !in memo.paths
      {
        if j < |first.1.paths| {
          assert memo2.paths[j] == memo2.paths[..|first.1.paths|][j] == slots[0];
          assert memo2.textures[j] == memo2.textures[..|first.1.textures|][j] == first.0;
        } else {
          assert memo2.paths[j] in slots[1..];
        }
      }
    }
  }

  /** No two entries of `xs` are equal. */
  predicate Distinct(xs: seq<string>) {
    forall i, j | 0 <= i < j < |xs| :: xs[i] != xs[j]
  }

  /** The memo never records a raw path twice: each path is loaded at most once per model. */
  lemma {:induction false} LoadMaterialTexturesDistinct(dir: string, memo: Memo, slots: seq<string>, texType: TextureType, decoded: string -> bool)
    requires LoadMaterialTextures(dir, memo, slots, texType, decoded).Ok?
    requires Distinct(memo.paths)
    ensures Distinct(LoadMaterialTextures(dir, memo, slots, texType, decoded).value.1.paths)
    decreases |slots|
  {
    if |slots| > 0 {
      var first := LoadSlot(dir, memo, slots[0], texType, decoded).value;
      if slots[0] !in memo.paths {
        var ps := first.1.paths;
        forall i, j | 0 <= i < j < |ps| ensures ps[i] != ps[j] {
          if j == |memo.paths| {
            assert ps[i] == memo.paths[i];
          }
        }
      }
      LoadMaterialTexturesDistinct(dir, first.1, slots[1..], texType, decoded);
    }
  }

  /** The exception escapes exactly from a slot that must be loaded and
      cannot be: if every slot is recorded or loads cleanly the call
      succeeds, and if it fails some slot is neither. */
  lemma {:induction false} LoadMaterialTexturesThrows(dir: string, memo: Memo, slots: seq<string>, texType: TextureType, decoded: string -> bool)
    ensures (forall k | 0 <= k < |slots| :: slots[k] in memo.paths || LoadsCleanly(dir, slots[k], decoded))
            ==> LoadMaterialTextures(dir, memo, slots, texType, decoded).Ok?
    ensures LoadMaterialTextures(dir, memo, slots, texType, decoded).Err?
            ==> exists k | 0 <= k < |slots| :: slots[k] !in memo.paths && !LoadsCleanly(dir, slots[k], decoded)
    decreases |slots|
  {
    if |slots| > 0 {
      var first := LoadSlot(dir, memo, slots[0], texType, decoded);
      if first.Ok? {
        var memo1 := first.value.1;
        LoadMaterialTexturesThrows(dir, memo1, slots[1..], texType, decoded);
        if forall k | 0 <= k < |slots| :: slots[k] in memo.paths || LoadsCleanly(dir, slots[k], decoded) {
          forall k | 0 <= k < |slots| - 1 ensures slots[1..][k] in memo1.paths || LoadsCleanly(dir, slots[1..][k], decoded) {
            assert slots[k + 1] in memo.paths ==> slots[k + 1] in memo1.paths[..|memo.paths|];
          }
        }
        if LoadMaterialTextures(dir, memo, slots, texType, decoded).Err? {
          var k :| 0 <= k < |slots[1..]| && slots[1..][k] !in memo1.paths && !LoadsCleanly(dir, slots[1..][k], decoded);
          assert memo1.paths[..|memo.paths|] == memo.paths;
          assert slots[k + 1] !in memo.paths;
        }
      }
    }
  }

  /** Every texture's type is set and is diffuse or specular, the only two
      types this loader requests. */
  predicate Typed(ts: seq<Texture>) {
    forall i | 0 <= i < |ts| :: ts[i].kind == Some(Diffuse) || ts[i].kind == Some(Specular)
  }

  /** Requesting diffuse or specular keeps the memo typed, and every
      texture returned is typed. */
  lemma {:induction false} LoadMaterialTexturesTyped(dir: string, memo: Memo, slots: seq<string>, texType: TextureType, decoded: string -> bool)
    requires texType == Diffuse || texType == Specular
    requires Typed(memo.textures)
    requires LoadMaterialTextures(dir, memo, slots, texType, decoded).Ok?
    ensures var (ts, memo2) := LoadMaterialTextures(dir, memo, slots, texType, decoded).value;
      Typed(ts) && Typed(memo2.textures)
    decreases |slots|
  {
    if |slots| > 0 {
      var first := LoadSlot(dir, memo, slots[0], texType, decoded).value;
      if slots[0] in memo.paths {
        var j := FirstIndexOf(memo.paths, slots[0]).value;
        assert first.0 == memo.textures[j];
      }
      assert Typed(first.1.textures);
      LoadMaterialTexturesTyped(dir, first.1, slots[1..], texType, decoded);
    }
  }

  /** One mesh of `build_mesh_tree`: vertices, the flattened face indices,
      then the diffuse maps followed by the specular maps of the mesh's material. */
  function BuildMesh(dir: string, materials: seq<AiMaterial>, decoded: string -> bool, m: ImportedMesh, memo: Memo)
    : (r: Result<(Mesh, Memo), StringError>)
    ensures r.Ok? ==> r.value.0.vertices == Vertices(m) && r.value.0.indices == FaceIndices(m.faces)
    ensures r.Ok? ==> Extends(memo, r.value.1)
    ensures r.Ok? ==> |r.value.0.textures|
                      == |Slots(MaterialOf(materials, m), DiffuseMaps)| + |Slots(MaterialOf(materials, m), SpecularMaps)|
  {
    var mat := MaterialOf(materials, m);
    var diffuse :- LoadMaterialTextures(dir, memo, Slots(mat, DiffuseMaps), Diffuse, decoded);
    var specular :- LoadMaterialTextures(dir, diffuse.1, Slots(mat, SpecularMaps), Specular, decoded);
    assert specular.1.paths[..|memo.paths|] == specular.1.paths[..|diffuse.1.paths|][..|memo.paths|];
    assert specular.1.textures[..|memo.textures|] == specular.1.textures[..|diffuse.1.textures|][..|memo.textures|];
    Ok((Mesh(Vertices(m), FaceIndices(m.faces), diffuse.0 + specular.0), specular.1))
  }

  /** A mesh's texture list is its material's diffuse slots, then its
      specular slots, each entry the texture the memo holds for that slot. */
  lemma BuildMeshTextureOrder(dir: string, materials: seq<AiMaterial>, decoded: string -> bool, m: ImportedMesh, memo: Memo)
    requires BuildMesh(dir, materials, decoded, m, memo).Ok?
    ensures var (mesh, memo2) := BuildMesh(dir, materials, decoded, m, memo).value;
      var ds := Slots(MaterialOf(materials, m), DiffuseMaps);
      var ss := Slots(MaterialOf(materials, m), SpecularMaps);
      (forall k | 0 <= k < |ds| :: Cached(memo2, ds[k]) == Some(mesh.textures[k])) &&
      (forall k | 0 <= k < |ss| :: Cached(memo2, ss[k]) == Some(mesh.textures[|ds| + k]))
  {
    var mat := MaterialOf(materials, m);
    var ds, ss := Slots(mat, DiffuseMaps), Slots(mat, SpecularMaps);
    var diffuse := LoadMaterialTextures(dir, memo, ds, Diffuse, decoded).value;
    var specular := LoadMaterialTextures(dir, diffuse.1, ss, Specular, decoded).value;
    LoadMaterialTexturesCached(dir, memo, ds, Diffuse, decoded);
    LoadMaterialTexturesCached(dir, diffuse.1, ss, Specular, decoded);
    forall k | 0 <= k < |ds| ensures Cached(specular.1, ds[k]) == Some(diffuse.0[k]) {
      CachedStable(diffuse.1, specular.1, ds[k]);
    }
  }

  /** A mesh of `build_mesh_tree` as a step of the traversal, threading the
      memo; once an exception has escaped (`Err`) no further texture is
      loaded, and the meshes built are discarded with the model. */
  function MeshStep(dir: string, materials: seq<AiMaterial>, decoded: string -> bool)
    : (ImportedMesh, Result<Memo, StringError>) -> (Mesh, Result<Memo, StringError>)
  {
    (m: ImportedMesh, st: Result<Memo, StringError>) =>
      if st.Err? then (Mesh(Vertices(m), FaceIndices(m.faces), []), st)
      else match BuildMesh(dir, materials, decoded, m, st.value)
        case Ok(built) => (built.0, Ok(built.1))
        case Err(e) => (Mesh(Vertices(m), FaceIndices(m.faces), []), Err(e))
  }

  /** The import failed: no scene, an incomplete one, or no root node. */
  predicate ImportFailed(scene: Option<AiScene>) {
    scene.None? || scene.value.incomplete || scene.value.root.None?
  }

  /** `Model(path)`, given what the importer returned for `path` and the
      first free GPU id. A failed import returns early: no meshes, an empty
      directory. Otherwise the directory is cut from the path and the node
      tree is built; an exception from a texture constructor is `Err`. */
  function NewModel(path: string, scene: Option<AiScene>, decoded: string -> bool, nextId: nat): (r: Result<Model, StringError>)
    requires ValidString(path)
    requires scene.Some? ==> SceneWellFormed(scene.value)
    ensures ImportFailed(scene) ==> r == Ok(Model(path, "", [], TextureMemo([], [], nextId)))
    ensures !ImportFailed(scene) && r.Ok? ==>
      r.value.path == path && r.value.dir == Directory(path) &&
      |r.value.meshes| == |PreOrder(scene.value.root.value)|
  {
    if ImportFailed(scene) then Ok(Model(path, "", [], TextureMemo([], [], nextId)))
    else
      var s := scene.value;
      var dir := Directory(path);
      var st: Result<Memo, StringError> := Ok(TextureMemo([], [], nextId));
      var built := ProcessNode(s.meshes, s.root.value, st, MeshStep(dir, s.materials, decoded));
      ProcessNodeIsPreOrder(s.meshes, s.root.value, st, MeshStep(dir, s.materials, decoded));
      match built.1
      case Err(e) => Err(e)
      case Ok(memo) => Ok(Model(path, dir, built.0, memo))
  }

  /** The model's meshes are the scene's meshes in pre-order, each with its
      own vertices and flattened face indices. */
  lemma ModelPreOrder(path: string, s: AiScene, decoded: string -> bool, nextId: nat)
    requires ValidString(path) && SceneWellFormed(s) && !ImportFailed(Some(s))
    requires NewModel(path, Some(s), decoded, nextId).Ok?
    ensures var ids := PreOrder(s.root.value);
      var md := NewModel(path, Some(s), decoded, nextId).value;
      (forall k | 0 <= k < |ids| :: ids[k] < |s.meshes|) &&
      forall k | 0 <= k < |ids| ::
        md.meshes[k].vertices == Vertices(s.meshes[ids[k]]) && md.meshes[k].indices == FaceIndices(s.meshes[ids[k]].faces)
  {
    var ids := PreOrder(s.root.value);
    var f := MeshStep(Directory(path), s.materials, decoded);
    var st: Result<Memo, StringError> := Ok(TextureMemo([], [], nextId));
    PreOrderBelow(s.root.value, |s.meshes|);
    ProcessNodeIsPreOrder(s.meshes, s.root.value, st, f);
    ProcessMeshesMap(s.meshes, ids, st, f,
                     (mesh: Mesh) => (mesh.vertices, mesh.indices),
                     (m: ImportedMesh) => (Vertices(m), FaceIndices(m.faces)));
  }

  /** A memo state whose textures are all typed, or an escaped exception. */
  predicate TypedState(st: Result<Memo, StringError>) {
    st.Err? || Typed(st.value.textures)
  }

  /** A step keeps the memo typed and builds a mesh whose textures are typed. */
  lemma MeshStepTyped(dir: string, materials: seq<AiMaterial>, decoded: string -> bool, m: ImportedMesh, st: Result<Memo, StringError>)
    requires TypedState(st)
    ensures TypedState(MeshStep(dir, materials, decoded)(m, st).1)
    ensures Typed(MeshStep(dir, materials, decoded)(m, st).0.textures)
  {
    if st.Ok? && BuildMesh(dir, materials, decoded, m, st.value).Ok? {
      var mat := MaterialOf(materials, m);
      var diffuse := LoadMaterialTextures(dir, st.value, Slots(mat, DiffuseMaps), Diffuse, decoded).value;
      LoadMaterialTexturesTyped(dir, st.value, Slots(mat, DiffuseMaps), Diffuse, decoded);
      LoadMaterialTexturesTyped(dir, diffuse.1, Slots(mat, SpecularMaps), Specular, decoded);
    }
  }

  /** Every texture of every mesh of a loaded model has its type set to
      diffuse or specular, so `draw` can name its uniform. */
  lemma ModelTyped(path: string, s: AiScene, decoded: string -> bool, nextId: nat)
    requires ValidString(path) && SceneWellFormed(s)
    requires NewModel(path, Some(s), decoded, nextId).Ok?
    ensures var md := NewModel(path, Some(s), decoded, nextId).value;
      forall k | 0 <= k < |md.meshes| :: Typed(md.meshes[k].textures)
  {
    if !ImportFailed(Some(s)) {
      var ids := PreOrder(s.root.value);
      var f := MeshStep(Directory(path), s.materials, decoded);
      var st: Result<Memo, StringError> := Ok(TextureMemo([], [], nextId));
      PreOrderBelow(s.root.value, |s.meshes|);
      ProcessNodeIsPreOrder(s.meshes, s.root.value, st, f);
      forall m, st0 | TypedState(st0) ensures TypedState(f(m, st0).1) && Typed(f(m, st0).0.textures) {
        MeshStepTyped(Directory(path), s.materials, decoded, m, st0);
      }
      ProcessMeshesEach(s.meshes, ids, st, f, TypedState, (mesh: Mesh) => Typed(mesh.textures));
    }
  }

  /** What `Mesh::draw` reads of typed textures. */
  function DrawView(ts: seq<Texture>): (v: seq<MeshTexture>)
    requires Typed(ts)
    ensures |v| == |ts| && DiffuseSpecularOnly(v)
    ensures forall i | 0 <= i < |ts| :: v[i].id == ts[i].id && Some(v[i].kind) == ts[i].kind
  {
    seq(|ts|, i requires 0 <= i < |ts| => MeshTexture(ts[i].id, ts[i].kind.value))
  }

  /** Every mesh's textures are typed. */
  predicate AllTyped(meshes: seq<Mesh>) {
    forall k | 0 <= k < |meshes| :: Typed(meshes[k].textures)
  }

  /** `Model::draw`: each mesh's `draw` in order. */
  function ModelDraw(meshes: seq<Mesh>): seq<Call>
    requires AllTyped(meshes)
  {
    if |meshes| == 0 then []
    else DrawCalls(DrawView(meshes[0].textures), |meshes[0].indices|) + ModelDraw(meshes[1..])
  }

  /** Drawing a model issues one indexed draw per mesh, in mesh order, each
      of all that mesh's indices. */
  lemma {:induction false} ModelDrawDraws(s: GlState, meshes: seq<Mesh>)
    requires AllTyped(meshes)
    ensures Run(s, ModelDraw(meshes)).draws
         == s.draws + seq(|meshes|, k requires 0 <= k < |meshes| => Indexed(|meshes[k].indices|))
    decreases |meshes|
  {
    if |meshes| > 0 {
      var first := DrawCalls(DrawView(meshes[0].textures), |meshes[0].indices|);
      RunAppend(s, first, ModelDraw(meshes[1..]));
      DrawCallsDrawOnce(s, DrawView(meshes[0].textures), |meshes[0].indices|);
      ModelDrawDraws(Run(s, first), meshes[1..]);
      IndexedDrawsSplit(meshes);
    }
  }

  /** The draws of a mesh list are the first mesh's, then the rest's. */
  lemma IndexedDrawsSplit(meshes: seq<Mesh>)
    requires |meshes| > 0
    ensures seq(|meshes|, k requires 0 <= k < |meshes| => Indexed(|meshes[k].indices|))
         == [Indexed(|meshes[0].indices|)] + seq(|meshes| - 1, k requires 0 <= k < |meshes| - 1 => Indexed(|meshes[1..][k].indices|))
  {
  }
}
