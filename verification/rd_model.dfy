/** rd_model.h: the renderer's own model path. Texture files are loaded
    through a process-wide cache keyed by the file name with backslashes
    turned into slashes; each imported mesh is flattened into a vertex list,
    an index list and a group of five PBR textures; the node tree is
    flattened in pre-order; rendering binds each mesh's five textures to
    units 0 to 4 and issues one indexed draw. The GL upload, the vertex
    array and buffer objects, and image decoding are left out: a failed
    decode only reaches the non-fatal `Assert`, and the id is cached and
    returned exactly as for a successful one. */
module RdModel {
  import opened Wrappers
  import opened CString
  import opened Paths
  import opened Scene
  import opened GlTrace

  /** `ASSETS_FOLDER` (rdiye_lib.h), the prefix of every file the engine opens. */
  const ASSETS_FOLDER: string := "assets/"
  /** `TEXTURE_DEFAULT_BLACK` (rdiye_lib.h). */
  const TEXTURE_DEFAULT_BLACK: string := "TEXTURE_DEFAULT_BLACK.png"
  /** `TEXTURE_DEFAULT_NORMAL_MAP` (rdiye_lib.h). */
  const TEXTURE_DEFAULT_NORMAL_MAP: string := "TEXTURE_DEFAULT_NORMAL_MAP.png"
  /** `TEXTURE_DEFAULT_WHITE` is used here but defined in no file this model
      covers, so its value is left open. */
  const TEXTURE_DEFAULT_WHITE: string

  // ---------------------------------------------------------------------------
  // The texture cache

  /** `global_loaded_textures`, together with the next id `glGenTextures`
      hands out. */
  datatype TextureCache = TextureCache(loaded: map<string, nat>, nextId: nat)

  /** Every cached id was handed out before `nextId`. */
  predicate CacheValid(c: TextureCache) {
    forall k | k in c.loaded :: c.loaded[k] < c.nextId
  }

  /** `LoadTexture(filename)`: the id cached under the normalised name, or,
      when the name is not cached yet, a fresh id that is cached under it. */
  function LoadTexture(c: TextureCache, filename: string): (r: (nat, TextureCache))
    ensures Normalise(filename) in r.1.loaded && r.1.loaded[Normalise(filename)] == r.0
    ensures Normalise(filename) in c.loaded ==> r.1 == c
    ensures Normalise(filename) !in c.loaded ==> r.0 == c.nextId && r.1.nextId == c.nextId + 1
    ensures r.1.loaded.Keys == c.loaded.Keys + {Normalise(filename)}
    ensures forall k | k in c.loaded :: r.1.loaded[k] == c.loaded[k]
    ensures CacheValid(c) ==> CacheValid(r.1)
    ensures CacheValid(c) && Normalise(filename) !in c.loaded ==> forall k | k in c.loaded :: c.loaded[k] != r.0
  {
    var key := Normalise(filename);
    if key in c.loaded then (c.loaded[key], c)
    else (c.nextId, TextureCache(c.loaded[key := c.nextId], c.nextId + 1))
  }

  /** Loading the same file again returns the same id and changes nothing. */
  lemma LoadTextureIdempotent(c: TextureCache, filename: string)
    ensures var (id, c1) := LoadTexture(c, filename);
      LoadTexture(c1, filename) == (id, c1)
  {
  }

  /** Two spellings that differ only in the separator resolve to one cache
      entry: after loading "a\\b.png", loading "a/b.png" hits. */
  lemma LoadTextureSeparatorsAgree(c: TextureCache, a: string, b: string)
    requires |a| == |b|
    requires forall k | 0 <= k < |a| :: a[k] == b[k] || (a[k] in "\\/" && b[k] in "\\/")
    ensures var (id, c1) := LoadTexture(c, a);
      LoadTexture(c1, b) == (id, c1)
  {
    NormaliseSeparatorsAgree(a, b);
  }

  /** Files loaded one after the other; the ids in order and the final cache. */
  function LoadTextures(c: TextureCache, files: seq<string>): (r: (seq<nat>, TextureCache))
    ensures |r.0| == |files|
    ensures forall i | 0 <= i < |files| :: Normalise(files[i]) in r.1.loaded && r.1.loaded[Normalise(files[i])] == r.0[i]
    ensures forall k | k in c.loaded :: k in r.1.loaded && r.1.loaded[k] == c.loaded[k]
    ensures CacheValid(c) ==> CacheValid(r.1)
    decreases |files|
  {
    if |files| == 0 then ([], c)
    else
      var (id, c1) := LoadTexture(c, files[0]);
      var (rest, c2) := LoadTextures(c1, files[1..]);
      ([id] + rest, c2)
  }

  // ---------------------------------------------------------------------------
  // Choosing the PBR texture files of a material

  /** The file a group of material slots resolves to: `directory + '/'` and
      the first file name of the first listed type the material has, or
      `fallback` when the material has none of them. */
  function FirstSlotPath(mat: AiMaterial, directory: string, types: seq<AiTextureType>, fallback: string): (r: string)
    ensures (forall i | 0 <= i < |types| :: |Slots(mat, types[i])| == 0) ==> r == fallback
    ensures forall i | 0 <= i < |types| ::
      (|Slots(mat, types[i])| > 0 && forall j | 0 <= j < i :: |Slots(mat, types[j])| == 0)
        ==> r == directory + "/" + Slots(mat, types[i])[0]
    decreases |types|
  {
    if |types| == 0 then fallback
    else if |Slots(mat, types[0])| > 0 then directory + "/" + Slots(mat, types[0])[0]
    else
      var r := FirstSlotPath(mat, directory, types[1..], fallback);
      assert forall i | 1 <= i < |types| :: types[1..][i - 1] == types[i];
      r
  }

  /** The five files `ProcessMesh` loads, in load order: albedo (diffuse,
      else base colour, else the empty name, which leaves just the directory
      and '/'), normal (normals, else height, else the default normal map),
      metallic and roughness (else black), and ambient occlusion (occlusion,
      else ambient, else white). */
  function PbrFiles(mat: AiMaterial, directory: string): (files: seq<string>)
    ensures |files| == 5
  {
    [FirstSlotPath(mat, directory, [DiffuseMaps, BaseColorMaps], directory + "/"),
     FirstSlotPath(mat, directory, [NormalsMaps, HeightMaps], TEXTURE_DEFAULT_NORMAL_MAP),
     FirstSlotPath(mat, directory, [MetalnessMaps], TEXTURE_DEFAULT_BLACK),
     FirstSlotPath(mat, directory, [DiffuseRoughnessMaps], TEXTURE_DEFAULT_BLACK),
     FirstSlotPath(mat, directory, [AmbientOcclusionMaps, AmbientMaps], TEXTURE_DEFAULT_WHITE)]
  }

  /** The priorities among slot types: a diffuse map beats a base-colour map,
      a normal map beats a height map, an occlusion map beats an ambient map;
      a material with no textures at all gets the three defaults and an
      albedo path that is just the directory and '/'. */
  lemma PbrFilesPriority(mat: AiMaterial, directory: string)
    ensures |Slots(mat, DiffuseMaps)| > 0 ==> PbrFiles(mat, directory)[0] == directory + "/" + Slots(mat, DiffuseMaps)[0]
    ensures |Slots(mat, DiffuseMaps)| == 0 && |Slots(mat, BaseColorMaps)| > 0 ==>
      PbrFiles(mat, directory)[0] == directory + "/" + Slots(mat, BaseColorMaps)[0]
    ensures |Slots(mat, NormalsMaps)| > 0 ==> PbrFiles(mat, directory)[1] == directory + "/" + Slots(mat, NormalsMaps)[0]
    ensures |Slots(mat, NormalsMaps)| == 0 && |Slots(mat, HeightMaps)| > 0 ==>
      PbrFiles(mat, directory)[1] == directory + "/" + Slots(mat, HeightMaps)[0]
    ensures |Slots(mat, AmbientOcclusionMaps)| > 0 ==>
      PbrFiles(mat, directory)[4] == directory + "/" + Slots(mat, AmbientOcclusionMaps)[0]
    ensures |Slots(mat, AmbientOcclusionMaps)| == 0 && |Slots(mat, AmbientMaps)| > 0 ==>
      PbrFiles(mat, directory)[4] == directory + "/" + Slots(mat, AmbientMaps)[0]
    ensures mat.textures == map[] ==>
      PbrFiles(mat, directory) == [directory + "/", TEXTURE_DEFAULT_NORMAL_MAP, TEXTURE_DEFAULT_BLACK,
                                   TEXTURE_DEFAULT_BLACK, TEXTURE_DEFAULT_WHITE]
  {
  }

  // ---------------------------------------------------------------------------
  // Meshes

  /** `pbr_texture_group`: the five texture ids of a mesh. */
  datatype PbrTextureGroup = PbrTextureGroup(albedo: nat, normal: nat, metallic: nat, roughness: nat, ao: nat)

  /** The group's ids in unit order 0 to 4. */
  function GroupIds(g: PbrTextureGroup): (ids: seq<nat>)
    ensures |ids| == 5
  {
    [g.albedo, g.normal, g.metallic, g.roughness, g.ao]
  }

  /** `mesh_data`, with what its buffers hold in place of the buffer ids:
      the vertex list, `index_count` and the index list. */
  datatype MeshData = MeshData(vertices: seq<Vertex>, indexCount: nat, indices: seq<nat>, textures: PbrTextureGroup)

  /** `ProcessMesh(directory, mesh, scene)`: the vertices, the face indices
      concatenated with their count, and the five textures loaded in order
      through the cache. */
  function ProcessMesh(directory: string, materials: seq<AiMaterial>, m: ImportedMesh, c: TextureCache): (r: (MeshData, TextureCache))
    ensures r.0.indexCount == |r.0.indices| && r.0.indices == FaceIndices(m.faces)
    ensures r.0.vertices == Vertices(m)
    ensures var files := PbrFiles(MaterialOf(materials, m), directory);
      forall i | 0 <= i < 5 :: Normalise(files[i]) in r.1.loaded && r.1.loaded[Normalise(files[i])] == GroupIds(r.0.textures)[i]
    ensures CacheValid(c) ==> CacheValid(r.1)
  {
    FaceIndicesLength(m.faces);
    var (g, c1) := LoadGroup(c, PbrFiles(MaterialOf(materials, m), directory));
    (MeshData(Vertices(m), IndexCount(m.faces), FaceIndices(m.faces), g), c1)
  }

  /** Five files loaded in order through the cache, as a texture group:
      each id is the one the cache now holds for its file. */
  function LoadGroup(c: TextureCache, files: seq<string>): (r: (PbrTextureGroup, TextureCache))
    requires |files| == 5
    ensures forall i | 0 <= i < 5 :: Normalise(files[i]) in r.1.loaded && r.1.loaded[Normalise(files[i])] == GroupIds(r.0)[i]
    ensures CacheValid(c) ==> CacheValid(r.1)
  {
    var (ids, c1) := LoadTextures(c, files);
    var g := PbrTextureGroup(ids[0], ids[1], ids[2], ids[3], ids[4]);
    assert GroupIds(g) == ids;
    (g, c1)
  }

  /** `ProcessMesh` as the per-mesh work of the node traversal. */
  function MeshStep(directory: string, materials: seq<AiMaterial>): (ImportedMesh, TextureCache) -> (MeshData, TextureCache) {
    (m: ImportedMesh, c: TextureCache) => ProcessMesh(directory, materials, m, c)
  }

  /** `model_data`: the mesh list and the directory textures are read from. */
  datatype ModelData = ModelData(meshList: seq<MeshData>, directory: string)

  /** How `LoadModel` goes wrong: the importer returned no scene, or a scene
      without a root node. The source tests for these cases, does nothing
      (the branch holds only a comment), then dereferences the null
      pointer; the model stops there. */
  datatype LoadError = NullScene | NullRoot

  /** `LoadModel(path)`, given what the importer returned for
      `ASSETS_FOLDER + path`. An incomplete scene is processed like any other. */
  function LoadModel(path: string, scene: Option<AiScene>, c: TextureCache): (r: Result<(ModelData, TextureCache), LoadError>)
    requires ValidString(path)
    requires scene.Some? ==> SceneWellFormed(scene.value)
    ensures r.Ok? <==> scene.Some? && scene.value.root.Some?
    ensures scene.None? ==> r == Err(NullScene)
    ensures r.Ok? ==> r.value.0.directory == Directory(path)
    ensures r.Ok? ==> |r.value.0.meshList| == |PreOrder(scene.value.root.value)|
  {
    if scene.None? then Err(NullScene)
    else if scene.value.root.None? then Err(NullRoot)
    else
      var s := scene.value;
      var directory := Directory(path);
      var (meshList, c1) := ProcessNode(s.meshes, s.root.value, c, MeshStep(directory, s.materials));
      ProcessNodeIsPreOrder(s.meshes, s.root.value, c, MeshStep(directory, s.materials));
      Ok((ModelData(meshList, directory), c1))
  }

  /** The loaded mesh list follows the scene's meshes in pre-order: the k-th
      entry is the k-th mesh of the pre-order, with that mesh's vertices and
      face indices; and the cache stays valid. */
  lemma LoadModelPreOrder(path: string, s: AiScene, c: TextureCache)
    requires ValidString(path) && SceneWellFormed(s) && s.root.Some?
    ensures var r := LoadModel(path, Some(s), c);
      r.Ok? && |r.value.0.meshList| == |PreOrder(s.root.value)| &&
      forall k | 0 <= k < |PreOrder(s.root.value)| ::
        PreOrder(s.root.value)[k] < |s.meshes| &&
        r.value.0.meshList[k].indices == FaceIndices(s.meshes[PreOrder(s.root.value)[k]].faces) &&
        r.value.0.meshList[k].vertices == Vertices(s.meshes[PreOrder(s.root.value)[k]])
    ensures LoadModel(path, Some(s), c).value.0.meshList
         == ProcessMeshes(s.meshes, PreOrder(s.root.value), c, MeshStep(Directory(path), s.materials)).0
    ensures CacheValid(c) ==> CacheValid(LoadModel(path, Some(s), c).value.1)
  {
    var root := s.root.value;
    var f := MeshStep(Directory(path), s.materials);
    ProcessNodeIsPreOrder(s.meshes, root, c, f);
    PreOrderBelow(root, |s.meshes|);
    ProcessMeshesMap(s.meshes, PreOrder(root), c, f, (d: MeshData) => d.indices, (m: ImportedMesh) => FaceIndices(m.faces));
    ProcessMeshesMap(s.meshes, PreOrder(root), c, f, (d: MeshData) => d.vertices, (m: ImportedMesh) => Vertices(m));
    if CacheValid(c) {
      ProcessMeshesKeeps(s.meshes, PreOrder(root), c, f, CacheValid);
    }
  }

  /** The incomplete flag changes nothing: such a scene loads exactly like a
      complete one. */
  lemma LoadModelIgnoresIncomplete(path: string, s: AiScene, c: TextureCache)
    requires ValidString(path) && SceneWellFormed(s)
    ensures LoadModel(path, Some(s.(incomplete := true)), c) == LoadModel(path, Some(s.(incomplete := false)), c)
  {
  }

  // ---------------------------------------------------------------------------
  // Rendering

  /** Texture `ids[i]` bound to unit `unit + i`, one unit after the other;
      `None` stands for an id that was never assigned. */
  function UnitBindings(ids: seq<Option<nat>>, unit: nat): (calls: seq<Call>)
    ensures |calls| == 2 * |ids|
    decreases |ids|
  {
    if |ids| == 0 then [] else [ActiveTexture(unit), BindTexture(ids[0])] + UnitBindings(ids[1..], unit + 1)
  }

  /** `SetShaderPBRTextures`: albedo, normal, metallic, roughness and ambient
      occlusion on units 0 to 4. */
  function SetShaderPbrTextures(g: PbrTextureGroup): seq<Call> {
    UnitBindings(GroupBindings(g), 0)
  }

  /** The group's ids in unit order, as bindings. */
  function GroupBindings(g: PbrTextureGroup): (b: seq<Option<nat>>)
    ensures |b| == 5 && forall i | 0 <= i < 5 :: b[i] == Some(GroupIds(g)[i])
  {
    [Some(g.albedo), Some(g.normal), Some(g.metallic), Some(g.roughness), Some(g.ao)]
  }

  /** Binding a list of textures puts texture `i` on unit `unit + i`, leaves
      every other unit, every uniform and the draws alone, and ends with the
      last of those units active. */
  lemma {:induction false} UnitBindingsEffect(s: GlState, ids: seq<Option<nat>>, unit: nat)
    ensures var r := Run(s, UnitBindings(ids, unit));
      (forall k | unit <= k < unit + |ids| :: k in r.bound && r.bound[k] == ids[k - unit]) &&
      (forall k | k in s.bound && !(unit <= k < unit + |ids|) :: k in r.bound && r.bound[k] == s.bound[k]) &&
      r.uniforms == s.uniforms && r.draws == s.draws &&
      (|ids| > 0 ==> r.activeUnit == unit + |ids| - 1)
    decreases |ids|
  {
    if |ids| > 0 {
      var pair := [ActiveTexture(unit), BindTexture(ids[0])];
      RunAppend(s, pair, UnitBindings(ids[1..], unit + 1));
      RunTwo(s, pair[0], pair[1]);
      var s1 := Run(s, pair);
      UnitBindingsEffect(s1, ids[1..], unit + 1);
      var r := Run(s, UnitBindings(ids, unit));
      forall k | unit <= k < unit + |ids| ensures k in r.bound && r.bound[k] == ids[k - unit] {
        if k > unit {
          assert ids[1..][k - (unit + 1)] == ids[k - unit];
        } else {
          assert unit in s1.bound && s1.bound[unit] == ids[0];
        }
      }
      forall k | k in s.bound && !(unit <= k < unit + |ids|) ensures k in r.bound && r.bound[k] == s.bound[k] {
        assert k in s1.bound && s1.bound[k] == s.bound[k];
      }
    }
  }

  /** The five PBR textures land on units 0 to 4. */
  lemma PbrUnits(s: GlState, g: PbrTextureGroup)
    ensures var r := Run(s, SetShaderPbrTextures(g));
      r.activeUnit == 4 &&
      0 in r.bound && r.bound[0] == Some(g.albedo) && 1 in r.bound && r.bound[1] == Some(g.normal) &&
      2 in r.bound && r.bound[2] == Some(g.metallic) && 3 in r.bound && r.bound[3] == Some(g.roughness) &&
      4 in r.bound && r.bound[4] == Some(g.ao)
  {
    var ids := GroupBindings(g);
    UnitBindingsEffect(s, ids, 0);
    assert ids[0] == Some(g.albedo) && ids[1] == Some(g.normal) && ids[2] == Some(g.metallic);
    assert ids[3] == Some(g.roughness) && ids[4] == Some(g.ao);
    assert 0 + 2 == 2 && 0 + 3 == 3 && 0 + 4 == 4;
  }

  /** `RenderModel`: per mesh, its textures and then one indexed draw of all
      its indices. */
  function RenderModel(meshes: seq<MeshData>): (calls: seq<Call>)
    decreases |meshes|
  {
    if |meshes| == 0 then []
    else SetShaderPbrTextures(meshes[0].textures) + [DrawElements(meshes[0].indexCount)] + RenderModel(meshes[1..])
  }

  /** Rendering issues exactly one indexed draw per mesh, in mesh order, each
      with that mesh's index count. */
  lemma {:induction false} RenderModelDraws(s: GlState, meshes: seq<MeshData>)
    ensures Run(s, RenderModel(meshes)).draws == s.draws + seq(|meshes|, i requires 0 <= i < |meshes| => Indexed(meshes[i].indexCount))
    decreases |meshes|
  {
    if |meshes| > 0 {
      var head := SetShaderPbrTextures(meshes[0].textures);
      RunAppend(s, head + [DrawElements(meshes[0].indexCount)], RenderModel(meshes[1..]));
      RunAppend(s, head, [DrawElements(meshes[0].indexCount)]);
      UnitBindingsEffect(s, GroupBindings(meshes[0].textures), 0);
      var s1 := Run(s, head);
      RunOne(s1, DrawElements(meshes[0].indexCount));
      var s2 := Step(s1, DrawElements(meshes[0].indexCount));
      RenderModelDraws(s2, meshes[1..]);
      var rest := seq(|meshes| - 1, i requires 0 <= i < |meshes| - 1 => Indexed(meshes[1..][i].indexCount));
      assert seq(|meshes|, i requires 0 <= i < |meshes| => Indexed(meshes[i].indexCount)) == [Indexed(meshes[0].indexCount)] + rest;
    }
  }
}
