/** rd_mesh.h: the second version of the renderer's model path. Its
    `ReplaceAll`, `LoadTexture` cache and PBR texture choice are the same as
    rd_model.h's and are taken from `RdModel`. What differs: a mesh records
    its vertex count as well as its index count, an element buffer exists
    only when there are indices, rendering falls back to a plain draw of
    the vertices when there are none, and loading appends to a mesh list
    the caller owns. */
module RdMesh {
  import opened Wrappers
  import opened CString
  import opened Paths
  import opened Scene
  import opened GlTrace
  import opened RdiyeLib
  import RdModel

  /** What a vertex buffer holds: full vertices (`MeshData`) or positions
      only (`MeshDataUntextured`). */
  datatype VertexBuffer = Full(vertices: seq<Vertex>) | PositionsOnly(positions: seq<Vec3>)

  /** `mesh_data` of rd_mesh.h, with what its buffers hold in place of the
      buffer ids. `elementBuffer` says whether an `ebo` was generated; the
      texture group is `None` until a loader assigns it. */
  datatype MeshRecord = MeshRecord(vertexCount: nat, indexCount: nat, elementBuffer: bool,
                                   vertexData: VertexBuffer, indices: seq<nat>,
                                   textures: Option<RdModel.PbrTextureGroup>)

  /** `MeshData(vertex_count, vertex_list, index_count, index_list)`: the
      first `vertex_count` vertices and, only when `index_count > 0`, the
      first `index_count` indices go to the GPU. The caller must supply at
      least that many of each. */
  function MeshData(vertexCount: nat, vertexList: seq<Vertex>, indexCount: nat, indexList: seq<nat>): (m: MeshRecord)
    requires vertexCount <= |vertexList|
    requires indexCount > 0 ==> indexCount <= |indexList|
    ensures m.vertexCount == vertexCount && m.indexCount == indexCount
    ensures m.elementBuffer <==> indexCount > 0
    ensures m.vertexData.Full? && |m.vertexData.vertices| == vertexCount
    ensures |m.indices| == indexCount && m.indices <= indexList
    ensures m.textures.None?
  {
    MeshRecord(vertexCount, indexCount, indexCount > 0, Full(vertexList[..vertexCount]),
               if indexCount > 0 then indexList[..indexCount] else [], None)
  }

  /** `MeshDataUntextured`: the same bookkeeping with a position-only buffer. */
  function MeshDataUntextured(vertexCount: nat, positions: seq<Vec3>, indexCount: nat, indexList: seq<nat>): (m: MeshRecord)
    requires vertexCount <= |positions|
    requires indexCount > 0 ==> indexCount <= |indexList|
    ensures m.vertexCount == vertexCount && m.indexCount == indexCount
    ensures m.elementBuffer <==> indexCount > 0
    ensures m.vertexData.PositionsOnly? && |m.vertexData.positions| == vertexCount
    ensures |m.indices| == indexCount && m.indices <= indexList
    ensures m.textures.None?
  {
    MeshRecord(vertexCount, indexCount, indexCount > 0, PositionsOnly(positions[..vertexCount]),
               if indexCount > 0 then indexList[..indexCount] else [], None)
  }

  /** The texture bindings of `SetShaderPBRTextures`; a mesh whose group was
      never assigned binds never-assigned ids to the same five units. */
  function PbrBindings(t: Option<RdModel.PbrTextureGroup>): seq<Call> {
    match t
    case Some(g) => RdModel.SetShaderPbrTextures(g)
    case None => RdModel.UnitBindings([None, None, None, None, None], 0)
  }

  /** `RenderMesh(mesh)`: the textures, then an indexed draw when the mesh
      has indices and a plain draw of its vertices otherwise. */
  function RenderMesh(m: MeshRecord): seq<Call> {
    PbrBindings(m.textures) + [if m.indexCount > 0 then DrawElements(m.indexCount) else DrawArrays(m.vertexCount)]
  }

  /** Rendering a mesh issues exactly one draw: indexed with the index count
      exactly when there are indices, otherwise plain with the vertex count.
      No uniform changes. */
  lemma RenderMeshDraw(s: GlState, m: MeshRecord)
    ensures var r := Run(s, RenderMesh(m));
      |r.draws| == |s.draws| + 1 && r.draws[..|s.draws|] == s.draws &&
      (r.draws[|s.draws|].Indexed? <==> m.indexCount > 0) &&
      (m.indexCount > 0 ==> r.draws[|s.draws|] == Indexed(m.indexCount)) &&
      (m.indexCount == 0 ==> r.draws[|s.draws|] == Plain(m.vertexCount)) &&
      r.uniforms == s.uniforms
  {
    var b := PbrBindings(m.textures);
    var last := if m.indexCount > 0 then DrawElements(m.indexCount) else DrawArrays(m.vertexCount);
    RunAppend(s, b, [last]);
    match m.textures {
      case Some(g) => RdModel.UnitBindingsEffect(s, RdModel.GroupBindings(g), 0);
      case None => RdModel.UnitBindingsEffect(s, [None, None, None, None, None], 0);
    }
    RunOne(Run(s, b), last);
  }

  /** One imported mesh as `ProcessNode` builds it: the vertex and index
      lists through `MeshData`, then the texture group loaded as in rd_model.h. */
  function ProcessMesh(directory: string, materials: seq<AiMaterial>, m: ImportedMesh, c: RdModel.TextureCache): (r: (MeshRecord, RdModel.TextureCache))
    ensures r.0.vertexCount == |m.positions| && r.0.vertexData == Full(Vertices(m))
    ensures r.0.indexCount == IndexCount(m.faces)
    ensures r.0.elementBuffer <==> IndexCount(m.faces) > 0
    ensures r.0.indices == FaceIndices(m.faces)
    ensures r.0.textures.Some?
    ensures RdModel.CacheValid(c) ==> RdModel.CacheValid(r.1)
  {
    var (base, c1) := RdModel.ProcessMesh(directory, materials, m, c);
    var rec := MeshData(|m.positions|, base.vertices, base.indexCount, base.indices);
    assert base.indices[..base.indexCount] == base.indices;
    assert base.vertices[..|m.positions|] == base.vertices;
    (rec.(textures := Some(base.textures)), c1)
  }

  /** `ProcessMesh` as the per-mesh work of the node traversal. */
  function MeshStep(directory: string, materials: seq<AiMaterial>): (ImportedMesh, RdModel.TextureCache) -> (MeshRecord, RdModel.TextureCache) {
    (m: ImportedMesh, c: RdModel.TextureCache) => ProcessMesh(directory, materials, m, c)
  }

  /** `LoadModel(mesh_list, path)`, given what the importer returned for
      `ASSETS_FOLDER + path`: the scene's meshes are appended to the
      caller's list. A missing scene or root node is an error as in rd_model.h. */
  function LoadModel(meshList: seq<MeshRecord>, path: string, scene: Option<AiScene>, c: RdModel.TextureCache)
    : (r: Result<(seq<MeshRecord>, RdModel.TextureCache), RdModel.LoadError>)
    requires ValidString(path)
    requires scene.Some? ==> SceneWellFormed(scene.value)
    ensures r.Ok? <==> scene.Some? && scene.value.root.Some?
    ensures r.Ok? ==> |r.value.0| == |meshList| + |PreOrder(scene.value.root.value)|
    ensures r.Ok? ==> r.value.0[..|meshList|] == meshList
  {
    if scene.None? then Err(RdModel.NullScene)
    else if scene.value.root.None? then Err(RdModel.NullRoot)
    else
      var s := scene.value;
      var (added, c1) := ProcessNode(s.meshes, s.root.value, c, MeshStep(Directory(path), s.materials));
      ProcessNodeIsPreOrder(s.meshes, s.root.value, c, MeshStep(Directory(path), s.materials));
      assert (meshList + added)[..|meshList|] == meshList;
      Ok((meshList + added, c1))
  }

  /** What `LoadModel` appends: the scene's meshes processed in pre-order,
      each with the directory of `path`. */
  lemma LoadModelAppendsPreOrder(meshList: seq<MeshRecord>, path: string, s: AiScene, c: RdModel.TextureCache)
    requires ValidString(path) && SceneWellFormed(s) && s.root.Some?
    ensures PreOrderBelowAll(s)
    ensures LoadModel(meshList, path, Some(s), c)
         == Ok((meshList + ProcessMeshes(s.meshes, PreOrder(s.root.value), c, MeshStep(Directory(path), s.materials)).0,
                ProcessMeshes(s.meshes, PreOrder(s.root.value), c, MeshStep(Directory(path), s.materials)).1))
  {
    PreOrderBelow(s.root.value, |s.meshes|);
    ProcessNodeIsPreOrder(s.meshes, s.root.value, c, MeshStep(Directory(path), s.materials));
  }

  /** Every mesh index the pre-order of the scene's root lists is a mesh of the scene. */
  predicate PreOrderBelowAll(s: AiScene)
    requires s.root.Some?
  {
    forall k | 0 <= k < |PreOrder(s.root.value)| :: PreOrder(s.root.value)[k] < |s.meshes|
  }

  /** The k-th appended mesh is the k-th mesh of the pre-order, with its own
      vertex count, index count and face indices. */
  lemma PreOrderMeshRecords(directory: string, s: AiScene, c: RdModel.TextureCache)
    requires SceneWellFormed(s) && s.root.Some?
    ensures PreOrderBelowAll(s)
    ensures var ids := PreOrder(s.root.value);
      var added := ProcessMeshes(s.meshes, ids, c, MeshStep(directory, s.materials)).0;
      forall k | 0 <= k < |ids| ::
        added[k].vertexCount == |s.meshes[ids[k]].positions| &&
        added[k].indexCount == IndexCount(s.meshes[ids[k]].faces) &&
        added[k].indices == FaceIndices(s.meshes[ids[k]].faces)
  {
    PreOrderBelow(s.root.value, |s.meshes|);
    ProcessMeshesMap(s.meshes, PreOrder(s.root.value), c, MeshStep(directory, s.materials),
                     (d: MeshRecord) => (d.vertexCount, d.indexCount, d.indices),
                     (m: ImportedMesh) => (|m.positions|, IndexCount(m.faces), FaceIndices(m.faces)));
  }
}
