/** The slice of an imported assimp scene the loaders read, and the two
    flattenings every loader performs: the node tree into a mesh list in
    pre-order (node's own meshes first, then each child's subtree in order)
    and a mesh's faces into one index list. The traversal is written once,
    generic in the per-mesh work and in the state that work threads (a
    texture cache, a GPU id counter). */
module Scene {
  import opened Wrappers
  import opened RdiyeLib

  /** `aiFace`: the vertex indices of one polygon. */
  datatype Face = Face(indices: seq<nat>)

  /** The `aiTextureType` slots the loaders ask for. */
  datatype AiTextureType =
    | DiffuseMaps | SpecularMaps | BaseColorMaps | NormalsMaps | HeightMaps
    | MetalnessMaps | DiffuseRoughnessMaps | AmbientOcclusionMaps | AmbientMaps

  /** `aiMaterial`: for each texture type, the file names stored in its slots. */
  datatype AiMaterial = AiMaterial(textures: map<AiTextureType, seq<string>>)

  /** The file names of a material's slots of type `t`, in slot order;
      `GetTextureCount(t)` is its length. */
  function Slots(mat: AiMaterial, t: AiTextureType): seq<string> {
    if t in mat.textures then mat.textures[t] else []
  }

  /** `aiMesh`: per-vertex positions and normals, the optional first UV
      channel (`mTextureCoords[0]`, null when absent), the faces, and the
      index of the mesh's material. */
  datatype AiMesh = AiMesh(positions: seq<Vec3>, normals: seq<Vec3>, uvs: Option<seq<Vec3>>,
                           faces: seq<Face>, materialIndex: nat)

  /** `aiNode`: indices into the scene's mesh array, and child nodes. */
  datatype Node = Node(meshes: seq<nat>, children: seq<Node>)

  /** `aiScene`, as the importer hands it over. `incomplete` is the
      `AI_SCENE_FLAGS_INCOMPLETE` flag; `root` is `mRootNode`, null when missing. */
  datatype AiScene = AiScene(meshes: seq<ImportedMesh>, materials: seq<AiMaterial>, root: Option<Node>, incomplete: bool)

  /** Every array a mesh indexes by vertex has one entry per vertex. */
  predicate MeshWellFormed(m: AiMesh) {
    |m.normals| == |m.positions| && (m.uvs.Some? ==> |m.uvs.value| == |m.positions|)
  }

  /** A mesh as the importer hands it over: every per-vertex array is complete. */
  type ImportedMesh = m: AiMesh | MeshWellFormed(m) witness AiMesh([], [], None, [], 0)

  /** Every mesh index stored in the subtree is below `count`. */
  predicate RefsBelow(n: Node, count: nat)
    decreases n
  {
    (forall i | 0 <= i < |n.meshes| :: n.meshes[i] < count) &&
    (forall i | 0 <= i < |n.children| :: RefsBelow(n.children[i], count))
  }

  /** What the importer guarantees of a scene it returns besides complete
      meshes: material indices in range, and node mesh indices in range. */
  predicate SceneWellFormed(s: AiScene) {
    (forall i | 0 <= i < |s.meshes| :: s.meshes[i].materialIndex < |s.materials|) &&
    (s.root.Some? ==> RefsBelow(s.root.value, |s.meshes|))
  }

  /** `scene->mMaterials[mesh->mMaterialIndex]`. The index is unsigned, so the
      sources' `mMaterialIndex >= 0` test always passes; for a well-formed
      scene the index is in range and the empty fallback is never taken. */
  function MaterialOf(materials: seq<AiMaterial>, m: AiMesh): AiMaterial {
    if m.materialIndex < |materials| then materials[m.materialIndex] else AiMaterial(map[])
  }

  // ---------------------------------------------------------------------------
  // Pre-order flattening of the node tree

  /** The mesh indices of the subtree rooted at `n`, in pre-order. */
  function PreOrder(n: Node): seq<nat>
    decreases n, |n.children| + 1
  {
    n.meshes + PreOrderFrom(n, 0)
  }

  /** The pre-order mesh indices of the children of `n` from the `i`-th on. */
  function PreOrderFrom(n: Node, i: nat): seq<nat>
    requires i <= |n.children|
    decreases n, |n.children| - i
  {
    if i == |n.children| then [] else PreOrder(n.children[i]) + PreOrderFrom(n, i + 1)
  }

  /** Per-mesh work applied, left to right, to the meshes with the given
      indices, threading the state; the processed meshes in order, and the
      final state. */
  function ProcessMeshes<S, M>(meshes: seq<ImportedMesh>, ids: seq<nat>, st: S, f: (ImportedMesh, S) -> (M, S)): (r: (seq<M>, S))
    requires forall k | 0 <= k < |ids| :: ids[k] < |meshes|
    ensures |r.0| == |ids|
    decreases |ids|
  {
    if |ids| == 0 then ([], st)
    else
      var (m, st1) := f(meshes[ids[0]], st);
      var (rest, st2) := ProcessMeshes(meshes, ids[1..], st1, f);
      ([m] + rest, st2)
  }

  /** `ProcessNode` / `build_mesh_tree` / `process_node`: a node's own meshes
      in order, then each child's subtree in order. */
  function ProcessNode<S, M>(meshes: seq<ImportedMesh>, n: Node, st: S, f: (ImportedMesh, S) -> (M, S)): (seq<M>, S)
    requires RefsBelow(n, |meshes|)
    decreases n, |n.children| + 1
  {
    var (own, st1) := ProcessMeshes(meshes, n.meshes, st, f);
    var (rest, st2) := ProcessChildren(meshes, n, 0, st1, f);
    (own + rest, st2)
  }

  /** The loop over `mChildren` from the `i`-th child on. */
  function ProcessChildren<S, M>(meshes: seq<ImportedMesh>, n: Node, i: nat, st: S, f: (ImportedMesh, S) -> (M, S)): (seq<M>, S)
    requires RefsBelow(n, |meshes|)
    requires i <= |n.children|
    decreases n, |n.children| - i
  {
    if i == |n.children| then ([], st)
    else
      var (first, st1) := ProcessNode(meshes, n.children[i], st, f);
      var (rest, st2) := ProcessChildren(meshes, n, i + 1, st1, f);
      (first + rest, st2)
  }

  /** Every index in the pre-order of a subtree is one the subtree stores. */
  lemma {:induction false} PreOrderBelow(n: Node, count: nat)
    requires RefsBelow(n, count)
    ensures forall k | 0 <= k < |PreOrder(n)| :: PreOrder(n)[k] < count
    decreases n, |n.children| + 1
  {
    PreOrderFromBelow(n, 0, count);
  }

  lemma {:induction false} PreOrderFromBelow(n: Node, i: nat, count: nat)
    requires RefsBelow(n, count) && i <= |n.children|
    ensures forall k | 0 <= k < |PreOrderFrom(n, i)| :: PreOrderFrom(n, i)[k] < count
    decreases n, |n.children| - i
  {
    if i < |n.children| {
      PreOrderBelow(n.children[i], count);
      PreOrderFromBelow(n, i + 1, count);
    }
  }

  /** Processing two index lists one after the other is processing their
      concatenation. */
  lemma {:induction false} ProcessMeshesAppend<S, M>(meshes: seq<ImportedMesh>, a: seq<nat>, b: seq<nat>, st: S, f: (ImportedMesh, S) -> (M, S))
    requires forall k | 0 <= k < |a| :: a[k] < |meshes|
    requires forall k | 0 <= k < |b| :: b[k] < |meshes|
    ensures forall k | 0 <= k < |a + b| :: (a + b)[k] < |meshes|
    ensures var (x, s1) := ProcessMeshes(meshes, a, st, f);
            var (y, s2) := ProcessMeshes(meshes, b, s1, f);
            ProcessMeshes(meshes, a + b, st, f) == (x + y, s2)
    decreases |a|
  {
    if |a| > 0 {
      var (m, st1) := f(meshes[a[0]], st);
      assert (a + b)[1..] == a[1..] + b;
      ProcessMeshesAppend(meshes, a[1..], b, st1, f);
      var (x1, s1) := ProcessMeshes(meshes, a[1..], st1, f);
      var (y, s2) := ProcessMeshes(meshes, b, s1, f);
      assert ProcessMeshes(meshes, a, st, f) == ([m] + x1, s1);
      assert ProcessMeshes(meshes, a + b, st, f) == ([m] + (x1 + y), s2);
      assert [m] + (x1 + y) == ([m] + x1) + y;
    } else {
      assert a + b == b;
      var y := ProcessMeshes(meshes, b, st, f).0;
      assert [] + y == y;
    }
  }

  /** The recursive traversal does exactly what processing the pre-order
      index list left to right does: same meshes, same order, same final
      state. */
  lemma {:induction false} ProcessNodeIsPreOrder<S, M>(meshes: seq<ImportedMesh>, n: Node, st: S, f: (ImportedMesh, S) -> (M, S))
    requires RefsBelow(n, |meshes|)
    ensures forall k | 0 <= k < |PreOrder(n)| :: PreOrder(n)[k] < |meshes|
    ensures ProcessNode(meshes, n, st, f) == ProcessMeshes(meshes, PreOrder(n), st, f)
    decreases n, |n.children| + 1
  {
    PreOrderBelow(n, |meshes|);
    PreOrderFromBelow(n, 0, |meshes|);
    var (own, st1) := ProcessMeshes(meshes, n.meshes, st, f);
    ProcessChildrenIsPreOrder(meshes, n, 0, st1, f);
    ProcessMeshesAppend(meshes, n.meshes, PreOrderFrom(n, 0), st, f);
  }

  lemma {:induction false} ProcessChildrenIsPreOrder<S, M>(meshes: seq<ImportedMesh>, n: Node, i: nat, st: S, f: (ImportedMesh, S) -> (M, S))
    requires RefsBelow(n, |meshes|) && i <= |n.children|
    ensures forall k | 0 <= k < |PreOrderFrom(n, i)| :: PreOrderFrom(n, i)[k] < |meshes|
    ensures ProcessChildren(meshes, n, i, st, f) == ProcessMeshes(meshes, PreOrderFrom(n, i), st, f)
    decreases n, |n.children| - i
  {
    PreOrderFromBelow(n, i, |meshes|);
    if i < |n.children| {
      var c := n.children[i];
      ProcessNodeIsPreOrder(meshes, c, st, f);
      var (first, st1) := ProcessNode(meshes, c, st, f);
      ProcessChildrenIsPreOrder(meshes, n, i + 1, st1, f);
      PreOrderFromBelow(n, i + 1, |meshes|);
      ProcessMeshesAppend(meshes, PreOrder(c), PreOrderFrom(n, i + 1), st, f);
    }
  }

  /** When some part `proj` of the per-mesh work's result ignores the
      state, that part of the processed list is `g` mapped over the meshes
      in the order given. */
  lemma {:induction false} ProcessMeshesMap<S, M, P>(meshes: seq<ImportedMesh>, ids: seq<nat>, st: S, f: (ImportedMesh, S) -> (M, S),
                                                     proj: M -> P, g: ImportedMesh -> P)
    requires forall k | 0 <= k < |ids| :: ids[k] < |meshes|
    requires forall m, s :: proj(f(m, s).0) == g(m)
    ensures forall k | 0 <= k < |ids| :: proj(ProcessMeshes(meshes, ids, st, f).0[k]) == g(meshes[ids[k]])
    decreases |ids|
  {
    if |ids| > 0 {
      var (m, st1) := f(meshes[ids[0]], st);
      ProcessMeshesMap(meshes, ids[1..], st1, f, proj, g);
    }
  }

  /** A property `inv` of the threaded state that every step keeps holds of
      the state the whole loop ends in. */
  lemma {:induction false} ProcessMeshesKeeps<S, M>(meshes: seq<ImportedMesh>, ids: seq<nat>, st: S, f: (ImportedMesh, S) -> (M, S),
                                                    inv: S -> bool)
    requires forall k | 0 <= k < |ids| :: ids[k] < |meshes|
    requires forall m, s :: inv(s) ==> inv(f(m, s).1)
    requires inv(st)
    ensures inv(ProcessMeshes(meshes, ids, st, f).1)
    decreases |ids|
  {
    if |ids| > 0 {
      var (m, st1) := f(meshes[ids[0]], st);
      ProcessMeshesKeeps(meshes, ids[1..], st1, f, inv);
    }
  }

  /** When every step from a state satisfying `inv` keeps `inv` and
      produces an output satisfying `good`, every processed mesh satisfies
      `good`. */
  lemma {:induction false} ProcessMeshesEach<S, M>(meshes: seq<ImportedMesh>, ids: seq<nat>, st: S, f: (ImportedMesh, S) -> (M, S),
                                                   inv: S -> bool, good: M -> bool)
    requires forall k | 0 <= k < |ids| :: ids[k] < |meshes|
    requires forall m, s :: inv(s) ==> inv(f(m, s).1) && good(f(m, s).0)
    requires inv(st)
    ensures inv(ProcessMeshes(meshes, ids, st, f).1)
    ensures forall k | 0 <= k < |ids| :: good(ProcessMeshes(meshes, ids, st, f).0[k])
    decreases |ids|
  {
    if |ids| > 0 {
      var (m, st1) := f(meshes[ids[0]], st);
      ProcessMeshesEach(meshes, ids[1..], st1, f, inv, good);
    }
  }

  // ---------------------------------------------------------------------------
  // Face flattening

  /** The total number of indices over all faces: `index_count`. */
  function IndexCount(faces: seq<Face>): nat {
    if |faces| == 0 then 0 else IndexCount(faces[..|faces| - 1]) + |faces[|faces| - 1].indices|
  }

  /** The faces' indices concatenated in face order. */
  function FaceIndices(faces: seq<Face>): seq<nat> {
    if |faces| == 0 then [] else FaceIndices(faces[..|faces| - 1]) + faces[|faces| - 1].indices
  }

  /** Each face contributes its indices, in order, at the offset given by
      the faces before it. */
  lemma {:induction false} FaceIndicesLayout(faces: seq<Face>, f: nat, j: nat)
    requires f < |faces| && j < |faces[f].indices|
    ensures |FaceIndices(faces)| == IndexCount(faces)
    ensures IndexCount(faces[..f]) + j < |FaceIndices(faces)|
    ensures FaceIndices(faces)[IndexCount(faces[..f]) + j] == faces[f].indices[j]
    decreases |faces|
  {
    FaceIndicesLength(faces);
    var last := |faces| - 1;
    assert faces[..last][..|faces[..last]|] == faces[..last];
    if f < last {
      assert faces[..last][..f] == faces[..f];
      FaceIndicesLayout(faces[..last], f, j);
    } else {
      FaceIndicesLength(faces[..last]);
    }
  }

  /** The concatenation holds exactly `index_count` indices. */
  lemma {:induction false} FaceIndicesLength(faces: seq<Face>)
    ensures |FaceIndices(faces)| == IndexCount(faces)
    decreases |faces|
  {
    if |faces| > 0 {
      FaceIndicesLength(faces[..|faces| - 1]);
    }
  }

  /** The two face loops of `ProcessMesh`: first summing `mNumIndices` into
      `index_count`, then copying every face's indices into `index_list` in
      order. */
  method FlattenFaces(faces: seq<Face>) returns (indexCount: nat, indexList: seq<nat>)
    ensures indexCount == IndexCount(faces)
    ensures indexList == FaceIndices(faces)
    ensures |indexList| == indexCount
  {
    indexCount := 0;
    var f := 0;
    while f < |faces|
      invariant 0 <= f <= |faces|
      invariant indexCount == IndexCount(faces[..f])
    {
      assert faces[..f + 1][..f] == faces[..f];
      indexCount := indexCount + |faces[f].indices|;
      f := f + 1;
    }
    assert faces[..|faces|] == faces;
    indexList := [];
    f := 0;
    while f < |faces|
      invariant 0 <= f <= |faces|
      invariant indexList == FaceIndices(faces[..f])
    {
      var j := 0;
      while j < |faces[f].indices|
        invariant 0 <= j <= |faces[f].indices|
        invariant indexList == FaceIndices(faces[..f]) + faces[f].indices[..j]
      {
        indexList := indexList + [faces[f].indices[j]];
        j := j + 1;
      }
      assert faces[f].indices[..j] == faces[f].indices;
      assert faces[..f + 1][..f] == faces[..f];
      f := f + 1;
    }
    FaceIndicesLength(faces);
  }

  // ---------------------------------------------------------------------------
  // Vertex assembly

  /** `vertex_data` / `Vertex` / `vertex`: position, normal, texture coordinate. */
  datatype Vertex = Vertex(position: Vec3, normal: Vec3, texCoords: Vec2)

  /** The vertex loop shared by all loaders: positions and normals copied,
      the texture coordinate taken from the first UV channel's x and y, or
      (0, 0) when the mesh has no UV channel. */
  function Vertices(m: AiMesh): (vs: seq<Vertex>)
    requires MeshWellFormed(m)
    ensures |vs| == |m.positions|
  {
    seq(|m.positions|, i requires 0 <= i < |m.positions| =>
      Vertex(m.positions[i], m.normals[i],
             if m.uvs.Some? then Vec2(m.uvs.value[i].x, m.uvs.value[i].y) else Vec2(0.0, 0.0)))
  }

  /** A mesh without a UV channel gets (0, 0) everywhere; positions and normals
      are carried over unchanged, so the mesh can be rebuilt from its vertices. */
  lemma VerticesFaithful(m: AiMesh)
    requires MeshWellFormed(m)
    ensures m.uvs.None? ==> forall i | 0 <= i < |Vertices(m)| :: Vertices(m)[i].texCoords == Vec2(0.0, 0.0)
    ensures seq(|Vertices(m)|, i requires 0 <= i < |Vertices(m)| => Vertices(m)[i].position) == m.positions
    ensures seq(|Vertices(m)|, i requires 0 <= i < |Vertices(m)| => Vertices(m)[i].normal) == m.normals
  {
  }
}
