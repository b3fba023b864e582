# rdiye core, modelled in Dafny

rdiye is a small C++ OpenGL renderer. Its GPU-independent logic is modelled
here: the `rdiye_lib.h` maths library, the two model loaders of the C API
(`rd_model.h`, `rd_mesh.h`), the C++ loaders (`model.hpp`,
`model_loader.hpp`), textures (`texture.hpp`), materials (`material.hpp`),
lights (`lights.hpp`, `lighting.hpp`), the two cameras (`camera.h`,
`camera.hpp`), and the window callbacks of `rdiye.cpp` and
`demo/breakout.cpp`.

The OpenGL side is a trace. `GlTrace` records the state the calls leave
behind: the active texture unit, the texture bound on each unit, the
uniforms and the draws issued. A renderer operation is modelled as the
sequence of calls it makes, and its properties are stated about the
state `GlTrace.Run` reaches. Texture and buffer names handed out by the
GPU are fresh naturals drawn from a counter. Whether stb_image decodes a
file is a parameter `decoded: string -> bool`. What Assimp returns for a
path is a parameter too: an optional `Scene.AiScene`.

Modules, in dependency order:

- `Wrappers`: `Option` and `Result`.
- `RdiyeLib`: vectors, boxes and 4x4 matrices of `rdiye_lib.h`. Reals stand
  for `f32`.
- `CString`: the `std::string` operations the loaders use (`find_last_of`,
  `substr`, `find`, `to_string`, concatenation). `size_t` wraps modulo 2^64
  and `npos` is 2^64 - 1.
- `Paths`: `ReplaceAll` and the backslash-to-slash normalisation of texture
  names, and the directory of a model path.
- `Scene`: the importer's scene, the pre-order walk of its node tree shared
  by all four loaders, and the vertex and index arrays built from a mesh.
- `TextureHpp`: the texture type table, and the constructor that derives a
  texture's type from its file name's suffix.
- `GlTrace`: the call trace described above.
- `UniformNaming`: the `material.diffuseN` / `material.specularN` naming of
  `Mesh::draw`, shared by both C++ loaders.
- `RdModel`, `RdMesh`: the C loaders, with their normalised texture cache and
  the five-texture PBR groups.
- `ModelHpp`, `ModelLoader`: the C++ loaders, with their per-model memo of
  textures keyed by raw path.
- `MaterialHpp`: the global texture cache keyed by file name, materials, and
  their upload to the shader.
- `Lights`, `Lighting`: light initialisers and their uniform uploads.
- `CameraH`, `CameraHpp`: the C camera and the class camera. Trigonometry is
  a parameter `orient` that turns yaw, pitch and world-up into front, right
  and n = normalize(right x front). camera.hpp stores n as the up vector;
  camera.h stores -n.
- `Rdiye`, `Breakout`: window state and the callbacks of the engine and of
  the demo.

## Model

| member | source | states |
|---|---|---|
| RdiyeLib.CrossPerpendicular | src/rdiye_lib.h:432-440 | the cross product is perpendicular to both factors and anticommutes |
| RdiyeLib.GetRectangleCenter | src/rdiye_lib.h:829-845 | the centre is equidistant from both corners on every axis |
| RdiyeLib.RectangleHalfOpen | src/rdiye_lib.h:493-503 | the min corner and the centre are inside exactly when the box is non-degenerate; the max corner never is |
| RdiyeLib.InsideNearCenter | src/rdiye_lib.h:493-503 | a point inside the box lies within half the box's extent of its centre, closed below and open above |
| RdiyeLib.Mat3RoundTrip | src/rdiye_lib.h:515-538 | narrowing a widened 3x3 matrix gives it back; the padding is the row and column (0, 0, 0, 1) |
| RdiyeLib.ProgressAdvance | src/rdiye_lib.h:540-560 | the triple loop's progress invariant carries from one output entry to the next, and after the last entry every entry holds its dot product |
| RdiyeLib.MulLoop | src/rdiye_lib.h:540-560 | the triple loop of `operator*` computes the matrix product |
| RdiyeLib.IdentityUnit | src/rdiye_lib.h:562-592 | the identity is a two-sided unit of the product and fixes every vector |
| RdiyeLib.TranslationAction | src/rdiye_lib.h:573-611 | a translation moves a point by its offset; two translations compose into the translation by the sum |
| RdiyeLib.ScalingAction | src/rdiye_lib.h:664-681 | a scaling multiplies each coordinate by its factor; the uniform overload scales the whole point |
| RdiyeLib.ShearGuardAdmitsNegative | src/rdiye_lib.h:683-691 | the `i < 4`, `j < 4` checks admit index -1, outside the array |
| RdiyeLib.Shear | src/rdiye_lib.h:683-691 | inside the array, the result is the identity except for entry (i, j), which holds the factor |
| RdiyeLib.ShearAction | src/rdiye_lib.h:683-691 | a shear adds `s` times component j to component i and leaves the others alone; a diagonal shear scales component i |
| RdiyeLib.OrthographicMapping | src/rdiye_lib.h:693-710 | the projection maps each axis affinely onto [-1, 1]: (left, bottom, -near) to (-1, -1, -1) and (right, top, -far) to (1, 1, 1) |
| RdiyeLib.ScaleAfterTranslate | src/rdiye_lib.h:701-707 | `S * T` translates first, then scales |
| RdiyeLib.OrthographicBoxCorners | src/rdiye_lib.h:712-724 | the box overloads map the box's min corner to (-1, -1, -1) and its max corner to (1, 1, 1) |
| CString.Wrap | src/texture.hpp:64-75 | `size_t` arithmetic is the value reduced modulo 2^64 |
| CString.FindLastOf | src/rd_model.h:306 | the result is the last index holding the character, and is absent exactly when the character is absent |
| CString.FindLastOfPos | src/texture.hpp:64-75 | `npos` exactly when the character is absent; otherwise an index holding it |
| CString.Concat | src/model.hpp:156 | concatenation succeeds exactly when the result fits `max_size()`, and is then the two strings joined |
| CString.FirstIndexOf | src/model.hpp:148-154 | the first index holding the element; absent exactly when the element is absent |
| CString.FirstIndexOfExtend | src/model.hpp:148-161 | appending keeps an existing element's first index; an element appended first is found at the old length |
| CString.Substr | src/texture.hpp:64-75 | `substr` fails exactly when the start is past the end; it returns the requested characters, clipped to the string |
| CString.Find | src/rd_model.h:42-50 | the first match at or after the start position; absent exactly when there is none |
| CString.NatToString | src/lighting.hpp:50-61 | `std::to_string` gives a non-empty string of decimal digits, with at least two digits from 10 on |
| CString.NatToStringSpells | src/lighting.hpp:52 | the digits spell the number in decimal, read left to right, with no leading zero |
| CString.NatToStringInjective | src/lighting.hpp:50-61 | distinct indices are spelled differently |
| Paths.ReplaceAll | src/rd_model.h:42-50 | the find-and-replace loop replaces every occurrence, left to right, never rescanning replaced text |
| Paths.ReplaceStep | src/rd_model.h:45-49 | one replacement followed by a skip past it keeps the loop's target value unchanged |
| Paths.ReplaceDone | src/rd_model.h:45-49 | when no occurrence is left after the position, the loop's target is the current string |
| Paths.ReplacedAtFirstMatch | src/rd_model.h:42-50 | the replacement splits at the first occurrence: the text before it, the replacement, and the rest replaced in turn |
| Paths.ReplaceAllWithoutOccurrence | src/rd_model.h:42-50 | a string without the target is left unchanged |
| Paths.NormaliseCharwise | src/rd_model.h:58-60 | normalising turns each backslash into a slash and keeps every other character, at the same position |
| Paths.NormaliseIdempotent | src/rd_model.h:58-60 | a normalised name has no backslash, and normalising again changes nothing |
| Paths.NormaliseSeparatorsAgree | src/rd_model.h:58-63 | names that differ only in the separator used normalise to the same key |
| Paths.Directory | src/rd_model.h:306 | the directory is the path up to its last '/', or the whole path when it has no '/' |
| TextureHpp.OrdinalRoundTrip | src/texture.hpp:11-29 | type and table index convert both ways without loss |
| TextureHpp.TypeNameTable | src/texture.hpp:11-29 | each of the eight types is named by its own spelling, and no two share a name |
| TextureHpp.SuffixType | src/texture.hpp:64-72 | `_s` is specular, `_n` normal, `_p` parallax, and every other suffix diffuse |
| TextureHpp.TextureFromPath | src/texture.hpp:38-79 | an undecoded file gives an empty texture; a decoded one throws exactly when its last '.' is missing or before index 2, and otherwise gets a fresh id and a type |
| TextureHpp.TextureNameAndType | src/texture.hpp:64-79 | a decoded texture's type comes from the two characters before the last '.', and its name is the text between the last '/' and that '.' |
| TextureHpp.NameBetween | src/texture.hpp:74-75 | the wrapped `substr` arithmetic for the name yields the text between the last '/' and the last '.' |
| TextureHpp.AssetTexture | src/tests/test.cpp:10-19 | an asset `assets/<stem>.jpg` is named `<stem>` and typed by the stem's last two characters |
| TextureHpp.TextureTestStems | src/tests/test.cpp:10-19 | the test files `brickwall_n` and `bricks2_p` are typed normal and parallax |
| Scene.ProcessMeshes | src/rd_model.h:291-302 | one mesh is produced per index visited |
| Scene.ProcessMeshesAppend | src/rd_model.h:291-302 | processing two index lists in turn is processing their concatenation |
| Scene.ProcessNodeIsPreOrder | src/rd_model.h:291-302 | the recursive walk processes exactly the node tree's mesh indices in pre-order, threading the state through |
| Scene.ProcessChildrenIsPreOrder | src/model.hpp:137-139 | the children loop processes the children's subtrees in order |
| Scene.PreOrderBelow | src/model.hpp:104-108 | in a well-formed scene every index the walk visits is a valid mesh index |
| Scene.ProcessMeshesMap | src/model_loader.hpp:118-126 | a per-mesh property that ignores the state holds of every produced mesh against its source mesh |
| Scene.ProcessMeshesKeeps | src/model_loader.hpp:118-126 | an invariant kept by one step is kept by the whole walk |
| Scene.ProcessMeshesEach | src/model.hpp:104-140 | an invariant kept by one step holds at the end, and a property of every step's mesh holds of every mesh |
| Scene.FaceIndicesLayout | src/rd_model.h:182-191 | each face's indices sit, in order, at the offset given by the faces before it |
| Scene.FaceIndicesLength | src/rd_model.h:152-156 | the counting loop's total is the length of the flattened list |
| Scene.FlattenFaces | src/rd_model.h:152-191 | the two face loops compute the index count and the faces' indices concatenated in order |
| Scene.Vertices | src/rd_model.h:162-180 | one vertex per position |
| Scene.VerticesFaithful | src/model_loader.hpp:189-212 | vertices carry the mesh's positions and normals, and texture coordinates (0, 0) when the mesh has none |
| GlTrace.RunAppend | src/model.hpp:167-171 | running two call sequences in turn is running their concatenation |
| GlTrace.BindToUnit | src/model.hpp:57-78 | select, point the sampler, bind: the unit is active, holds the texture, and the sampler names it |
| GlTrace.BindThenPoint | src/material.hpp:107-131 | select, bind, point the sampler: the same state as the other order |
| GlTrace.RunSetsElsewhere | src/lighting.hpp:23-28 | uniform uploads touch only uniforms, and only those they name |
| GlTrace.RunSetsLast | src/lighting.hpp:50-61 | after a run of uploads a uniform holds the value of the last call naming it |
| UniformNaming.BindCalls | src/model.hpp:57-78 | three calls per texture |
| UniformNaming.Draw | src/model.hpp:57-78 | the two running counters produce the same calls as the count-of-earlier-textures definition |
| UniformNaming.CountOfPrefixGrows | src/model.hpp:58-70 | a type's counter strictly grows past each texture of that type |
| UniformNaming.UniformNamesDistinct | src/model.hpp:57-78 | with diffuse and specular textures only, no two textures get the same sampler name |
| UniformNaming.BindCallsEffect | src/model.hpp:60-73 | after the loop every texture's sampler points at a unit holding that texture; no draw is issued |
| UniformNaming.DrawSamplesEachTexture | src/model.hpp:57-78 | after `Mesh::draw` unit 0 is active, exactly one indexed draw was added, and each sampler samples its texture |
| UniformNaming.DrawCallsDrawOnce | src/model.hpp:74-77 | drawing a mesh adds exactly one indexed draw of its index count |
| RdModel.LoadTexture | src/rd_model.h:54-106 | the id cached under the normalised name; an uncached name gets a fresh id, cached under it, and nothing else changes |
| RdModel.LoadTextureIdempotent | src/rd_model.h:54-106 | loading a name again returns the same id and leaves the cache alone |
| RdModel.LoadTextureSeparatorsAgree | src/rd_model.h:54-106 | names differing only in the separator get the same id |
| RdModel.LoadTextures | src/rd_model.h:194-267 | every loaded name is cached under its id, and existing entries are kept |
| RdModel.FirstSlotPath | src/rd_model.h:194-267 | the first texture of the first non-empty slot in priority order, or the fallback when all are empty |
| RdModel.PbrFilesPriority | src/rd_model.h:194-267 | albedo prefers diffuse over base colour, normal prefers normals over height, ao prefers occlusion over ambient; an empty material gives the directory and the three default textures |
| RdModel.ProcessMesh | src/rd_model.h:146-287 | the mesh holds the importer's vertices and flattened faces, and each PBR slot's texture id as cached |
| RdModel.LoadGroup | src/rd_model.h:194-267 | the five ids of the group are those cached under the five files |
| RdModel.LoadModel | src/rd_model.h:304-324 | a missing scene or root is an error; otherwise the directory is cut from the path and there is one mesh per node-tree mesh reference |
| RdModel.LoadModelPreOrder | src/rd_model.h:291-324 | the model's meshes are the scene's meshes in node pre-order, with their vertices and indices |
| RdModel.LoadModelIgnoresIncomplete | src/rd_model.h:313-321 | the incomplete flag does not change the result |
| RdModel.GroupBindings | src/rd_model.h:108-121 | the group's five ids in unit order |
| RdModel.UnitBindingsEffect | src/rd_model.h:109-121 | consecutive units receive the given textures; other units, uniforms and draws are unchanged |
| RdModel.PbrUnits | src/rd_model.h:108-121 | albedo, normal, metallic, roughness and ao land on units 0 to 4, and unit 4 is left active |
| RdModel.RenderModelDraws | src/rd_model.h:135-144 | rendering adds one indexed draw per mesh, in mesh order, of that mesh's index count |
| RdMesh.MeshData | src/rd_mesh.h:128-154 | a record with the given counts and data, an element buffer exactly when there are indices, and no textures |
| RdMesh.MeshDataUntextured | src/rd_mesh.h:156-179 | the same, with positions only |
| RdMesh.RenderMeshDraw | src/rd_mesh.h:181-193 | exactly one draw: indexed with the index count when there are indices, otherwise plain with the vertex count |
| RdMesh.ProcessMesh | src/rd_mesh.h:195-326 | the record holds the mesh's vertices, index count and indices, an element buffer when there are indices, and a texture group |
| RdMesh.LoadModel | src/rd_mesh.h:332-346 | a missing scene or root is an error; otherwise the scene's meshes are appended and the caller's list is kept as a prefix |
| RdMesh.LoadModelAppendsPreOrder | src/rd_mesh.h:195-346 | the appended records are the scene's meshes processed in node pre-order |
| RdMesh.PreOrderMeshRecords | src/rd_mesh.h:195-330 | each appended record has its source mesh's vertex count, index count and indices |
| ModelHpp.Cached | src/model.hpp:147-154 | the memo answers exactly for the raw paths it records |
| ModelHpp.CachedStable | src/model.hpp:142-165 | what the memo holds for a recorded path never changes as it grows |
| ModelHpp.LoadSlot | src/model.hpp:142-165 | a recorded path is served from the memo; otherwise the texture is built from `dir/raw`, throws exactly when the path is unloadable, gets the requested type and a fresh id when decoded, and is recorded |
| ModelHpp.LoadMaterialTextures | src/model.hpp:142-165 | one texture per slot, and the memo only grows |
| ModelHpp.LoadMaterialTexturesCached | src/model.hpp:142-165 | afterwards the memo maps every slot's path to the texture returned for it |
| ModelHpp.LoadMaterialTexturesHits | src/model.hpp:147-154 | a slot already in the memo gets the memo's texture |
| ModelHpp.LoadMaterialTexturesFresh | src/model.hpp:155-162 | each new memo entry has the requested type, comes from a slot, was not recorded before, and used one id |
| ModelHpp.LoadMaterialTexturesDistinct | src/model.hpp:142-165 | the memo never records a raw path twice |
| ModelHpp.LoadMaterialTexturesThrows | src/model.hpp:142-165 | loading fails only if some unrecorded slot is unloadable, and succeeds when none is |
| ModelHpp.LoadMaterialTexturesTyped | src/model.hpp:142-165 | requesting diffuse or specular keeps every texture typed |
| ModelHpp.BuildMesh | src/model.hpp:104-136 | the mesh holds the importer's vertices and indices and one texture per diffuse and specular slot |
| ModelHpp.BuildMeshTextureOrder | src/model.hpp:128-134 | the mesh lists the diffuse textures, then the specular ones, each as the memo records it |
| ModelHpp.NewModel | src/model.hpp:92-102 | a failed import returns an empty model; otherwise the directory is cut from the path and there is one mesh per node-tree reference |
| ModelHpp.ModelPreOrder | src/model.hpp:104-140 | the meshes are the scene's meshes in node pre-order |
| ModelHpp.MeshStepTyped | src/model.hpp:104-136 | each step keeps the memo typed and yields typed textures |
| ModelHpp.ModelTyped | src/model.hpp:92-140 | every mesh of a built model holds only diffuse and specular textures |
| ModelHpp.DrawView | src/model.hpp:57-78 | `draw` sees each texture's id and type |
| ModelHpp.ModelDrawDraws | src/model.hpp:167-171 | drawing a model adds one indexed draw per mesh, in mesh order |
| ModelLoader.TypeStringAgrees | src/model_loader.hpp:24-30 | the loader's names match texture.hpp's, so both build the same sampler names |
| ModelLoader.Cached | src/model_loader.hpp:164-171 | the array answers exactly for recorded paths, with a texture of that path |
| ModelLoader.CachedStable | src/model_loader.hpp:159-182 | what the array holds for a recorded path never changes as it grows |
| ModelLoader.LoadSlot | src/model_loader.hpp:159-182 | a recorded path is served from the array; otherwise a texture with a fresh id, the type and the path is appended |
| ModelLoader.LoadMaterialTextures | src/model_loader.hpp:159-182 | one texture per slot, and the array only grows |
| ModelLoader.LoadMaterialTexturesCached | src/model_loader.hpp:159-182 | afterwards the array maps every slot's path to the texture returned for it |
| ModelLoader.LoadMaterialTexturesHits | src/model_loader.hpp:164-171 | a slot already loaded gets the loaded texture |
| ModelLoader.LoadMaterialTexturesFresh | src/model_loader.hpp:172-179 | new entries have the requested type, consecutive fresh ids and new paths from the slots |
| ModelLoader.ProcessMesh | src/model_loader.hpp:184-230 | the mesh holds the importer's vertices and indices and one texture per diffuse and specular slot |
| ModelLoader.ProcessMeshTextureOrder | src/model_loader.hpp:221-227 | diffuse textures first, then specular, each as the array records it |
| ModelLoader.NewModelObject | src/model_loader.hpp:105-116 | a failed import keeps no directory and no meshes; otherwise one mesh per node-tree reference |
| ModelLoader.ModelObjectPreOrder | src/model_loader.hpp:105-126 | the meshes are the scene's meshes in node pre-order |
| ModelLoader.DrawView | src/model_loader.hpp:70-91 | `draw` sees each texture's id and type |
| ModelLoader.ModelDrawDraws | src/model_loader.hpp:232-236 | one indexed draw per mesh, in mesh order |
| ModelLoader.MeshDrawSamples | src/model_loader.hpp:70-91 | every sampler name is spelled from the loader's table and samples its texture |
| MaterialHpp.LoadTexture | src/material.hpp:20-58 | a cached name returns its id unchanged; otherwise a fresh id is returned and recorded only when the file decodes |
| MaterialHpp.LoadTextureIdempotent | src/material.hpp:20-58 | once a name is recorded, loading it again returns the same id and changes nothing |
| MaterialHpp.LoadTextureRetries | src/material.hpp:20-58 | a file that does not decode is retried on every call, with a new id each time |
| MaterialHpp.LoadTextureRawKeys | src/material.hpp:20-28 | names are not normalised: `a\b.png` and `a/b.png` get different ids |
| MaterialHpp.LoadMaterial | src/material.hpp:94-105 | the colours and shininess are stored as given |
| MaterialHpp.LoadMaterialCached | src/material.hpp:94-105 | each loadable map of the material holds the id the cache records for its name |
| MaterialHpp.LoadMaterialDefaults | src/material.hpp:94-105 | with defaults, colours are white and shininess 1; diffuse, specular and parallax share the black texture once it decodes |
| MaterialHpp.ColourEffect | src/material.hpp:108-110 | the colour calls set the three colour uniforms and nothing else |
| MaterialHpp.MapEffect | src/material.hpp:112-128 | diffuse, specular, normal and parallax maps land on units 0 to 3 with their samplers, and the shininess is set |
| MaterialHpp.MaterialBindingsEffect | src/material.hpp:107-128 | the colour uploads leave textures and draws alone |
| MaterialHpp.ParallaxUnbound | src/material.hpp:126-130 | as written, the parallax sampler ends up on texture 0 |
| MaterialHpp.MaterialSamplesEachMap | src/material.hpp:107-128 | without the final unbind every sampler samples its map, and the uniforms hold the material's values |
| Lights.CreateDirLight | src/lights.hpp:16-20 | the light is a dim white: ambient 0.05, diffuse 0.4, specular 0.5 |
| Lights.CreateWhitePointLights | src/lights.hpp:31-40 | the first `size` entries become the white point light and the others are kept |
| Lights.WhitePrefixProperties | src/lights.hpp:31-40 | initialising is idempotent, and a longer prefix covers a shorter one |
| Lighting.DirLightUniforms | src/lighting.hpp:23-28 | the four directional-light uniforms hold the direction and colours; nothing else changes |
| Lighting.PointLightCalls | src/lighting.hpp:52-59 | seven uploads per light, under `point_lights[i].` and the seven field names |
| Lighting.SetShaderPointLights | src/lighting.hpp:50-61 | seven uploads per light, in order, with light i's names at positions 7i to 7i+6 |
| Lighting.PointLightsCallsNames | src/lighting.hpp:50-61 | upload 7i+k is field k of light i |
| Lighting.PointLightNamesDistinct | src/lighting.hpp:50-61 | no two (light, field) pairs share a uniform name |
| Lighting.LaterNamesDiffer | src/lighting.hpp:50-61 | no later upload overwrites an earlier one |
| Lighting.PointLightUniforms | src/lighting.hpp:50-61 | afterwards each field of each light holds that light's value |
| Lighting.WhiteLightsUploaded | src/lighting.hpp:39-61 | after initialising and uploading the first `size` point lights, each one's uniforms hold the white light's colours and factors and its position, whatever the array held before |
| Lighting.DirLightUploaded | src/lighting.hpp:17-28 | after initialising and uploading the directional light, the shader holds the given direction and the fixed colours 0.05, 0.4 and 0.5, whatever the record held before |
| CameraH.DefaultsInRange | src/camera.h:27-40 | the defaults keep pitch and field of view in range, the near plane before the far, and positive speeds |
| CameraH.DefaultCamera | src/camera.h:52-63 | at the origin, looking down -z with +y up, with the default settings |
| CameraH.ClampPitch | src/camera.h:147-150 | pitch ends in [-89, 89] and is kept when already there |
| CameraH.ClampFov | src/camera.h:158-163 | field of view ends in [1, 90] and is kept when already there |
| CameraH.ClampsMonotone | src/camera.h:141-164 | both clamps are monotone and idempotent |
| CameraH.MoveCamera | src/camera.h:123-139 | moving changes only the position |
| CameraH.ForwardBackwardInverse | src/camera.h:123-139 | forward then backward by the same delta returns to the start; forward moves along front by speed times delta |
| CameraH.LeftRightInverse | src/camera.h:123-139 | left and right undo each other; right moves along the right vector |
| CameraH.MouseSettings | src/camera.h:141-150 | yaw turns freely, pitch turns within [-89, 89] and sticks at the limit; no other setting changes |
| CameraH.ProcessCameraMouseAsWritten | src/camera.h:141-154 | the settings change as above and the vectors are recomputed, with the negated n stored as up |
| CameraH.ProcessCameraMouse | src/camera.h:141-154 | the corrected handler: the same settings, front and right, with n stored as up |
| CameraH.ProcessCameraScroll | src/camera.h:156-164 | only the field of view changes, clamped to [1, 90] |
| CameraH.ScrollDirection | src/camera.h:156-164 | scrolling up never widens the view, scrolling down never narrows it |
| CameraH.HandlersKeepRange | src/camera.h:141-164 | the mouse and scroll handlers keep the settings in range |
| CameraH.AsWrittenNegatesUp | src/camera.h:75-78 | the as-written and the corrected handler differ only in the sign of up |
| CameraH.UpFlipsAfterMouse | src/camera.h:52-79 | the default camera has up +y; one mouse event that does not move turns it into -y as written, and leaves the camera unchanged when corrected |
| CameraHpp.DefaultsAgree | src/camera.hpp:20-30 | the class camera's defaults are camera.h's |
| CameraHpp.Construct | src/camera.hpp:57-91 | a constructed camera has the given position and settings and the vectors `update_vectors` computes |
| CameraHpp.CameraWith | src/camera.hpp:57-64 | the full constructor constructs as above |
| CameraHpp.CameraAt | src/camera.hpp:66-73 | the position-only constructor uses the default settings |
| CameraHpp.CameraWithSettings | src/camera.hpp:75-82 | the settings-only constructor places the camera at the origin |
| CameraHpp.DefaultCamera | src/camera.hpp:84-91 | the default constructor uses the default settings at the origin |
| CameraHpp.UpdateVectors | src/camera.hpp:102-110 | front, right and up are recomputed; nothing else changes |
| CameraHpp.Move | src/camera.hpp:112-128 | moving changes only the position |
| CameraHpp.ProcessMouse | src/camera.hpp:130-142 | yaw turns freely, pitch within [-89, 89] |
| CameraHpp.ProcessScroll | src/camera.hpp:144-151 | only the field of view changes, within [1, 90] |
| CameraHpp.MoveAgrees | src/camera.hpp:112-128 | `move` does what camera.h's `MoveCamera` does |
| CameraHpp.MouseAgrees | src/camera.hpp:102-142 | `process_mouse` agrees with camera.h's handler in settings, position, front and right, with the up vector negated; it is the corrected handler exactly |
| CameraHpp.ScrollAgrees | src/camera.hpp:144-151 | `process_scroll` does what `ProcessCameraScroll` does |
| CameraHpp.DefaultCamerasAgree | src/camera.hpp:84-91 | the default cameras of the two headers differ only in the recomputed vectors |
| Rdiye.U16 | src/rdiye.cpp:37-42 | storing into a `u16` keeps the value modulo 2^16 |
| Rdiye.ResizeCallback | src/rdiye.cpp:37-42 | only the window size changes |
| Rdiye.ResizeStoresSize | src/rdiye.cpp:37-42 | sizes below 2^16 are stored as given; 65536 wraps to 0 and -1 to 65535 |
| Rdiye.MouseOffset | src/rdiye.cpp:44-60 | the first event gives a zero offset; later ones the cursor's travel with y inverted; the position is latched |
| Rdiye.MouseCallback | src/rdiye.cpp:44-60 | the camera turns by the offset with camera.h's up sign, the latch is set, nothing else changes |
| Rdiye.MouseOffsetsTelescope | src/rdiye.cpp:44-60 | the offsets reported over a run of events sum to the cursor's total travel, with y inverted |
| Rdiye.YawFollowsTravel | src/rdiye.cpp:44-60 | over a run of events the yaw turns by the x sensitivity times the cursor's x travel, and the sensitivity is unchanged; the pitch is clamped per event |
| Rdiye.MoveKeys | src/rdiye.cpp:76-91 | the movement keys change only the camera's position |
| Rdiye.ProcessInput | src/rdiye.cpp:62-92 | escape stops the game; T wins over R for the polygon mode; only the camera position moves |
| Rdiye.OppositeKeysCancel | src/rdiye.cpp:76-91 | W with S, and A with D, cancel out |
| Rdiye.WAndDBothMove | src/rdiye.cpp:76-91 | W with D moves along front and right |
| Rdiye.ScrollCallback | src/rdiye.cpp:94-97 | only the field of view changes, within [1, 90] |
| Rdiye.GameInit | src/rdiye.cpp:99-136 | on success the game runs in a 1920x1080 window with the default camera and the cursor latched at the centre; on failure nothing changes |
| Rdiye.GameInitInRange | src/rdiye.cpp:99-136 | the initial camera's settings are in range |
| Rdiye.Tick | src/rdiye.cpp:303-305 | the frame delta is the time since the last frame, and the clock advances to now |
| Rdiye.TicksTelescope | src/rdiye.cpp:301-305 | the deltas add up to the time elapsed, and the clock ends at the last frame |
| Rdiye.Frame | src/rdiye.cpp:301-307 | a frame advances the clock and then processes input |
| Rdiye.DrawCountOvershoots | src/rdiye.cpp:287-293 | as written, the cube's draw count is 64 times the vertex count its buffer holds |
| Rdiye.DrawCountCoversBuffer | src/rdiye.cpp:287-293 | the corrected count covers the buffer exactly |
| Breakout.ProcessInput | src/demo/breakout.cpp:35-51 | a mode change or move only when no earlier key in the chain is held |
| Breakout.ProcessInputPriority | src/demo/breakout.cpp:35-51 | the action of a key is taken exactly when it is held and no earlier key is; nothing when none is held |
| Breakout.FirstMouseFromStart | src/demo/breakout.cpp:23-66 | from start-up the first mouse event reports no movement and latches its position in place of the centre (960, 540); the next reports the movement since |
| Breakout.Apply | src/demo/breakout.cpp:35-51 | exactly the chosen action's effect, nothing else |
| Breakout.OneActionPerCall | src/demo/breakout.cpp:35-51 | at most one move per call; escape only closes; R before T, the reverse of rdiye.cpp |
| Breakout.MouseCallback | src/demo/breakout.cpp:53-66 | the first event gives a zero offset, later ones the travel with y inverted; the latch is set |
| Breakout.MouseAgrees | src/demo/breakout.cpp:53-66 | the demo's latch is rdiye.cpp's with the flag inverted |
| Breakout.Frame | src/demo/breakout.cpp:131-136 | a requested move uses the time since the last frame |
| Breakout.FrameClockAgrees | src/demo/breakout.cpp:131-136 | a demo frame computes the delta and the time as the engine's clock step does, and stamps a requested move with that delta |

## Left out

- Trigonometry: `UpdateCameraVectors`, `update_vectors`' sines and cosines, `LookAt`, perspective and view matrices, `Rotation`, `Inverse`, `Normalize` and `Length`. The camera takes the orientation as the parameter `orient`.
- Floating point: reals stand for `f32` and `f64`, so rounding and the `f64`-to-`f32` conversions of the callbacks are not modelled.
- RdiyeLib.OrthographicMapping: requires `left != right`, `bottom != top` and `near != far`; on equal bounds the source divides by zero, and its infinities are not modelled. The `Assert(near_plane > far_plane)` of rdiye_lib.h:699 only prints (rdiye_lib.h:51), so planes in either order are modelled as the source computes them.
- RdiyeLib.Shear: requires both indices inside the array, the corrected guard; the as-written guard is `ShearGuardAsWritten`.
- OpenGL objects: vertex arrays, vertex and element buffers, attribute layouts, shader compilation (`shader.hpp`), and texture parameters and uploads. The trace records only units, bindings, uniforms and draws.
- Image decoding and the importer are parameters (`decoded`, the optional scene); file I/O, `stbi_set_flip_vertically_on_load` and the importer flags are not modelled.
- `load_cubemap` (material.hpp:60-81): it only uploads six faces through OpenGL.
- RdModel.LoadModel: on a missing scene or root the source does nothing (its `if` holds only a comment), then dereferences the null pointer; the model returns an error instead.
- RdMesh.LoadModel: the same as RdModel.LoadModel: on a missing scene or root the source does nothing, then dereferences the null pointer; the model returns an error instead.
- RdModel: `TEXTURE_DEFAULT_WHITE` is defined in no file of this model, so its value is left abstract.
- Rdiye: the `#if 0` `GameRun` is dead code; the live `GameRun` is modelled only in its clock, input and draw count. Shaders, lights and matrices per frame are uploads already covered.
- Scene.FlattenFaces: `u32` overflow of the index count is not modelled; counts are unbounded.
- Rdiye.DrawCountCoversBuffer: the `GLsizei` conversion of the count is not modelled.
- Lights.CreateWhitePointLights, Lighting.SetShaderPointLights: require `size < 256` (the `u8` type of the count) and arrays of at least `size` entries, as the callers provide.
- lighting.hpp's records and initialisers repeat lights.hpp's word for word (under their own include guards, `LIGHTS_HPP` and `LIGHTING_HPP`); they are modelled once, in `Lights`.
- mesh.hpp, sprite.hpp, game_object.hpp, main.cpp and defines.h are not part of this model. Breakout's `camera` class is not part of this model either: its moves appear as requests.
- Breakout's `scroll_callback` and `framebuffer_size_callback` only call that camera class and recompute the perspective matrix, so they are left out.
- CString.NatToString: its own contract states only the shape of the digits; the number they spell is stated by `CString.NatToStringSpells`, which keeps the proofs of the uniform-naming loops small.
- CameraHpp.Construct: the fields a constructor leaves unset before `update_vectors()` are given a zero right vector; they are overwritten before use.

## Findings

| source | as written | input that shows it | evidently intended | confidence | as-written member | corrected member |
|---|---|---|---|---|---|---|
| src/rdiye_lib.h:685-686 | `Shear` checks only `i < 4` and `j < 4` on signed indices | `i = -1`, `j = 0` passes the checks and writes outside `e` | both indices in `0 .. 3` | not executed | RdiyeLib.ShearGuardAdmitsNegative | RdiyeLib.Shear |
| src/material.hpp:126-130 | `set_material_in_shader` ends with `glBindTexture(GL_TEXTURE_2D, 0)` while unit 3 is active | any material whose parallax map is not 0: the parallax sampler then reads texture 0 | leave the four maps bound for the draw that follows | not executed | MaterialHpp.ParallaxUnbound | MaterialHpp.MaterialSamplesEachMap |
| src/rdiye.cpp:287-293 | the cube's draw count is the float count times the stride of 8 | a 32-byte buffer, one vertex, is drawn with count 64 | the float count divided by the stride | not executed | Rdiye.DrawCountOvershoots | Rdiye.DrawCountCoversBuffer |
| src/camera.h:75-78 | `UpdateCameraVectors` stores the negated, normalised `right x front` as up | the default camera (yaw -90, pitch 0, up +y) after one mouse event with a zero offset has up -y | up = normalize(right x front), as camera.hpp:109 computes it | not executed | CameraH.UpFlipsAfterMouse | CameraH.ProcessCameraMouse |
