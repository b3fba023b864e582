/** material.hpp: the process-wide texture cache of the material path, the
    `Material` record and its loader, and the calls that hand a material to
    a shader. Unlike rd_model.h's cache, this one is keyed by the raw file
    name (no separator rewriting) and records a texture only once it has
    decoded, so a failed load is retried, with a fresh id, on the next call. */
module MaterialHpp {
  import opened Wrappers
  import opened RdiyeLib
  import opened GlTrace

  /** `ASSETS_FOLDER`, as material.hpp defines it. */
  const ASSETS_FOLDER: string := "assets/"
  /** `TEXTURE_DEFAULT_BLACK`, as material.hpp defines it. */
  const TEXTURE_DEFAULT_BLACK: string := "TEXTURE_DEFAULT_BLACK.png"
  /** `TEXTURE_DEFAULT_NORMAL_MAP`, as material.hpp defines it. */
  const TEXTURE_DEFAULT_NORMAL_MAP: string := "TEXTURE_DEFAULT_NORMAL_MAP.png"

  /** `global_loaded_textures`, with the counter the fresh `glGenTextures`
      ids come from. */
  datatype TextureCache = TextureCache(loaded: map<string, nat>, nextId: nat)

  /** Every cached id was handed out before the counter's current value. */
  predicate CacheValid(c: TextureCache) {
    forall name | name in c.loaded :: c.loaded[name] < c.nextId
  }

  /** `load_texture(filename)`: a cached name returns its id and changes
      nothing; otherwise a fresh id is generated and the file under
      `ASSETS_FOLDER` is decoded (`decoded` says whether stb_image returns
      data for a path); only a decoded texture is recorded. The id is
      returned either way. */
  function LoadTexture(c: TextureCache, filename: string, decoded: string -> bool): (r: (nat, TextureCache))
    ensures filename in c.loaded ==> r == (c.loaded[filename], c)
    ensures filename !in c.loaded ==> r.0 == c.nextId && r.1.nextId == c.nextId + 1
    ensures filename !in c.loaded ==>
      r.1.loaded == (if decoded(ASSETS_FOLDER + filename) then c.loaded[filename := c.nextId] else c.loaded)
    ensures CacheValid(c) ==> CacheValid(r.1)
    ensures CacheValid(c) && filename !in c.loaded ==> r.0 !in c.loaded.Values
  {
    if filename in c.loaded then (c.loaded[filename], c)
    else
      var id := c.nextId;
      var c1 := c.(nextId := c.nextId + 1);
      if decoded(ASSETS_FOLDER + filename) then (id, c1.(loaded := c1.loaded[filename := id]))
      else (id, c1)
  }

  /** A texture that decoded is served from the cache from then on: a
      second call returns the same id and allocates nothing. */
  lemma LoadTextureIdempotent(c: TextureCache, filename: string, decoded: string -> bool)
    requires filename in c.loaded || decoded(ASSETS_FOLDER + filename)
    ensures var (id, c1) := LoadTexture(c, filename, decoded);
      filename in c1.loaded && LoadTexture(c1, filename, decoded) == (id, c1)
  {
  }

  /** A texture that fails to decode is not recorded: loading it again
      allocates another id, different from the first, and the cache's
      entries stay as they were. */
  lemma LoadTextureRetries(c: TextureCache, filename: string, decoded: string -> bool)
    requires filename !in c.loaded && !decoded(ASSETS_FOLDER + filename)
    ensures var (id1, c1) := LoadTexture(c, filename, decoded);
      var (id2, c2) := LoadTexture(c1, filename, decoded);
      id1 != id2 && c2.loaded == c.loaded && c2.nextId == c.nextId + 2
  {
  }

  /** The key is the raw name: spelling a path with '\\' or with '/' gives
      two entries and two GPU ids for one file (contrast rd_model.h). */
  lemma LoadTextureRawKeys(c: TextureCache, decoded: string -> bool)
    requires "a\\b.png" !in c.loaded && "a/b.png" !in c.loaded
    ensures var (id1, c1) := LoadTexture(c, "a\\b.png", decoded);
      LoadTexture(c1, "a/b.png", decoded).0 != id1
  {
    var c1 := LoadTexture(c, "a\\b.png", decoded).1;
    assert "a\\b.png" != "a/b.png" by {
      assert "a\\b.png"[1] != "a/b.png"[1];
    }
    assert "a/b.png" !in c1.loaded;
  }

  /** `Material`. */
  datatype Material = Material(ambientColor: Vec3, diffuseColor: Vec3, specularColor: Vec3,
                               diffuse: nat, specular: nat, shininess: real,
                               normalMap: nat, parallaxMap: nat)

  /** `glm::vec3(1.0f)`. */
  const WHITE: Vec3 := Vec3(1.0, 1.0, 1.0)

  /** `load_material(material, ...)`, with the source's default arguments:
      colours and shininess are copied, and the four maps are loaded in the
      order diffuse, specular, normal, parallax through the cache. */
  function LoadMaterial(c: TextureCache, decoded: string -> bool,
                        diffuseName: string := TEXTURE_DEFAULT_BLACK,
                        specularName: string := TEXTURE_DEFAULT_BLACK,
                        shininess: real := 1.0,
                        normalName: string := TEXTURE_DEFAULT_NORMAL_MAP,
                        parallaxName: string := TEXTURE_DEFAULT_BLACK,
                        ambientColor: Vec3 := WHITE,
                        diffuseColor: Vec3 := WHITE,
                        specularColor: Vec3 := WHITE): (r: (Material, TextureCache))
    ensures r.0.ambientColor == ambientColor && r.0.diffuseColor == diffuseColor
    ensures r.0.specularColor == specularColor && r.0.shininess == shininess
    ensures CacheValid(c) ==> CacheValid(r.1)
  {
    var (diffuse, c1) := LoadTexture(c, diffuseName, decoded);
    var (specular, c2) := LoadTexture(c1, specularName, decoded);
    var (normal, c3) := LoadTexture(c2, normalName, decoded);
    var (parallax, c4) := LoadTexture(c3, parallaxName, decoded);
    (Material(ambientColor, diffuseColor, specularColor, diffuse, specular, shininess, normal, parallax), c4)
  }

  /** Every map whose file decodes ends up cached under its name with the
      id the material holds. */
  lemma LoadMaterialCached(c: TextureCache, decoded: string -> bool,
                           diffuseName: string, specularName: string, shininess: real,
                           normalName: string, parallaxName: string,
                           ambientColor: Vec3, diffuseColor: Vec3, specularColor: Vec3)
    ensures var (m, c4) := LoadMaterial(c, decoded, diffuseName, specularName, shininess, normalName, parallaxName,
                                        ambientColor, diffuseColor, specularColor);
      (diffuseName in c.loaded || decoded(ASSETS_FOLDER + diffuseName) ==>
         diffuseName in c4.loaded && c4.loaded[diffuseName] == m.diffuse) &&
      (specularName in c.loaded || decoded(ASSETS_FOLDER + specularName) ==>
         specularName in c4.loaded && c4.loaded[specularName] == m.specular) &&
      (normalName in c.loaded || decoded(ASSETS_FOLDER + normalName) ==>
         normalName in c4.loaded && c4.loaded[normalName] == m.normalMap) &&
      (parallaxName in c.loaded || decoded(ASSETS_FOLDER + parallaxName) ==>
         parallaxName in c4.loaded && c4.loaded[parallaxName] == m.parallaxMap)
  {
  }

  /** With every argument defaulted on a cache that holds neither default
      texture: white colours, shininess 1, and, when the black texture
      decodes, the diffuse, specular and parallax maps share its one id
      while the normal map gets the next; when it does not decode, each of
      the three gets an id of its own. */
  lemma LoadMaterialDefaults(c: TextureCache, decoded: string -> bool)
    requires TEXTURE_DEFAULT_BLACK !in c.loaded && TEXTURE_DEFAULT_NORMAL_MAP !in c.loaded
    ensures var m := LoadMaterial(c, decoded).0;
      m.ambientColor == WHITE && m.diffuseColor == WHITE && m.specularColor == WHITE && m.shininess == 1.0 &&
      (decoded(ASSETS_FOLDER + TEXTURE_DEFAULT_BLACK) ==>
         m.diffuse == m.specular == m.parallaxMap == c.nextId && m.normalMap == c.nextId + 1) &&
      (!decoded(ASSETS_FOLDER + TEXTURE_DEFAULT_BLACK) ==>
         m.diffuse == c.nextId && m.specular == c.nextId + 1 && m.normalMap == c.nextId + 2 && m.parallaxMap == c.nextId + 3)
  {
    assert TEXTURE_DEFAULT_BLACK != TEXTURE_DEFAULT_NORMAL_MAP by {
      assert TEXTURE_DEFAULT_BLACK[16] != TEXTURE_DEFAULT_NORMAL_MAP[16];
    }
  }

  /** The three colour uniforms. */
  function ColourCalls(mat: Material): seq<Call> {
    [SetVec3("material.ambient_color", mat.ambientColor.x, mat.ambientColor.y, mat.ambientColor.z),
     SetVec3("material.diffuse_color", mat.diffuseColor.x, mat.diffuseColor.y, mat.diffuseColor.z),
     SetVec3("material.specular_color", mat.specularColor.x, mat.specularColor.y, mat.specularColor.z)]
  }

  /** Select unit `u`, bind texture `t` there, point sampler `name` at the unit. */
  function UnitCalls(u: nat, t: nat, name: string): seq<Call> {
    [ActiveTexture(u), BindTexture(Some(t)), SetInt(name, u)]
  }

  /** The texture calls: diffuse on unit 0, specular on unit 1, the
      shininess, normal map on unit 2, parallax map on unit 3. */
  function MapCalls(mat: Material): seq<Call> {
    UnitCalls(0, mat.diffuse, "material.diffuse")
    + UnitCalls(1, mat.specular, "material.specular")
    + [SetFloat("material.shininess", mat.shininess)]
    + UnitCalls(2, mat.normalMap, "material.normal_map")
    + UnitCalls(3, mat.parallaxMap, "material.parallax_map")
  }

  /** The calls of `set_material_in_shader` up to its last line. */
  function MaterialBindings(mat: Material): seq<Call> {
    ColourCalls(mat) + MapCalls(mat)
  }

  /** `set_material_in_shader(mat, shader)` as written: the bindings, then
      `glBindTexture(GL_TEXTURE_2D, 0)` on the unit still active, unit 3. */
  function SetMaterialInShaderAsWritten(mat: Material): seq<Call> {
    MaterialBindings(mat) + [BindTexture(Some(0))]
  }

  /** `set_material_in_shader` with the bindings left in place for the draw
      that follows, which is what the unit assignments are for. */
  function SetMaterialInShader(mat: Material): seq<Call> {
    MaterialBindings(mat)
  }

  /** The colour calls set the three colour uniforms and nothing else. */
  lemma ColourEffect(s: GlState, mat: Material)
    ensures Run(s, ColourCalls(mat))
         == s.(uniforms := s.uniforms
                 ["material.ambient_color" := Vec3Value(mat.ambientColor.x, mat.ambientColor.y, mat.ambientColor.z)]
                 ["material.diffuse_color" := Vec3Value(mat.diffuseColor.x, mat.diffuseColor.y, mat.diffuseColor.z)]
                 ["material.specular_color" := Vec3Value(mat.specularColor.x, mat.specularColor.y, mat.specularColor.z)])
  {
    var a := ColourCalls(mat);
    RunThree(s, a[0], a[1], a[2]);
  }

  /** The texture calls leave the four maps on units 0 to 3, unit 3
      active, and the four samplers and the shininess set. */
  lemma MapEffect(s: GlState, mat: Material)
    ensures Run(s, MapCalls(mat))
         == s.(activeUnit := 3,
               bound := s.bound[0 := Some(mat.diffuse)][1 := Some(mat.specular)]
                               [2 := Some(mat.normalMap)][3 := Some(mat.parallaxMap)],
               uniforms := s.uniforms
                 ["material.diffuse" := IntValue(0)]
                 ["material.specular" := IntValue(1)]
                 ["material.shininess" := FloatValue(mat.shininess)]
                 ["material.normal_map" := IntValue(2)]
                 ["material.parallax_map" := IntValue(3)])
  {
    var u0 := UnitCalls(0, mat.diffuse, "material.diffuse");
    var u1 := UnitCalls(1, mat.specular, "material.specular");
    var sh := [SetFloat("material.shininess", mat.shininess)];
    var u2 := UnitCalls(2, mat.normalMap, "material.normal_map");
    var u3 := UnitCalls(3, mat.parallaxMap, "material.parallax_map");
    RunAppend(s, u0 + u1 + sh + u2, u3);
    RunAppend(s, u0 + u1 + sh, u2);
    RunAppend(s, u0 + u1, sh);
    RunAppend(s, u0, u1);
    BindThenPoint(s, 0, Some(mat.diffuse), "material.diffuse");
    var s1 := Run(s, u0);
    BindThenPoint(s1, 1, Some(mat.specular), "material.specular");
    var s2 := Run(s1, u1);
    RunOne(s2, sh[0]);
    var s3 := Run(s2, sh);
    BindThenPoint(s3, 2, Some(mat.normalMap), "material.normal_map");
    var s4 := Run(s3, u2);
    BindThenPoint(s4, 3, Some(mat.parallaxMap), "material.parallax_map");
  }

  /** The bindings: colours, then maps. */
  lemma MaterialBindingsEffect(s: GlState, mat: Material)
    ensures Run(s, MaterialBindings(mat)) == Run(Run(s, ColourCalls(mat)), MapCalls(mat))
    ensures Run(s, ColourCalls(mat)).bound == s.bound && Run(s, ColourCalls(mat)).draws == s.draws
  {
    RunAppend(s, ColourCalls(mat), MapCalls(mat));
    ColourEffect(s, mat);
  }

  /** As written, the diffuse, specular and normal samplers read their maps
      but the parallax sampler reads texture 0: the final unbind runs on
      unit 3. Any material whose parallax map has a generated id (never 0)
      loses it. */
  lemma ParallaxUnbound(s: GlState, mat: Material)
    ensures var r := Run(s, SetMaterialInShaderAsWritten(mat));
      Sampled(r, "material.diffuse") == Some(Some(mat.diffuse)) &&
      Sampled(r, "material.specular") == Some(Some(mat.specular)) &&
      Sampled(r, "material.normal_map") == Some(Some(mat.normalMap)) &&
      Sampled(r, "material.parallax_map") == Some(Some(0))
    ensures mat.parallaxMap != 0 ==>
      Sampled(Run(s, SetMaterialInShaderAsWritten(mat)), "material.parallax_map") != Some(Some(mat.parallaxMap))
  {
    MaterialBindingsEffect(s, mat);
    MapEffect(Run(s, ColourCalls(mat)), mat);
    RunAppend(s, MaterialBindings(mat), [BindTexture(Some(0))]);
    RunOne(Run(s, MaterialBindings(mat)), BindTexture(Some(0)));
  }

  /** With the bindings left in place, each of the four samplers reads its
      own map on its own unit, and the colours and shininess are set. */
  lemma MaterialSamplesEachMap(s: GlState, mat: Material)
    ensures var r := Run(s, SetMaterialInShader(mat));
      Sampled(r, "material.diffuse") == Some(Some(mat.diffuse)) &&
      Sampled(r, "material.specular") == Some(Some(mat.specular)) &&
      Sampled(r, "material.normal_map") == Some(Some(mat.normalMap)) &&
      Sampled(r, "material.parallax_map") == Some(Some(mat.parallaxMap)) &&
      "material.shininess" in r.uniforms && r.uniforms["material.shininess"] == FloatValue(mat.shininess) &&
      "material.ambient_color" in r.uniforms && r.uniforms["material.ambient_color"] == Vec3Value(mat.ambientColor.x, mat.ambientColor.y, mat.ambientColor.z) &&
      r.draws == s.draws
  {
    MaterialBindingsEffect(s, mat);
    ColourEffect(s, mat);
    MapEffect(Run(s, ColourCalls(mat)), mat);
  }
}
