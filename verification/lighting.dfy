/** lighting.hpp: the lights' shader uniforms. Its records and
    initialisers are those of lights.hpp (`Lights`); what it adds is the
    upload of a directional light to "dir_light.*" and of each point light
    `i` to "point_lights[i].*". */
module Lighting {
  import opened RdiyeLib
  import opened CString
  import opened GlTrace
  import opened Lights
  import UniformNaming

  function SetVec3Of(name: string, v: Vec3): Call {
    SetVec3(name, v.x, v.y, v.z)
  }

  /** `set_shader_dir_light(shader, dir_light, direction)`. */
  function SetShaderDirLight(d: DirectionalLight, direction: Vec3): seq<Call> {
    [SetVec3Of("dir_light.direction", direction), SetVec3Of("dir_light.ambient", d.ambient),
     SetVec3Of("dir_light.diffuse", d.diffuse), SetVec3Of("dir_light.specular", d.specular)]
  }

  /** After the upload the shader's directional light holds the given
      direction and the light's three colours; nothing but those four
      uniforms changes. */
  lemma DirLightUniforms(s: GlState, d: DirectionalLight, direction: Vec3)
    ensures var r := Run(s, SetShaderDirLight(d, direction));
      "dir_light.direction" in r.uniforms && r.uniforms["dir_light.direction"] == Vec3Value(direction.x, direction.y, direction.z) &&
      "dir_light.ambient" in r.uniforms && r.uniforms["dir_light.ambient"] == Vec3Value(d.ambient.x, d.ambient.y, d.ambient.z) &&
      "dir_light.diffuse" in r.uniforms && r.uniforms["dir_light.diffuse"] == Vec3Value(d.diffuse.x, d.diffuse.y, d.diffuse.z) &&
      "dir_light.specular" in r.uniforms && r.uniforms["dir_light.specular"] == Vec3Value(d.specular.x, d.specular.y, d.specular.z)
    ensures var r := Run(s, SetShaderDirLight(d, direction));
      r.activeUnit == s.activeUnit && r.bound == s.bound && r.draws == s.draws &&
      forall n | n in s.uniforms && n !in {"dir_light.direction", "dir_light.ambient", "dir_light.diffuse", "dir_light.specular"} ::
        n in r.uniforms && r.uniforms[n] == s.uniforms[n]
  {
    var calls := SetShaderDirLight(d, direction);
    assert OnlySets(calls);
    assert calls[0].name == "dir_light.direction" && calls[1].name == "dir_light.ambient";
    assert calls[2].name == "dir_light.diffuse" && calls[3].name == "dir_light.specular";
    assert "dir_light.direction"[10] == 'd' && "dir_light.ambient"[10] == 'a';
    assert "dir_light.diffuse"[10] == 'd' && "dir_light.specular"[10] == 's';
    assert "dir_light.direction"[11] == 'i' && "dir_light.diffuse"[11] == 'i';
    assert "dir_light.direction"[12] == 'r' && "dir_light.diffuse"[12] == 'f';
    RunSetsLast(s, calls, 0);
    RunSetsLast(s, calls, 1);
    RunSetsLast(s, calls, 2);
    RunSetsLast(s, calls, 3);
    forall n | n in s.uniforms && n !in {"dir_light.direction", "dir_light.ambient", "dir_light.diffuse", "dir_light.specular"}
      ensures n in Run(s, calls).uniforms && Run(s, calls).uniforms[n] == s.uniforms[n]
    {
      RunSetsElsewhere(s, calls, n);
    }
    RunSetsElsewhere(s, calls, "");
  }

  /** The seven fields of a point light's uniform, in upload order. */
  const POINT_FIELDS: seq<string> :=
    ["position", "ambient", "diffuse", "specular", "constant_factor", "linear_factor", "quadratic_factor"]

  /** "point_lights[" + `std::to_string(i)` + "]." */
  function PointLightPrefix(i: nat): string {
    "point_lights[" + NatToString(i) + "]."
  }

  /** The seven uploads of point light `i`. */
  function PointLightCalls(l: PointLight, position: Vec3, i: nat): (calls: seq<Call>)
    ensures |calls| == 7 && OnlySets(calls)
    ensures forall k | 0 <= k < 7 :: calls[k].name == PointLightPrefix(i) + POINT_FIELDS[k]
  {
    var p := PointLightPrefix(i);
    [SetVec3Of(p + "position", position), SetVec3Of(p + "ambient", l.ambient),
     SetVec3Of(p + "diffuse", l.diffuse), SetVec3Of(p + "specular", l.specular),
     SetFloat(p + "constant_factor", l.constantFactor), SetFloat(p + "linear_factor", l.linearFactor),
     SetFloat(p + "quadratic_factor", l.quadraticFactor)]
  }

  /** The uploads of point lights `0 .. n-1`. */
  function PointLightsCalls(plights: seq<PointLight>, positions: seq<Vec3>, n: nat): (calls: seq<Call>)
    requires n <= |plights| && n <= |positions|
    ensures |calls| == 7 * n
  {
    if n == 0 then [] else PointLightsCalls(plights, positions, n - 1) + PointLightCalls(plights[n - 1], positions[n - 1], n - 1)
  }

  /** `set_shader_point_lights(shader, plights, positions, size)`: the `u8`
      loop uploading each of the first `size` lights with its position. */
  method SetShaderPointLights(plights: seq<PointLight>, positions: seq<Vec3>, size: nat) returns (calls: seq<Call>)
    requires size < 256 && size <= |plights| && size <= |positions|
    ensures calls == PointLightsCalls(plights, positions, size)
    ensures |calls| == 7 * size && OnlySets(calls)
    ensures forall i, k | 0 <= i < size && 0 <= k < 7 :: calls[7 * i + k].name == PointLightPrefix(i) + POINT_FIELDS[k]
  {
    calls := [];
    var i: nat := 0;
    while i < size
      invariant i <= size
      invariant calls == PointLightsCalls(plights, positions, i)
    {
      var index := "point_lights[" + NatToString(i) + "].";
      calls := calls + [SetVec3Of(index + "position", positions[i]), SetVec3Of(index + "ambient", plights[i].ambient),
                        SetVec3Of(index + "diffuse", plights[i].diffuse), SetVec3Of(index + "specular", plights[i].specular),
                        SetFloat(index + "constant_factor", plights[i].constantFactor),
                        SetFloat(index + "linear_factor", plights[i].linearFactor),
                        SetFloat(index + "quadratic_factor", plights[i].quadraticFactor)];
      i := i + 1;
    }
    PointLightsCallsNames(plights, positions, size);
    forall i, k | 0 <= i < size && 0 <= k < 7
      ensures calls[7 * i + k].name == PointLightPrefix(i) + POINT_FIELDS[k]
    {
      assert calls[7 * i + k] == PointLightCalls(plights[i], positions[i], i)[k];
    }
  }

  /** Call `7 i + k` of the uploads sets field `k` of light `i`. */
  lemma {:induction false} PointLightsCallsNames(plights: seq<PointLight>, positions: seq<Vec3>, n: nat)
    requires n <= |plights| && n <= |positions|
    ensures OnlySets(PointLightsCalls(plights, positions, n))
    ensures forall i, k | 0 <= i < n && 0 <= k < 7 ::
      PointLightsCalls(plights, positions, n)[7 * i + k] == PointLightCalls(plights[i], positions[i], i)[k]
    decreases n
  {
    if n > 0 {
      var front := PointLightsCalls(plights, positions, n - 1);
      var last := PointLightCalls(plights[n - 1], positions[n - 1], n - 1);
      PointLightsCallsNames(plights, positions, n - 1);
      assert PointLightsCalls(plights, positions, n) == front + last;
      forall i, k | 0 <= i < n && 0 <= k < 7
        ensures (front + last)[7 * i + k] == PointLightCalls(plights[i], positions[i], i)[k]
      {
        if i < n - 1 {
          assert 7 * i + k < 7 * (n - 1);
        } else {
          assert 7 * i + k == |front| + k;
        }
      }
    }
  }

  /** The character right after `a` in `a + "]." + x` is the bracket. */
  lemma BracketAfter(a: string, x: string)
    ensures (a + "]." + x)[|a|] == ']'
  {
  }

  /** A run of decimal digits ends where a ']' follows: two digit strings
      that are each followed by "]." and agree with what follows are equal. */
  lemma DigitsBeforeBracket(a: string, b: string, x: string, y: string)
    requires forall k | 0 <= k < |a| :: IsDigit(a[k])
    requires forall k | 0 <= k < |b| :: IsDigit(b[k])
    requires a + "]." + x == b + "]." + y
    ensures a == b
  {
    var l, r := a + "]." + x, b + "]." + y;
    if |a| < |b| {
      BracketAfter(a, x);
      assert false;
    } else if |b| < |a| {
      BracketAfter(b, y);
      assert false;
    } else {
      assert a == l[..|a|] && b == r[..|b|];
    }
  }

  /** A point-light uniform name is the common head, the index and the field. */
  lemma PrefixSplit(i: nat, f: string)
    ensures PointLightPrefix(i) + f == "point_lights[" + (NatToString(i) + "]." + f)
  {
  }

  /** Point-light uniform names never collide: different lights differ in
      the index, and the fields of one light are different words. */
  lemma PointLightNamesDistinct(i: nat, k: nat, j: nat, m: nat)
    requires k < 7 && m < 7 && (i, k) != (j, m)
    ensures PointLightPrefix(i) + POINT_FIELDS[k] != PointLightPrefix(j) + POINT_FIELDS[m]
  {
    var f, g := POINT_FIELDS[k], POINT_FIELDS[m];
    if PointLightPrefix(i) + f == PointLightPrefix(j) + g {
      PrefixSplit(i, f);
      PrefixSplit(j, g);
      UniformNaming.PrefixCancel("point_lights[", NatToString(i) + "]." + f, NatToString(j) + "]." + g);
      DigitsBeforeBracket(NatToString(i), NatToString(j), f, g);
      NatToStringInjective(i, j);
      UniformNaming.PrefixCancel(PointLightPrefix(i), f, g);
      FieldsDistinct(k, m);
    }
  }

  /** The seven field names are different words. */
  lemma FieldsDistinct(k: nat, m: nat)
    requires k < 7 && m < 7 && k != m
    ensures POINT_FIELDS[k] != POINT_FIELDS[m]
  {
    var f := POINT_FIELDS;
    assert f[0][0] == 'p' && f[1][0] == 'a' && f[2][0] == 'd' && f[3][0] == 's';
    assert f[4][0] == 'c' && f[5][0] == 'l' && f[6][0] == 'q';
  }

  /** The value field `k` of point light `l` at `position` is uploaded with. */
  function FieldValue(l: PointLight, position: Vec3, k: nat): UniformValue
    requires k < 7
  {
    [Vec3Value(position.x, position.y, position.z), Vec3Value(l.ambient.x, l.ambient.y, l.ambient.z),
     Vec3Value(l.diffuse.x, l.diffuse.y, l.diffuse.z), Vec3Value(l.specular.x, l.specular.y, l.specular.z),
     FloatValue(l.constantFactor), FloatValue(l.linearFactor), FloatValue(l.quadraticFactor)][k]
  }

  /** Upload `k` of a point light sets field `k`'s value. */
  lemma PointLightCallValue(l: PointLight, position: Vec3, i: nat, k: nat)
    requires k < 7
    ensures SetValue(PointLightCalls(l, position, i)[k]) == FieldValue(l, position, k)
  {
  }

  /** No later upload names the uniform call `7 i + k` sets. */
  lemma LaterNamesDiffer(plights: seq<PointLight>, positions: seq<Vec3>, size: nat, i: nat, k: nat)
    requires size <= |plights| && size <= |positions|
    requires i < size && k < 7
    ensures var calls := PointLightsCalls(plights, positions, size);
      OnlySets(calls) &&
      calls[7 * i + k].name == PointLightPrefix(i) + POINT_FIELDS[k] &&
      forall q | 7 * i + k < q < |calls| :: calls[q].name != calls[7 * i + k].name
  {
    var calls := PointLightsCalls(plights, positions, size);
    PointLightsCallsNames(plights, positions, size);
    assert calls[7 * i + k] == PointLightCalls(plights[i], positions[i], i)[k];
    forall q | 7 * i + k < q < |calls|
      ensures calls[q].name != calls[7 * i + k].name
    {
      CallName(plights, positions, size, q);
      PointLightNamesDistinct(i, k, q / 7, q % 7);
    }
  }

  /** Call `q` of the uploads names field `q % 7` of light `q / 7`. */
  lemma CallName(plights: seq<PointLight>, positions: seq<Vec3>, size: nat, q: nat)
    requires size <= |plights| && size <= |positions|
    requires q < 7 * size
    ensures q == 7 * (q / 7) + q % 7 && q / 7 < size && q % 7 < 7
    ensures OnlySets(PointLightsCalls(plights, positions, size)) &&
      PointLightsCalls(plights, positions, size)[q].name == PointLightPrefix(q / 7) + POINT_FIELDS[q % 7]
  {
    var j, m := q / 7, q % 7;
    PointLightsCallsNames(plights, positions, size);
    assert PointLightsCalls(plights, positions, size)[7 * j + m] == PointLightCalls(plights[j], positions[j], j)[m];
  }

  /** After the upload, field `k` of the shader's point light `i` holds the
      position or the light's own colour or factor, for every light below
      `size`. */
  lemma PointLightUniforms(s: GlState, plights: seq<PointLight>, positions: seq<Vec3>, size: nat, i: nat, k: nat)
    requires size <= |plights| && size <= |positions|
    requires i < size && k < 7
    ensures var r := Run(s, PointLightsCalls(plights, positions, size));
      PointLightPrefix(i) + POINT_FIELDS[k] in r.uniforms &&
      r.uniforms[PointLightPrefix(i) + POINT_FIELDS[k]] == FieldValue(plights[i], positions[i], k)
  {
    var calls := PointLightsCalls(plights, positions, size);
    PointLightsCallsNames(plights, positions, size);
    var one := PointLightCalls(plights[i], positions[i], i);
    assert calls[7 * i + k] == one[k];
    PointLightCallValue(plights[i], positions[i], i, k);
    LaterNamesDiffer(plights, positions, size, i, k);
    RunSetsLast(s, calls, 7 * i + k);
  }

  /** The initialised lights as the shader sees them: after
      `create_white_point_lights` and `set_shader_point_lights` over the
      same `size`, field `k` of every point light below `size` holds the
      white light's value (its position for `k = 0`), whatever the array
      held before: ambient 0.2, diffuse 0.5, specular 1 and constant
      attenuation 1. */
  lemma WhiteLightsUploaded(s: GlState, plights: seq<PointLight>, positions: seq<Vec3>, size: nat, i: nat, k: nat)
    requires size <= |plights| && size <= |positions|
    requires i < size && k < 7
    ensures var r := Run(s, PointLightsCalls(WhitePrefix(plights, size), positions, size));
      var name := PointLightPrefix(i) + POINT_FIELDS[k];
      name in r.uniforms && r.uniforms[name] == FieldValue(WHITE_POINT_LIGHT, positions[i], k)
    ensures k == 1 ==> FieldValue(WHITE_POINT_LIGHT, positions[i], k) == Vec3Value(0.2, 0.2, 0.2)
    ensures k == 2 ==> FieldValue(WHITE_POINT_LIGHT, positions[i], k) == Vec3Value(0.5, 0.5, 0.5)
    ensures k == 3 ==> FieldValue(WHITE_POINT_LIGHT, positions[i], k) == Vec3Value(1.0, 1.0, 1.0)
    ensures k == 4 ==> FieldValue(WHITE_POINT_LIGHT, positions[i], k) == FloatValue(1.0)
  {
    var white := WhitePrefix(plights, size);
    PointLightUniforms(s, white, positions, size, i, k);
    assert white[i] == WHITE_POINT_LIGHT;
  }

  /** The initialised directional light as the shader sees it: after
      `create_dir_light` and `set_shader_dir_light`, the shader's light has
      the given direction, ambient 0.05, diffuse 0.4 and specular 0.5,
      whatever the record held before. */
  lemma DirLightUploaded(s: GlState, d: DirectionalLight, direction: Vec3)
    ensures var r := Run(s, SetShaderDirLight(CreateDirLight(d), direction));
      "dir_light.direction" in r.uniforms && r.uniforms["dir_light.direction"] == Vec3Value(direction.x, direction.y, direction.z) &&
      "dir_light.ambient" in r.uniforms && r.uniforms["dir_light.ambient"] == Vec3Value(0.05, 0.05, 0.05) &&
      "dir_light.diffuse" in r.uniforms && r.uniforms["dir_light.diffuse"] == Vec3Value(0.4, 0.4, 0.4) &&
      "dir_light.specular" in r.uniforms && r.uniforms["dir_light.specular"] == Vec3Value(0.5, 0.5, 0.5)
  {
    DirLightUniforms(s, CreateDirLight(d), direction);
  }
}
