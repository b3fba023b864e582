/** `Mesh::draw` of model.hpp and of model_loader.hpp (the two are the same
    loop): texture `i` goes to unit `i`, and the sampler uniform it feeds is
    named "material." + type name + number, where diffuse and specular
    textures are numbered 1, 2, ... independently in list order and any
    other type gets no number. */
module UniformNaming {
  import opened Wrappers
  import opened CString
  import opened TextureHpp
  import opened GlTrace

  /** What `draw` reads of a texture: its id and its type. */
  datatype MeshTexture = MeshTexture(id: Option<nat>, kind: TextureType)

  /** The number of textures of type `t` in `ts`. */
  function CountOf(ts: seq<MeshTexture>, t: TextureType): nat {
    if |ts| == 0 then 0
    else CountOf(ts[..|ts| - 1], t) + (if ts[|ts| - 1].kind == t then 1 else 0)
  }

  /** The number suffix of texture `i`: one more than the textures of the
      same type before it, for diffuse and specular; empty otherwise. */
  function NumberSuffix(ts: seq<MeshTexture>, i: nat): string
    requires i < |ts|
  {
    if ts[i].kind == Diffuse || ts[i].kind == Specular then NatToString(CountOf(ts[..i], ts[i].kind) + 1)
    else ""
  }

  /** The sampler uniform texture `i` is assigned to. */
  function UniformName(ts: seq<MeshTexture>, i: nat): string
    requires i < |ts|
  {
    "material." + TypeName(ts[i].kind) + NumberSuffix(ts, i)
  }

  /** The calls for textures `0 .. k-1`: select unit `i`, point the uniform
      at it, bind the texture. */
  function BindCalls(ts: seq<MeshTexture>, k: nat): (calls: seq<Call>)
    requires k <= |ts|
    ensures |calls| == 3 * k
  {
    if k == 0 then []
    else BindCalls(ts, k - 1) + [ActiveTexture(k - 1), SetInt(UniformName(ts, k - 1), k - 1), BindTexture(ts[k - 1].id)]
  }

  /** The whole call sequence of `draw`: the bindings, unit 0 selected
      again, and one indexed draw of all the mesh's indices. */
  function DrawCalls(ts: seq<MeshTexture>, indexCount: nat): seq<Call> {
    BindCalls(ts, |ts|) + [ActiveTexture(0), DrawElements(indexCount)]
  }

  /** `Mesh::draw`, with its two running counters. */
  method Draw(ts: seq<MeshTexture>, indexCount: nat) returns (calls: seq<Call>)
    ensures calls == DrawCalls(ts, indexCount)
  {
    var diffuseCount := 1;
    var specularCount := 1;
    calls := [];
    var i := 0;
    while i < |ts|
      invariant 0 <= i <= |ts|
      invariant calls == BindCalls(ts, i)
      invariant diffuseCount == CountOf(ts[..i], Diffuse) + 1
      invariant specularCount == CountOf(ts[..i], Specular) + 1
    {
      var number := "";
      CountOfStep(ts, i);
      if ts[i].kind == Diffuse {
        number := NatToString(diffuseCount);
        diffuseCount := diffuseCount + 1;
      } else if ts[i].kind == Specular {
        number := NatToString(specularCount);
        specularCount := specularCount + 1;
      }
      BindCallsStep(ts, i, number);
      calls := calls + [ActiveTexture(i), SetInt("material." + TypeName(ts[i].kind) + number, i), BindTexture(ts[i].id)];
      i := i + 1;
    }
    calls := calls + [ActiveTexture(0), DrawElements(indexCount)];
  }

  /** Extending the prefix by texture `i` adds one to its own type's count
      and leaves the other counts alone. */
  lemma CountOfStep(ts: seq<MeshTexture>, i: nat)
    requires i < |ts|
    ensures forall t :: CountOf(ts[..i + 1], t) == CountOf(ts[..i], t) + (if ts[i].kind == t then 1 else 0)
  {
    assert ts[..i + 1][..i] == ts[..i];
  }

  /** The calls for texture `i`, with `number` its suffix, extend those for
      the textures before it. */
  lemma BindCallsStep(ts: seq<MeshTexture>, i: nat, number: string)
    requires i < |ts| && number == NumberSuffix(ts, i)
    ensures BindCalls(ts, i + 1) ==
      BindCalls(ts, i) + [ActiveTexture(i), SetInt("material." + TypeName(ts[i].kind) + number, i), BindTexture(ts[i].id)]
  {
  }

  /** Only diffuse and specular textures, as every loader that feeds `draw` produces. */
  predicate DiffuseSpecularOnly(ts: seq<MeshTexture>) {
    forall i | 0 <= i < |ts| :: ts[i].kind == Diffuse || ts[i].kind == Specular
  }

  /** A type's count grows by one at each texture of that type. */
  lemma {:induction false} CountOfPrefixGrows(ts: seq<MeshTexture>, i: nat, j: nat)
    requires i < j <= |ts|
    ensures CountOf(ts[..j], ts[i].kind) >= CountOf(ts[..i], ts[i].kind) + 1
    decreases j
  {
    var t := ts[i].kind;
    assert ts[..j][..j - 1] == ts[..j - 1];
    if j - 1 > i {
      CountOfPrefixGrows(ts, i, j - 1);
    } else {
      assert ts[..j][j - 1] == ts[i];
    }
  }

  /** Equal strings with a common prefix have equal remainders. */
  lemma PrefixCancel(p: string, x: string, y: string)
    requires p + x == p + y
    ensures x == y
  {
    assert x == (p + x)[|p|..];
    assert y == (p + y)[|p|..];
  }

  /** A diffuse name and a specular name differ right after "material.". */
  lemma DiffuseSpecularDiffer(x: string, y: string)
    ensures "material." + TypeName(Diffuse) + x != "material." + TypeName(Specular) + y
  {
    assert ("material." + TypeName(Diffuse) + x)[9] == 'd';
    assert ("material." + TypeName(Specular) + y)[9] == 's';
  }

  /** Diffuse and specular names never collide: different types differ in
      the type name, and two textures of one type get different numbers. */
  lemma UniformNamesDistinct(ts: seq<MeshTexture>, i: nat, j: nat)
    requires DiffuseSpecularOnly(ts)
    requires i < j < |ts|
    ensures UniformName(ts, i) != UniformName(ts, j)
  {
    var x, y := NumberSuffix(ts, i), NumberSuffix(ts, j);
    if ts[i].kind != ts[j].kind {
      if ts[i].kind == Diffuse {
        DiffuseSpecularDiffer(x, y);
      } else {
        DiffuseSpecularDiffer(y, x);
      }
    } else {
      var t := ts[i].kind;
      CountOfPrefixGrows(ts, i, j);
      if UniformName(ts, i) == UniformName(ts, j) {
        PrefixCancel("material." + TypeName(t), x, y);
        NatToStringInjective(CountOf(ts[..i], t) + 1, CountOf(ts[..j], t) + 1);
      }
    }
  }

  /** In state `r`, unit `i` holds texture `i` and texture `i`'s uniform holds unit `i`. */
  predicate Wired(r: GlState, ts: seq<MeshTexture>, i: nat)
    requires i < |ts|
  {
    i in r.bound && r.bound[i] == ts[i].id &&
    UniformName(ts, i) in r.uniforms && r.uniforms[UniformName(ts, i)] == IntValue(i)
  }

  /** What the bindings for textures `0 .. k-1` leave behind: unit `i` holds
      texture `i`, and (names being distinct) uniform `i` holds unit `i`. */
  lemma {:induction false} BindCallsEffect(s: GlState, ts: seq<MeshTexture>, k: nat)
    requires k <= |ts| && DiffuseSpecularOnly(ts)
    ensures forall i | 0 <= i < k :: Wired(Run(s, BindCalls(ts, k)), ts, i)
    ensures Run(s, BindCalls(ts, k)).draws == s.draws
    decreases k
  {
    if k > 0 {
      BindCallsEffect(s, ts, k - 1);
      var prev := BindCalls(ts, k - 1);
      var name := UniformName(ts, k - 1);
      var step := [ActiveTexture(k - 1), SetInt(name, k - 1), BindTexture(ts[k - 1].id)];
      RunAppend(s, prev, step);
      var r0 := Run(s, prev);
      BindToUnit(r0, k - 1, name, ts[k - 1].id);
      forall i | 0 <= i < k - 1 ensures Wired(Run(r0, step), ts, i) {
        WiredKept(r0, ts, i, k - 1);
      }
    }
  }

  /** Binding texture `j` leaves an earlier texture `i` wired. */
  lemma WiredKept(r0: GlState, ts: seq<MeshTexture>, i: nat, j: nat)
    requires DiffuseSpecularOnly(ts) && i < j < |ts| && Wired(r0, ts, i)
    ensures Wired(Run(r0, [ActiveTexture(j), SetInt(UniformName(ts, j), j), BindTexture(ts[j].id)]), ts, i)
  {
    BindToUnit(r0, j, UniformName(ts, j), ts[j].id);
    UniformNamesDistinct(ts, i, j);
  }

  /** After `draw`, every texture's sampler uniform reads that texture, unit
      0 is active again, and exactly one indexed draw of the mesh's indices
      has been issued. */
  lemma DrawSamplesEachTexture(s: GlState, ts: seq<MeshTexture>, indexCount: nat)
    requires DiffuseSpecularOnly(ts)
    ensures var r := Run(s, DrawCalls(ts, indexCount));
      r.activeUnit == 0 && r.draws == s.draws + [Indexed(indexCount)] &&
      forall i | 0 <= i < |ts| :: Sampled(r, UniformName(ts, i)) == Some(ts[i].id)
  {
    BindCallsEffect(s, ts, |ts|);
    var r0 := Run(s, BindCalls(ts, |ts|));
    DrawTail(s, ts, indexCount);
    var r := Run(s, DrawCalls(ts, indexCount));
    forall i | 0 <= i < |ts| ensures Sampled(r, UniformName(ts, i)) == Some(ts[i].id) {
      WiredSampled(r0, r, ts, i);
    }
  }

  /** The last two calls of `draw` select unit 0 and draw, and touch neither
      the bindings nor the uniforms. */
  lemma DrawTail(s: GlState, ts: seq<MeshTexture>, indexCount: nat)
    ensures var r0 := Run(s, BindCalls(ts, |ts|)); var r := Run(s, DrawCalls(ts, indexCount));
      r.bound == r0.bound && r.uniforms == r0.uniforms && r.activeUnit == 0 &&
      r.draws == r0.draws + [Indexed(indexCount)]
  {
    var tail := [ActiveTexture(0), DrawElements(indexCount)];
    RunAppend(s, BindCalls(ts, |ts|), tail);
    RunTwo(Run(s, BindCalls(ts, |ts|)), tail[0], tail[1]);
  }

  /** A wired texture is what its uniform samples, in any state with the
      same bindings and uniforms. */
  lemma WiredSampled(r0: GlState, r: GlState, ts: seq<MeshTexture>, i: nat)
    requires i < |ts| && Wired(r0, ts, i)
    requires r.bound == r0.bound && r.uniforms == r0.uniforms
    ensures Sampled(r, UniformName(ts, i)) == Some(ts[i].id)
  {
  }

  /** The draw-list part of `DrawSamplesEachTexture` alone: one indexed draw. */
  lemma DrawCallsDrawOnce(s: GlState, ts: seq<MeshTexture>, indexCount: nat)
    requires DiffuseSpecularOnly(ts)
    ensures Run(s, DrawCalls(ts, indexCount)).draws == s.draws + [Indexed(indexCount)]
  {
    DrawSamplesEachTexture(s, ts, indexCount);
  }
}
