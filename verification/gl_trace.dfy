/** The OpenGL calls the draw and material code issues, as data, and their
    effect on the part of the GL state that decides what a shader samples:
    the active texture unit, the texture bound to each unit's 2D target, the
    integer uniforms, and the draws issued. Buffers and vertex arrays are
    not modelled. */
module GlTrace {
  import opened Wrappers

  datatype Call =
    | ActiveTexture(unit: nat)            // glActiveTexture(GL_TEXTURE0 + unit)
    | BindTexture(texture: Option<nat>)   // glBindTexture(GL_TEXTURE_2D, id); None: an id never assigned
    | SetInt(name: string, value: int)    // set_int(name, value) on the current program
    | SetFloat(name: string, amount: real) // set_float(name, value)
    | SetVec3(name: string, x: real, y: real, z: real) // set_vec3(name, v)
    | DrawElements(count: nat)            // glDrawElements(GL_TRIANGLES, count, ...)
    | DrawArrays(count: nat)              // glDrawArrays(GL_TRIANGLES, 0, count)

  /** A draw issued: indexed with `count` indices, or plain with `count` vertices. */
  datatype Draw = Indexed(count: nat) | Plain(count: nat)

  datatype UniformValue = IntValue(i: int) | FloatValue(r: real) | Vec3Value(x: real, y: real, z: real)

  datatype GlState = GlState(activeUnit: nat, bound: map<nat, Option<nat>>,
                             uniforms: map<string, UniformValue>, draws: seq<Draw>)

  /** The effect of one call. Binding affects only the active unit. */
  function Step(s: GlState, c: Call): GlState {
    match c
    case ActiveTexture(u) => s.(activeUnit := u)
    case BindTexture(t) => s.(bound := s.bound[s.activeUnit := t])
    case SetInt(n, v) => s.(uniforms := s.uniforms[n := IntValue(v)])
    case SetFloat(n, v) => s.(uniforms := s.uniforms[n := FloatValue(v)])
    case SetVec3(n, x, y, z) => s.(uniforms := s.uniforms[n := Vec3Value(x, y, z)])
    case DrawElements(k) => s.(draws := s.draws + [Indexed(k)])
    case DrawArrays(k) => s.(draws := s.draws + [Plain(k)])
  }

  /** The effect of a sequence of calls, in order. */
  function Run(s: GlState, calls: seq<Call>): GlState
    decreases |calls|
  {
    if |calls| == 0 then s else Run(Step(s, calls[0]), calls[1..])
  }

  /** Running two call sequences one after the other is running their concatenation. */
  lemma {:induction false} RunAppend(s: GlState, a: seq<Call>, b: seq<Call>)
    ensures Run(s, a + b) == Run(Run(s, a), b)
    decreases |a|
  {
    if |a| == 0 {
      assert a + b == b;
    } else {
      assert (a + b)[1..] == a[1..] + b;
      RunAppend(Step(s, a[0]), a[1..], b);
    }
  }

  /** Running one call. */
  lemma RunOne(s: GlState, c: Call)
    ensures Run(s, [c]) == Step(s, c)
  {
    assert [c][1..] == [];
  }

  /** Running two calls, one after the other. */
  lemma RunTwo(s: GlState, c0: Call, c1: Call)
    ensures Run(s, [c0, c1]) == Step(Step(s, c0), c1)
  {
    assert [c0, c1][1..] == [c1];
    RunOne(Step(s, c0), c1);
  }

  /** Running three calls, one after the other. */
  lemma RunThree(s: GlState, c0: Call, c1: Call, c2: Call)
    ensures Run(s, [c0, c1, c2]) == Step(Step(Step(s, c0), c1), c2)
  {
    assert [c0, c1, c2][1..] == [c1, c2];
    RunTwo(Step(s, c0), c1, c2);
  }

  /** Selecting unit `u`, pointing a sampler uniform at it and binding a
      texture: the unit now holds the texture and the uniform the unit. */
  lemma BindToUnit(s: GlState, u: nat, name: string, t: Option<nat>)
    ensures var r := Run(s, [ActiveTexture(u), SetInt(name, u), BindTexture(t)]);
      r == s.(activeUnit := u, bound := s.bound[u := t], uniforms := s.uniforms[name := IntValue(u)])
  {
    RunThree(s, ActiveTexture(u), SetInt(name, u), BindTexture(t));
  }

  /** The same three calls with the binding before the uniform, as
      material.hpp orders them: the same effect. */
  lemma BindThenPoint(s: GlState, u: nat, t: Option<nat>, name: string)
    ensures var r := Run(s, [ActiveTexture(u), BindTexture(t), SetInt(name, u)]);
      r == s.(activeUnit := u, bound := s.bound[u := t], uniforms := s.uniforms[name := IntValue(u)])
  {
    RunThree(s, ActiveTexture(u), BindTexture(t), SetInt(name, u));
  }

  /** The texture a sampler uniform named `name` reads: the one bound to the
      unit the uniform holds, if the uniform holds a unit. */
  function Sampled(s: GlState, name: string): Option<Option<nat>> {
    if name in s.uniforms && s.uniforms[name].IntValue? && s.uniforms[name].i >= 0
       && s.uniforms[name].i in s.bound
    then Some(s.bound[s.uniforms[name].i])
    else None
  }
  /** A call that sets a uniform. */
  predicate IsSet(c: Call) {
    c.SetInt? || c.SetFloat? || c.SetVec3?
  }

  /** The value a uniform-setting call stores. */
  function SetValue(c: Call): UniformValue
    requires IsSet(c)
  {
    match c
    case SetInt(_, v) => IntValue(v)
    case SetFloat(_, v) => FloatValue(v)
    case SetVec3(_, x, y, z) => Vec3Value(x, y, z)
  }

  /** Calls that only set uniforms. */
  predicate OnlySets(calls: seq<Call>) {
    forall i | 0 <= i < |calls| :: IsSet(calls[i])
  }

  /** Setting uniforms touches nothing but the uniforms, and leaves alone
      every uniform none of the calls names. */
  lemma {:induction false} RunSetsElsewhere(s: GlState, calls: seq<Call>, n: string)
    requires OnlySets(calls)
    ensures var r := Run(s, calls);
      r.activeUnit == s.activeUnit && r.bound == s.bound && r.draws == s.draws
    ensures (forall i | 0 <= i < |calls| :: calls[i].name != n) ==>
      (n in Run(s, calls).uniforms <==> n in s.uniforms) &&
      (n in s.uniforms ==> Run(s, calls).uniforms[n] == s.uniforms[n])
    decreases |calls|
  {
    if |calls| > 0 {
      assert forall i | 0 <= i < |calls[1..]| :: calls[1..][i] == calls[i + 1];
      RunSetsElsewhere(Step(s, calls[0]), calls[1..], n);
    }
  }

  /** After a run of uniform settings, a uniform holds the value of the last
      call that names it. */
  lemma RunSetsLast(s: GlState, calls: seq<Call>, k: nat)
    requires OnlySets(calls) && k < |calls|
    requires forall j | k < j < |calls| :: calls[j].name != calls[k].name
    ensures calls[k].name in Run(s, calls).uniforms
    ensures Run(s, calls).uniforms[calls[k].name] == SetValue(calls[k])
  {
    var n := calls[k].name;
    var before, rest := calls[..k], calls[k + 1..];
    assert calls == before + [calls[k]] + rest;
    RunAppend(s, before + [calls[k]], rest);
    RunAppend(s, before, [calls[k]]);
    var mid := Run(s, before + [calls[k]]);
    RunOne(Run(s, before), calls[k]);
    assert n in mid.uniforms && mid.uniforms[n] == SetValue(calls[k]);
    assert forall i | 0 <= i < |rest| :: rest[i] == calls[k + 1 + i];
    RunSetsElsewhere(mid, rest, n);
  }
}
