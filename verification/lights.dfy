/** lights.hpp: the light records and their initialisers. lighting.hpp
    repeats both records and both initialisers word for word, so
    `Lighting` takes them from here. */
module Lights {
  import opened RdiyeLib

  /** `DirectionalLight`. */
  datatype DirectionalLight = DirectionalLight(ambient: Vec3, diffuse: Vec3, specular: Vec3)

  /** `PointLight`: colours and the three attenuation factors. */
  datatype PointLight = PointLight(ambient: Vec3, diffuse: Vec3, specular: Vec3,
                                   constantFactor: real, linearFactor: real, quadraticFactor: real)

  /** A grey: the same intensity on every component. */
  function Grey(v: real): Vec3 {
    Vec3(v, v, v)
  }

  /** `create_dir_light(dir_light)`: every field is overwritten with a dim
      white ambient 0.05, diffuse 0.4 and specular 0.5. */
  function CreateDirLight(d: DirectionalLight): (r: DirectionalLight)
    ensures r.ambient == Grey(0.05) && r.diffuse == Grey(0.4) && r.specular == Grey(0.5)
  {
    DirectionalLight(Vec3(0.05, 0.05, 0.05), Vec3(0.4, 0.4, 0.4), Vec3(0.5, 0.5, 0.5))
  }

  /** The light `create_white_point_lights` gives each entry: white ambient
      0.2, diffuse 0.5 and specular 1.0, attenuation 1, 0.09 and 0.032. */
  const WHITE_POINT_LIGHT: PointLight := PointLight(Grey(0.2), Grey(0.5), Grey(1.0), 1.0, 0.09, 0.032)

  /** What `create_white_point_lights` leaves in an array: entries below
      `size` are white point lights and the others are as they were. */
  function WhitePrefix(plights: seq<PointLight>, size: nat): (r: seq<PointLight>)
    ensures |r| == |plights|
  {
    seq(|plights|, i requires 0 <= i < |plights| => if i < size then WHITE_POINT_LIGHT else plights[i])
  }

  /** `create_white_point_lights(plights, positions, size)`: the `u8` loop
      over `0 .. size-1`. The positions are neither read nor written; the
      caller's array holds at least `size` entries. */
  method CreateWhitePointLights(plights: seq<PointLight>, positions: seq<Vec3>, size: nat) returns (r: seq<PointLight>)
    requires size < 256 && size <= |plights|
    ensures |r| == |plights|
    ensures forall i | 0 <= i < size :: r[i] == WHITE_POINT_LIGHT
    ensures forall i | size <= i < |r| :: r[i] == plights[i]
    ensures r == WhitePrefix(plights, size)
  {
    r := plights;
    var i: nat := 0;
    while i < size
      invariant i <= size
      invariant |r| == |plights|
      invariant forall j | 0 <= j < i :: r[j] == WHITE_POINT_LIGHT
      invariant forall j | i <= j < |r| :: r[j] == plights[j]
    {
      r := r[i := PointLight(Vec3(0.2, 0.2, 0.2), Vec3(0.5, 0.5, 0.5), Vec3(1.0, 1.0, 1.0), 1.0, 0.09, 0.032)];
      i := i + 1;
    }
  }

  /** The loop computes `WhitePrefix`, which is idempotent and grows with
      `size`: initialising a longer prefix covers a shorter one. */
  lemma WhitePrefixProperties(plights: seq<PointLight>, m: nat, n: nat)
    requires m <= n
    ensures WhitePrefix(WhitePrefix(plights, n), n) == WhitePrefix(plights, n)
    ensures WhitePrefix(WhitePrefix(plights, m), n) == WhitePrefix(plights, n)
    ensures WhitePrefix(WhitePrefix(plights, n), m) == WhitePrefix(plights, n)
  {
  }
}
