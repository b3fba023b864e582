/** The string side of texture.hpp: the `TextureType` enumeration with its
    name table, and what the `Texture(path)` constructor derives from the
    path — the texture's name (between the last '/' and the last '.') and its
    type (from the two characters before the last '.'). Image decoding is an
    input: `decoded` says whether stb_image returned pixel data. */
module TextureHpp {
  import opened Wrappers
  import opened CString

  datatype TextureType = Diffuse | Specular | Normal | Parallax | Albedo | Metallic | Roughness | Occlusion

  /** The enumerator's value, 0 to 7 in declaration order. */
  function Ordinal(t: TextureType): (n: nat)
    ensures n < 8
  {
    match t
    case Diffuse => 0
    case Specular => 1
    case Normal => 2
    case Parallax => 3
    case Albedo => 4
    case Metallic => 5
    case Roughness => 6
    case Occlusion => 7
  }

  /** The enumerator with value `n`. */
  function FromOrdinal(n: nat): TextureType
    requires n < 8
  {
    [Diffuse, Specular, Normal, Parallax, Albedo, Metallic, Roughness, Occlusion][n]
  }

  /** Value and enumerator determine each other. */
  lemma OrdinalRoundTrip(t: TextureType, n: nat)
    ensures FromOrdinal(Ordinal(t)) == t
    ensures n < 8 ==> Ordinal(FromOrdinal(n)) == n
  {
  }

  /** `TEXTURE_TYPE_TO_STRING`, indexed by enumerator value. */
  const TEXTURE_TYPE_TO_STRING: seq<string> :=
    ["diffuse", "specular", "normal", "parallax", "albedo", "metallic", "roughness", "occlusion"]

  /** The lower-case name the table gives a type. */
  function TypeName(t: TextureType): string {
    TEXTURE_TYPE_TO_STRING[Ordinal(t)]
  }

  /** Each of the eight types is named by its own lower-case spelling, and
      no two types share a name. */
  lemma TypeNameTable(t: TextureType, u: TextureType)
    ensures |TEXTURE_TYPE_TO_STRING| == 8
    ensures TypeName(Diffuse) == "diffuse" && TypeName(Specular) == "specular"
    ensures TypeName(Normal) == "normal" && TypeName(Parallax) == "parallax"
    ensures TypeName(Albedo) == "albedo" && TypeName(Metallic) == "metallic"
    ensures TypeName(Roughness) == "roughness" && TypeName(Occlusion) == "occlusion"
    ensures TypeName(t) == TypeName(u) ==> t == u
  {
  }

  /** A texture as the constructor leaves it. A failed load returns before
      any field is assigned: the id and type stay indeterminate (`None`) and
      the name stays the empty string. */
  datatype Texture = Texture(id: Option<nat>, kind: Option<TextureType>, name: string)

  /** The type picked from the two characters before the extension. */
  function SuffixType(suffix: string): (t: TextureType)
    ensures t == Specular <==> suffix == "_s"
    ensures t == Normal <==> suffix == "_n"
    ensures t == Parallax <==> suffix == "_p"
    ensures t == Diffuse <==> suffix !in {"_s", "_n", "_p"}
  {
    if suffix == "_s" then Specular
    else if suffix == "_n" then Normal
    else if suffix == "_p" then Parallax
    else Diffuse
  }

  /** `Texture(path)` given the id `glGenTextures` produced and whether the
      image decoded. `substr(file_extension_pos - 2, 2)` is taken in `size_t`
      arithmetic, so with no '.' or a '.' at index 0 or 1 the position wraps
      past the end and `substr` throws; that exception is the `Err` result.
      The name's `substr(pos + 1, file_extension_pos - pos - 1)` never throws:
      with no '/' the `npos + 1` wraps to 0, and a '/' after the last '.'
      makes the count wrap to a huge value that `substr` clamps. */
  function TextureFromPath(path: string, decoded: bool, freshId: nat): (r: Result<Texture, StringError>)
    requires ValidString(path)
    ensures !decoded ==> r == Ok(Texture(None, None, ""))
    ensures decoded ==> (r.Err? <==> (match FindLastOf(path, '.') case None => true case Some(d) => d < 2))
    ensures decoded && r.Ok? ==> r.value.id == Some(freshId) && r.value.kind.Some?
  {
    if !decoded then Ok(Texture(None, None, ""))
    else
      var ext := FindLastOfPos(path, '.');
      var suffix :- Substr(path, Wrap(ext as int - 2), 2);
      var slash := FindLastOfPos(path, '/');
      var name := Substr(path, Wrap(slash as int + 1), Wrap(ext as int - slash - 1));
      Ok(Texture(Some(freshId), Some(SuffixType(suffix)), name.value))
  }

  /** For a decoded image whose last '.' is at index `d >= 2`, the type comes
      from `path[d-2..d]` and the name runs from just past the last '/' (or
      from the start when there is none) up to the '.', or to the end of the
      path when the last '/' comes after the last '.'. */
  lemma TextureNameAndType(path: string, freshId: nat, d: nat)
    requires ValidString(path)
    requires FindLastOf(path, '.') == Some(d) && d >= 2
    ensures var r := TextureFromPath(path, true, freshId);
      r.Ok? && r.value.kind == Some(SuffixType(path[d - 2 .. d])) &&
      r.value.name == match FindLastOf(path, '/')
        case None => path[..d]
        case Some(s) => if s < d then path[s + 1 .. d] else path[s + 1 ..]
  {
    var r := TextureFromPath(path, true, freshId);
    var suffix := Substr(path, Wrap(d - 2), 2);
    assert suffix.value == path[d - 2 .. d];
    var slash := FindLastOfPos(path, '/');
    assert r.value.name == Substr(path, Wrap(slash as int + 1), Wrap(d - slash as int - 1)).value;
    NameBetween(path, d);
  }

  /** The name's `substr` in each of the three cases of where the last '/' is. */
  lemma NameBetween(path: string, d: nat)
    requires ValidString(path)
    requires FindLastOf(path, '.') == Some(d)
    ensures var slash := FindLastOfPos(path, '/');
      var name := Substr(path, Wrap(slash as int + 1), Wrap(d - slash as int - 1));
      name.Ok? && name.value == match FindLastOf(path, '/')
        case None => path[..d]
        case Some(s) => if s < d then path[s + 1 .. d] else path[s + 1 ..]
  {
    var slash := FindLastOfPos(path, '/');
    match FindLastOf(path, '/')
    case None =>
      assert Wrap(slash as int + 1) == 0;
      assert Wrap(d - slash as int - 1) == d;
    case Some(s) =>
      if s >= d {
        assert Wrap(d - slash as int - 1) == d - s - 1 + SIZE_MODULUS;
      }
  }

  /** The shape of the repository's own texture test: for "assets/" + stem +
      ".jpg", where the stem holds no '/' and no '.', the texture is named
      by the stem and typed by the stem's last two characters. */
  lemma AssetTexture(stem: string, freshId: nat)
    requires 2 <= |stem| < 1000 && '/' !in stem && '.' !in stem
    ensures TextureFromPath("assets/" + stem + ".jpg", true, freshId)
         == Ok(Texture(Some(freshId), Some(SuffixType(stem[|stem| - 2 ..])), stem))
  {
    var path := "assets/" + stem + ".jpg";
    var d := 7 + |stem|;
    assert path[d + 1 ..] == "jpg";
    assert path[..d] == "assets/" + stem;
    assert path[7..] == stem + ".jpg";
    LastOfSplit(path, '.', d);
    assert path[6] == '/';
    LastOfSplit(path, '/', 6);
    TextureNameAndType(path, freshId, d);
    assert path[d - 2 .. d] == stem[|stem| - 2 ..];
    assert path[7..d] == stem;
  }

  /** The stems the repository's texture test uses: "brickwall_n" ends in
      the normal-map suffix and "bricks2_p" in the parallax-map suffix, so
      by `AssetTexture` "assets/brickwall_n.jpg" is a normal map named
      "brickwall_n" and "assets/bricks2_p.jpg" a parallax map named "bricks2_p". */
  lemma TextureTestStems()
    ensures SuffixType("brickwall_n"[9..]) == Normal
    ensures SuffixType("bricks2_p"[7..]) == Parallax
    ensures '/' !in "brickwall_n" && '.' !in "brickwall_n"
    ensures '/' !in "bricks2_p" && '.' !in "bricks2_p"
  {
    assert "brickwall_n"[9..] == "_n";
    assert "bricks2_p"[7..] == "_p";
  }

  /** The last occurrence is at `i` when `s[i]` is `c` and `c` does not occur after it. */
  lemma LastOfSplit(s: string, c: char, i: nat)
    requires i < |s| && s[i] == c && c !in s[i + 1 ..]
    ensures FindLastOf(s, c) == Some(i)
  {
    assert c in s;
  }
}
