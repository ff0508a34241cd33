/** The shader-stage data model of the GL layer: the data types shaders
    declare, texture targets and their names, attribute descriptors, and the
    macro that prefixes a GLSL body with its `#version` line. */
module Shaders {
  import opened Types

  /** OpenGL data types of uniforms and attributes. */
  datatype GLData = Vector2Float | Vector3Float | Vector4Float | Matrix44Float | Float | Int | UInt | Index

  /** A texture target. The enumeration is a C++ `enum class` over int, so a
      value outside the three named ones can still be formed by a cast. */
  datatype TextureTarget = TextureTarget(value: int)

  /** The first enumerator, implicitly 0. */
  const Cube: TextureTarget := TextureTarget(0)
  const OneD: TextureTarget := TextureTarget(1)
  const TwoD: TextureTarget := TextureTarget(2)

  const Unrecognized: string := "Unrecognized texture target"

  /** `std::to_string` of a texture target: the enumerator's name, or a fixed
      message for any other value. */
  function TargetName(t: TextureTarget): (r: string)
    ensures r == "Cube" <==> t == Cube
    ensures r == "OneD" <==> t == OneD
    ensures r == "TwoD" <==> t == TwoD
    ensures r == Unrecognized <==> t !in {Cube, OneD, TwoD}
  {
    match t.value
    case 1 => "OneD"
    case 2 => "TwoD"
    case 0 => "Cube"
    case _ => Unrecognized
  }

  datatype ShaderUniform = ShaderUniform(name: string, glType: GLData)

  /** An attribute a shader declares; `arrayCount` is how many times the
      element repeats in an array. */
  datatype ShaderAttribute = ShaderAttribute(name: string, glType: GLData, arrayCount: int)

  datatype ShaderTexture = ShaderTexture(name: string, textureTarget: TextureTarget)

  datatype VertShader = VertShader(uniforms: seq<ShaderUniform>, attributes: seq<ShaderAttribute>, src: string)
  datatype TessShader = TessShader(uniforms: seq<ShaderUniform>, attributes: seq<ShaderAttribute>, src: string)
  datatype EvalShader = EvalShader(uniforms: seq<ShaderUniform>, attributes: seq<ShaderAttribute>, src: string)
  datatype GeomShader = GeomShader(uniforms: seq<ShaderUniform>, attributes: seq<ShaderAttribute>, src: string)
  datatype FragShader = FragShader(uniforms: seq<ShaderUniform>, attributes: seq<ShaderAttribute>,
                                   textures: seq<ShaderTexture>, outputLoc: string, src: string)

  /** The two-argument attribute constructor: a single, non-array element. */
  function SingleAttribute(name: string, glType: GLData): (a: ShaderAttribute)
    ensures a.name == name && a.glType == glType && a.arrayCount == 1
  {
    ShaderAttribute(name, glType, 1)
  }

  /** The three-argument attribute constructor stores its arguments unchanged. */
  function ArrayAttribute(name: string, glType: GLData, arrayCount: int): (a: ShaderAttribute)
    ensures a.name == name && a.glType == glType && a.arrayCount == arrayCount
  {
    ShaderAttribute(name, glType, arrayCount)
  }

  /** The two constructors agree exactly when the array count given is 1. */
  lemma SingleIsArrayOfOne(name: string, glType: GLData, arrayCount: int)
    ensures SingleAttribute(name, glType) == ArrayAttribute(name, glType, arrayCount) <==> arrayCount == 1
  {
  }

  const VersionPrefix: string := "#version "

  /** `POLYSCOPE_GLSL(version, shader)`: the `#version` line, then the shader
      body. Both arguments are the macro's stringified tokens, and stringifying
      turns every run of whitespace, line breaks included, into one space, so
      neither holds a line break. */
  function Glsl(version: string, shader: string): (r: string)
    ensures |r| == |VersionPrefix| + |version| + 1 + |shader|
    ensures r[..|VersionPrefix|] == VersionPrefix && r[|VersionPrefix|..|VersionPrefix| + |version|] == version
    ensures r[|VersionPrefix| + |version|] == '\n' && r[|r| - |shader|..] == shader
  {
    VersionPrefix + version + "\n" + shader
  }

  /** Index of the first line break of s, or |s| if there is none. */
  function LineEnd(s: string): (n: nat)
    ensures n <= |s|
    ensures forall k :: 0 <= k < n ==> s[k] != '\n'
    ensures n < |s| ==> s[n] == '\n'
  {
    if s == [] || s[0] == '\n' then 0 else 1 + LineEnd(s[1..])
  }

  /** Reads a GLSL source back into its version and its body: the inverse of `Glsl`. */
  function ParseGlsl(src: string): (r: Option<(string, string)>)
  {
    if |src| < |VersionPrefix| || src[..|VersionPrefix|] != VersionPrefix then None
    else
      var rest := src[|VersionPrefix|..];
      var n := LineEnd(rest);
      if n == |rest| then None else Some((rest[..n], rest[n + 1..]))
  }

  /** The first line break of `v + "\n" + s` is the one after v, when v has none. */
  lemma {:induction false} LineEndAfter(v: string, s: string)
    requires '\n' !in v
    ensures LineEnd(v + "\n" + s) == |v|
  {
    if v != [] {
      assert (v + "\n" + s)[1..] == v[1..] + "\n" + s;
      LineEndAfter(v[1..], s);
    }
  }

  /** The prefixed source always yields back its version and body. */
  lemma GlslRoundTrip(version: string, shader: string)
    requires '\n' !in version
    ensures ParseGlsl(Glsl(version, shader)) == Some((version, shader))
  {
    var src := Glsl(version, shader);
    assert src[..|VersionPrefix|] == VersionPrefix;
    var rest := src[|VersionPrefix|..];
    assert rest == version + "\n" + shader;
    LineEndAfter(version, shader);
    assert rest[..|version|] == version;
    assert rest[|version| + 1..] == shader;
  }

  /** Sources that are not of the prefixed form are rejected, and every accepted
      source is rebuilt exactly by `Glsl` from what was read. */
  lemma ParseGlslSound(src: string)
    ensures ParseGlsl(src).Some? ==>
      var (v, s) := ParseGlsl(src).value; '\n' !in v && Glsl(v, s) == src
  {
    if ParseGlsl(src).Some? {
      var rest := src[|VersionPrefix|..];
      var n := LineEnd(rest);
      var (v, s) := ParseGlsl(src).value;
      assert v == rest[..n] && s == rest[n + 1..];
      assert rest == v + "\n" + s;
      assert src == src[..|VersionPrefix|] + rest;
    }
  }
}
