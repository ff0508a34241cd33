/** The GPU shader program, seen from the host: an opaque object that records
    what the quantities hand to it. Compilation, binding and drawing happen in
    the rendering engine, which is not part of this model. */
module Render {
  import opened Geometry
  import opened Types

  /** A per-vertex attribute buffer. */
  datatype Attribute = Reals(reals: seq<real>) | Vec2s(vec2s: seq<Vec2>) | Vec3s(vec3s: seq<Vec3>)

  /** A uniform value. */
  datatype Uniform = UFloat(f: real) | UInt(i: int) | UBool(b: bool) | UVec3(v: Vec3)

  /** An image as loaded from disk (width, height, RGB bytes). */
  datatype Image = Image(width: int, height: int, pixels: seq<int>)

  /** A texture binding: a named colormap, or a 2D image (possibly a null pointer). */
  datatype Texture = Colormap(name: string) | Image2D(image: Option<Image>)

  class ShaderProgram {
    /** The shader stages the program was generated from, by name. */
    const shaders: seq<string>
    /** The attribute names the shader stages declare (`hasAttribute`). */
    const declared: set<string>
    var attributes: map<string, Attribute>
    var uniforms: map<string, Uniform>
    var textures: map<string, Texture>
    var material: string
    var draws: nat

    constructor (shaders: seq<string>, declared: set<string>)
      ensures this.shaders == shaders && this.declared == declared
      ensures attributes == map[] && uniforms == map[] && textures == map[]
      ensures material == "" && draws == 0
    {
      this.shaders := shaders;
      this.declared := declared;
      attributes := map[];
      uniforms := map[];
      textures := map[];
      material := "";
      draws := 0;
    }

    predicate HasAttribute(name: string)
    {
      name in declared
    }

    method SetAttribute(name: string, a: Attribute)
      modifies this`attributes
      ensures attributes == old(attributes)[name := a]
    {
      attributes := attributes[name := a];
    }

    method SetUniform(name: string, u: Uniform)
      modifies this`uniforms
      ensures uniforms == old(uniforms)[name := u]
    {
      uniforms := uniforms[name := u];
    }

    method SetTexture(name: string, t: Texture)
      modifies this`textures
      ensures textures == old(textures)[name := t]
    {
      textures := textures[name := t];
    }

    method SetMaterial(m: string)
      modifies this`material
      ensures material == m
    {
      material := m;
    }

    method Draw()
      modifies this`draws
      ensures draws == old(draws) + 1
    {
      draws := draws + 1;
    }
  }
}
