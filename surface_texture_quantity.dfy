/** A corner texture-coordinate quantity on a surface mesh: one 2D coordinate
    per face corner, drawn with an image texture that is loaded from a file. */
module SurfaceTextureQuantity {
  import opened Types
  import opened Geometry
  import opened Render
  import Fan

  const VertShader: string := "SURFACE_TEXTURE_VERT_SHADER"
  const FragShader: string := "SURFACE_TEXTURE_FRAG_SHADER"

  /** The `a_tcoord` buffer: the corner coordinates of every fan triangle, read
      at the global corner indices of its three corners. The source only demands
      that every corner it reads has a coordinate. */
  method FillColorBuffer(faces: seq<seq<nat>>, coords: seq<Vec2>) returns (coordVal: seq<Vec2>)
    requires Fan.InRange(Fan.CornerIndices(faces), |coords|)
    ensures coordVal == Fan.Gather(coords, Fan.CornerIndices(faces))
  {
    coordVal := [];
    var cornerCount := 0;
    var iF := 0;
    while iF < |faces|
      invariant 0 <= iF <= |faces|
      invariant cornerCount == Fan.Corners(faces[..iF])
      invariant |coordVal| == 3 * Fan.Triangles(faces[..iF])
      invariant Fan.GatheredPrefix(coordVal, coords, Fan.CornerIndices(faces))
    {
      coordVal := FillFace(faces, coords, iF, cornerCount, coordVal);
      Fan.PrefixNext(faces, iF);
      cornerCount := cornerCount + |faces[iF]|;
      iF := iF + 1;
    }
    assert faces[..|faces|] == faces;
    Fan.GatheredWhole(coordVal, coords, Fan.CornerIndices(faces));
  }

  /** The inner loop of the fill: appends the fan triangles of face iF, whose
      first corner has the global index `cornerCount`. */
  method FillFace(faces: seq<seq<nat>>, coords: seq<Vec2>, iF: nat, cornerCount: nat, prefix: seq<Vec2>)
    returns (coordVal: seq<Vec2>)
    requires Fan.InRange(Fan.CornerIndices(faces), |coords|)
    requires iF < |faces| && cornerCount == Fan.Corners(faces[..iF])
    requires |prefix| == 3 * Fan.Triangles(faces[..iF]) && Fan.GatheredPrefix(prefix, coords, Fan.CornerIndices(faces))
    ensures |coordVal| == 3 * (Fan.Triangles(faces[..iF]) + Fan.TriCount(|faces[iF]|))
    ensures Fan.GatheredPrefix(coordVal, coords, Fan.CornerIndices(faces))
  {
    ghost var idx := Fan.CornerIndices(faces);
    coordVal := prefix;
    var D := |faces[iF]|;
    var cRoot := cornerCount;
    var j := 1;
    while j + 1 < D
      invariant 1 <= j && j - 1 <= Fan.TriCount(D)
      invariant |coordVal| == 3 * (Fan.Triangles(faces[..iF]) + j - 1)
      invariant Fan.GatheredPrefix(coordVal, coords, idx)
    {
      Fan.CornerTriangle(faces, iF, j);
      Fan.FanNeverWraps(j, D);
      var cB := cornerCount + j;
      var cC := cornerCount + (j + 1) % D;
      Fan.GatheredExtend(coordVal, coords, idx);
      coordVal := coordVal + [coords[cRoot], coords[cB], coords[cC]];
      j := j + 1;
    }
  }

  /** The display name: the quantity's name followed by " (corner texture)". */
  function NiceName(name: string): (r: string)
    ensures |r| == |name| + |" (corner texture)"| && r[..|name|] == name && r[|name|..] == " (corner texture)"
  {
    name + " (corner texture)"
  }

  class TextureQuantity {
    const name: string
    /** The faces of the parent mesh, as vertex ids. */
    const faces: seq<seq<nat>>
    /** One texture coordinate per face corner. */
    const coords: seq<Vec2>
    const dataType: DataType
    var enabled: bool
    /** The loaded image, or none when the last load failed or nothing was loaded. */
    var image: Option<Image>
    /** The cached GPU program; null until the next draw builds it. */
    var program: ShaderProgram?

    constructor (name: string, faces: seq<seq<nat>>, coords: seq<Vec2>, dataType: DataType)
      ensures this.name == name && this.faces == faces && this.coords == coords && this.dataType == dataType
      ensures image == None && program == null
    {
      this.name := name;
      this.faces := faces;
      this.coords := coords;
      this.dataType := dataType;
      image := None;
      program := null;
    }

    /** Every corner the fan reads has a texture coordinate. */
    predicate CoordsCoverFaces()
      reads this
    {
      Fan.InRange(Fan.CornerIndices(faces), |coords|)
    }

    method SetEnabled(b: bool)
      modifies this`enabled
      ensures enabled == b
    {
      enabled := b;
    }

    /** Builds the program: the texture-coordinate buffer and the "wax" material. */
    method CreateProgram()
      requires CoordsCoverFaces()
      modifies this`program
      ensures program != null && fresh(program)
      ensures program.shaders == [VertShader, FragShader]
      ensures program.attributes == map["a_tcoord" := Vec2s(Fan.Gather(coords, Fan.CornerIndices(faces)))]
      ensures program.uniforms == map[] && program.textures == map[]
      ensures program.material == "wax" && program.draws == 0
    {
      var p := new ShaderProgram([VertShader, FragShader], {"a_tcoord"});
      var coordVal := FillColorBuffer(faces, coords);
      p.SetAttribute("a_tcoord", Vec2s(coordVal));
      p.SetMaterial("wax");
      program := p;
    }

    /** Draws when enabled: builds the program only when none is cached, binds
        the image and issues one draw. A disabled quantity changes nothing. */
    method Draw()
      requires CoordsCoverFaces()
      modifies this`program, program
      ensures !old(enabled) ==> program == old(program) && (program != null ==> unchanged(program))
      ensures old(enabled) ==> program != null
      ensures old(enabled) && old(program) != null ==>
        program == old(program) && program.draws == old(program.draws) + 1 &&
        program.attributes == old(program.attributes) && program.uniforms == old(program.uniforms) &&
        program.material == old(program.material)
      ensures old(enabled) && old(program) == null ==>
        fresh(program) && program.draws == 1 && program.shaders == [VertShader, FragShader] &&
        program.uniforms == map[] && program.material == "wax" &&
        program.attributes == map["a_tcoord" := Vec2s(Fan.Gather(coords, Fan.CornerIndices(faces)))]
      ensures old(enabled) ==> program.textures == old(if program == null then map[] else program.textures)["t_image" := Image2D(image)]
    {
      if !enabled {
        return;
      }
      if program == null {
        CreateProgram();
      }
      program.SetTexture("t_image", Image2D(image));
      program.Draw();
    }

    /** Loads a new image (the result of reading `filename`, supplied by the
        caller). The image is stored even when the load failed; a failed load
        is an error and leaves the program cached, a successful one drops it. */
    method SetTexture(filename: string, loaded: Option<Image>) returns (r: Outcome)
      modifies this`image, this`program
      ensures image == loaded
      ensures loaded == None ==> r == Fail("Failed to load " + filename) && program == old(program)
      ensures loaded != None ==> r == Pass && program == null
    {
      image := loaded;
      if loaded == None {
        return Fail("Failed to load " + filename);
      }
      program := null;
      return Pass;
    }

    /** The mesh moved: the cached program is dropped and rebuilt on the next draw. */
    method GeometryChanged()
      modifies this`program
      ensures program == null
    {
      program := null;
    }
  }
}
