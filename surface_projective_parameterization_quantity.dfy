/** A projective parameterization on a surface mesh: one 2D coordinate and one
    scale factor per face corner. The coordinate is lifted to (u, v, 1) and
    scaled by exp(-sf), so that the rasterizer interpolates it projectively;
    the fragment shader then draws one of four patterns over it. */
module SurfaceProjectiveParameterizationQuantity {
  import opened Types
  import opened Geometry
  import opened Render
  import Fan

  /** Whether the coordinates are in units of the pattern period, or in world
      units, to be scaled by the scene's length scale. */
  datatype ParamCoordsType = UNIT | WORLD

  /** The pattern drawn over the parameterization. */
  datatype ParamVizStyle = CHECKER | GRID | LOCAL_CHECK | LOCAL_RAD

  /** The name the style selector shows for a style. */
  function StyleName(s: ParamVizStyle): (r: string)
    ensures r in {"checker", "grid", "local grid", "local dist"}
  {
    match s
    case CHECKER => "checker"
    case GRID => "grid"
    case LOCAL_CHECK => "local grid"
    case LOCAL_RAD => "local dist"
  }

  /** The style whose name is `name`, if any: the selector's inverse. */
  function StyleNamed(name: string): (r: Option<ParamVizStyle>)
    ensures r.Some? ==> StyleName(r.value) == name
  {
    if name == "checker" then Some(CHECKER)
    else if name == "grid" then Some(GRID)
    else if name == "local grid" then Some(LOCAL_CHECK)
    else if name == "local dist" then Some(LOCAL_RAD)
    else None
  }

  /** Every style is found again from its name, so no two styles share a name. */
  lemma StyleNameRoundTrip(s: ParamVizStyle)
    ensures StyleNamed(StyleName(s)) == Some(s)
  {
  }

  lemma StyleNameInjective(a: ParamVizStyle, b: ParamVizStyle)
    ensures StyleName(a) == StyleName(b) <==> a == b
  {
    StyleNameRoundTrip(a);
    StyleNameRoundTrip(b);
  }

  const VertShader: string := "PROJECTIVE_PARAM_SURFACE_VERT_SHADER"

  /** The fragment shader of each style. */
  function FragShader(s: ParamVizStyle): (r: string)
    ensures r != VertShader
  {
    match s
    case CHECKER => "PROJECTIVE_PARAM_CHECKER_SURFACE_FRAG_SHADER"
    case GRID => "PROJECTIVE_PARAM_GRID_SURFACE_FRAG_SHADER"
    case LOCAL_CHECK => "PROJECTIVE_PARAM_LOCAL_CHECKER_SURFACE_FRAG_SHADER"
    case LOCAL_RAD => "PROJECTIVE_PARAM_LOCAL_RAD_SURFACE_FRAG_SHADER"
  }

  /** Each style has a fragment shader of its own. */
  lemma FragShaderInjective(a: ParamVizStyle, b: ParamVizStyle)
    ensures FragShader(a) == FragShader(b) <==> a == b
  {
  }

  /** The styles whose shader samples a colormap. */
  predicate UsesColormap(s: ParamVizStyle)
    ensures UsesColormap(s) <==> |StyleName(s)| > 6 && StyleName(s)[..6] == "local "
  {
    assert "checker"[..6][0] != "local "[0];
    assert "local grid"[..6] == "local " && "local dist"[..6] == "local ";
    s == LOCAL_CHECK || s == LOCAL_RAD
  }

  /** The period the shader receives: the stored period for unit
      coordinates, the period in world units for world coordinates. */
  function ModLenUniform(coordsType: ParamCoordsType, modLen: real, lengthScale: real): (r: real)
    ensures coordsType == UNIT || lengthScale == 1.0 ==> r == modLen
    ensures coordsType == WORLD ==> r == modLen * lengthScale
  {
    match coordsType
    case UNIT => modLen
    case WORLD => modLen * lengthScale
  }

  /** The uniforms after a draw has set them on a program whose uniforms
      were `m`: the period, then the colours or the angle of the style. */
  function WithParamUniforms(m: map<string, Uniform>, coordsType: ParamCoordsType, modLen: real, lengthScale: real,
                             s: ParamVizStyle, checkColor1: Vec3, checkColor2: Vec3, gridLineColor: Vec3,
                             gridBackgroundColor: Vec3, localRot: real): (r: map<string, Uniform>)
    ensures r.Keys == m.Keys + {"u_modLen"} + StyleUniformNames(s)
    ensures forall k :: k in m && k != "u_modLen" && k !in StyleUniformNames(s) ==> r[k] == m[k]
  {
    var withLen := m["u_modLen" := UFloat(ModLenUniform(coordsType, modLen, lengthScale))];
    match s
    case CHECKER => withLen["u_color1" := UVec3(checkColor1)]["u_color2" := UVec3(checkColor2)]
    case GRID => withLen["u_gridLineColor" := UVec3(gridLineColor)]["u_gridBackgroundColor" := UVec3(gridBackgroundColor)]
    case LOCAL_CHECK => withLen["u_angle" := UFloat(localRot)]
    case LOCAL_RAD => withLen["u_angle" := UFloat(localRot)]
  }

  /** The uniform names each style sets besides the period. */
  function StyleUniformNames(s: ParamVizStyle): set<string>
  {
    match s
    case CHECKER => {"u_color1", "u_color2"}
    case GRID => {"u_gridLineColor", "u_gridBackgroundColor"}
    case LOCAL_CHECK => {"u_angle"}
    case LOCAL_RAD => {"u_angle"}
  }

  /** What a draw sets: the period (scaled by the length scale only for world
      coordinates), the two checker colours for CHECKER, the line and
      background colours for GRID, only the angle for the local styles; every
      other uniform keeps its value. */
  lemma ParamUniformsByStyle(m: map<string, Uniform>, coordsType: ParamCoordsType, modLen: real, lengthScale: real,
                             s: ParamVizStyle, checkColor1: Vec3, checkColor2: Vec3, gridLineColor: Vec3,
                             gridBackgroundColor: Vec3, localRot: real)
    ensures var u := WithParamUniforms(m, coordsType, modLen, lengthScale, s, checkColor1, checkColor2,
                                       gridLineColor, gridBackgroundColor, localRot);
      u.Keys == m.Keys + {"u_modLen"} + StyleUniformNames(s) &&
      (forall k :: k in m && k != "u_modLen" && k !in StyleUniformNames(s) ==> u[k] == m[k]) &&
      u["u_modLen"] == UFloat(if coordsType == UNIT then modLen else modLen * lengthScale) &&
      (s == CHECKER ==> u["u_color1"] == UVec3(checkColor1) && u["u_color2"] == UVec3(checkColor2)) &&
      (s == GRID ==> u["u_gridLineColor"] == UVec3(gridLineColor) &&
                     u["u_gridBackgroundColor"] == UVec3(gridBackgroundColor)) &&
      (UsesColormap(s) ==> u["u_angle"] == UFloat(localRot))
  {
  }

  /** The entry the fill emits for corner c: the coordinate lifted to
      (u, v, 1) and scaled by exp(-sf), where sf is the corner's scale factor
      under projective interpolation and 0 otherwise; `exp` is the maths
      library's exponential. */
  function Projected(coords: seq<Vec2>, scaleFactors: seq<real>, interpolate: bool, exp: real -> real, c: nat): Vec3
    requires c < |coords| && (interpolate ==> c < |scaleFactors|)
  {
    Scale(Lift(coords[c]), exp(-(if interpolate then scaleFactors[c] else 0.0)))
  }

  /** Every corner the fill reads has a coordinate, and a scale factor when
      they are read. */
  predicate CornersCovered(idx: seq<nat>, coords: seq<Vec2>, scaleFactors: seq<real>, interpolate: bool)
  {
    Fan.InRange(idx, |coords|) && (interpolate ==> Fan.InRange(idx, |scaleFactors|))
  }

  /** The `a_texture_coord` buffer: the projected entry of every corner read. */
  function TexCoords(coords: seq<Vec2>, scaleFactors: seq<real>, interpolate: bool, exp: real -> real,
                     idx: seq<nat>): (r: seq<Vec3>)
    requires CornersCovered(idx, coords, scaleFactors, interpolate)
    ensures |r| == |idx|
  {
    seq(|idx|, q requires 0 <= q < |idx| => Projected(coords, scaleFactors, interpolate, exp, idx[q]))
  }

  /** `buf` holds the first |buf| entries of `TexCoords`: the fill part way through. */
  ghost predicate TexPrefix(buf: seq<Vec3>, coords: seq<Vec2>, scaleFactors: seq<real>, interpolate: bool,
                            exp: real -> real, idx: seq<nat>)
  {
    |buf| <= |idx| &&
    forall q :: 0 <= q < |buf| ==>
      idx[q] < |coords| && (interpolate ==> idx[q] < |scaleFactors|) &&
      buf[q] == Projected(coords, scaleFactors, interpolate, exp, idx[q])
  }

  /** Without projective interpolation, and with exp(0) = 1, every emitted
      entry is the plain lifted coordinate (u, v, 1). */
  lemma AffineTexCoords(coords: seq<Vec2>, scaleFactors: seq<real>, exp: real -> real, idx: seq<nat>)
    requires CornersCovered(idx, coords, scaleFactors, false) && exp(0.0) == 1.0
    ensures forall q :: 0 <= q < |idx| ==> TexCoords(coords, scaleFactors, false, exp, idx)[q] == Lift(coords[idx[q]])
  {
    forall q | 0 <= q < |idx|
      ensures TexCoords(coords, scaleFactors, false, exp, idx)[q] == Lift(coords[idx[q]])
    {
      assert -0.0 == 0.0;
    }
  }

  /** `fillPositionBuffers`: the texture coordinates of the corners the fan
      reads, at the global corner indices c, c + j, c + j + 1 of every fan
      triangle j of a face whose first corner is c. */
  method FillPositionBuffers(faces: seq<seq<nat>>, coords: seq<Vec2>, scaleFactors: seq<real>, interpolate: bool,
                             exp: real -> real) returns (texCoord: seq<Vec3>)
    requires Fan.NoEmptyFace(faces) && CornersCovered(Fan.CornerIndices(faces), coords, scaleFactors, interpolate)
    ensures texCoord == TexCoords(coords, scaleFactors, interpolate, exp, Fan.CornerIndices(faces))
  {
    ghost var idx := Fan.CornerIndices(faces);
    texCoord := [];
    var cornerCounter := 0;
    var iF := 0;
    while iF < |faces|
      invariant 0 <= iF <= |faces|
      invariant cornerCounter == Fan.Corners(faces[..iF])
      invariant |texCoord| == 3 * Fan.Triangles(faces[..iF])
      invariant TexPrefix(texCoord, coords, scaleFactors, interpolate, exp, idx)
    {
      texCoord := FillFace(faces, coords, scaleFactors, interpolate, exp, iF, cornerCounter, texCoord);
      Fan.PrefixNext(faces, iF);
      cornerCounter := cornerCounter + |faces[iF]|;
      iF := iF + 1;
    }
    assert faces[..|faces|] == faces;
    TexPrefixWhole(texCoord, coords, scaleFactors, interpolate, exp, idx);
  }

  /** The fan loop of the fill for face iF, whose first corner is `cornerCounter`. */
  method FillFace(faces: seq<seq<nat>>, coords: seq<Vec2>, scaleFactors: seq<real>, interpolate: bool,
                  exp: real -> real, iF: nat, cornerCounter: nat, prefix: seq<Vec3>) returns (texCoord: seq<Vec3>)
    requires Fan.NoEmptyFace(faces) && CornersCovered(Fan.CornerIndices(faces), coords, scaleFactors, interpolate)
    requires iF < |faces| && cornerCounter == Fan.Corners(faces[..iF])
    requires |prefix| == 3 * Fan.Triangles(faces[..iF])
    requires TexPrefix(prefix, coords, scaleFactors, interpolate, exp, Fan.CornerIndices(faces))
    ensures |texCoord| == 3 * (Fan.Triangles(faces[..iF]) + Fan.TriCount(|faces[iF]|))
    ensures TexPrefix(texCoord, coords, scaleFactors, interpolate, exp, Fan.CornerIndices(faces))
  {
    ghost var idx := Fan.CornerIndices(faces);
    texCoord := prefix;
    var face := faces[iF];
    var D := |face|;
    var vRoot := face[0];
    var j := 1;
    while j + 1 < D
      invariant 1 <= j && j - 1 <= Fan.TriCount(D)
      invariant |texCoord| == 3 * (Fan.Triangles(faces[..iF]) + j - 1)
      invariant TexPrefix(texCoord, coords, scaleFactors, interpolate, exp, idx)
    {
      texCoord := FillTriangle(faces, coords, scaleFactors, interpolate, exp, iF, cornerCounter, j, texCoord);
      j := j + 1;
    }
  }

  /** One pass of the fan loop: appends the projected entries of the corners
      c, c + j, c + j + 1 of fan triangle j of face iF. */
  method FillTriangle(faces: seq<seq<nat>>, coords: seq<Vec2>, scaleFactors: seq<real>, interpolate: bool,
                      exp: real -> real, iF: nat, cornerCounter: nat, j: nat, prefix: seq<Vec3>)
    returns (texCoord: seq<Vec3>)
    requires CornersCovered(Fan.CornerIndices(faces), coords, scaleFactors, interpolate)
    requires iF < |faces| && cornerCounter == Fan.Corners(faces[..iF]) && 1 <= j && j + 1 < |faces[iF]|
    requires |prefix| == Fan.TriangleSlot(faces, iF, j)
    requires TexPrefix(prefix, coords, scaleFactors, interpolate, exp, Fan.CornerIndices(faces))
    ensures |texCoord| == |prefix| + 3
    ensures TexPrefix(texCoord, coords, scaleFactors, interpolate, exp, Fan.CornerIndices(faces))
  {
    Fan.CornerTriangle(faces, iF, j);
    var vRootVal := coords[cornerCounter];
    var vBVal := coords[cornerCounter + j];
    var vCVal := coords[cornerCounter + j + 1];
    var vRootSF := if interpolate then scaleFactors[cornerCounter] else 0.0;
    var vBSF := if interpolate then scaleFactors[cornerCounter + j] else 0.0;
    var vCSF := if interpolate then scaleFactors[cornerCounter + j + 1] else 0.0;
    var projRoot := Scale(Lift(vRootVal), exp(-vRootSF));
    var projB := Scale(Lift(vBVal), exp(-vBSF));
    var projC := Scale(Lift(vCVal), exp(-vCSF));
    assert projRoot == Projected(coords, scaleFactors, interpolate, exp, cornerCounter);
    assert projB == Projected(coords, scaleFactors, interpolate, exp, cornerCounter + j);
    assert projC == Projected(coords, scaleFactors, interpolate, exp, cornerCounter + j + 1);
    TexPrefixExtend(prefix, coords, scaleFactors, interpolate, exp, Fan.CornerIndices(faces));
    texCoord := prefix + [projRoot, projB, projC];
  }

  /** Appending the projected entries of the next three corners read keeps the invariant. */
  lemma TexPrefixExtend(buf: seq<Vec3>, coords: seq<Vec2>, scaleFactors: seq<real>, interpolate: bool,
                        exp: real -> real, idx: seq<nat>)
    requires TexPrefix(buf, coords, scaleFactors, interpolate, exp, idx) && |buf| + 3 <= |idx|
    requires CornersCovered(idx, coords, scaleFactors, interpolate)
    ensures var n := |buf|;
      TexPrefix(buf + [Projected(coords, scaleFactors, interpolate, exp, idx[n]),
                       Projected(coords, scaleFactors, interpolate, exp, idx[n + 1]),
                       Projected(coords, scaleFactors, interpolate, exp, idx[n + 2])],
                coords, scaleFactors, interpolate, exp, idx)
  {
  }

  /** A finished fill is the whole buffer. */
  lemma TexPrefixWhole(buf: seq<Vec3>, coords: seq<Vec2>, scaleFactors: seq<real>, interpolate: bool,
                       exp: real -> real, idx: seq<nat>)
    requires TexPrefix(buf, coords, scaleFactors, interpolate, exp, idx) && |buf| == |idx|
    requires CornersCovered(idx, coords, scaleFactors, interpolate)
    ensures buf == TexCoords(coords, scaleFactors, interpolate, exp, idx)
  {
  }

  /** The display name: the quantity's name followed by " (corner parameterization)". */
  function NiceName(name: string): (r: string)
    ensures |r| == |name| + |" (corner parameterization)"|
    ensures r[..|name|] == name && r[|name|..] == " (corner parameterization)"
  {
    name + " (corner parameterization)"
  }

  /** The program of a given style: the colormap texture for the styles that
      use one, the texture-coordinate buffer and the "wax" material. */
  method NewProgram(style: ParamVizStyle, cMap: string, texCoord: seq<Vec3>) returns (p: ShaderProgram)
    ensures fresh(p)
    ensures p.shaders == [VertShader, FragShader(style)]
    ensures p.textures == if UsesColormap(style) then map["t_colormap" := Colormap(cMap)] else map[]
    ensures p.attributes == map["a_texture_coord" := Vec3s(texCoord)]
    ensures p.uniforms == map[] && p.material == "wax" && p.draws == 0
  {
    p := new ShaderProgram([VertShader, FragShader(style)], {"a_texture_coord"});
    if style == LOCAL_CHECK || style == LOCAL_RAD {
      p.SetTexture("t_colormap", Colormap(cMap));
    }
    p.SetAttribute("a_texture_coord", Vec3s(texCoord));
    p.SetMaterial("wax");
  }

  /** The colours the constructor starts from. The colour constants and the
      HSV conversion that lightens the checker colour belong to the GL
      library and are given as values. */
  datatype Palette = Palette(pink: Vec3, white: Vec3, lightPink: Vec3)

  /** A corner parameterization. The base quantity and its only subclass in
      this file are one class here. */
  class ParameterizationQuantity {
    const name: string
    const coordsType: ParamCoordsType
    /** The faces of the parent mesh, as vertex ids. */
    const faces: seq<seq<nat>>
    /** One coordinate and one scale factor per face corner. */
    const coords: seq<Vec2>
    const cornerScaleFactors: seq<real>
    const checkColor1: Vec3
    const checkColor2: Vec3
    const gridLineColor: Vec3
    const gridBackgroundColor: Vec3
    /** The colormap of the local styles. */
    const cMap: string
    /** Angular shift of the local styles, in radians. */
    const localRot: real
    var enabled: bool
    /** The pattern; the constructor leaves it at its persistent default. */
    var vizStyle: ParamVizStyle
    /** The pattern period; only the user interface sets it. */
    var modLen: real
    var projectiveInterpolate: bool
    var program: ShaderProgram?

    /** The constructor without scale factors: one zero per coordinate. */
    constructor (name: string, coords: seq<Vec2>, coordsType: ParamCoordsType, faces: seq<seq<nat>>, palette: Palette)
      ensures this.name == name && this.coords == coords && this.coordsType == coordsType && this.faces == faces
      ensures |cornerScaleFactors| == |coords| && forall i :: 0 <= i < |coords| ==> cornerScaleFactors[i] == 0.0
      ensures cMap == "phase" && checkColor1 == palette.pink && checkColor2 == palette.lightPink
      ensures gridLineColor == palette.white && gridBackgroundColor == palette.pink
      ensures localRot == 0.0 && projectiveInterpolate && program == null
    {
      var sf := Zeros(|coords|);
      this.name := name;
      this.coords := coords;
      this.coordsType := coordsType;
      this.faces := faces;
      cornerScaleFactors := sf;
      cMap := "phase";
      checkColor1 := palette.pink;
      checkColor2 := palette.lightPink;
      gridLineColor := palette.white;
      gridBackgroundColor := palette.pink;
      localRot := 0.0;
      projectiveInterpolate := true;
      program := null;
    }

    /** The constructor that takes the scale factors and stores them as given. */
    constructor WithScaleFactors(name: string, coords: seq<Vec2>, cornerScaleFactors: seq<real>,
                                 coordsType: ParamCoordsType, faces: seq<seq<nat>>, palette: Palette)
      ensures this.name == name && this.coords == coords && this.coordsType == coordsType && this.faces == faces
      ensures this.cornerScaleFactors == cornerScaleFactors
      ensures cMap == "phase" && checkColor1 == palette.pink && checkColor2 == palette.lightPink
      ensures gridLineColor == palette.white && gridBackgroundColor == palette.pink
      ensures localRot == 0.0 && projectiveInterpolate && program == null
    {
      this.name := name;
      this.coords := coords;
      this.coordsType := coordsType;
      this.faces := faces;
      this.cornerScaleFactors := cornerScaleFactors;
      cMap := "phase";
      checkColor1 := palette.pink;
      checkColor2 := palette.lightPink;
      gridLineColor := palette.white;
      gridBackgroundColor := palette.pink;
      localRot := 0.0;
      projectiveInterpolate := true;
      program := null;
    }

    /** Every read of the fill is in range. */
    predicate ReadsInRange()
      reads this
    {
      Fan.NoEmptyFace(faces) &&
      CornersCovered(Fan.CornerIndices(faces), coords, cornerScaleFactors, projectiveInterpolate)
    }

    method SetEnabled(b: bool)
      modifies this`enabled
      ensures enabled == b
    {
      enabled := b;
    }

    /** Builds the program of the current style, with the colormap texture for
        the local styles only, the texture coordinates and the "wax" material. */
    method CreateProgram(exp: real -> real)
      requires ReadsInRange()
      modifies this`program
      ensures program != null && fresh(program)
      ensures program.shaders == [VertShader, FragShader(vizStyle)]
      ensures program.textures == if UsesColormap(vizStyle) then map["t_colormap" := Colormap(cMap)] else map[]
      ensures program.attributes ==
        map["a_texture_coord" := Vec3s(TexCoords(coords, cornerScaleFactors, projectiveInterpolate, exp, Fan.CornerIndices(faces)))]
      ensures program.uniforms == map[] && program.material == "wax" && program.draws == 0
    {
      var texCoord := FillPositionBuffers(faces, coords, cornerScaleFactors, projectiveInterpolate, exp);
      var p := NewProgram(vizStyle, cMap, texCoord);
      program := p;
    }

    /** `setProgramUniforms`: the period, then the uniforms of the current style. */
    method SetProgramUniforms(p: ShaderProgram, lengthScale: real)
      modifies p`uniforms
      ensures p.uniforms == WithParamUniforms(old(p.uniforms), coordsType, modLen, lengthScale, vizStyle,
                                              checkColor1, checkColor2, gridLineColor, gridBackgroundColor, localRot)
    {
      match coordsType {
        case UNIT =>
          p.SetUniform("u_modLen", UFloat(modLen));
        case WORLD =>
          var worldLen := modLen * lengthScale;
          assert worldLen == ModLenUniform(coordsType, modLen, lengthScale);
          p.SetUniform("u_modLen", UFloat(worldLen));
      }
      match vizStyle {
        case CHECKER =>
          p.SetUniform("u_color1", UVec3(checkColor1));
          p.SetUniform("u_color2", UVec3(checkColor2));
        case GRID =>
          p.SetUniform("u_gridLineColor", UVec3(gridLineColor));
          p.SetUniform("u_gridBackgroundColor", UVec3(gridBackgroundColor));
        case LOCAL_CHECK =>
          p.SetUniform("u_angle", UFloat(localRot));
        case LOCAL_RAD =>
          p.SetUniform("u_angle", UFloat(localRot));
      }
    }

    /** Draws when enabled, building the program only when none is cached;
        `lengthScale` is the scene's length scale. */
    method Draw(exp: real -> real, lengthScale: real)
      requires ReadsInRange()
      modifies this`program, program
      ensures !old(enabled) ==> program == old(program) && (program != null ==> unchanged(program))
      ensures old(enabled) ==>
        program != null &&
        program.uniforms == WithParamUniforms((if old(program) == null then map[] else old(program.uniforms)),
                                              coordsType, modLen, lengthScale, vizStyle, checkColor1, checkColor2,
                                              gridLineColor, gridBackgroundColor, localRot)
      ensures old(enabled) && old(program) != null ==>
        program == old(program) && program.draws == old(program.draws) + 1 &&
        program.attributes == old(program.attributes) && program.textures == old(program.textures) &&
        program.material == old(program.material)
      ensures old(enabled) && old(program) == null ==>
        fresh(program) && program.draws == 1 && program.shaders == [VertShader, FragShader(vizStyle)] &&
        program.textures == (if UsesColormap(vizStyle) then map["t_colormap" := Colormap(cMap)] else map[]) &&
        program.material == "wax" &&
        program.attributes ==
          map["a_texture_coord" := Vec3s(TexCoords(coords, cornerScaleFactors, projectiveInterpolate, exp, Fan.CornerIndices(faces)))]
    {
      if !enabled {
        return;
      }
      if program == null {
        CreateProgram(exp);
      }
      SetProgramUniforms(program, lengthScale);
      program.Draw();
    }

    /** Switches the pattern; the cached program is dropped, since each style
        has its own shader. */
    method SetStyle(newStyle: ParamVizStyle)
      modifies this`vizStyle, this`program
      ensures vizStyle == newStyle && program == null
    {
      vizStyle := newStyle;
      program := null;
    }

    method GeometryChanged()
      modifies this`program
      ensures program == null
    {
      program := null;
    }
  }
}
