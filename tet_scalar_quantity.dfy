/** A scalar quantity on a tet mesh, given per vertex or per face and drawn
    through a colormap on the faces of the mesh that remain visible after
    slicing. The colormap range is reset from the data range by one of three
    rules; the fill packs one scalar per fan-triangle corner. */
module TetScalarQuantity {
  import opened Types
  import opened Render
  import Fan

  const VertShader: string := "VERTCOLOR_SURFACE_VERT_SHADER"
  const FragShader: string := "VERTCOLOR_SURFACE_FRAG_SHADER"

  function Abs(x: real): real
  {
    if x < 0.0 then -x else x
  }

  function Max(a: real, b: real): real
  {
    if a < b then b else a
  }

  /** `resetMapRange`: the colormap range for the data range (lo, hi). The
      standard rule keeps (lo, hi); the symmetric rule centres the range on 0,
      reaching out to the larger of |lo| and |hi|; the magnitude rule spans
      (0, hi). */
  function ResetRange(dataType: DataType, dataRange: (real, real)): (r: (real, real))
    ensures dataType == DataType.SYMMETRIC ==>
      r.0 == -r.1 && (r.1 == Abs(dataRange.0) || r.1 == Abs(dataRange.1)) &&
      r.0 <= dataRange.0 && dataRange.1 <= r.1
  {
    match dataType
    case STANDARD => dataRange
    case SYMMETRIC =>
      var absRange := Max(Abs(dataRange.0), Abs(dataRange.1));
      (-absRange, absRange)
    case MAGNITUDE => (0.0, dataRange.1)
  }

  /** The symmetric range is the narrowest range centred on 0 that contains a
      well-formed data range. */
  lemma SymmetricRangeTightest(dataRange: (real, real), m: real)
    requires dataRange.0 <= dataRange.1 && -m <= dataRange.0 && dataRange.1 <= m
    ensures ResetRange(DataType.SYMMETRIC, dataRange).1 <= m
  {
  }

  /** The standard and magnitude ranges both end at the top of the data range;
      the standard one also starts at its bottom and the magnitude one at 0. */
  lemma ResetRangeEnds(dataType: DataType, dataRange: (real, real))
    requires dataType != DataType.SYMMETRIC
    ensures ResetRange(dataType, dataRange).1 == dataRange.1
    ensures ResetRange(dataType, dataRange).0 == if dataType == DataType.STANDARD then dataRange.0 else 0.0
  {
  }

  /** The colours of the vertex fill: each fan corner's point, interpolated
      from the per-vertex values by the parent mesh. */
  function Interpolated<P>(pts: seq<P>, values: seq<real>, interp: (P, seq<real>) -> real): (r: seq<real>)
    ensures |r| == |pts|
  {
    seq(|pts|, q requires 0 <= q < |pts| => interp(pts[q], values))
  }

  /** `buf` holds the first |buf| interpolated colours: the vertex fill part way through. */
  ghost predicate InterpolatedPrefix<P>(buf: seq<real>, pts: seq<P>, values: seq<real>, interp: (P, seq<real>) -> real)
  {
    |buf| <= |pts| && forall q :: 0 <= q < |buf| ==> buf[q] == interp(pts[q], values)
  }

  /** The vertex `fillColorBuffers`: over the visible faces, every fan
      triangle gets the interpolated values at face[0], face[j], face[j + 1]. */
  method FillVertexColors<P>(faces: seq<seq<P>>, values: seq<real>, interp: (P, seq<real>) -> real)
    returns (colorval: seq<real>)
    requires Fan.NoEmptyFace(faces)
    ensures colorval == Interpolated(Fan.FanVertices(faces), values, interp)
  {
    colorval := [];
    var iF := 0;
    while iF < |faces|
      invariant 0 <= iF <= |faces|
      invariant |colorval| == 3 * Fan.Triangles(faces[..iF])
      invariant InterpolatedPrefix(colorval, Fan.FanVertices(faces), values, interp)
    {
      colorval := FillVertexFace(faces, values, interp, iF, colorval);
      Fan.PrefixNext(faces, iF);
      iF := iF + 1;
    }
    assert faces[..|faces|] == faces;
  }

  /** The fan loop of the vertex fill for face iF. */
  method FillVertexFace<P>(faces: seq<seq<P>>, values: seq<real>, interp: (P, seq<real>) -> real, iF: nat,
                           prefix: seq<real>) returns (colorval: seq<real>)
    requires Fan.NoEmptyFace(faces) && iF < |faces|
    requires |prefix| == 3 * Fan.Triangles(faces[..iF])
    requires InterpolatedPrefix(prefix, Fan.FanVertices(faces), values, interp)
    ensures |colorval| == 3 * (Fan.Triangles(faces[..iF]) + Fan.TriCount(|faces[iF]|))
    ensures InterpolatedPrefix(colorval, Fan.FanVertices(faces), values, interp)
  {
    ghost var pts := Fan.FanVertices(faces);
    ghost var t0 := Fan.Triangles(faces[..iF]);
    colorval := prefix;
    var face := faces[iF];
    var D := |face|;
    var vRoot := interp(face[0], values);
    var j := 1;
    while j + 1 < D
      invariant 1 <= j && j - 1 <= Fan.TriCount(D)
      invariant |colorval| == 3 * (t0 + j - 1)
      invariant InterpolatedPrefix(colorval, pts, values, interp)
    {
      Fan.VertexTriangle(faces, iF, j);
      var vB := interp(face[j], values);
      var vC := interp(face[j + 1], values);
      colorval := colorval + [vRoot, vB, vC];
      j := j + 1;
    }
  }

  /** The face `fillColorBuffers`: every fan triangle of visible face iF gets
      values[iF] three times. The interpolations it computes are unused. */
  method FillFaceColors<P>(faces: seq<seq<P>>, values: seq<real>, interp: (P, seq<real>) -> real)
    returns (colorval: seq<real>)
    requires Fan.NoEmptyFace(faces) && Fan.InRange(Fan.FaceIndices(faces), |values|)
    ensures colorval == Fan.Gather(values, Fan.FaceIndices(faces))
  {
    colorval := [];
    var iF := 0;
    while iF < |faces|
      invariant 0 <= iF <= |faces|
      invariant |colorval| == 3 * Fan.Triangles(faces[..iF])
      invariant Fan.GatheredPrefix(colorval, values, Fan.FaceIndices(faces))
    {
      colorval := FillFaceFace(faces, values, interp, iF, colorval);
      Fan.PrefixNext(faces, iF);
      iF := iF + 1;
    }
    assert faces[..|faces|] == faces;
    Fan.GatheredWhole(colorval, values, Fan.FaceIndices(faces));
  }

  /** The fan loop of the face fill for face iF. */
  method FillFaceFace<P>(faces: seq<seq<P>>, values: seq<real>, interp: (P, seq<real>) -> real, iF: nat,
                         prefix: seq<real>) returns (colorval: seq<real>)
    requires Fan.NoEmptyFace(faces) && Fan.InRange(Fan.FaceIndices(faces), |values|) && iF < |faces|
    requires |prefix| == 3 * Fan.Triangles(faces[..iF])
    requires Fan.GatheredPrefix(prefix, values, Fan.FaceIndices(faces))
    ensures |colorval| == 3 * (Fan.Triangles(faces[..iF]) + Fan.TriCount(|faces[iF]|))
    ensures Fan.GatheredPrefix(colorval, values, Fan.FaceIndices(faces))
  {
    ghost var fidx := Fan.FaceIndices(faces);
    ghost var t0 := Fan.Triangles(faces[..iF]);
    colorval := prefix;
    var face := faces[iF];
    var D := |face|;
    var vRoot := interp(face[0], values);
    var j := 1;
    while j + 1 < D
      invariant 1 <= j && j - 1 <= Fan.TriCount(D)
      invariant |colorval| == 3 * (t0 + j - 1)
      invariant Fan.GatheredPrefix(colorval, values, fidx)
    {
      Fan.FaceTriangle(faces, iF, j);
      var vB := interp(face[j], values);
      var vC := interp(face[j + 1], values);
      Fan.GatheredExtend(colorval, values, fidx);
      colorval := colorval + [values[iF], values[iF], values[iF]];
      j := j + 1;
    }
  }

  /** Where the values are defined; it names the quantity. */
  datatype DefinedOn = Vertex | Face

  function DefinedOnName(d: DefinedOn): (r: string)
    ensures r in {"vertex", "face"} && (r == "vertex" <==> d == Vertex)
  {
    match d
    case Vertex => "vertex"
    case Face => "face"
  }

  /** The display name: name, then " (", the element kind, " scalar)". */
  function NiceName(name: string, d: DefinedOn): (r: string)
    ensures |r| > |name| && r[..|name|] == name
    ensures d == Vertex ==> r[|name|..] == " (vertex scalar)"
    ensures d == Face ==> r[|name|..] == " (face scalar)"
  {
    var suffix := " (" + DefinedOnName(d) + " scalar)";
    assert (name + suffix)[..|name|] == name && (name + suffix)[|name|..] == suffix;
    name + suffix
  }

  class ScalarQuantity {
    const name: string
    const definedOn: DefinedOn
    const dataType: DataType
    const values: seq<real>
    /** The robust minimum and maximum of the values, computed by a library
        routine outside this model and given to the constructors. */
    const dataRange: (real, real)
    var enabled: bool
    var cMap: string
    var vizRange: (real, real)
    var program: ShaderProgram?

    /** The vertex constructor: the colormap starts at the data type's
        default (given), and the range is reset from the data range. */
    constructor Vertex(name: string, values: seq<real>, defaultColorMap: string, dataRange: (real, real),
                      dataType: DataType := DataType.STANDARD)
      ensures this.name == name && definedOn == DefinedOn.Vertex && this.values == values && this.dataType == dataType
      ensures cMap == defaultColorMap && this.dataRange == dataRange
      ensures vizRange == ResetRange(dataType, dataRange) && program == null
    {
      this.name := name;
      definedOn := DefinedOn.Vertex;
      this.values := values;
      this.dataType := dataType;
      cMap := defaultColorMap;
      this.dataRange := dataRange;
      program := null;
      new;
      ResetMapRange();
    }

    /** The face constructor, alike but for the element kind. */
    constructor Face(name: string, values: seq<real>, defaultColorMap: string, dataRange: (real, real),
                    dataType: DataType := DataType.STANDARD)
      ensures this.name == name && definedOn == DefinedOn.Face && this.values == values && this.dataType == dataType
      ensures cMap == defaultColorMap && this.dataRange == dataRange
      ensures vizRange == ResetRange(dataType, dataRange) && program == null
    {
      this.name := name;
      definedOn := DefinedOn.Face;
      this.values := values;
      this.dataType := dataType;
      cMap := defaultColorMap;
      this.dataRange := dataRange;
      program := null;
      new;
      ResetMapRange();
    }

    function GetColorMap(): string
      reads this
    {
      cMap
    }

    function GetMapRange(): (real, real)
      reads this
    {
      vizRange
    }

    /** Stores the colormap; the next read returns it. */
    method SetColorMap(m: string)
      modifies this`cMap
      ensures GetColorMap() == m
    {
      cMap := m;
    }

    /** Stores the colormap range; the next read returns it. */
    method SetMapRange(r: (real, real))
      modifies this`vizRange
      ensures GetMapRange() == r
    {
      vizRange := r;
    }

    method ResetMapRange()
      modifies this`vizRange
      ensures vizRange == ResetRange(dataType, dataRange)
    {
      match dataType {
        case STANDARD =>
          vizRange := dataRange;
        case SYMMETRIC =>
          var absRange := Max(Abs(dataRange.0), Abs(dataRange.1));
          vizRange := (-absRange, absRange);
        case MAGNITUDE =>
          vizRange := (0.0, dataRange.1);
      }
    }

    method SetEnabled(b: bool)
      modifies this`enabled
      ensures enabled == b
    {
      enabled := b;
    }

    /** Every read of the fill over the visible faces is in range. */
    predicate ReadsInRange<P>(visibleFaces: seq<seq<P>>)
      reads this
    {
      Fan.NoEmptyFace(visibleFaces) &&
      (definedOn == DefinedOn.Face ==> Fan.InRange(Fan.FaceIndices(visibleFaces), |values|))
    }

    /** The colours the program receives over the visible faces. */
    function Colors<P>(visibleFaces: seq<seq<P>>, interp: (P, seq<real>) -> real): seq<real>
      requires ReadsInRange(visibleFaces)
      reads this
    {
      match definedOn
      case Vertex => Interpolated(Fan.FanVertices(visibleFaces), values, interp)
      case Face => Fan.Gather(values, Fan.FaceIndices(visibleFaces))
    }

    /** Builds the program over the parent's visible faces, with the colour
        buffer, the colormap texture and the parent's material. */
    method CreateProgram<P>(visibleFaces: seq<seq<P>>, interp: (P, seq<real>) -> real, material: string)
      requires ReadsInRange(visibleFaces)
      modifies this`program
      ensures program != null && fresh(program)
      ensures program.shaders == [VertShader, FragShader]
      ensures program.attributes == map["a_colorval" := Reals(Colors(visibleFaces, interp))]
      ensures program.textures == map["t_colormap" := Colormap(cMap)]
      ensures program.uniforms == map[] && program.material == material && program.draws == 0
    {
      var p := new ShaderProgram([VertShader, FragShader], {"a_colorval"});
      var colorval;
      if definedOn == DefinedOn.Vertex {
        colorval := FillVertexColors(visibleFaces, values, interp);
      } else {
        colorval := FillFaceColors(visibleFaces, values, interp);
      }
      p.SetAttribute("a_colorval", Reals(colorval));
      p.SetTexture("t_colormap", Colormap(cMap));
      p.SetMaterial(material);
      program := p;
    }

    /** Draws when enabled, building the program only when none is cached; the
        range uniforms are the current colormap range. */
    method Draw<P>(visibleFaces: seq<seq<P>>, interp: (P, seq<real>) -> real, material: string)
      requires ReadsInRange(visibleFaces)
      modifies this`program, program
      ensures !old(enabled) ==> program == old(program) && (program != null ==> unchanged(program))
      ensures old(enabled) ==>
        program != null &&
        program.uniforms == (if old(program) == null then map[] else old(program.uniforms))
          ["u_rangeLow" := UFloat(vizRange.0)]["u_rangeHigh" := UFloat(vizRange.1)]
      ensures old(enabled) && old(program) != null ==>
        program == old(program) && program.draws == old(program.draws) + 1 &&
        program.attributes == old(program.attributes) && program.textures == old(program.textures) &&
        program.material == old(program.material)
      ensures old(enabled) && old(program) == null ==>
        fresh(program) && program.draws == 1 && program.shaders == [VertShader, FragShader] &&
        program.textures == map["t_colormap" := Colormap(cMap)] && program.material == material &&
        program.attributes == map["a_colorval" := Reals(Colors(visibleFaces, interp))]
    {
      if !enabled {
        return;
      }
      if program == null {
        CreateProgram(visibleFaces, interp, material);
      }
      program.SetUniform("u_rangeLow", UFloat(vizRange.0));
      program.SetUniform("u_rangeHigh", UFloat(vizRange.1));
      program.Draw();
    }

    method GeometryChanged()
      modifies this`program
      ensures program == null
    {
      program := null;
    }
  }
}
