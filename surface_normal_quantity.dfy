/** Normal vectors on a surface mesh, given per vertex or per face, drawn as a
    shaded surface: the quantity packs positions, normals and (when the shader
    wants them) barycentric coordinates for every fan triangle. */
module SurfaceNormalQuantity {
  import opened Geometry
  import opened Render
  import Fan

  const VertShader: string := "PLAIN_SURFACE_VERT_SHADER"
  const FragShader: string := "PLAIN_SURFACE_FRAG_SHADER"

  /** What the vertex-normal fill reads: every face's root vertex (before the
      fan loop, so for every face), and the positions and normals of every
      vertex the fan emits. */
  predicate VertexFillReadsInRange(faces: seq<seq<nat>>, vertices: seq<Vec3>, normalValues: seq<Vec3>)
  {
    Fan.RootsInRange(faces, |vertices|) &&
    Fan.InRange(Fan.FanVertices(faces), |vertices|) &&
    Fan.InRange(Fan.FanVertices(faces), |normalValues|)
  }

  /** What the face-normal fill reads: the root vertex and the normal of every
      face, and the positions of every vertex the fan emits. */
  predicate FaceFillReadsInRange(faces: seq<seq<nat>>, vertices: seq<Vec3>, normalValues: seq<Vec3>)
  {
    Fan.RootsInRange(faces, |vertices|) &&
    Fan.InRange(Fan.FanVertices(faces), |vertices|) &&
    |faces| <= |normalValues|
  }

  /** Vertex normals: positions and normals are both read at the fan's vertex
      ids, so they pair up slot by slot; the barycentric buffer is built only
      when the program declares `a_barycoord`. */
  method FillVertexNormalBuffers(faces: seq<seq<nat>>, vertices: seq<Vec3>, normalValues: seq<Vec3>, wantsBary: bool)
    returns (positions: seq<Vec3>, normals: seq<Vec3>, bcoord: seq<Vec3>)
    requires VertexFillReadsInRange(faces, vertices, normalValues)
    ensures positions == Fan.Gather(vertices, Fan.FanVertices(faces))
    ensures normals == Fan.Gather(normalValues, Fan.FanVertices(faces))
    ensures bcoord == if wantsBary then BaryCoords(Fan.Triangles(faces)) else []
  {
    positions, normals, bcoord := [], [], [];
    var iF := 0;
    while iF < |faces|
      invariant 0 <= iF <= |faces|
      invariant |positions| == |normals| == 3 * Fan.Triangles(faces[..iF])
      invariant Fan.GatheredPrefix(positions, vertices, Fan.FanVertices(faces))
      invariant Fan.GatheredPrefix(normals, normalValues, Fan.FanVertices(faces))
      invariant bcoord == if wantsBary then BaryCoords(Fan.Triangles(faces[..iF])) else []
    {
      positions, normals, bcoord := FillVertexNormalFace(faces, vertices, normalValues, wantsBary, iF, positions, normals, bcoord);
      iF := iF + 1;
    }
    assert faces[..|faces|] == faces;
    Fan.GatheredWhole(positions, vertices, Fan.FanVertices(faces));
    Fan.GatheredWhole(normals, normalValues, Fan.FanVertices(faces));
  }

  /** The fan loop of the vertex-normal fill for face iF. */
  method FillVertexNormalFace(faces: seq<seq<nat>>, vertices: seq<Vec3>, normalValues: seq<Vec3>, wantsBary: bool,
                              iF: nat, positions0: seq<Vec3>, normals0: seq<Vec3>, bcoord0: seq<Vec3>)
    returns (positions: seq<Vec3>, normals: seq<Vec3>, bcoord: seq<Vec3>)
    requires VertexFillReadsInRange(faces, vertices, normalValues) && iF < |faces|
    requires |positions0| == |normals0| == 3 * Fan.Triangles(faces[..iF])
    requires Fan.GatheredPrefix(positions0, vertices, Fan.FanVertices(faces))
    requires Fan.GatheredPrefix(normals0, normalValues, Fan.FanVertices(faces))
    requires bcoord0 == if wantsBary then BaryCoords(Fan.Triangles(faces[..iF])) else []
    ensures |positions| == |normals| == 3 * Fan.Triangles(faces[..iF + 1])
    ensures Fan.GatheredPrefix(positions, vertices, Fan.FanVertices(faces))
    ensures Fan.GatheredPrefix(normals, normalValues, Fan.FanVertices(faces))
    ensures bcoord == if wantsBary then BaryCoords(Fan.Triangles(faces[..iF + 1])) else []
  {
    ghost var idx := Fan.FanVertices(faces);
    ghost var t0 := Fan.Triangles(faces[..iF]);
    positions, normals, bcoord := positions0, normals0, bcoord0;
    var face := faces[iF];
    var D := |face|;
    var vRoot := face[0];
    var pRoot := vertices[vRoot];
    var j := 1;
    while j + 1 < D
      invariant 1 <= j && j - 1 <= Fan.TriCount(D)
      invariant |positions| == |normals| == 3 * (t0 + j - 1)
      invariant Fan.GatheredPrefix(positions, vertices, idx)
      invariant Fan.GatheredPrefix(normals, normalValues, idx)
      invariant bcoord == if wantsBary then BaryCoords(t0 + j - 1) else []
    {
      positions, normals, bcoord := VertexNormalTriangle(faces, vertices, normalValues, wantsBary, iF, j, t0 + j - 1, pRoot, positions, normals, bcoord);
      j := j + 1;
    }
    Fan.PrefixNext(faces, iF);
  }

  /** One pass of the vertex-normal fan loop: appends fan triangle j of face iF. */
  method VertexNormalTriangle(faces: seq<seq<nat>>, vertices: seq<Vec3>, normalValues: seq<Vec3>, wantsBary: bool,
                              iF: nat, j: nat, ghost t: nat, pRoot: Vec3, positions0: seq<Vec3>, normals0: seq<Vec3>, bcoord0: seq<Vec3>)
    returns (positions: seq<Vec3>, normals: seq<Vec3>, bcoord: seq<Vec3>)
    requires VertexFillReadsInRange(faces, vertices, normalValues)
    requires iF < |faces| && 1 <= j && j + 1 < |faces[iF]| && pRoot == vertices[faces[iF][0]]
    requires t == Fan.Triangles(faces[..iF]) + j - 1 && |positions0| == |normals0| == 3 * t
    requires Fan.GatheredPrefix(positions0, vertices, Fan.FanVertices(faces))
    requires Fan.GatheredPrefix(normals0, normalValues, Fan.FanVertices(faces))
    requires bcoord0 == if wantsBary then BaryCoords(t) else []
    ensures |positions| == |normals| == 3 * (t + 1)
    ensures Fan.GatheredPrefix(positions, vertices, Fan.FanVertices(faces))
    ensures Fan.GatheredPrefix(normals, normalValues, Fan.FanVertices(faces))
    ensures bcoord == if wantsBary then BaryCoords(t + 1) else []
  {
    ghost var idx := Fan.FanVertices(faces);
    var face := faces[iF];
    var D := |face|;
    var vRoot := face[0];
    Fan.VertexTriangle(faces, iF, j);
    Fan.FanNeverWraps(j, D);
    var vB := face[j];
    var pB := vertices[vB];
    var vC := face[(j + 1) % D];
    var pC := vertices[vC];
    Fan.GatheredExtend(positions0, vertices, idx);
    Fan.GatheredExtend(normals0, normalValues, idx);
    positions := positions0 + [pRoot, pB, pC];
    normals := normals0 + [normalValues[vRoot], normalValues[vB], normalValues[vC]];
    bcoord := bcoord0;
    if wantsBary {
      BaryCoordsNext(t);
      bcoord := bcoord + [Vec3(1.0, 0.0, 0.0), Vec3(0.0, 1.0, 0.0), Vec3(0.0, 0.0, 1.0)];
    }
  }

  /** Face normals: positions are read at the fan's vertex ids, and all three
      normals of every triangle of face iF are normalValues[iF]. */
  method FillFaceNormalBuffers(faces: seq<seq<nat>>, vertices: seq<Vec3>, normalValues: seq<Vec3>, wantsBary: bool)
    returns (positions: seq<Vec3>, normals: seq<Vec3>, bcoord: seq<Vec3>)
    requires FaceFillReadsInRange(faces, vertices, normalValues)
    ensures positions == Fan.Gather(vertices, Fan.FanVertices(faces))
    ensures Fan.InRange(Fan.FaceIndices(faces), |normalValues|) &&
            normals == Fan.Gather(normalValues, Fan.FaceIndices(faces))
    ensures bcoord == if wantsBary then BaryCoords(Fan.Triangles(faces)) else []
  {
    Fan.FaceIndicesInRange(faces, |normalValues|);
    positions, normals, bcoord := [], [], [];
    var iF := 0;
    while iF < |faces|
      invariant 0 <= iF <= |faces|
      invariant |positions| == |normals| == 3 * Fan.Triangles(faces[..iF])
      invariant Fan.GatheredPrefix(positions, vertices, Fan.FanVertices(faces))
      invariant Fan.GatheredPrefix(normals, normalValues, Fan.FaceIndices(faces))
      invariant bcoord == if wantsBary then BaryCoords(Fan.Triangles(faces[..iF])) else []
    {
      positions, normals, bcoord := FillFaceNormalFace(faces, vertices, normalValues, wantsBary, iF, positions, normals, bcoord);
      iF := iF + 1;
    }
    assert faces[..|faces|] == faces;
    Fan.GatheredWhole(positions, vertices, Fan.FanVertices(faces));
    Fan.GatheredWhole(normals, normalValues, Fan.FaceIndices(faces));
  }

  /** The fan loop of the face-normal fill for face iF. */
  method FillFaceNormalFace(faces: seq<seq<nat>>, vertices: seq<Vec3>, normalValues: seq<Vec3>, wantsBary: bool,
                            iF: nat, positions0: seq<Vec3>, normals0: seq<Vec3>, bcoord0: seq<Vec3>)
    returns (positions: seq<Vec3>, normals: seq<Vec3>, bcoord: seq<Vec3>)
    requires FaceFillReadsInRange(faces, vertices, normalValues) && iF < |faces|
    requires Fan.InRange(Fan.FaceIndices(faces), |normalValues|)
    requires |positions0| == |normals0| == 3 * Fan.Triangles(faces[..iF])
    requires Fan.GatheredPrefix(positions0, vertices, Fan.FanVertices(faces))
    requires Fan.GatheredPrefix(normals0, normalValues, Fan.FaceIndices(faces))
    requires bcoord0 == if wantsBary then BaryCoords(Fan.Triangles(faces[..iF])) else []
    ensures |positions| == |normals| == 3 * Fan.Triangles(faces[..iF + 1])
    ensures Fan.GatheredPrefix(positions, vertices, Fan.FanVertices(faces))
    ensures Fan.GatheredPrefix(normals, normalValues, Fan.FaceIndices(faces))
    ensures bcoord == if wantsBary then BaryCoords(Fan.Triangles(faces[..iF + 1])) else []
  {
    ghost var idx := Fan.FanVertices(faces);
    ghost var fidx := Fan.FaceIndices(faces);
    ghost var t0 := Fan.Triangles(faces[..iF]);
    positions, normals, bcoord := positions0, normals0, bcoord0;
    var face := faces[iF];
    var D := |face|;
    var faceN := normalValues[iF];
    var vRoot := face[0];
    var pRoot := vertices[vRoot];
    var j := 1;
    while j + 1 < D
      invariant 1 <= j && j - 1 <= Fan.TriCount(D)
      invariant |positions| == |normals| == 3 * (t0 + j - 1)
      invariant Fan.GatheredPrefix(positions, vertices, idx)
      invariant Fan.GatheredPrefix(normals, normalValues, fidx)
      invariant bcoord == if wantsBary then BaryCoords(t0 + j - 1) else []
    {
      positions, normals, bcoord := FaceNormalTriangle(faces, vertices, normalValues, wantsBary, iF, j, t0 + j - 1, pRoot, faceN, positions, normals, bcoord);
      j := j + 1;
    }
    Fan.PrefixNext(faces, iF);
  }

  /** One pass of the face-normal fan loop: appends fan triangle j of face iF. */
  method FaceNormalTriangle(faces: seq<seq<nat>>, vertices: seq<Vec3>, normalValues: seq<Vec3>, wantsBary: bool,
                            iF: nat, j: nat, ghost t: nat, pRoot: Vec3, faceN: Vec3,
                            positions0: seq<Vec3>, normals0: seq<Vec3>, bcoord0: seq<Vec3>)
    returns (positions: seq<Vec3>, normals: seq<Vec3>, bcoord: seq<Vec3>)
    requires FaceFillReadsInRange(faces, vertices, normalValues) && Fan.InRange(Fan.FaceIndices(faces), |normalValues|)
    requires iF < |faces| && 1 <= j && j + 1 < |faces[iF]|
    requires pRoot == vertices[faces[iF][0]] && faceN == normalValues[iF]
    requires t == Fan.Triangles(faces[..iF]) + j - 1 && |positions0| == |normals0| == 3 * t
    requires Fan.GatheredPrefix(positions0, vertices, Fan.FanVertices(faces))
    requires Fan.GatheredPrefix(normals0, normalValues, Fan.FaceIndices(faces))
    requires bcoord0 == if wantsBary then BaryCoords(t) else []
    ensures |positions| == |normals| == 3 * (t + 1)
    ensures Fan.GatheredPrefix(positions, vertices, Fan.FanVertices(faces))
    ensures Fan.GatheredPrefix(normals, normalValues, Fan.FaceIndices(faces))
    ensures bcoord == if wantsBary then BaryCoords(t + 1) else []
  {
    ghost var idx := Fan.FanVertices(faces);
    ghost var fidx := Fan.FaceIndices(faces);
    var face := faces[iF];
    var D := |face|;
    Fan.VertexTriangle(faces, iF, j);
    Fan.FaceTriangle(faces, iF, j);
    Fan.FanNeverWraps(j, D);
    var vB := face[j];
    var pB := vertices[vB];
    var vC := face[(j + 1) % D];
    var pC := vertices[vC];
    Fan.GatheredExtend(positions0, vertices, idx);
    Fan.GatheredExtend(normals0, normalValues, fidx);
    positions := positions0 + [pRoot, pB, pC];
    normals := normals0 + [faceN, faceN, faceN];
    bcoord := bcoord0;
    if wantsBary {
      BaryCoordsNext(t);
      bcoord := bcoord + [Vec3(1.0, 0.0, 0.0), Vec3(0.0, 1.0, 0.0), Vec3(0.0, 0.0, 1.0)];
    }
  }

  /** Where the normals are defined; it names the quantity. */
  datatype DefinedOn = Vertex | Face

  function DefinedOnName(d: DefinedOn): (r: string)
    ensures r in {"vertex", "face"} && (r == "vertex" <==> d == Vertex)
  {
    match d
    case Vertex => "vertex"
    case Face => "face"
  }

  /** The display name: name, then " (", the element kind, " normal)". */
  function NiceName(name: string, d: DefinedOn): (r: string)
    ensures |r| > |name| && r[..|name|] == name
    ensures d == Vertex ==> r[|name|..] == " (vertex normal)"
    ensures d == Face ==> r[|name|..] == " (face normal)"
  {
    var suffix := " (" + DefinedOnName(d) + " normal)";
    assert (name + suffix)[..|name|] == name && (name + suffix)[|name|..] == suffix;
    name + suffix
  }

  /** The attribute buffers a fresh program receives. */
  function ProgramAttributes(d: DefinedOn, faces: seq<seq<nat>>, vertices: seq<Vec3>, normalValues: seq<Vec3>,
                             wantsBary: bool): map<string, Attribute>
    requires Fan.InRange(Fan.FanVertices(faces), |vertices|)
    requires d == Vertex ==> Fan.InRange(Fan.FanVertices(faces), |normalValues|)
    requires d == Face ==> |faces| <= |normalValues|
  {
    var normals := if d == Vertex then Fan.Gather(normalValues, Fan.FanVertices(faces))
                   else (Fan.FaceIndicesInRange(faces, |normalValues|); Fan.Gather(normalValues, Fan.FaceIndices(faces)));
    var base := map["a_position" := Vec3s(Fan.Gather(vertices, Fan.FanVertices(faces))), "a_normal" := Vec3s(normals)];
    if wantsBary then base["a_barycoord" := Vec3s(BaryCoords(Fan.Triangles(faces)))] else base
  }

  class NormalQuantity {
    const name: string
    const definedOn: DefinedOn
    const normalValues: seq<Vec3>
    /** The parent mesh's faces (vertex ids) and vertex positions. */
    const faces: seq<seq<nat>>
    const vertices: seq<Vec3>
    var enabled: bool
    var program: ShaderProgram?

    constructor Vertex(name: string, normalValues: seq<Vec3>, faces: seq<seq<nat>>, vertices: seq<Vec3>)
      ensures this.name == name && definedOn == DefinedOn.Vertex && this.normalValues == normalValues
      ensures this.faces == faces && this.vertices == vertices && program == null
    {
      this.name := name;
      definedOn := DefinedOn.Vertex;
      this.normalValues := normalValues;
      this.faces := faces;
      this.vertices := vertices;
      program := null;
    }

    constructor Face(name: string, normalValues: seq<Vec3>, faces: seq<seq<nat>>, vertices: seq<Vec3>)
      ensures this.name == name && definedOn == DefinedOn.Face && this.normalValues == normalValues
      ensures this.faces == faces && this.vertices == vertices && program == null
    {
      this.name := name;
      definedOn := DefinedOn.Face;
      this.normalValues := normalValues;
      this.faces := faces;
      this.vertices := vertices;
      program := null;
    }

    /** The reads of this quantity's fill are in range. */
    predicate ReadsInRange()
      reads this
    {
      match definedOn
      case Vertex => VertexFillReadsInRange(faces, vertices, normalValues)
      case Face => FaceFillReadsInRange(faces, vertices, normalValues)
    }

    method SetEnabled(b: bool)
      modifies this`enabled
      ensures enabled == b
    {
      enabled := b;
    }

    /** Builds the program from the engine's plain-surface shaders, which declare
        the attributes `declared`, fills it, and gives it the parent's material. */
    method CreateProgram(declared: set<string>, material: string)
      requires ReadsInRange()
      modifies this`program
      ensures program != null && fresh(program)
      ensures program.shaders == [VertShader, FragShader] && program.declared == declared
      ensures definedOn == DefinedOn.Face ==> Fan.InRange(Fan.FaceIndices(faces), |normalValues|)
      ensures program.attributes == ProgramAttributes(definedOn, faces, vertices, normalValues, "a_barycoord" in declared)
      ensures program.uniforms == map[] && program.textures == map[]
      ensures program.material == material && program.draws == 0
    {
      var p := new ShaderProgram([VertShader, FragShader], declared);
      var wantsBary := p.HasAttribute("a_barycoord");
      var positions, normals, bcoord;
      if definedOn == DefinedOn.Vertex {
        positions, normals, bcoord := FillVertexNormalBuffers(faces, vertices, normalValues, wantsBary);
      } else {
        positions, normals, bcoord := FillFaceNormalBuffers(faces, vertices, normalValues, wantsBary);
      }
      p.SetAttribute("a_position", Vec3s(positions));
      p.SetAttribute("a_normal", Vec3s(normals));
      if wantsBary {
        p.SetAttribute("a_barycoord", Vec3s(bcoord));
      }
      p.SetMaterial(material);
      program := p;
    }

    /** Draws when enabled, building the program only when none is cached; the
        surface colour of the parent is the base colour. */
    method Draw(declared: set<string>, material: string, surfaceColor: Vec3)
      requires ReadsInRange()
      modifies this`program, program
      ensures !old(enabled) ==> program == old(program) && (program != null ==> unchanged(program))
      ensures old(enabled) ==>
        program != null &&
        program.uniforms == (if old(program) == null then map[] else old(program.uniforms))["u_basecolor" := UVec3(surfaceColor)]
      ensures old(enabled) && old(program) != null ==>
        program == old(program) && program.draws == old(program.draws) + 1 &&
        program.attributes == old(program.attributes) && program.textures == old(program.textures) &&
        program.material == old(program.material)
      ensures old(enabled) && old(program) == null ==>
        fresh(program) && program.draws == 1 && program.shaders == [VertShader, FragShader] &&
        program.declared == declared && program.textures == map[] && program.material == material &&
        program.attributes == ProgramAttributes(definedOn, faces, vertices, normalValues, "a_barycoord" in declared)
    {
      if !enabled {
        return;
      }
      if program == null {
        CreateProgram(declared, material);
      }
      program.SetUniform("u_basecolor", UVec3(surfaceColor));
      program.Draw();
    }

    method GeometryChanged()
      modifies this`program
      ensures program == null
    {
      program := null;
    }
  }
}
