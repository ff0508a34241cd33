/** A vector quantity on a tet mesh, given per vertex, per face or per tet.
    Each vector is drawn from a root point (the vertex, the face centre or the
    tet centre); when the quantity hides with the mesh, the vectors whose
    position lies beyond the mesh's slice plane are left out of the buffers. */
module TetVectorQuantity {
  import opened Types
  import opened Geometry
  import opened Render
  import Fan
  import Filter

  const VertShader: string := "PASSTHRU_VECTOR_VERT_SHADER"
  const GeomShader: string := "VECTOR_GEOM_SHADER"
  const FragShader: string := "VECTOR_FRAG_SHADER"

  /** The mesh element the vectors are given on. (The source tags the tet
      variant with its corner element kind; the model names it for what it is.) */
  datatype Element = Vertex | Face | Tet

  /** `skipVector` reads a position for every index below n: the vertex, the
      centre of the face's tet (four faces per tet), or the tet's centre. */
  predicate SkipInRange(d: Element, n: nat, nVertices: nat, nTets: nat)
  {
    match d
    case Vertex => n <= nVertices
    case Face => n <= 4 * nTets
    case Tet => n <= nTets
  }

  /** The position whose side of the slice plane decides whether vector i is
      hidden. */
  function SkipPosition(d: Element, i: nat, vertices: seq<Vec3>, tetCenters: seq<Vec3>): (r: Vec3)
    requires SkipInRange(d, i + 1, |vertices|, |tetCenters|)
    ensures d == Element.Vertex ==> r in vertices
    ensures d != Element.Vertex ==> r in tetCenters
  {
    match d
    case Vertex => vertices[i]
    case Face => tetCenters[i / 4]
    case Tet => tetCenters[i]
  }

  /** `skipVector`: the position lies beyond the slice plane. The plane test
      itself (a dot product against the plane normal compared with the plane
      offset) belongs to the parent mesh and is the parameter `beyond`. */
  predicate Skip(d: Element, i: nat, vertices: seq<Vec3>, tetCenters: seq<Vec3>, beyond: Vec3 -> bool)
    requires SkipInRange(d, i + 1, |vertices|, |tetCenters|)
  {
    beyond(SkipPosition(d, i, vertices, tetCenters))
  }

  /** A face vector is hidden exactly when a tet vector on its tet would be:
      faces 4t .. 4t + 3 are tested at the centre of tet t. */
  lemma FaceSkipFollowsTet(t: nat, k: nat, vertices: seq<Vec3>, tetCenters: seq<Vec3>, beyond: Vec3 -> bool)
    requires k < 4 && t < |tetCenters|
    ensures SkipInRange(Element.Face, 4 * t + k + 1, |vertices|, |tetCenters|)
    ensures Skip(Element.Face, 4 * t + k, vertices, tetCenters, beyond) == Skip(Element.Tet, t, vertices, tetCenters, beyond)
  {
    assert (4 * t + k) / 4 == t;
  }

  /** Whether each of the first n vectors goes into the buffers: all of them
      when the quantity does not hide with the mesh, otherwise those that are
      not skipped. */
  function KeepFlags(d: Element, hiding: bool, n: nat, vertices: seq<Vec3>, tetCenters: seq<Vec3>, beyond: Vec3 -> bool): (r: seq<bool>)
    requires hiding ==> SkipInRange(d, n, |vertices|, |tetCenters|)
    ensures |r| == n
  {
    seq(n, i requires 0 <= i < n => !hiding || !Skip(d, i, vertices, tetCenters, beyond))
  }

  /** Every vector the filter keeps has a root to be drawn from. */
  predicate RootsCoverKept(keep: seq<bool>, nRoots: nat)
  {
    forall i :: 0 <= i < |keep| && keep[i] ==> i < nRoots
  }

  /** The kept indices are valid indices of both the flags and the roots. */
  lemma KeptInRange(keep: seq<bool>, nRoots: nat)
    requires RootsCoverKept(keep, nRoots)
    ensures Fan.InRange(Filter.Selected(keep), |keep|) && Fan.InRange(Filter.Selected(keep), nRoots)
  {
    Filter.SelectedExactly(keep);
  }

  /** The fill loop of `prepareProgram`: walks the vectors in order and, for
      each one that is kept, appends its mapped vector and its root. */
  method FilterBuffers(d: Element, hiding: bool, vectors: seq<Vec3>, roots: seq<Vec3>,
                       vertices: seq<Vec3>, tetCenters: seq<Vec3>, beyond: Vec3 -> bool, mapVector: Vec3 -> Vec3)
    returns (mappedVectors: seq<Vec3>, mappedRoots: seq<Vec3>)
    requires hiding ==> SkipInRange(d, |vectors|, |vertices|, |tetCenters|)
    requires RootsCoverKept(KeepFlags(d, hiding, |vectors|, vertices, tetCenters, beyond), |roots|)
    ensures var kept := Filter.Selected(KeepFlags(d, hiding, |vectors|, vertices, tetCenters, beyond));
      Fan.InRange(kept, |vectors|) && Fan.InRange(kept, |roots|) &&
      mappedVectors == Mapped(Fan.Gather(vectors, kept), mapVector) &&
      mappedRoots == Fan.Gather(roots, kept)
  {
    ghost var keep := KeepFlags(d, hiding, |vectors|, vertices, tetCenters, beyond);
    mappedVectors := [];
    mappedRoots := [];
    var iV := 0;
    while iV < |vectors|
      invariant 0 <= iV <= |vectors|
      invariant Fan.InRange(Filter.Selected(keep[..iV]), iV) && Fan.InRange(Filter.Selected(keep[..iV]), |roots|)
      invariant mappedVectors == Mapped(Fan.Gather(vectors, Filter.Selected(keep[..iV])), mapVector)
      invariant mappedRoots == Fan.Gather(roots, Filter.Selected(keep[..iV]))
    {
      FilterStep(vectors, roots, keep, iV, mapVector);
      if !hiding || !Skip(d, iV, vertices, tetCenters, beyond) {
        mappedVectors := mappedVectors + [mapVector(vectors[iV])];
        mappedRoots := mappedRoots + [roots[iV]];
      }
      iV := iV + 1;
    }
    assert keep[..|vectors|] == keep;
  }

  /** One step of the fill loop: taking vector iV appends its mapped vector
      and its root exactly when it is kept. */
  lemma FilterStep(vectors: seq<Vec3>, roots: seq<Vec3>, keep: seq<bool>, iV: nat, mapVector: Vec3 -> Vec3)
    requires iV < |vectors| == |keep| && RootsCoverKept(keep, |roots|)
    requires Fan.InRange(Filter.Selected(keep[..iV]), iV) && Fan.InRange(Filter.Selected(keep[..iV]), |roots|)
    ensures var before, after := Filter.Selected(keep[..iV]), Filter.Selected(keep[..iV + 1]);
      Fan.InRange(after, iV + 1) && Fan.InRange(after, |roots|) &&
      (keep[iV] ==> iV < |roots|) &&
      Mapped(Fan.Gather(vectors, after), mapVector) ==
        Mapped(Fan.Gather(vectors, before), mapVector) + (if keep[iV] then [mapVector(vectors[iV])] else []) &&
      Fan.Gather(roots, after) == Fan.Gather(roots, before) + (if keep[iV] then [roots[iV]] else [])
  {
    var before := Filter.Selected(keep[..iV]);
    Filter.SelectedNext(keep, iV);
    if keep[iV] {
      var after := before + [iV];
      assert Fan.Gather(vectors, after) == Fan.Gather(vectors, before) + [vectors[iV]];
      assert Fan.Gather(roots, after) == Fan.Gather(roots, before) + [roots[iV]];
    }
  }

  /** The filter keeps vector i exactly when the quantity does not hide with
      the mesh or the vector is not skipped, and keeps the survivors in their
      original order; both buffers hold one entry per kept vector. */
  lemma KeptExactly(d: Element, hiding: bool, n: nat, vertices: seq<Vec3>, tetCenters: seq<Vec3>, beyond: Vec3 -> bool, i: nat)
    requires hiding ==> SkipInRange(d, n, |vertices|, |tetCenters|)
    requires i < n
    ensures hiding ==> SkipInRange(d, i + 1, |vertices|, |tetCenters|)
    ensures i in Filter.Selected(KeepFlags(d, hiding, n, vertices, tetCenters, beyond)) <==>
      !hiding || !Skip(d, i, vertices, tetCenters, beyond)
    ensures var kept := Filter.Selected(KeepFlags(d, hiding, n, vertices, tetCenters, beyond));
      forall p, q :: 0 <= p < q < |kept| ==> kept[p] < kept[q]
  {
    var keep := KeepFlags(d, hiding, n, vertices, tetCenters, beyond);
    Filter.SelectedExactly(keep);
    assert keep[i] == (!hiding || !Skip(d, i, vertices, tetCenters, beyond));
  }

  /** A quantity that does not hide with the mesh keeps every vector: the
      buffers are all the mapped vectors and all their roots, in order. */
  lemma ShownKeepsAll(d: Element, vectors: seq<Vec3>, roots: seq<Vec3>,
                      vertices: seq<Vec3>, tetCenters: seq<Vec3>, beyond: Vec3 -> bool, mapVector: Vec3 -> Vec3)
    requires |vectors| <= |roots|
    ensures var kept := Filter.Selected(KeepFlags(d, false, |vectors|, vertices, tetCenters, beyond));
      Fan.InRange(kept, |vectors|) && Fan.InRange(kept, |roots|) &&
      Mapped(Fan.Gather(vectors, kept), mapVector) == Mapped(vectors, mapVector) &&
      Fan.Gather(roots, kept) == roots[..|vectors|]
  {
    var keep := KeepFlags(d, false, |vectors|, vertices, tetCenters, beyond);
    Filter.SelectedAll(keep);
    assert Fan.Gather(vectors, Filter.Selected(keep)) == vectors;
  }

  /** The vector-length uniform: ambient vectors are drawn at their true
      length, the others scaled by the quantity's length setting. */
  function LengthMultUniform(vectorType: VectorType, lengthScale: real): (r: real)
    ensures vectorType == VectorType.AMBIENT ==> r == 1.0
    ensures vectorType != VectorType.AMBIENT ==> r == lengthScale
  {
    if vectorType == VectorType.AMBIENT then 1.0 else lengthScale
  }

  /** The indices of the rows `writeToFile` emits: the vectors of nonzero
      length, in order. The vector length is the parameter `length`. */
  function WrittenIndices(vectors: seq<Vec3>, length: Vec3 -> real): (r: seq<nat>)
    ensures forall q :: 0 <= q < |r| ==> r[q] < |vectors| && length(vectors[r[q]]) > 0.0
  {
    var keep := seq(|vectors|, i requires 0 <= i < |vectors| => length(vectors[i]) > 0.0);
    Filter.SelectedExactly(keep);
    Filter.Selected(keep)
  }

  /** A row is written for vector i exactly when its length is positive, and
      the rows keep the order of the vectors. */
  lemma WrittenExactly(vectors: seq<Vec3>, length: Vec3 -> real, i: nat)
    requires i < |vectors|
    ensures i in WrittenIndices(vectors, length) <==> length(vectors[i]) > 0.0
    ensures var w := WrittenIndices(vectors, length);
      forall p, q :: 0 <= p < q < |w| ==> w[p] < w[q]
  {
    var keep := seq(|vectors|, i requires 0 <= i < |vectors| => length(vectors[i]) > 0.0);
    Filter.SelectedExactly(keep);
    assert keep[i] == (length(vectors[i]) > 0.0);
  }

  /** The face and tet constructors size the roots to the element count and
      store each element's centre at its index. */
  method ResizedRoots(centers: seq<Vec3>) returns (roots: seq<Vec3>)
    ensures roots == centers
  {
    var a := new Vec3[|centers|](_ => Zero);
    var i := 0;
    while i < |centers|
      invariant 0 <= i <= |centers|
      invariant a[..i] == centers[..i]
    {
      a[i] := centers[i];
      i := i + 1;
    }
    roots := a[..];
    assert roots == a[..|centers|];
  }

  /** The display name: the quantity's name followed by the element kind. */
  function NiceName(name: string, d: Element): (r: string)
    ensures |r| > |name| && r[..|name|] == name
    ensures d == Element.Vertex ==> r[|name|..] == " (vertex vector)"
    ensures d == Element.Face ==> r[|name|..] == " (face vector)"
    ensures d == Element.Tet ==> r[|name|..] == " (tet vector)"
  {
    match d
    case Vertex => name + " (vertex vector)"
    case Face => name + " (face vector)"
    case Tet => name + " (tet vector)"
  }

  class VectorQuantity {
    const name: string
    const definedOn: Element
    const vectorType: VectorType
    /** The vectors as given. */
    const vectorField: seq<Vec3>
    /** The vectors drawn: a copy of `vectorField`. */
    const vectors: seq<Vec3>
    /** The point each vector is drawn from. */
    const vectorRoots: seq<Vec3>
    var enabled: bool
    var vectorLengthMult: ScaledValue
    var vectorRadius: ScaledValue
    var vectorColor: Vec3
    var material: string
    var ribbonEnabled: bool
    /** Leave out the vectors the slice plane cuts away. */
    var hideWithMesh: bool
    var program: ShaderProgram?

    /** The defaults every constructor shares; `color` is the next unique
        colour, chosen by the caller. */
    predicate Defaults(color: Vec3)
      reads this
    {
      vectorLengthMult == (if vectorType == VectorType.AMBIENT then Absolute(1.0) else Relative(0.02)) &&
      vectorRadius == Relative(0.0025) && vectorColor == color && material == "clay" &&
      !ribbonEnabled && hideWithMesh && program == null
    }

    /** Vectors at the vertices, drawn from the vertices. */
    constructor Vertex(name: string, vectorField: seq<Vec3>, vertices: seq<Vec3>, color: Vec3,
                      vectorType: VectorType := VectorType.STANDARD)
      ensures this.name == name && definedOn == Element.Vertex && this.vectorType == vectorType
      ensures this.vectorField == vectorField && vectors == vectorField && vectorRoots == vertices
      ensures Defaults(color)
    {
      this.name := name;
      definedOn := Element.Vertex;
      this.vectorType := vectorType;
      this.vectorField := vectorField;
      vectorRoots := vertices;
      vectors := vectorField;
      vectorLengthMult := if vectorType == VectorType.AMBIENT then Absolute(1.0) else Relative(0.02);
      vectorRadius := Relative(0.0025);
      vectorColor := color;
      material := "clay";
      ribbonEnabled := false;
      hideWithMesh := true;
      program := null;
    }

    /** Vectors on the faces, drawn from the face centres (one per face, as
        the parent computes them). */
    constructor Face(name: string, vectorField: seq<Vec3>, faceCenters: seq<Vec3>, color: Vec3,
                    vectorType: VectorType := VectorType.STANDARD)
      ensures this.name == name && definedOn == Element.Face && this.vectorType == vectorType
      ensures this.vectorField == vectorField && vectors == vectorField
      ensures |vectorRoots| == |faceCenters| && vectorRoots == faceCenters
      ensures Defaults(color)
    {
      this.name := name;
      definedOn := Element.Face;
      this.vectorType := vectorType;
      this.vectorField := vectorField;
      vectors := vectorField;
      var roots := ResizedRoots(faceCenters);
      vectorRoots := roots;
      vectorLengthMult := if vectorType == VectorType.AMBIENT then Absolute(1.0) else Relative(0.02);
      vectorRadius := Relative(0.0025);
      vectorColor := color;
      material := "clay";
      ribbonEnabled := false;
      hideWithMesh := true;
      program := null;
    }

    /** Vectors on the tets, drawn from the tet centres. */
    constructor Tet(name: string, vectorField: seq<Vec3>, tetCenters: seq<Vec3>, color: Vec3,
                   vectorType: VectorType := VectorType.STANDARD)
      ensures this.name == name && definedOn == Element.Tet && this.vectorType == vectorType
      ensures this.vectorField == vectorField && vectors == vectorField && vectorRoots == tetCenters
      ensures Defaults(color)
    {
      this.name := name;
      definedOn := Element.Tet;
      this.vectorType := vectorType;
      this.vectorField := vectorField;
      vectors := vectorField;
      var roots := ResizedRoots(tetCenters);
      vectorRoots := roots;
      vectorLengthMult := if vectorType == VectorType.AMBIENT then Absolute(1.0) else Relative(0.02);
      vectorRadius := Relative(0.0025);
      vectorColor := color;
      material := "clay";
      ribbonEnabled := false;
      hideWithMesh := true;
      program := null;
    }

    /** What the buffers need of the parent: positions for the slice test
        when hiding, and a root for every kept vector. */
    predicate ReadsInRange(vertices: seq<Vec3>, tetCenters: seq<Vec3>, beyond: Vec3 -> bool)
      reads this
    {
      (hideWithMesh ==> SkipInRange(definedOn, |vectors|, |vertices|, |tetCenters|)) &&
      RootsCoverKept(KeepFlags(definedOn, hideWithMesh, |vectors|, vertices, tetCenters, beyond), |vectorRoots|)
    }

    /** The indices of the vectors that go into the buffers. */
    function Kept(vertices: seq<Vec3>, tetCenters: seq<Vec3>, beyond: Vec3 -> bool): (r: seq<nat>)
      requires ReadsInRange(vertices, tetCenters, beyond)
      reads this
      ensures Fan.InRange(r, |vectors|) && Fan.InRange(r, |vectorRoots|)
    {
      var keep := KeepFlags(definedOn, hideWithMesh, |vectors|, vertices, tetCenters, beyond);
      KeptInRange(keep, |vectorRoots|);
      Filter.Selected(keep)
    }

    method SetEnabled(b: bool)
      modifies this`enabled
      ensures enabled == b
    {
      enabled := b;
    }

    /** `prepareProgram`: the three vector shader stages, the filtered vector
        and root buffers, and the quantity's material. */
    method PrepareProgram(vertices: seq<Vec3>, tetCenters: seq<Vec3>, beyond: Vec3 -> bool, mapVector: Vec3 -> Vec3)
      requires ReadsInRange(vertices, tetCenters, beyond)
      modifies this`program
      ensures program != null && fresh(program)
      ensures program.shaders == [VertShader, GeomShader, FragShader]
      ensures var kept := Kept(vertices, tetCenters, beyond);
        program.attributes == map["a_vector" := Vec3s(Mapped(Fan.Gather(vectors, kept), mapVector)),
                                  "a_position" := Vec3s(Fan.Gather(vectorRoots, kept))]
      ensures program.uniforms == map[] && program.textures == map[]
      ensures program.material == material && program.draws == 0
    {
      var p := new ShaderProgram([VertShader, GeomShader, FragShader], {"a_vector", "a_position"});
      var mappedVectors, mappedRoots := FilterBuffers(definedOn, hideWithMesh, vectors, vectorRoots, vertices, tetCenters, beyond, mapVector);
      p.SetAttribute("a_vector", Vec3s(mappedVectors));
      p.SetAttribute("a_position", Vec3s(mappedRoots));
      p.SetMaterial(material);
      program := p;
    }

    /** Draws when enabled, building the program only when none is cached.
        The radius and length settings are turned into absolute lengths by
        `asAbsolute`, which reads the scene's length scale. */
    method Draw(vertices: seq<Vec3>, tetCenters: seq<Vec3>, beyond: Vec3 -> bool, mapVector: Vec3 -> Vec3,
                asAbsolute: ScaledValue -> real)
      requires ReadsInRange(vertices, tetCenters, beyond)
      modifies this`program, program
      ensures !old(enabled) ==> program == old(program) && (program != null ==> unchanged(program))
      ensures old(enabled) ==>
        program != null &&
        program.uniforms == (if old(program) == null then map[] else old(program.uniforms))
          ["u_radius" := UFloat(asAbsolute(vectorRadius))]
          ["u_baseColor" := UVec3(vectorColor)]
          ["u_lengthMult" := UFloat(LengthMultUniform(vectorType, asAbsolute(vectorLengthMult)))]
      ensures old(enabled) && old(program) != null ==>
        program == old(program) && program.draws == old(program.draws) + 1 &&
        program.attributes == old(program.attributes) && program.textures == old(program.textures) &&
        program.material == old(program.material)
      ensures old(enabled) && old(program) == null ==>
        fresh(program) && program.draws == 1 && program.shaders == [VertShader, GeomShader, FragShader] &&
        program.textures == map[] && program.material == material &&
        program.attributes == map["a_vector" := Vec3s(Mapped(Fan.Gather(vectors, Kept(vertices, tetCenters, beyond)), mapVector)),
                                  "a_position" := Vec3s(Fan.Gather(vectorRoots, Kept(vertices, tetCenters, beyond)))]
    {
      if !enabled {
        return;
      }
      if program == null {
        PrepareProgram(vertices, tetCenters, beyond, mapVector);
      }
      program.SetUniform("u_radius", UFloat(asAbsolute(vectorRadius)));
      program.SetUniform("u_baseColor", UVec3(vectorColor));
      if vectorType == VectorType.AMBIENT {
        program.SetUniform("u_lengthMult", UFloat(1.0));
      } else {
        program.SetUniform("u_lengthMult", UFloat(asAbsolute(vectorLengthMult)));
      }
      program.Draw();
    }

    method GeometryChanged()
      modifies this`program
      ensures program == null
    {
      program := null;
    }

    method SetVectorLengthScale(newLength: real, isRelative: bool := true) returns (self: VectorQuantity)
      modifies this`vectorLengthMult
      ensures vectorLengthMult == ScaledValue(newLength, isRelative) && self == this
      ensures forall asAbsolute: ScaledValue -> real :: GetVectorLengthScale(asAbsolute) == asAbsolute(ScaledValue(newLength, isRelative))
    {
      vectorLengthMult := ScaledValue(newLength, isRelative);
      self := this;
    }

    function GetVectorLengthScale(asAbsolute: ScaledValue -> real): real
      reads this
    {
      asAbsolute(vectorLengthMult)
    }

    method SetVectorRadius(val: real, isRelative: bool := true) returns (self: VectorQuantity)
      modifies this`vectorRadius
      ensures vectorRadius == ScaledValue(val, isRelative) && self == this
      ensures forall asAbsolute: ScaledValue -> real :: GetVectorRadius(asAbsolute) == asAbsolute(ScaledValue(val, isRelative))
    {
      vectorRadius := ScaledValue(val, isRelative);
      self := this;
    }

    function GetVectorRadius(asAbsolute: ScaledValue -> real): real
      reads this
    {
      asAbsolute(vectorRadius)
    }

    method SetVectorColor(color: Vec3) returns (self: VectorQuantity)
      modifies this`vectorColor
      ensures GetVectorColor() == color && self == this
    {
      vectorColor := color;
      self := this;
    }

    function GetVectorColor(): Vec3
      reads this
    {
      vectorColor
    }

    /** Stores the material and hands it to the cached program, if any. */
    method SetMaterial(m: string) returns (self: VectorQuantity)
      modifies this`material, program
      ensures GetMaterial() == m && self == this && program == old(program)
      ensures program != null ==>
        program.material == m && program.attributes == old(program.attributes) &&
        program.uniforms == old(program.uniforms) && program.textures == old(program.textures) &&
        program.draws == old(program.draws)
    {
      material := m;
      if program != null {
        program.SetMaterial(m);
      }
      self := this;
    }

    function GetMaterial(): string
      reads this
    {
      material
    }

    method SetRibbonEnabled(val: bool) returns (self: VectorQuantity)
      modifies this`ribbonEnabled
      ensures IsRibbonEnabled() == val && self == this
    {
      ribbonEnabled := val;
      self := this;
    }

    predicate IsRibbonEnabled()
      reads this
    {
      ribbonEnabled
    }
  }
}
