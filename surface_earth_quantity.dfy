/** A per-vertex or per-corner 3D texture coordinate quantity with a scale
    factor per value, drawn with projective interpolation into a cube-map
    texture. Every fan triangle gets three one-hot texture-coordinate buffers
    (each carries one corner's value at that corner's slot and zero at the
    other two), barycentric coordinates, and a one-hot scale-factor buffer. */
module SurfaceEarthQuantity {
  import opened Types
  import opened Geometry
  import opened Render
  import Fan

  const VertShader: string := "EARTH_DRAW_VERT_SHADER"
  const FragShader: string := "EARTH_DRAW_FRAG_SHADER"

  /** The scale factors of the constructors that take them: the first n given,
      one per value, in order; the source reads one for every value. */
  method CopyScaleFactors(n: nat, given: seq<real>) returns (scaleFactors: seq<real>)
    requires n <= |given|
    ensures scaleFactors == given[..n]
  {
    scaleFactors := [];
    var i := 0;
    while i < n
      invariant 0 <= i <= n
      invariant scaleFactors == given[..i]
    {
      scaleFactors := scaleFactors + [given[i]];
      i := i + 1;
    }
  }

  /** Which index the fill reads each slot's value and scale factor at: the
      global corner index for corner data, the vertex id otherwise. */
  function ValueIndices(faces: seq<seq<nat>>, cornerData: bool): (idx: seq<nat>)
    ensures |idx| == 3 * Fan.Triangles(faces)
  {
    if cornerData then Fan.CornerIndices(faces) else Fan.FanVertices(faces)
  }

  /** Entry q of the k-th texture-coordinate buffer: the slot's value when q is
      the k-th corner of its triangle, zero at the other two corners. */
  function OneHotSlot(q: nat, k: nat, v: Vec3): Vec3
  {
    if q % 3 == k then v else Zero
  }

  /** The k-th texture-coordinate buffer over the per-slot values. */
  function Slotted(vals: seq<Vec3>, k: nat): (r: seq<Vec3>)
    ensures |r| == |vals|
  {
    seq(|vals|, q requires 0 <= q < |vals| => OneHotSlot(q, k, vals[q]))
  }

  /** The scale-factor buffer over the per-slot scale factors: each slot's factor
      in the component of its corner position. */
  function ScaleSlots(s: seq<real>): (r: seq<Vec3>)
    ensures |r| == |s|
  {
    seq(|s|, q requires 0 <= q < |s| => OneHot(q % 3, s[q]))
  }

  /** The five buffers of the fill. */
  datatype EarthBuffers = EarthBuffers(texCoord0: seq<Vec3>, texCoord1: seq<Vec3>, texCoord2: seq<Vec3>,
                                       baryCoords: seq<Vec3>, scaleFactor: seq<Vec3>)

  /** The buffers the fill produces from the values and scale factors read at `idx`. */
  function EarthLayout(values: seq<Vec3>, scaleFactors: seq<real>, idx: seq<nat>): EarthBuffers
    requires Fan.InRange(idx, |values|) && Fan.InRange(idx, |scaleFactors|)
  {
    var v := Fan.Gather(values, idx);
    EarthBuffers(Slotted(v, 0), Slotted(v, 1), Slotted(v, 2), BaryCoords(|idx| / 3),
                 ScaleSlots(Fan.Gather(scaleFactors, idx)))
  }

  /** What the fill reads: every face's root (before the fan loop, so faces
      must be non-empty), and a value and a scale factor at every index read. */
  predicate FillReadsInRange(faces: seq<seq<nat>>, values: seq<Vec3>, scaleFactors: seq<real>, cornerData: bool)
  {
    Fan.NoEmptyFace(faces) &&
    Fan.InRange(ValueIndices(faces, cornerData), |values|) &&
    Fan.InRange(ValueIndices(faces, cornerData), |scaleFactors|)
  }

  /** The buffers hold the first |baryCoords| slots of the layout: the
      invariant of the fill part way through. */
  ghost predicate EarthPrefix(b: EarthBuffers, values: seq<Vec3>, scaleFactors: seq<real>, idx: seq<nat>)
  {
    var n := |b.baryCoords|;
    |b.texCoord0| == n && |b.texCoord1| == n && |b.texCoord2| == n && |b.scaleFactor| == n && n <= |idx| &&
    forall q :: 0 <= q < n ==>
      idx[q] < |values| && idx[q] < |scaleFactors| &&
      b.texCoord0[q] == OneHotSlot(q, 0, values[idx[q]]) &&
      b.texCoord1[q] == OneHotSlot(q, 1, values[idx[q]]) &&
      b.texCoord2[q] == OneHotSlot(q, 2, values[idx[q]]) &&
      b.baryCoords[q] == Barycentric(q % 3) &&
      b.scaleFactor[q] == OneHot(q % 3, scaleFactors[idx[q]])
  }

  /** `fillPositionBuffers`: all five buffers have three entries per fan
      triangle, laid out one-hot as `EarthLayout` says. */
  method FillPositionBuffers(faces: seq<seq<nat>>, values: seq<Vec3>, scaleFactors: seq<real>, cornerData: bool)
    returns (texCoord0: seq<Vec3>, texCoord1: seq<Vec3>, texCoord2: seq<Vec3>, baryCoords: seq<Vec3>, scaleFactor: seq<Vec3>)
    requires FillReadsInRange(faces, values, scaleFactors, cornerData)
    ensures EarthBuffers(texCoord0, texCoord1, texCoord2, baryCoords, scaleFactor)
         == EarthLayout(values, scaleFactors, ValueIndices(faces, cornerData))
  {
    texCoord0, texCoord1, texCoord2, baryCoords, scaleFactor := [], [], [], [], [];
    var cornerCounter := 0;
    var iF := 0;
    while iF < |faces|
      invariant 0 <= iF <= |faces|
      invariant cornerCounter == Fan.Corners(faces[..iF])
      invariant |baryCoords| == 3 * Fan.Triangles(faces[..iF])
      invariant EarthPrefix(EarthBuffers(texCoord0, texCoord1, texCoord2, baryCoords, scaleFactor),
                            values, scaleFactors, ValueIndices(faces, cornerData))
    {
      texCoord0, texCoord1, texCoord2, baryCoords, scaleFactor :=
        FillFace(faces, values, scaleFactors, cornerData, iF, cornerCounter,
                 texCoord0, texCoord1, texCoord2, baryCoords, scaleFactor);
      cornerCounter := cornerCounter + |faces[iF]|;
      iF := iF + 1;
    }
    assert faces[..|faces|] == faces;
    EarthPrefixWhole(EarthBuffers(texCoord0, texCoord1, texCoord2, baryCoords, scaleFactor),
                     values, scaleFactors, ValueIndices(faces, cornerData));
  }

  /** The fan loop of the fill for face iF, whose first corner has the global
      index `cornerCounter`. */
  method FillFace(faces: seq<seq<nat>>, values: seq<Vec3>, scaleFactors: seq<real>, cornerData: bool,
                  iF: nat, cornerCounter: nat,
                  texCoord0In: seq<Vec3>, texCoord1In: seq<Vec3>, texCoord2In: seq<Vec3>, baryCoordsIn: seq<Vec3>,
                  scaleFactorIn: seq<Vec3>)
    returns (texCoord0: seq<Vec3>, texCoord1: seq<Vec3>, texCoord2: seq<Vec3>, baryCoords: seq<Vec3>, scaleFactor: seq<Vec3>)
    requires FillReadsInRange(faces, values, scaleFactors, cornerData)
    requires iF < |faces| && cornerCounter == Fan.Corners(faces[..iF])
    requires |baryCoordsIn| == 3 * Fan.Triangles(faces[..iF])
    requires EarthPrefix(EarthBuffers(texCoord0In, texCoord1In, texCoord2In, baryCoordsIn, scaleFactorIn),
                         values, scaleFactors, ValueIndices(faces, cornerData))
    ensures Fan.Corners(faces[..iF + 1]) == cornerCounter + |faces[iF]|
    ensures |baryCoords| == 3 * Fan.Triangles(faces[..iF + 1])
    ensures EarthPrefix(EarthBuffers(texCoord0, texCoord1, texCoord2, baryCoords, scaleFactor),
                        values, scaleFactors, ValueIndices(faces, cornerData))
  {
    ghost var idx := ValueIndices(faces, cornerData);
    ghost var t0 := Fan.Triangles(faces[..iF]);
    texCoord0, texCoord1, texCoord2, baryCoords, scaleFactor := texCoord0In, texCoord1In, texCoord2In, baryCoordsIn, scaleFactorIn;
    var face := faces[iF];
    var D := |face|;
    var vRoot := face[0];
    var j := 1;
    while j + 1 < D
      invariant 1 <= j && j - 1 <= Fan.TriCount(D)
      invariant |baryCoords| == 3 * (t0 + j - 1)
      invariant EarthPrefix(EarthBuffers(texCoord0, texCoord1, texCoord2, baryCoords, scaleFactor), values, scaleFactors, idx)
    {
      var vRootVal, vBVal, vCVal, vRootSF, vBSF, vCSF := ReadTriangle(faces, values, scaleFactors, cornerData, iF, cornerCounter, j);
      texCoord0, texCoord1, texCoord2, baryCoords, scaleFactor :=
        EmitTriangle(values, scaleFactors, idx, texCoord0, texCoord1, texCoord2, baryCoords, scaleFactor,
                     vRootVal, vBVal, vCVal, vRootSF, vBSF, vCSF);
      j := j + 1;
    }
    Fan.PrefixNext(faces, iF);
  }

  /** Appends one fan triangle to the five buffers: each corner's value to the
      texture-coordinate buffer of its position, zero to the other two, the
      barycentric coordinates, and each corner's scale factor one-hot. */
  method EmitTriangle(ghost values: seq<Vec3>, ghost scaleFactors: seq<real>, ghost idx: seq<nat>,
                      texCoord0In: seq<Vec3>, texCoord1In: seq<Vec3>, texCoord2In: seq<Vec3>, baryCoordsIn: seq<Vec3>,
                      scaleFactorIn: seq<Vec3>,
                      vRootVal: Vec3, vBVal: Vec3, vCVal: Vec3, vRootSF: real, vBSF: real, vCSF: real)
    returns (texCoord0: seq<Vec3>, texCoord1: seq<Vec3>, texCoord2: seq<Vec3>, baryCoords: seq<Vec3>, scaleFactor: seq<Vec3>)
    requires Fan.InRange(idx, |values|) && Fan.InRange(idx, |scaleFactors|)
    requires EarthPrefix(EarthBuffers(texCoord0In, texCoord1In, texCoord2In, baryCoordsIn, scaleFactorIn), values, scaleFactors, idx)
    requires var n := |baryCoordsIn|;
      n % 3 == 0 && n + 3 <= |idx| &&
      vRootVal == values[idx[n]] && vBVal == values[idx[n + 1]] && vCVal == values[idx[n + 2]] &&
      vRootSF == scaleFactors[idx[n]] && vBSF == scaleFactors[idx[n + 1]] && vCSF == scaleFactors[idx[n + 2]]
    ensures |baryCoords| == |baryCoordsIn| + 3
    ensures EarthPrefix(EarthBuffers(texCoord0, texCoord1, texCoord2, baryCoords, scaleFactor), values, scaleFactors, idx)
  {
    EarthPrefixExtend(EarthBuffers(texCoord0In, texCoord1In, texCoord2In, baryCoordsIn, scaleFactorIn), values, scaleFactors, idx);
    var zero := Vec3(0.0, 0.0, 0.0);
    texCoord0 := texCoord0In + [vRootVal, zero, zero];
    texCoord1 := texCoord1In + [zero, vBVal, zero];
    texCoord2 := texCoord2In + [zero, zero, vCVal];
    baryCoords := baryCoordsIn + [Vec3(1.0, 0.0, 0.0), Vec3(0.0, 1.0, 0.0), Vec3(0.0, 0.0, 1.0)];
    scaleFactor := scaleFactorIn + [Vec3(vRootSF, 0.0, 0.0), Vec3(0.0, vBSF, 0.0), Vec3(0.0, 0.0, vCSF)];
  }

  /** The values and scale factors fan triangle j of face iF reads: at corner
      indices c, c + j, c + j + 1 for corner data, at vertex ids face[0],
      face[j], face[(j + 1) % D] otherwise. */
  method ReadTriangle(faces: seq<seq<nat>>, values: seq<Vec3>, scaleFactors: seq<real>, cornerData: bool,
                      iF: nat, cornerCounter: nat, j: nat)
    returns (vRootVal: Vec3, vBVal: Vec3, vCVal: Vec3, vRootSF: real, vBSF: real, vCSF: real)
    requires FillReadsInRange(faces, values, scaleFactors, cornerData)
    requires iF < |faces| && cornerCounter == Fan.Corners(faces[..iF]) && 1 <= j && j + 1 < |faces[iF]|
    ensures var idx, n := ValueIndices(faces, cornerData), Fan.TriangleSlot(faces, iF, j);
      n + 2 < |idx| &&
      vRootVal == values[idx[n]] && vBVal == values[idx[n + 1]] && vCVal == values[idx[n + 2]] &&
      vRootSF == scaleFactors[idx[n]] && vBSF == scaleFactors[idx[n + 1]] && vCSF == scaleFactors[idx[n + 2]]
  {
    ghost var idx, n := ValueIndices(faces, cornerData), Fan.TriangleSlot(faces, iF, j);
    var face := faces[iF];
    var D := |face|;
    var vRoot := face[0];
    if cornerData {
      Fan.CornerTriangle(faces, iF, j);
      assert idx[n] == cornerCounter && idx[n + 1] == cornerCounter + j && idx[n + 2] == cornerCounter + j + 1;
      vRootVal := values[cornerCounter];
      vBVal := values[cornerCounter + j];
      vCVal := values[cornerCounter + j + 1];
      vRootSF := scaleFactors[cornerCounter];
      vBSF := scaleFactors[cornerCounter + j];
      vCSF := scaleFactors[cornerCounter + j + 1];
    } else {
      Fan.VertexTriangle(faces, iF, j);
      Fan.FanNeverWraps(j, D);
      var vB := face[j];
      var vC := face[(j + 1) % D];
      assert idx[n] == vRoot && idx[n + 1] == vB && idx[n + 2] == vC;
      vRootVal := values[vRoot];
      vBVal := values[vB];
      vCVal := values[vC];
      vRootSF := scaleFactors[vRoot];
      vBSF := scaleFactors[vB];
      vCSF := scaleFactors[vC];
    }
  }

  /** One more triangle appends its three slots to every buffer, one-hot. */
  lemma EarthPrefixExtend(b: EarthBuffers, values: seq<Vec3>, scaleFactors: seq<real>, idx: seq<nat>)
    requires EarthPrefix(b, values, scaleFactors, idx)
    requires |b.baryCoords| % 3 == 0 && |b.baryCoords| + 3 <= |idx|
    requires Fan.InRange(idx, |values|) && Fan.InRange(idx, |scaleFactors|)
    ensures var n := |b.baryCoords|;
      EarthPrefix(EarthBuffers(
        b.texCoord0 + [values[idx[n]], Zero, Zero],
        b.texCoord1 + [Zero, values[idx[n + 1]], Zero],
        b.texCoord2 + [Zero, Zero, values[idx[n + 2]]],
        b.baryCoords + [Vec3(1.0, 0.0, 0.0), Vec3(0.0, 1.0, 0.0), Vec3(0.0, 0.0, 1.0)],
        b.scaleFactor + [Vec3(scaleFactors[idx[n]], 0.0, 0.0), Vec3(0.0, scaleFactors[idx[n + 1]], 0.0),
                         Vec3(0.0, 0.0, scaleFactors[idx[n + 2]])]), values, scaleFactors, idx)
  {
    var n := |b.baryCoords|;
    forall q | n <= q < n + 3
      ensures q % 3 == q - n
    {
      Fan.ModThreeShift(n / 3, q - n);
    }
  }

  /** A finished fill is the whole layout. */
  lemma EarthPrefixWhole(b: EarthBuffers, values: seq<Vec3>, scaleFactors: seq<real>, idx: seq<nat>)
    requires EarthPrefix(b, values, scaleFactors, idx) && |b.baryCoords| == |idx| && |idx| % 3 == 0
    requires Fan.InRange(idx, |values|) && Fan.InRange(idx, |scaleFactors|)
    ensures b == EarthLayout(values, scaleFactors, idx)
  {
    var l := EarthLayout(values, scaleFactors, idx);
    assert b.texCoord0 == l.texCoord0;
    assert b.texCoord1 == l.texCoord1;
    assert b.texCoord2 == l.texCoord2;
    assert b.baryCoords == l.baryCoords;
    assert b.scaleFactor == l.scaleFactor;
  }

  /** The three one-hot entries of a slot add up to its value. */
  lemma OneHotSum(q: nat, v: Vec3)
    ensures Add(Add(OneHotSlot(q, 0, v), OneHotSlot(q, 1, v)), OneHotSlot(q, 2, v)) == v
  {
    if q % 3 == 0 {
      assert Add(Add(v, Zero), Zero) == v;
    } else if q % 3 == 1 {
      assert Add(Add(Zero, v), Zero) == v;
    } else {
      assert Add(Add(Zero, Zero), v) == v;
    }
  }

  /** The three texture-coordinate buffers split each slot's value one-hot:
      they add up to it, and each is zero away from its own corner position. */
  lemma OneHotPartition(values: seq<Vec3>, scaleFactors: seq<real>, idx: seq<nat>, q: nat)
    requires Fan.InRange(idx, |values|) && Fan.InRange(idx, |scaleFactors|) && q < |idx|
    ensures var b := EarthLayout(values, scaleFactors, idx);
      Add(Add(b.texCoord0[q], b.texCoord1[q]), b.texCoord2[q]) == values[idx[q]] &&
      (q % 3 != 0 ==> b.texCoord0[q] == Zero) &&
      (q % 3 != 1 ==> b.texCoord1[q] == Zero) &&
      (q % 3 != 2 ==> b.texCoord2[q] == Zero)
  {
    var b := EarthLayout(values, scaleFactors, idx);
    var v := values[idx[q]];
    var t0, t1, t2 := b.texCoord0[q], b.texCoord1[q], b.texCoord2[q];
    assert t0 == OneHotSlot(q, 0, v) && t1 == OneHotSlot(q, 1, v) && t2 == OneHotSlot(q, 2, v);
    OneHotSum(q, v);
  }

  /** Each slot's scale factor is recovered by its barycentric coordinate. */
  lemma ScaleFactorByBarycentric(values: seq<Vec3>, scaleFactors: seq<real>, idx: seq<nat>, q: nat)
    requires Fan.InRange(idx, |values|) && Fan.InRange(idx, |scaleFactors|) && q < |idx|
    requires |idx| % 3 == 0
    ensures var b := EarthLayout(values, scaleFactors, idx);
      |b.baryCoords| == |idx| && Dot(b.scaleFactor[q], b.baryCoords[q]) == scaleFactors[idx[q]]
  {
  }

  /** `u_projectiveInterpolate` is the flag as the integer 0 or 1. */
  function FlagUniform(b: bool): (r: int)
    ensures r == 1 <==> b
    ensures r == 0 <==> !b
  {
    if b then 1 else 0
  }

  /** The display name is the name unchanged. */
  function NiceName(name: string): (r: string)
    ensures r == name
  {
    name
  }

  class EarthQuantity {
    const name: string
    const dataType: DataType
    const faces: seq<seq<nat>>
    const values: seq<Vec3>
    const scaleFactors: seq<real>
    const cornerData: bool
    var projectiveInterpolate: bool
    var enabled: bool
    var program: ShaderProgram?

    /** Without scale factors: all zero, one per value; vertex data. */
    constructor Plain(name: string, faces: seq<seq<nat>>, values: seq<Vec3>, dataType: DataType := DataType.STANDARD)
      ensures this.name == name && this.faces == faces && this.values == values && this.dataType == dataType
      ensures |scaleFactors| == |values| && forall i :: 0 <= i < |values| ==> scaleFactors[i] == 0.0
      ensures !cornerData && projectiveInterpolate && program == null
    {
      this.name := name;
      this.faces := faces;
      this.values := values;
      this.dataType := dataType;
      cornerData := false;
      projectiveInterpolate := true;
      program := null;
      var sf := Zeros(|values|);
      scaleFactors := sf;
    }

    /** With one scale factor per value; vertex data. */
    constructor WithScaleFactors(name: string, faces: seq<seq<nat>>, values: seq<Vec3>, scaleFactors: seq<real>,
                                 dataType: DataType := DataType.STANDARD)
      requires |values| <= |scaleFactors|
      ensures this.name == name && this.faces == faces && this.values == values && this.dataType == dataType
      ensures this.scaleFactors == scaleFactors[..|values|]
      ensures !cornerData && projectiveInterpolate && program == null
    {
      this.name := name;
      this.faces := faces;
      this.values := values;
      this.dataType := dataType;
      cornerData := false;
      projectiveInterpolate := true;
      program := null;
      var sf := CopyScaleFactors(|values|, scaleFactors);
      this.scaleFactors := sf;
    }

    /** With one scale factor per value, on vertices or on corners. */
    constructor WithCornerData(name: string, faces: seq<seq<nat>>, values: seq<Vec3>, scaleFactors: seq<real>,
                               cornerData: bool, dataType: DataType)
      requires |values| <= |scaleFactors|
      ensures this.name == name && this.faces == faces && this.values == values && this.dataType == dataType
      ensures this.scaleFactors == scaleFactors[..|values|]
      ensures this.cornerData == cornerData && projectiveInterpolate && program == null
    {
      this.name := name;
      this.faces := faces;
      this.values := values;
      this.dataType := dataType;
      this.cornerData := cornerData;
      projectiveInterpolate := true;
      program := null;
      var sf := CopyScaleFactors(|values|, scaleFactors);
      this.scaleFactors := sf;
    }

    predicate ReadsInRange()
      reads this
    {
      FillReadsInRange(faces, values, scaleFactors, cornerData)
    }

    method SetEnabled(b: bool)
      modifies this`enabled
      ensures enabled == b
    {
      enabled := b;
    }

    /** The "Projective Interpolate" checkbox. */
    method SetProjectiveInterpolate(b: bool)
      modifies this`projectiveInterpolate
      ensures projectiveInterpolate == b
    {
      projectiveInterpolate := b;
    }

    /** The attribute buffers of a fresh program, by attribute name. */
    function ProgramAttributes(): map<string, Attribute>
      reads this
      requires ReadsInRange()
    {
      var b := EarthLayout(values, scaleFactors, ValueIndices(faces, cornerData));
      map["a_barycoord" := Vec3s(b.baryCoords), "a_scale_factor" := Vec3s(b.scaleFactor),
          "a_texture_coord0" := Vec3s(b.texCoord0), "a_texture_coord1" := Vec3s(b.texCoord1),
          "a_texture_coord2" := Vec3s(b.texCoord2)]
    }

    method CreateProgram()
      requires ReadsInRange()
      modifies this`program
      ensures program != null && fresh(program)
      ensures program.shaders == [VertShader, FragShader]
      ensures program.attributes == ProgramAttributes()
      ensures program.uniforms == map[] && program.textures == map[]
      ensures program.material == "wax" && program.draws == 0
    {
      var p := new ShaderProgram([VertShader, FragShader], {});
      var texCoord0, texCoord1, texCoord2, baryCoords, scaleFactor := FillPositionBuffers(faces, values, scaleFactors, cornerData);
      p.SetAttribute("a_barycoord", Vec3s(baryCoords));
      p.SetAttribute("a_scale_factor", Vec3s(scaleFactor));
      p.SetAttribute("a_texture_coord0", Vec3s(texCoord0));
      p.SetAttribute("a_texture_coord1", Vec3s(texCoord1));
      p.SetAttribute("a_texture_coord2", Vec3s(texCoord2));
      p.SetMaterial("wax");
      program := p;
    }

    /** Draws when enabled, building the program only when none is cached, and
        passes the interpolation flag as an integer. */
    method Draw()
      requires ReadsInRange()
      modifies this`program, program
      ensures !old(enabled) ==> program == old(program) && (program != null ==> unchanged(program))
      ensures old(enabled) ==>
        program != null &&
        program.uniforms == (if old(program) == null then map[] else old(program.uniforms))
          ["u_projectiveInterpolate" := UInt(FlagUniform(projectiveInterpolate))]
      ensures old(enabled) && old(program) != null ==>
        program == old(program) && program.draws == old(program.draws) + 1 &&
        program.attributes == old(program.attributes) && program.textures == old(program.textures) &&
        program.material == old(program.material)
      ensures old(enabled) && old(program) == null ==>
        fresh(program) && program.draws == 1 && program.shaders == [VertShader, FragShader] &&
        program.textures == map[] && program.material == "wax" && program.attributes == ProgramAttributes()
    {
      if !enabled {
        return;
      }
      if program == null {
        CreateProgram();
      }
      program.SetUniform("u_projectiveInterpolate", UInt(if projectiveInterpolate then 1 else 0));
      program.Draw();
    }

    method GeometryChanged()
      modifies this`program
      ensures program == null
    {
      program := null;
    }
  }
}
