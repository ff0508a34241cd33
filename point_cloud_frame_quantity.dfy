/** A frame field on a point cloud: three vectors per point, drawn as a small
    set of axes (or, in cross mode, as a cross of one colour). The host side
    flattens the frames for the vector mapper, splits them into one buffer per
    axis, and picks the axis colours and lengths it hands to the shaders. */
module PointCloudFrameQuantity {
  import opened Types
  import opened Geometry
  import opened Render
  import Filter

  const VertShader: string := "PASSTHRU_FRAME_VERT_SHADER"
  const GeomShader: string := "FRAME_GEOM_SHADER"
  const FragShader: string := "SHINY_FRAME_FRAG_SHADER"

  /** The three vectors of one frame, f[0], f[1] and f[2]. */
  datatype Frame = Frame(x: Vec3, y: Vec3, z: Vec3)

  function Axis(f: Frame, k: nat): Vec3
    requires k < 3
  {
    if k == 0 then f.x else if k == 1 then f.y else f.z
  }

  /** The decimal digits of n, most significant first (`std::to_string`). */
  function DecimalString(n: nat): (r: string)
    ensures |r| >= 1
    decreases n
  {
    if n < 10 then [('0' as int + n) as char]
    else DecimalString(n / 10) + [('0' as int + n % 10) as char]
  }

  /** The number a string of decimal digits denotes. */
  function DecimalValue(s: string): int
  {
    if s == [] then 0 else 10 * DecimalValue(s[..|s| - 1]) + (s[|s| - 1] as int - '0' as int)
  }

  /** Reading the printed count back gives the count: the message reports
      the sizes faithfully. */
  lemma {:induction false} DecimalRoundTrip(n: nat)
    ensures DecimalValue(DecimalString(n)) == n
    decreases n
  {
    if n >= 10 {
      var s := DecimalString(n);
      DecimalRoundTrip(n / 10);
      assert s[..|s| - 1] == DecimalString(n / 10);
    }
  }

  /** The constructor's size check: an error naming both sizes when the frame
      count differs from the point count. Construction goes on either way. */
  function SizeCheck(name: string, nFrames: nat, nPoints: nat): (r: Outcome)
    ensures r == Pass <==> nFrames == nPoints
  {
    if nFrames != nPoints then
      Fail("Point cloud frame quantity " + name + " does not have same number of values (" +
           DecimalString(nFrames) + ") as point cloud size (" + DecimalString(nPoints) + ")")
    else Pass
  }

  /** The frames' vectors in one list: f[0], f[1], f[2] of each frame, frame
      after frame. */
  function Flattened(frames: seq<Frame>): (r: seq<Vec3>)
    ensures |r| == 3 * |frames|
  {
    if frames == [] then []
    else
      var f := frames[|frames| - 1];
      Flattened(frames[..|frames| - 1]) + [f.x, f.y, f.z]
  }

  /** Regroups a list of vectors three by three into frames. */
  function Unflatten(vs: seq<Vec3>): (r: seq<Frame>)
    requires |vs| % 3 == 0
    ensures 3 * |r| == |vs|
  {
    if vs == [] then []
    else
      var n := |vs|;
      Unflatten(vs[..n - 3]) + [Frame(vs[n - 3], vs[n - 2], vs[n - 1])]
  }

  /** Flattening loses nothing: regrouping the flat list gives the frames back. */
  lemma {:induction false} UnflattenFlattened(frames: seq<Frame>)
    ensures Unflatten(Flattened(frames)) == frames
  {
    if frames != [] {
      var init := frames[..|frames| - 1];
      var vs := Flattened(frames);
      UnflattenFlattened(init);
      assert vs[..|vs| - 3] == Flattened(init);
      assert frames == init + [frames[|frames| - 1]];
    }
  }

  /** Entry 3i + k of the flat list is vector k of frame i. */
  lemma {:induction false} FlattenedAt(frames: seq<Frame>, i: nat, k: nat)
    requires i < |frames| && k < 3
    ensures Flattened(frames)[3 * i + k] == Axis(frames[i], k)
  {
    var init := frames[..|frames| - 1];
    if i < |frames| - 1 {
      FlattenedAt(init, i, k);
    }
  }

  /** The constructor loop that builds the flat list for the vector mapper. */
  method FlattenFrames(frames: seq<Frame>) returns (total: seq<Vec3>)
    ensures total == Flattened(frames)
  {
    total := [];
    var i := 0;
    while i < |frames|
      invariant 0 <= i <= |frames|
      invariant total == Flattened(frames[..i])
    {
      assert frames[..i + 1][..i] == frames[..i];
      var f := frames[i];
      total := total + [f.x, f.y, f.z];
      i := i + 1;
    }
    assert frames[..|frames|] == frames;
  }

  /** Vector k of every frame, in frame order. */
  function AxisVectors(frames: seq<Frame>, k: nat): (r: seq<Vec3>)
    requires k < 3
    ensures |r| == |frames|
  {
    seq(|frames|, i requires 0 <= i < |frames| => Axis(frames[i], k))
  }

  /** The fill loop of `createProgram`: one mapped buffer per axis, each with
      one entry per frame, in order. */
  method MapFrames(frames: seq<Frame>, mapVector: Vec3 -> Vec3)
    returns (mapped1: seq<Vec3>, mapped2: seq<Vec3>, mapped3: seq<Vec3>)
    ensures mapped1 == Mapped(AxisVectors(frames, 0), mapVector)
    ensures mapped2 == Mapped(AxisVectors(frames, 1), mapVector)
    ensures mapped3 == Mapped(AxisVectors(frames, 2), mapVector)
  {
    mapped1, mapped2, mapped3 := [], [], [];
    var i := 0;
    while i < |frames|
      invariant 0 <= i <= |frames|
      invariant |mapped1| == |mapped2| == |mapped3| == i
      invariant forall j :: 0 <= j < i ==> mapped1[j] == mapVector(frames[j].x)
      invariant forall j :: 0 <= j < i ==> mapped2[j] == mapVector(frames[j].y)
      invariant forall j :: 0 <= j < i ==> mapped3[j] == mapVector(frames[j].z)
    {
      var f := frames[i];
      mapped1 := mapped1 + [mapVector(f.x)];
      mapped2 := mapped2 + [mapVector(f.y)];
      mapped3 := mapped3 + [mapVector(f.z)];
      i := i + 1;
    }
  }

  /** The per-axis buffers and the flat list hold the same vectors: entry i
      of axis k's buffer is entry 3i + k of the flat list. */
  lemma AxisVectorsFlattened(frames: seq<Frame>, i: nat, k: nat)
    requires i < |frames| && k < 3
    ensures AxisVectors(frames, k)[i] == Flattened(frames)[3 * i + k]
  {
    FlattenedAt(frames, i, k);
  }

  /** The length uniform: ambient frames are drawn at their true length, the
      others at the length setting times the scene's length scale. */
  function LengthMultUniform(vectorType: VectorType, lengthMult: real, lengthScale: real): (r: real)
    ensures vectorType == VectorType.AMBIENT ==> r == 1.0
    ensures vectorType != VectorType.AMBIENT ==> r == lengthMult * lengthScale
  {
    if vectorType == VectorType.AMBIENT then 1.0 else lengthMult * lengthScale
  }

  /** The uniforms `draw` sets on top of the program's current ones: the
      radius (the radius setting times the scene's length scale), the three
      axis colours (all the first colour in cross mode), the cross flag and the
      length. */
  function DrawUniforms(m: map<string, Uniform>, radiusMult: real, lengthScale: real, c0: Vec3, c1: Vec3, c2: Vec3,
                        cross: bool, vectorType: VectorType, lengthMult: real): (r: map<string, Uniform>)
    ensures r.Keys == m.Keys + {"u_radius", "u_color_x", "u_color_y", "u_color_z", "u_cross", "u_lengthMult"}
    ensures forall key :: key in m && key !in {"u_radius", "u_color_x", "u_color_y", "u_color_z", "u_cross", "u_lengthMult"} ==> r[key] == m[key]
    ensures cross ==> r["u_color_x"] == r["u_color_y"] == r["u_color_z"]
  {
    m["u_radius" := UFloat(radiusMult * lengthScale)]
     ["u_color_x" := UVec3(c0)]
     ["u_color_y" := UVec3(if cross then c0 else c1)]
     ["u_color_z" := UVec3(if cross then c0 else c2)]
     ["u_cross" := UBool(cross)]
     ["u_lengthMult" := UFloat(LengthMultUniform(vectorType, lengthMult, lengthScale))]
  }

  /** What the shaders receive after a draw: in cross mode every axis is drawn
      in the first colour, otherwise each in its own; the other uniforms are
      left as they were. */
  lemma DrawUniformsByMode(m: map<string, Uniform>, radiusMult: real, lengthScale: real, c0: Vec3, c1: Vec3, c2: Vec3,
                           cross: bool, vectorType: VectorType, lengthMult: real)
    ensures var u := DrawUniforms(m, radiusMult, lengthScale, c0, c1, c2, cross, vectorType, lengthMult);
      u.Keys == m.Keys + {"u_radius", "u_color_x", "u_color_y", "u_color_z", "u_cross", "u_lengthMult"} &&
      (forall key :: key in m && key !in {"u_radius", "u_color_x", "u_color_y", "u_color_z", "u_cross", "u_lengthMult"} ==> u[key] == m[key]) &&
      u["u_radius"] == UFloat(radiusMult * lengthScale) && u["u_cross"] == UBool(cross) &&
      u["u_lengthMult"] == UFloat(if vectorType == VectorType.AMBIENT then 1.0 else lengthMult * lengthScale) &&
      u["u_color_x"] == UVec3(c0) &&
      (cross ==> u["u_color_y"] == UVec3(c0) && u["u_color_z"] == UVec3(c0)) &&
      (!cross ==> u["u_color_y"] == UVec3(c1) && u["u_color_z"] == UVec3(c2))
  {
  }

  /** `writeToFile` writes the row of frame i exactly when one of its three
      vectors has a positive squared length (computed by `length2`). */
  predicate RowWritten(f: Frame, length2: Vec3 -> real)
    ensures RowWritten(f, length2) <==> exists k :: 0 <= k < 3 && length2(Axis(f, k)) > 0.0
  {
    assert length2(f.x) > 0.0 ==> length2(Axis(f, 0)) > 0.0;
    assert length2(f.y) > 0.0 ==> length2(Axis(f, 1)) > 0.0;
    assert length2(f.z) > 0.0 ==> length2(Axis(f, 2)) > 0.0;
    length2(f.x) > 0.0 || length2(f.y) > 0.0 || length2(f.z) > 0.0
  }

  /** The indices of the rows `writeToFile` emits, in order. */
  function WrittenIndices(frames: seq<Frame>, length2: Vec3 -> real): (r: seq<nat>)
    ensures forall q :: 0 <= q < |r| ==> r[q] < |frames| && RowWritten(frames[r[q]], length2)
  {
    var keep := seq(|frames|, i requires 0 <= i < |frames| => RowWritten(frames[i], length2));
    Filter.SelectedExactly(keep);
    Filter.Selected(keep)
  }

  /** Frame i gets a row exactly when one of its vectors is nonzero, and the
      rows keep the order of the frames. */
  lemma WrittenExactly(frames: seq<Frame>, length2: Vec3 -> real, i: nat)
    requires i < |frames|
    ensures i in WrittenIndices(frames, length2) <==>
      length2(frames[i].x) > 0.0 || length2(frames[i].y) > 0.0 || length2(frames[i].z) > 0.0
    ensures var w := WrittenIndices(frames, length2);
      forall p, q :: 0 <= p < q < |w| ==> w[p] < w[q]
  {
    var keep := seq(|frames|, i requires 0 <= i < |frames| => RowWritten(frames[i], length2));
    Filter.SelectedExactly(keep);
    assert keep[i] == RowWritten(frames[i], length2);
  }

  /** The display name: the quantity's name followed by " (frame)". */
  function NiceName(name: string): (r: string)
    ensures |r| == |name| + |" (frame)"| && r[..|name|] == name && r[|name|..] == " (frame)"
  {
    name + " (frame)"
  }

  class FrameQuantity {
    const name: string
    /** Draw every axis in the first colour. */
    const cross: bool
    const vectorType: VectorType
    const frames: seq<Frame>
    /** The error the constructor reported, if any. */
    const sizeCheck: Outcome
    /** The flat list the vector mapper's range is computed from. */
    const mapperData: seq<Vec3>
    /** The colours of the x, y and z axes. */
    const frameColors: array<Vec3>
    var enabled: bool
    var lengthMult: real
    var radiusMult: real
    var program: ShaderProgram?

    predicate Valid()
      reads this
    {
      frameColors.Length == 3
    }

    /** Checks the frame count against the parent's point count, flattens the
        frames for the mapper and sets the defaults. `nextColors` are the next
        unique colours, of which cross mode takes one and the others three;
        in cross mode the y and z colours are left as they are. */
    constructor (name: string, frames: seq<Frame>, nPoints: nat, nextColors: seq<Vec3>,
                 cross: bool := false, vectorType: VectorType := VectorType.STANDARD)
      requires |nextColors| >= (if cross then 1 else 3)
      ensures this.name == name && this.cross == cross && this.vectorType == vectorType && this.frames == frames
      ensures sizeCheck == SizeCheck(name, |frames|, nPoints)
      ensures mapperData == Flattened(frames)
      ensures lengthMult == (if vectorType != VectorType.AMBIENT then 0.02 else 1.0)
      ensures radiusMult == 0.0005
      ensures Valid() && fresh(frameColors) && frameColors[0] == nextColors[0]
      ensures !cross ==> frameColors[1] == nextColors[1] && frameColors[2] == nextColors[2]
      ensures program == null
    {
      this.name := name;
      this.cross := cross;
      this.vectorType := vectorType;
      this.frames := frames;
      sizeCheck := SizeCheck(name, |frames|, nPoints);
      var total := FlattenFrames(frames);
      mapperData := total;
      lengthMult := if vectorType != VectorType.AMBIENT then 0.02 else 1.0;
      radiusMult := 0.0005;
      var colors := new Vec3[3];
      if cross {
        colors[0] := nextColors[0];
      } else {
        colors[0], colors[1], colors[2] := nextColors[0], nextColors[1], nextColors[2];
      }
      frameColors := colors;
      program := null;
    }

    method SetEnabled(b: bool)
      modifies this`enabled
      ensures enabled == b
    {
      enabled := b;
    }

    /** Builds the program: one mapped buffer per axis, the parent's points as
        positions, and the "wax" material. */
    method CreateProgram(points: seq<Vec3>, mapVector: Vec3 -> Vec3)
      modifies this`program
      ensures program != null && fresh(program)
      ensures program.shaders == [VertShader, GeomShader, FragShader]
      ensures program.attributes == map[
        "a_vector1" := Vec3s(Mapped(AxisVectors(frames, 0), mapVector)),
        "a_vector2" := Vec3s(Mapped(AxisVectors(frames, 1), mapVector)),
        "a_vector3" := Vec3s(Mapped(AxisVectors(frames, 2), mapVector)),
        "a_position" := Vec3s(points)]
      ensures program.uniforms == map[] && program.textures == map[]
      ensures program.material == "wax" && program.draws == 0
    {
      var p := new ShaderProgram([VertShader, GeomShader, FragShader], {"a_vector1", "a_vector2", "a_vector3", "a_position"});
      var mapped1, mapped2, mapped3 := MapFrames(frames, mapVector);
      p.SetAttribute("a_vector1", Vec3s(mapped1));
      p.SetAttribute("a_vector2", Vec3s(mapped2));
      p.SetAttribute("a_vector3", Vec3s(mapped3));
      p.SetAttribute("a_position", Vec3s(points));
      p.SetMaterial("wax");
      program := p;
    }

    /** Draws when enabled, building the program only when none is cached:
        the radius and (for non-ambient frames) the length are scaled by the
        scene's length scale, and the axis colours follow the cross mode. */
    method Draw(points: seq<Vec3>, mapVector: Vec3 -> Vec3, lengthScale: real)
      requires Valid()
      modifies this`program, program
      ensures !old(enabled) ==> program == old(program) && (program != null ==> unchanged(program))
      ensures old(enabled) ==>
        program != null &&
        program.uniforms == DrawUniforms(if old(program) == null then map[] else old(program.uniforms),
          radiusMult, lengthScale, frameColors[0], frameColors[1], frameColors[2], cross, vectorType, lengthMult)
      ensures old(enabled) && old(program) != null ==>
        program == old(program) && program.draws == old(program.draws) + 1 &&
        program.attributes == old(program.attributes) && program.textures == old(program.textures) &&
        program.material == old(program.material)
      ensures old(enabled) && old(program) == null ==>
        fresh(program) && program.draws == 1 && program.shaders == [VertShader, GeomShader, FragShader] &&
        program.textures == map[] && program.material == "wax" &&
        program.attributes == map[
          "a_vector1" := Vec3s(Mapped(AxisVectors(frames, 0), mapVector)),
          "a_vector2" := Vec3s(Mapped(AxisVectors(frames, 1), mapVector)),
          "a_vector3" := Vec3s(Mapped(AxisVectors(frames, 2), mapVector)),
          "a_position" := Vec3s(points)]
    {
      if !enabled {
        return;
      }
      if program == null {
        CreateProgram(points, mapVector);
      }
      SetDrawUniforms(program, radiusMult, lengthScale, frameColors[0], frameColors[1], frameColors[2], lengthMult);
      program.Draw();
    }

    /** The uniform updates of `draw`, in the order the source makes them. */
    method SetDrawUniforms(p: ShaderProgram, radiusMult: real, lengthScale: real, c0: Vec3, c1: Vec3, c2: Vec3, lengthMult: real)
      modifies p`uniforms
      ensures p.uniforms == DrawUniforms(old(p.uniforms), radiusMult, lengthScale, c0, c1, c2, cross, vectorType, lengthMult)
    {
      var radius := radiusMult * lengthScale;
      var lengthUniform := if vectorType == VectorType.AMBIENT then 1.0 else lengthMult * lengthScale;
      p.SetUniform("u_radius", UFloat(radius));
      if cross {
        p.SetUniform("u_color_x", UVec3(c0));
        p.SetUniform("u_color_y", UVec3(c0));
        p.SetUniform("u_color_z", UVec3(c0));
      } else {
        p.SetUniform("u_color_x", UVec3(c0));
        p.SetUniform("u_color_y", UVec3(c1));
        p.SetUniform("u_color_z", UVec3(c2));
      }
      p.SetUniform("u_cross", UBool(cross));
      p.SetUniform("u_lengthMult", UFloat(lengthUniform));
    }

    method GeometryChanged()
      modifies this`program
      ensures program == null
    {
      program := null;
    }
  }
}
