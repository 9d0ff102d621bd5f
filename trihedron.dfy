/** The V3d trihedron: the axis gizmo drawn in a corner of a 3D view. It keeps
    its size parameters and per-axis colours, marks itself for recomputation
    when a parameter really changes, and lazily builds a graphic structure
    holding one origin group, three axis groups and one label group. */
module V3d {
  import Int32
  import opened Wrappers

  type int32 = Int32.int32

  /** Precision::Confusion(): two lengths closer than this are the same length. */
  const Confusion: real := 0.0000001

  /** Compensates for the transform persistence introduced after the first implementation. */
  const InternalScaleFactor: real := 500.0
  /** Share of an axis taken by the tube; the cone takes the rest. */
  const CylinderLength: real := 0.75
  /** Number of segments of the wireframe origin circle. */
  const CircleSegmentsNb: nat := 24

  /** Aspect_TypeOfTriedronPosition: a corner of the view as a bit mask. */
  type Position = bv32
  const PosCenter: Position := 0x0
  const PosTop: Position := 0x1
  const PosBottom: Position := 0x2
  const PosLeft: Position := 0x4
  const PosRight: Position := 0x8
  const PosLeftLower: Position := PosBottom | PosLeft
  const PosLeftUpper: Position := PosTop | PosLeft
  const PosRightLower: Position := PosBottom | PosRight
  const PosRightUpper: Position := PosTop | PosRight

  /** The corner asks for a horizontal offset: it has the LEFT or the RIGHT bit. */
  predicate HasHorizontal(p: Position): (b: bool)
    ensures b <==> (p & PosLeft != 0 || p & PosRight != 0)
  {
    p & (PosLeft | PosRight) != 0
  }

  /** The corner asks for a vertical offset: it has the TOP or the BOTTOM bit. */
  predicate HasVertical(p: Position): (b: bool)
    ensures b <==> (p & PosTop != 0 || p & PosBottom != 0)
  {
    p & (PosTop | PosBottom) != 0
  }

  /** The corner bits of the named positions. */
  lemma NamedPositions()
    ensures !HasHorizontal(PosCenter) && !HasVertical(PosCenter)
    ensures !HasHorizontal(PosTop) && HasVertical(PosTop)
    ensures !HasHorizontal(PosBottom) && HasVertical(PosBottom)
    ensures HasHorizontal(PosLeft) && !HasVertical(PosLeft)
    ensures HasHorizontal(PosRight) && !HasVertical(PosRight)
    ensures HasHorizontal(PosLeftLower) && HasVertical(PosLeftLower)
    ensures HasHorizontal(PosLeftUpper) && HasVertical(PosLeftUpper)
    ensures HasHorizontal(PosRightLower) && HasVertical(PosRightLower)
    ensures HasHorizontal(PosRightUpper) && HasVertical(PosRightUpper)
  {
  }

  function Abs(x: real): (r: real)
    ensures r >= 0.0 && (r == x || r == -x)
  {
    if x < 0.0 then -x else x
  }

  /** The test the real-valued setters use: the new value is not the same length as the old one. */
  predicate Differs(current: real, next: real): (b: bool)
    ensures b <==> (current > next + Confusion || next > current + Confusion)
  {
    Abs(current - next) > Confusion
  }

  /** static_cast<Standard_Integer> of a real: truncation toward zero. */
  function Trunc(x: real): (r: int)
    ensures 0.0 <= x ==> 0 <= r && r as real <= x < r as real + 1.0
    ensures x < 0.0 ==> r <= 0 && r as real - 1.0 < x <= r as real
  {
    if x >= 0.0 then x.Floor else -((-x).Floor)
  }

  /** The offset the transform persistence applies for a corner, in pixels. */
  function CornerOffset(p: Position, scale: real): (r: Vec2i)
    ensures r.x != 0 ==> HasHorizontal(p)
    ensures r.y != 0 ==> HasVertical(p)
    ensures HasHorizontal(p) ==> r.x == Trunc(scale * InternalScaleFactor)
    ensures HasVertical(p) ==> r.y == Trunc(scale * InternalScaleFactor)
  {
    var d := Trunc(scale * InternalScaleFactor);
    Vec2i(if HasHorizontal(p) then d else 0, if HasVertical(p) then d else 0)
  }

  // ---------------------------------------------------------------------------
  // Values the trihedron works with
  // ---------------------------------------------------------------------------

  /** Quantity_Color, reduced to the named colours used here and an RGB triple.
      Initial is the colour an aspect has before anyone sets one. */
  datatype Color = Initial | Red | Green | Blue1 | White | Rgb(r: real, g: real, b: real)

  datatype HJustification = JustifyLeft | JustifyCenter | JustifyRight
  datatype VJustification = JustifyBottom | JustifyMiddle | JustifyTop

  /** Prs3d_TextAspect of the axis labels. */
  datatype TextAspect = TextAspect(font: string, height: real, hJustify: HJustification,
                                   vJustify: VJustification, color: Color)

  datatype Vec2i = Vec2i(x: int, y: int)
  datatype Pnt = Pnt(x: real, y: real, z: real)

  /** Graphic3d_TMF_TriedronPers, the one persistence mode used here. */
  datatype PersMode = TriedronPers
  datatype ZLayer = Topmost
  /** Graphic3d_ViewAffinity: none attached, or visible in exactly these views. */
  datatype Affinity = NoAffinity | VisibleIn(views: set<int>)

  /** The view a trihedron is displayed in: its identification and its viewer's structure manager. */
  datatype View = View(identification: int, structureManager: int)

  /** The local frame a tessellated part is placed in: z along the given axis, origin at the given distance on it. */
  datatype AxisFrame = AxisFrame(axis: nat, origin: real)

  /** A primitive array added to a group; the vertex coordinates of tessellated parts are not modelled,
      the polyline keeps the angle step of each vertex. */
  datatype PrimArray =
    | CirclePolyline(capacity: nat, steps: seq<int>)
    | Segments(capacity: nat, vertices: seq<Pnt>)
    | SphereMesh(radius: real, slices: int32, stacks: int32)
    | CylinderMesh(bottom: real, top: real, height: real, slices: int32, stacks: int32, frame: AxisFrame)
    | DiskMesh(inner: real, outer: real, slices: int32, stacks: int32, frame: AxisFrame)

  /** Which of the trihedron's aspects a group was given. */
  datatype AspectRef = SphereShadingAspect | SphereLineAspect | ArrowShadingAspect(axis: nat) | ArrowLineAspect(axis: nat)

  datatype Label = Label(text: string, at: Pnt)

  /** A Graphic3d_Group: the aspects set on it in order, its primitive arrays and its text labels. */
  datatype Group = Group(aspects: seq<AspectRef>, arrays: seq<PrimArray>, labels: seq<Label>)

  /** The lengths compute() derives from the parameters. */
  datatype Dims = Dims(scale: real, cylinderLength: real, cylinderDiameter: real, coneDiameter: real,
                       coneLength: real, sphereRadius: real, rayon: real)

  function Dimensions(wireframe: bool, scale: real, ratio: real, diameter: real): (d: Dims)
    ensures d.scale == scale * ratio * InternalScaleFactor
    ensures d.cylinderLength + d.coneLength == d.scale
    ensures d.coneDiameter == (if wireframe then d.cylinderDiameter else 2.0 * d.cylinderDiameter)
    ensures d.sphereRadius == 2.0 * d.cylinderDiameter
    ensures 30.0 * d.rayon == d.scale
  {
    var s := scale * ratio * InternalScaleFactor;
    var cylDiam := s * diameter;
    Dims(s, s * CylinderLength, cylDiam, if wireframe then cylDiam else cylDiam * 2.0,
         s * (1.0 - CylinderLength), cylDiam * 2.0, s / 30.0)
  }

  // ---------------------------------------------------------------------------
  // The layout compute() builds
  // ---------------------------------------------------------------------------

  /** Angle steps of the wireframe origin circle: from the last segment down to 0, then the last one again. */
  function CircleSteps(): seq<int>
  {
    seq(CircleSegmentsNb + 2, k => if k <= CircleSegmentsNb then CircleSegmentsNb - k else CircleSegmentsNb)
  }

  /** The circle's vertices fill the array exactly and end where they start. */
  lemma CircleFitsCapacity()
    ensures |CircleSteps()| == CircleSegmentsNb + 2 == 26
    ensures CircleSteps()[0] == CircleSteps()[|CircleSteps()| - 1] == CircleSegmentsNb
    ensures forall k :: 0 <= k < CircleSegmentsNb ==> CircleSteps()[k + 1] == CircleSteps()[k] - 1
  {
  }

  /** The polyline of the wireframe origin, built as compute() does: one vertex per
      step from CircleSegmentsNb down to 0, then the closing vertex. */
  method NewCircleArray() returns (a: PrimArray)
    ensures a == CirclePolyline(CircleSegmentsNb + 2, CircleSteps())
  {
    var steps: seq<int> := [];
    var it: int := CircleSegmentsNb;
    while it >= 0
      invariant -1 <= it <= CircleSegmentsNb
      invariant |steps| == CircleSegmentsNb - it
      invariant forall k :: 0 <= k < |steps| ==> steps[k] == CircleSegmentsNb - k
    {
      steps := steps + [it];
      it := it - 1;
    }
    steps := steps + [CircleSegmentsNb];
    assert forall k :: 0 <= k < |steps| ==> steps[k] == CircleSteps()[k];
    a := CirclePolyline(CircleSegmentsNb + 2, steps);
  }

  /** The origin: a closed circle filling its 26-vertex array in the sphere's line aspect
      when wireframe, otherwise a sphere tessellated with the facet count both ways. */
  function OriginGroup(wireframe: bool, d: Dims, facets: int32): (g: Group)
    ensures |g.arrays| == 1 && g.labels == []
    ensures wireframe ==> g.aspects == [SphereLineAspect] && g.arrays[0].CirclePolyline?
                          && |g.arrays[0].steps| == g.arrays[0].capacity == CircleSegmentsNb + 2
                          && g.arrays[0].steps[0] == g.arrays[0].steps[CircleSegmentsNb + 1]
    ensures !wireframe ==> g.aspects == [SphereShadingAspect]
                           && g.arrays[0] == SphereMesh(d.sphereRadius, facets, facets)
  {
    if wireframe then Group([SphereLineAspect], [CirclePolyline(CircleSegmentsNb + 2, CircleSteps())], [])
    else Group([SphereShadingAspect], [SphereMesh(d.sphereRadius, facets, facets)], [])
  }

  /** The point at the given distance along axis 0 (X), 1 (Y) or 2 (Z). */
  function AxisPoint(axis: nat, length: real): Pnt
  {
    if axis == 0 then Pnt(length, 0.0, 0.0)
    else if axis == 1 then Pnt(0.0, length, 0.0)
    else Pnt(0.0, 0.0, length)
  }

  /** One axis: in its own shading aspect (and its line aspect when wireframe), a tube from the
      origin (a segment when wireframe), then a disk and a cone at the tube's end. */
  function AxisGroup(axis: nat, wireframe: bool, d: Dims, facets: int32): (g: Group)
    ensures |g.arrays| == 3 && g.labels == []
    ensures g.aspects == (if wireframe then [ArrowShadingAspect(axis), ArrowLineAspect(axis)] else [ArrowShadingAspect(axis)])
    ensures wireframe <==> g.arrays[0].Segments?
    ensures wireframe ==> g.arrays[0].capacity == |g.arrays[0].vertices| == 2
    ensures !wireframe ==> g.arrays[0].CylinderMesh? && g.arrays[0].frame == AxisFrame(axis, 0.0)
    ensures g.arrays[1].DiskMesh? && g.arrays[1].frame == AxisFrame(axis, d.cylinderLength)
    ensures g.arrays[2].CylinderMesh? && g.arrays[2].frame == AxisFrame(axis, d.cylinderLength)
    ensures g.arrays[1].outer == g.arrays[2].bottom == d.coneDiameter && g.arrays[2].top == 0.0
  {
    var tipFrame := AxisFrame(axis, d.cylinderLength);
    var disk := DiskMesh(0.0, d.coneDiameter, facets, 1, tipFrame);
    var cone := CylinderMesh(d.coneDiameter, 0.0, d.coneLength, facets, 1, tipFrame);
    if wireframe then
      Group([ArrowShadingAspect(axis), ArrowLineAspect(axis)],
            [Segments(2, [Pnt(0.0, 0.0, 0.0), AxisPoint(axis, d.cylinderLength)]), disk, cone], [])
    else
      Group([ArrowShadingAspect(axis)],
            [CylinderMesh(d.cylinderDiameter, d.cylinderDiameter, d.cylinderLength, facets, 1, AxisFrame(axis, 0.0)), disk, cone], [])
  }

  function LabelText(axis: nat): string
  {
    if axis == 0 then "X" else if axis == 1 then "Y" else "Z"
  }

  function LabelPoint(axis: nat, d: Dims): Pnt
  {
    if axis == 0 then Pnt(d.scale + 2.0 * d.rayon, 0.0, -d.rayon)
    else if axis == 1 then Pnt(d.rayon, d.scale + 3.0 * d.rayon, 2.0 * d.rayon)
    else Pnt(-2.0 * d.rayon, 0.5 * d.rayon, d.scale + 3.0 * d.rayon)
  }

  /** The labels X, Y and Z, with no aspect and no primitive array of their own. */
  function LabelGroup(d: Dims): (g: Group)
    ensures g.aspects == [] && g.arrays == [] && |g.labels| == 3
    ensures g.labels[0].text == "X" && g.labels[1].text == "Y" && g.labels[2].text == "Z"
  {
    Group([], [], [Label(LabelText(0), LabelPoint(0, d)), Label(LabelText(1), LabelPoint(1, d)), Label(LabelText(2), LabelPoint(2, d))])
  }

  /** The groups of a freshly computed trihedron structure. */
  function Layout(wireframe: bool, scale: real, ratio: real, diameter: real, facets: int32): (g: seq<Group>)
    ensures |g| == 5
    ensures var d := Dimensions(wireframe, scale, ratio, diameter);
      && g[0] == OriginGroup(wireframe, d, facets) && g[4] == LabelGroup(d)
      && forall i :: 1 <= i <= 3 ==> g[i] == AxisGroup(i - 1, wireframe, d, facets)
  {
    var d := Dimensions(wireframe, scale, ratio, diameter);
    [OriginGroup(wireframe, d, facets),
     AxisGroup(0, wireframe, d, facets), AxisGroup(1, wireframe, d, facets), AxisGroup(2, wireframe, d, facets),
     LabelGroup(d)]
  }

  function ArrayCount(groups: seq<Group>): nat
  {
    if groups == [] then 0 else |groups[0].arrays| + ArrayCount(groups[1..])
  }

  function LabelCount(groups: seq<Group>): nat
  {
    if groups == [] then 0 else |groups[0].labels| + LabelCount(groups[1..])
  }

  /** compute() builds five groups: the origin with one array, three axes each with a tube,
      a disk and a cone in the axis' own aspect, and the X, Y, Z labels; ten arrays and three labels in all. */
  lemma {:induction false} LayoutShape(wireframe: bool, scale: real, ratio: real, diameter: real, facets: int32)
    ensures var g := Layout(wireframe, scale, ratio, diameter, facets);
      && |g| == 5
      && |g[0].arrays| == 1 && g[0].labels == []
      && (wireframe ==> g[0].aspects == [SphereLineAspect]
                        && g[0].arrays[0].CirclePolyline? && |g[0].arrays[0].steps| == g[0].arrays[0].capacity == 26)
      && (!wireframe ==> g[0].aspects == [SphereShadingAspect] && g[0].arrays[0].SphereMesh?)
      && (forall i :: 1 <= i <= 3 ==> g[i].aspects[0] == ArrowShadingAspect(i - 1) && |g[i].arrays| == 3
                                       && g[i].arrays[1].DiskMesh? && g[i].arrays[2].CylinderMesh? && g[i].labels == [])
      && g[4].arrays == [] && |g[4].labels| == 3
      && g[4].labels[0].text == "X" && g[4].labels[1].text == "Y" && g[4].labels[2].text == "Z"
      && ArrayCount(g) == 10 && LabelCount(g) == 3
  {
    var g := Layout(wireframe, scale, ratio, diameter, facets);
    CountsStep(g, 4);
    CountsStep(g, 3);
    CountsStep(g, 2);
    CountsStep(g, 1);
    CountsStep(g, 0);
  }

  lemma CountsStep(g: seq<Group>, k: nat)
    requires k < |g|
    ensures ArrayCount(g[k..]) == |g[k].arrays| + ArrayCount(g[k + 1..])
    ensures LabelCount(g[k..]) == |g[k].labels| + LabelCount(g[k + 1..])
  {
    assert g[k..][1..] == g[k + 1..];
  }

  // ---------------------------------------------------------------------------
  // Collaborators
  // ---------------------------------------------------------------------------

  /** Graphic3d_TransformPers: where on the screen the trihedron is pinned. */
  class TransformPers {
    const mode: PersMode
    var corner: Position
    var offset: Vec2i

    constructor (mode: PersMode, corner: Position)
      ensures this.mode == mode && this.corner == corner && offset == Vec2i(0, 0)
    {
      this.mode := mode;
      this.corner := corner;
      offset := Vec2i(0, 0);
    }
  }

  /** The trihedron's Graphic3d_Structure. Its Compute() override hands the work
      back to the trihedron that owns it. */
  class TrihedronStructure {
    const structureManager: int
    const trihedron: Trihedron
    var transformPers: TransformPers?
    var zLayer: Option<ZLayer>
    var displayPriority: Option<int>
    var infinite: bool
    var affinity: Affinity
    var groups: seq<Group>
    var displayed: bool
    /** How many times the structure's graphic has been cleared for a recomputation. */
    var clears: nat

    constructor (structureManager: int, trihedron: Trihedron)
      ensures this.structureManager == structureManager && this.trihedron == trihedron
      ensures transformPers == null && zLayer == None && displayPriority == None && !infinite
      ensures affinity == NoAffinity && groups == [] && !displayed && clears == 0
    {
      this.structureManager := structureManager;
      this.trihedron := trihedron;
      transformPers := null;
      zLayer := None;
      displayPriority := None;
      infinite := false;
      affinity := NoAffinity;
      groups := [];
      displayed := false;
      clears := 0;
    }

    /** Recomputation requested by the structure manager (device lost): redirected to the trihedron. */
    method Compute()
      requires trihedron.Valid() && trihedron.structure == this
      modifies this`groups, this`clears
      ensures groups == trihedron.Groups()
      ensures clears == old(clears) + 1
    {
      trihedron.Compute();
    }
  }

  // ---------------------------------------------------------------------------
  // The trihedron
  // ---------------------------------------------------------------------------

  class Trihedron {
    var scale: real
    var ratio: real
    var diameter: real
    var nbFacets: int32
    var isWireframe: bool
    /** Set when the structure must be recomputed on the next Display. */
    var toCompute: bool
    const transformPers: TransformPers
    /** Colour of each axis' shading aspect and line aspect. */
    const arrowShading: array<Color>
    const arrowLine: array<Color>
    var sphereShading: Color
    var sphereLine: Color
    var textAspect: TextAspect
    var structure: TrihedronStructure?

    ghost predicate Valid()
      reads this, structure
    {
      && arrowShading.Length == 3 && arrowLine.Length == 3 && arrowShading != arrowLine
      && (structure != null ==> structure.trihedron == this && structure.transformPers == transformPers)
    }

    /** The groups a recomputation builds from the current parameters. */
    function Groups(): seq<Group>
      reads this
    {
      Layout(isWireframe, scale, ratio, diameter, nbFacets)
    }

    constructor ()
      ensures Valid() && fresh(arrowShading) && fresh(arrowLine) && fresh(transformPers)
      ensures scale == 1.0 && ratio == 0.8 && diameter == 0.05 && nbFacets == 12
      ensures !isWireframe && toCompute && structure == null
      ensures transformPers.mode == TriedronPers && transformPers.corner == PosLeftLower
      ensures transformPers.offset == Vec2i(500, 500)
      ensures arrowShading[..] == [Red, Green, Blue1] && arrowLine[..] == [Red, Green, Blue1]
      ensures sphereShading == White && sphereLine == White
      ensures textAspect == TextAspect("Courier", 16.0, JustifyLeft, JustifyBottom, Initial)
    {
      scale := 1.0;
      ratio := 0.8;
      diameter := 0.05;
      nbFacets := 12;
      isWireframe := false;
      toCompute := true;
      transformPers := new TransformPers(TriedronPers, PosLeftLower);
      arrowShading := new Color[3];
      arrowLine := new Color[3];
      structure := null;
      sphereShading := White;
      sphereLine := White;
      textAspect := TextAspect("Courier", 16.0, JustifyLeft, JustifyBottom, Initial);
      new;
      SetPosition(PosLeftLower);
      for it := 0 to 3
        modifies arrowShading, arrowLine
        invariant forall k :: 0 <= k < it ==> arrowShading[k] == Initial && arrowLine[k] == White
      {
        arrowShading[it] := Initial;
        arrowLine[it] := White;
      }
      arrowShading[0] := Red;
      arrowLine[0] := Red;
      arrowShading[1] := Green;
      arrowLine[1] := Green;
      arrowShading[2] := Blue1;
      arrowLine[2] := Blue1;
    }

    method SetLabelsColor(c: Color)
      modifies this`textAspect
      ensures textAspect == old(textAspect).(color := c)
    {
      textAspect := textAspect.(color := c);
    }

    /** Gives axis i both the shading colour and the line colour of the i-th argument. */
    method SetArrowsColor(x: Color, y: Color, z: Color)
      requires Valid()
      modifies arrowShading, arrowLine
      ensures arrowShading[..] == [x, y, z] && arrowLine[..] == [x, y, z]
    {
      var colors := [x, y, z];
      for it := 0 to 3
        invariant forall k :: 0 <= k < it ==> arrowShading[k] == colors[k] && arrowLine[k] == colors[k]
      {
        arrowShading[it] := colors[it];
        arrowLine[it] := colors[it];
      }
    }

    method SetScale(s: real)
      modifies this`scale, this`toCompute
      ensures scale == s
      ensures toCompute == (old(toCompute) || Differs(old(scale), s))
    {
      if Abs(scale - s) > Confusion {
        toCompute := true;
      }
      scale := s;
    }

    method SetSizeRatio(r: real)
      modifies this`ratio, this`toCompute
      ensures ratio == r
      ensures toCompute == (old(toCompute) || Differs(old(ratio), r))
    {
      if Abs(ratio - r) > Confusion {
        toCompute := true;
      }
      ratio := r;
    }

    method SetArrowDiameter(d: real)
      modifies this`diameter, this`toCompute
      ensures diameter == d
      ensures toCompute == (old(toCompute) || Differs(old(diameter), d))
    {
      if Abs(diameter - d) > Confusion {
        toCompute := true;
      }
      diameter := d;
    }

    /** Stores the facet count; invalidates exactly when the count changes (see FacetsChangedAsWritten
        for the 32-bit test as the source writes it). */
    method SetNbFacets(n: int32)
      modifies this`nbFacets, this`toCompute
      ensures nbFacets == n
      ensures toCompute == (old(toCompute) || old(nbFacets) != n)
    {
      if nbFacets != n {
        toCompute := true;
      }
      nbFacets := n;
    }

    /** Pins the trihedron to a corner; the offset is taken from the current scale. */
    method SetPosition(p: Position)
      modifies transformPers`corner, transformPers`offset
      ensures transformPers.corner == p
      ensures transformPers.offset == CornerOffset(p, scale)
    {
      var offset := Vec2i(0, 0);
      if p & (PosLeft | PosRight) != 0 {
        offset := offset.(x := Trunc(scale * InternalScaleFactor));
      }
      if p & (PosTop | PosBottom) != 0 {
        offset := offset.(y := Trunc(scale * InternalScaleFactor));
      }
      transformPers.corner := p;
      transformPers.offset := offset;
    }

    /** Clears the structure and rebuilds its five groups from the current parameters.
        Does not reset toCompute. */
    method Compute()
      requires Valid() && structure != null
      modifies structure`groups, structure`clears
      ensures structure.groups == Groups()
      ensures structure.clears == old(structure.clears) + 1
    {
      var s: TrihedronStructure := structure;
      s.groups := [];
      s.clears := s.clears + 1;
      var wireframe, facets := isWireframe, nbFacets;
      var d := Dimensions(wireframe, scale, ratio, diameter);

      // Origin.
      var origin: Group;
      if wireframe {
        var circle := NewCircleArray();
        origin := Group([SphereLineAspect], [circle], []);
      } else {
        origin := Group([SphereShadingAspect], [SphereMesh(d.sphereRadius, facets, facets)], []);
      }
      s.groups := s.groups + [origin];

      // Axes.
      for axis := 0 to 3
        modifies s`groups
        invariant |s.groups| == 1 + axis && s.groups[0] == OriginGroup(wireframe, d, facets)
        invariant forall k :: 0 <= k < axis ==> s.groups[1 + k] == AxisGroup(k, wireframe, d, facets)
      {
        var aspects := [ArrowShadingAspect(axis)];
        var arrays: seq<PrimArray> := [];
        if wireframe {
          arrays := arrays + [Segments(2, [Pnt(0.0, 0.0, 0.0), AxisPoint(axis, d.cylinderLength)])];
          aspects := aspects + [ArrowLineAspect(axis)];
        } else {
          arrays := arrays + [CylinderMesh(d.cylinderDiameter, d.cylinderDiameter, d.cylinderLength, facets, 1, AxisFrame(axis, 0.0))];
        }
        var tipFrame := AxisFrame(axis, d.cylinderLength);
        arrays := arrays + [DiskMesh(0.0, d.coneDiameter, facets, 1, tipFrame)];
        arrays := arrays + [CylinderMesh(d.coneDiameter, 0.0, d.coneLength, facets, 1, tipFrame)];
        s.groups := s.groups + [Group(aspects, arrays, [])];
      }

      // Labels.
      var labels: seq<Label> := [];
      for it := 0 to 3
        invariant |labels| == it
        invariant forall k :: 0 <= k < it ==> labels[k] == Label(LabelText(k), LabelPoint(k, d))
      {
        labels := labels + [Label(LabelText(it), LabelPoint(it, d))];
      }
      s.groups := s.groups + [Group([], [], labels)];
      assert labels == LabelGroup(d).labels;
    }

    /** Creates the structure on first use, recomputes it when flagged, and shows it. */
    method Display(view: View)
      requires Valid()
      modifies this`structure, structure
      ensures Valid() && structure != null && structure.displayed
      ensures old(structure) != null ==>
        (structure == old(structure)
         && structure.zLayer == old(structure.zLayer) && structure.displayPriority == old(structure.displayPriority)
         && structure.infinite == old(structure.infinite) && structure.affinity == old(structure.affinity))
      ensures old(structure) == null ==>
        (fresh(structure)
         && structure.structureManager == view.structureManager && structure.transformPers == transformPers
         && structure.zLayer == Some(Topmost) && structure.displayPriority == Some(9) && structure.infinite
         && structure.affinity == VisibleIn({view.identification}))
      ensures toCompute ==>
        (structure.groups == Groups()
         && structure.clears == (if old(structure) == null then 0 else old(structure.clears)) + 1)
      ensures !toCompute ==>
        (structure.groups == (if old(structure) == null then [] else old(structure.groups))
         && structure.clears == (if old(structure) == null then 0 else old(structure.clears)))
    {
      if structure == null {
        var s := new TrihedronStructure(view.structureManager, this);
        s.transformPers := transformPers;
        s.zLayer := Some(Topmost);
        s.displayPriority := Some(9);
        s.infinite := true;
        s.affinity := VisibleIn({});
        s.affinity := VisibleIn({view.identification});
        structure := s;
      }
      if toCompute {
        Compute();
      }
      structure.displayed := true;
    }

    /** Erases and drops the structure, if there is one. */
    method Erase()
      requires Valid()
      modifies this`structure, (if structure == null then {} else {structure})`displayed
      ensures Valid() && structure == null
      ensures old(structure) != null ==> !old(structure).displayed
    {
      if structure != null {
        structure.displayed := false;
        structure := null;
      }
    }
  }

  // ---------------------------------------------------------------------------
  // The facet-count test as the source writes it
  // ---------------------------------------------------------------------------

  /** `Abs (myNbFacettes - theNbFacets) > 0` in 32-bit arithmetic. */
  predicate FacetsChangedAsWritten(current: int32, next: int32): (b: bool)
    ensures b ==> current != next
  {
    Int32.Abs(Int32.Sub(current, next)) > 0
  }

  /** The 32-bit test detects every change except one by exactly 2^31, where the
      difference wraps to the smallest integer and its Abs stays negative. */
  lemma FacetsChangedAsWrittenIff(current: int32, next: int32)
    ensures FacetsChangedAsWritten(current, next)
        <==> current != next && current as int - next as int != 0x8000_0000 && current as int - next as int != -0x8000_0000
  {
    var d := current as int - next as int;
    var w := Int32.Sub(current, next);
    if d > Int32.Max {
      assert w as int == d - Int32.Modulus;
    } else if d < Int32.Min {
      assert w as int == d + Int32.Modulus;
    }
  }

  /** Changing the count from 0 to the smallest integer does not invalidate. */
  lemma FacetsChangeMissed()
    ensures !FacetsChangedAsWritten(0, -0x8000_0000)
  {
    FacetsChangedAsWrittenIff(0, -0x8000_0000);
  }

  // ---------------------------------------------------------------------------
  // Lifecycle scenarios
  // ---------------------------------------------------------------------------

  /** A second Display reuses the structure, and, since nothing clears the flag, recomputes it again. */
  method DisplayTwice(view: View) returns (reused: bool, recomputations: nat, shown: bool)
    ensures reused && recomputations == 2 && shown
  {
    var t := new Trihedron();
    t.Display(view);
    var first := t.structure;
    t.Display(view);
    reused := t.structure == first;
    recomputations := t.structure.clears;
    shown := t.structure.displayed;
  }

  /** One call a client can make on a trihedron after constructing it. */
  datatype Operation =
    | ScaleOp(scale: real)
    | SizeRatioOp(ratio: real)
    | ArrowDiameterOp(diameter: real)
    | NbFacetsOp(facets: int32)
    | ArrowsColorOp(x: Color, y: Color, z: Color)
    | LabelsColorOp(color: Color)
    | PositionOp(corner: Position)
    | DisplayOp(view: View)
    | EraseOp

  /** Whatever calls follow the constructor, the needs-compute flag stays set, so every
      Display recomputes the structure: it refills the groups from the current parameters
      and clears the structure once more than before. */
  method FlagStaysSet(ops: seq<Operation>) returns (flagged: bool, everyDisplayRecomputes: bool)
    ensures flagged && everyDisplayRecomputes
  {
    var t := new Trihedron();
    everyDisplayRecomputes := true;
    for i := 0 to |ops|
      invariant t.Valid() && t.toCompute && everyDisplayRecomputes
      invariant fresh(t.arrowShading) && fresh(t.arrowLine) && fresh(t.transformPers)
      invariant t.structure != null ==> fresh(t.structure)
    {
      match ops[i]
      case ScaleOp(v) => t.SetScale(v);
      case SizeRatioOp(v) => t.SetSizeRatio(v);
      case ArrowDiameterOp(v) => t.SetArrowDiameter(v);
      case NbFacetsOp(n) => t.SetNbFacets(n);
      case ArrowsColorOp(x, y, z) => t.SetArrowsColor(x, y, z);
      case LabelsColorOp(c) => t.SetLabelsColor(c);
      case PositionOp(p) => t.SetPosition(p);
      case DisplayOp(view) =>
        var before := if t.structure == null then 0 else t.structure.clears;
        t.Display(view);
        everyDisplayRecomputes := everyDisplayRecomputes
          && t.structure.groups == t.Groups() && t.structure.clears == before + 1;
      case EraseOp => t.Erase();
    }
    flagged := t.toCompute;
  }

  /** Erase after Display hides the structure and drops it; a second Erase changes nothing. */
  method EraseTwice(view: View) returns (hidden: bool, dropped: bool, stillDropped: bool)
    ensures hidden && dropped && stillDropped
  {
    var t := new Trihedron();
    t.Display(view);
    var s := t.structure;
    t.Erase();
    hidden := !s.displayed;
    dropped := t.structure == null;
    t.Erase();
    stillDropped := t.structure == null && !s.displayed;
  }

  /** SetPosition takes the offset from the scale at the time of the call: a later
      SetScale leaves the offset as it was until the corner is set again. */
  method OffsetFollowsSetPosition() returns (initial: Vec2i, afterScale: Vec2i, afterPosition: Vec2i)
    ensures initial == afterScale == Vec2i(500, 500) && afterPosition == Vec2i(1000, 0)
  {
    var t := new Trihedron();
    initial := t.transformPers.offset;
    t.SetScale(2.0);
    afterScale := t.transformPers.offset;
    t.SetPosition(PosRight);
    NamedPositions();
    afterPosition := t.transformPers.offset;
  }
}
