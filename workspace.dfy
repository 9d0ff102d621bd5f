/** The OpenGL workspace: the packed material record it caches per face side,
    and the state accessors its header defines inline. */
module OpenGl {

  /** OpenGl_Vec4: four single-precision components. */
  datatype Vec4 = Vec4(x: real, y: real, z: real, w: real)

  /** A handle or raw pointer to an object this model does not look into
      (a view, a render filter, a text parameter block, a matrix). */
  datatype Ref = Null | Ref(address: nat)

  /** OpenGl_Material: five vec4 laid out back to back. Shine and
      transparency live in the first two components of Params. */
  class Material {
    var ambient: Vec4
    var diffuse: Vec4
    var specular: Vec4
    var emission: Vec4
    var params: Vec4

    /** Number of vec4 in the packed representation. */
    static function NbOfVec4(): (n: nat)
      ensures n == 5
    {
      5
    }

    /** The record seen as an array of vec4, in declaration order. */
    function Packed(): (p: seq<Vec4>)
      reads this
      ensures |p| == NbOfVec4()
      ensures p[0] == ambient && p[1] == diffuse && p[2] == specular && p[3] == emission && p[4] == params
    {
      [ambient, diffuse, specular, emission, params]
    }

    function Shine(): (s: real)
      reads this
      ensures s == Packed()[4].x
    {
      params.x
    }

    function Transparency(): (t: real)
      reads this
      ensures t == Packed()[4].y
    {
      params.y
    }

    /** A write of `value` through the reference ChangeShine() returns. */
    method ChangeShine(value: real)
      modifies this`params
      ensures Shine() == value && Transparency() == old(Transparency())
      ensures params == old(params).(x := value)
      ensures Packed()[..4] == old(Packed()[..4])
    {
      params := params.(x := value);
    }

    /** A write of `value` through the reference ChangeTransparency() returns. */
    method ChangeTransparency(value: real)
      modifies this`params
      ensures Transparency() == value && Shine() == old(Shine())
      ensures params == old(params).(y := value)
      ensures Packed()[..4] == old(Packed()[..4])
    {
      params := params.(y := value);
    }
  }

  /** OpenGl_Workspace, restricted to the state its inline members read and write. */
  class Workspace {
    var view: Ref
    var backBufferRestored: bool
    var renderFilter: Ref
    var textParamSet: Ref
    var textParamApplied: Ref
    var viewMatrixApplied: Ref
    var structureMatrixApplied: Ref

    method SetActiveView(v: Ref)
      modifies this`view
      ensures ActiveView() == v
    {
      view := v;
    }

    /** The view last made active. */
    function ActiveView(): (v: Ref)
      reads this`view
      ensures v == view
    {
      view
    }

    /** Forces the next redraw to repaint the back buffer. The view argument is unused. */
    method Invalidate(cview: Ref)
      modifies this`backBufferRestored
      ensures !backBufferRestored
    {
      backBufferRestored := false;
    }

    /** Records the requested text parameters; the applied ones stay as they were. */
    method SetTextParam(param: Ref)
      modifies this`textParamSet
      ensures textParamSet == param
      ensures AspectTextParams() == old(AspectTextParams())
    {
      textParamSet := param;
    }

    /** The text parameters last applied, not the ones last requested. */
    function AspectTextParams(): (p: Ref)
      reads this`textParamApplied
      ensures p == textParamApplied
    {
      textParamApplied
    }

    method SetRenderFilter(filter: Ref)
      modifies this`renderFilter
      ensures GetRenderFilter() == filter
    {
      renderFilter := filter;
    }

    /** The render filter last set. */
    function GetRenderFilter(): (f: Ref)
      reads this`renderFilter
      ensures f == renderFilter
    {
      renderFilter
    }

    /** The view matrix last applied. */
    function ViewMatrix(): (m: Ref)
      reads this`viewMatrixApplied
      ensures m == viewMatrixApplied
    {
      viewMatrixApplied
    }

    /** The structure (model) matrix last applied. */
    function ModelMatrix(): (m: Ref)
      reads this`structureMatrixApplied
      ensures m == structureMatrixApplied
    {
      structureMatrixApplied
    }
  }

  /** A material with ambient (1, 0, 0, 1), everything else zero: its transparency reads 0;
      after setting it to 0.5 it reads 0.5 and the ambient colour is untouched. */
  method TransparencyScenario() returns (before: real, after: real, ambient: Vec4, shine: real)
    ensures before == 0.0 && after == 0.5 && ambient == Vec4(1.0, 0.0, 0.0, 1.0) && shine == 0.0
  {
    var m := new Material;
    var zero := Vec4(0.0, 0.0, 0.0, 0.0);
    m.ambient, m.diffuse, m.specular, m.emission, m.params := Vec4(1.0, 0.0, 0.0, 1.0), zero, zero, zero, zero;
    before := m.Transparency();
    m.ChangeTransparency(0.5);
    after := m.Transparency();
    ambient := m.Packed()[0];
    shine := m.Shine();
  }

  /** Setters and getters of the workspace round-trip, and Invalidate twice is Invalidate once. */
  method WorkspaceScenario(v: Ref, filter: Ref, param: Ref) returns (view: Ref, gotFilter: Ref, applied: Ref, restored: bool)
    ensures view == v && gotFilter == filter && applied == Null && !restored
  {
    var ws := new Workspace;
    ws.textParamApplied := Null;
    ws.backBufferRestored := true;
    ws.SetActiveView(v);
    ws.SetRenderFilter(filter);
    ws.SetTextParam(param);
    ws.Invalidate(Null);
    ws.Invalidate(Null);
    view, gotFilter, applied, restored := ws.ActiveView(), ws.GetRenderFilter(), ws.AspectTextParams(), ws.backBufferRestored;
  }
}
