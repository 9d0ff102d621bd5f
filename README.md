# Trihedron gizmo state and OpenGL workspace accessors

This project models two pieces of Open CASCADE Technology's visualisation layer and proves properties of them.

- **V3d_Trihedron** (module `V3d`): the small axis gizmo pinned to a corner of a 3D view.
  - It holds a scale, a size ratio, an arrow diameter and a facet count.
  - Each setter always stores its value. It flags the gizmo for recomputation only when the value really changes: for reals, by more than `Precision::Confusion()` (1e-7); for the facet count, when it differs.
  - `Display` creates the graphic structure on first use and recomputes it when flagged. It always shows the structure.
  - `Erase` hides the structure and drops the handle. With no structure it does nothing.
  - `SetPosition` turns a corner bit mask into a 2D pixel offset.
  - The recomputation, `Compute`, builds five groups: the origin, three axes, and the labels. The specification function `Layout` gives those groups, down to every primitive array's size parameters. Vertex coordinates are kept only for the axis segments. The wireframe circle keeps the angle step of each vertex.
- **OpenGl_Workspace** (module `OpenGl`): the packed material record `OpenGl_Material` and the workspace members whose bodies are inline in the header.
  - The material is a class of five vec4 fields. `Shine` and `Transparency` read slots x and y of `Params`. Writing through `ChangeShine`/`ChangeTransparency` is modelled as a method that changes that one slot.
  - `Packed()` exposes the five vectors in declaration order.
  - The workspace setters (`SetActiveView`, `Invalidate`, `SetTextParam`, `SetRenderFilter`) each assign one field. Field-level `modifies` clauses show they change nothing else. The matching getters are pure reads.

Module `Int32` models `Standard_Integer` as a 32-bit integer. C++ leaves a signed overflow undefined; the module models the wrap-around reading of it, where the result is congruent to the exact value modulo 2^32. Module `Wrappers` holds an `Option` type.

Observations the model makes explicit:
- The shown `compute()` never clears `myToCompute`, and the constructor sets it. So the flag stays set, and every `Display` recomputes. `V3d.FlagStaysSet` proves this for every sequence of calls after the constructor; `V3d.DisplayTwice` shows it for two calls.
- `SetScale` does not touch the transform persistence. The corner offset keeps the scale of the last `SetPosition`; `V3d.OffsetFollowsSetPosition` proves this.

Conventions:
- The bodies of `invalidate()` and the aspect classes are not part of this model. `invalidate()` is modelled as setting the needs-compute flag.
- Each aspect handle is reduced to its colour.
- The corner bit values (TOP = 1, BOTTOM = 2, LEFT = 4, RIGHT = 8) come from `Aspect_TypeOfTriedronPosition.hxx`, which is not part of this model.
- Graphic3d structures, groups and views are modelled as the collaborator state the trihedron writes.

## Model

| member | source | states |
|---|---|---|
| `V3d.Trihedron.constructor` | src/V3d/V3d_Trihedron.cxx:65-112 | scale 1.0, ratio 0.8, diameter 0.05, 12 facets, not wireframe, needs computing, no structure; corner LEFT_LOWER in triedron persistence mode with offset (500, 500); arrows red, green, blue in shading and line; sphere aspects white; labels in Courier 16, left/bottom justified |
| `V3d.Trihedron.SetLabelsColor` | src/V3d/V3d_Trihedron.cxx:118-121 | only the label text colour changes, to the given colour |
| `V3d.Trihedron.SetArrowsColor` | src/V3d/V3d_Trihedron.cxx:127-137 | axis i's shading colour and line colour both equal the i-th argument, for i = 0..2 |
| `V3d.Trihedron.SetScale` | src/V3d/V3d_Trihedron.cxx:143-150 | the scale becomes the argument; the flag becomes set exactly when the old and new values differ by more than the confusion tolerance, else it keeps its old value |
| `V3d.Trihedron.SetSizeRatio` | src/V3d/V3d_Trihedron.cxx:156-163 | the same for the size ratio |
| `V3d.Trihedron.SetArrowDiameter` | src/V3d/V3d_Trihedron.cxx:169-176 | the same for the arrow diameter |
| `V3d.Trihedron.SetNbFacets` | src/V3d/V3d_Trihedron.cxx:182-189 | the facet count becomes the argument; the flag becomes set exactly when the count changes, else it keeps its old value |
| `V3d.Trihedron.SetPosition` | src/V3d/V3d_Trihedron.cxx:233-247 | the corner is stored as given; the offset is `CornerOffset` of the corner and the current scale |
| `V3d.Trihedron.Compute` | src/V3d/V3d_Trihedron.cxx:253-355 | clears the structure's groups, then leaves exactly the groups of `Layout` for the current parameters; the flag is not reset |
| `V3d.Trihedron.Display` | src/V3d/V3d_Trihedron.cxx:195-214 | an existing structure is reused with its attributes unchanged; otherwise a fresh one is made in the view's structure manager, sharing the trihedron's transform persistence, in the topmost layer with priority 9, infinite, visible only in this view; it is recomputed exactly when the flag is set; it ends displayed |
| `V3d.Trihedron.Erase` | src/V3d/V3d_Trihedron.cxx:220-227 | an existing structure ends not displayed and the handle is null; with no structure nothing changes |
| `V3d.TrihedronStructure.Compute` | src/V3d/V3d_Trihedron.cxx:47-59 | the structure's own recomputation leaves the groups its trihedron computes |
| `V3d.TrihedronStructure.constructor` | src/V3d/V3d_Trihedron.cxx:51-52 | a new structure is bound to its manager and its trihedron, with no groups yet |
| `V3d.TransformPers.constructor` | src/V3d/V3d_Trihedron.cxx:73 | the transform persistence starts in the given mode and corner |
| `V3d.NewCircleArray` | src/V3d/V3d_Trihedron.cxx:271-278 | the loop from 24 down to 0 plus the closing vertex yields exactly the steps `CircleSteps()`, in a polyline of capacity 26 |
| `V3d.CircleFitsCapacity` | src/V3d/V3d_Trihedron.cxx:271-278 | the circle has 24 + 1 + 1 = 26 vertices, equal to its declared capacity; it ends at the step it starts from, and each vertex is one step below the previous |
| `V3d.LayoutShape` | src/V3d/V3d_Trihedron.cxx:255-354 | five groups: the origin group (a 26-vertex circle in the sphere line aspect when wireframe, a sphere in the sphere shading aspect otherwise); three axis groups, each in its own arrow shading aspect with a tube, a disk and a cone; one label group with X, Y, Z; 10 arrays and 3 labels in all |
| `V3d.Dimensions` | src/V3d/V3d_Trihedron.cxx:258-264 | the axis length is scale × ratio × 500; the tube and cone lengths add up to it; the cone is twice the tube's width unless wireframe, where it equals it; the sphere radius is twice the tube's width; the label radius is a thirtieth of the axis length |
| `V3d.OriginGroup` | src/V3d/V3d_Trihedron.cxx:265-289 | one array, no label. Wireframe: the sphere line aspect, and a circle polyline of capacity 26 with 26 steps that ends where it starts. Otherwise: the sphere shading aspect, and a sphere with the sphere radius and the facet count as both slices and stacks |
| `V3d.AxisGroup` | src/V3d/V3d_Trihedron.cxx:291-341 | three arrays, no label; the axis's shading aspect, plus its line aspect when wireframe. The first array is a two-vertex segment exactly when wireframe, otherwise a tube placed at the origin along the axis. A disk and a cone follow, both placed at the tube's end, with the cone diameter as the disk's outer radius and the cone's base, and the cone closing to a point |
| `V3d.LabelGroup` | src/V3d/V3d_Trihedron.cxx:343-354 | no aspect and no array; exactly three labels, with texts X, Y, Z in that order |
| `V3d.Layout` | src/V3d/V3d_Trihedron.cxx:255-354 | five groups: the origin group, the groups of axes 0, 1, 2, and the label group, all with the dimensions of the current parameters |
| `V3d.CornerOffset` | src/V3d/V3d_Trihedron.cxx:236-243 | the x offset is trunc(scale × 500) when LEFT or RIGHT is set and 0 otherwise; the y offset is the same for TOP or BOTTOM |
| `V3d.HasHorizontal` | src/V3d/V3d_Trihedron.cxx:236 | true exactly when the corner has the LEFT bit or the RIGHT bit |
| `V3d.HasVertical` | src/V3d/V3d_Trihedron.cxx:240 | true exactly when the corner has the TOP bit or the BOTTOM bit |
| `V3d.Differs` | src/V3d/V3d_Trihedron.cxx:145 | true exactly when the two values are more than the confusion tolerance apart, in either direction |
| `V3d.FacetsChangedAsWritten` | src/V3d/V3d_Trihedron.cxx:184 | the test as written fires only when the counts differ |
| `V3d.FlagStaysSet` | src/V3d/V3d_Trihedron.cxx:65-247 | after the constructor, for any sequence of setter, colour, position, Display and Erase calls, the needs-compute flag stays set, and each Display leaves the current `Layout` in the structure with one more clear than before |
| `V3d.Trunc` | src/V3d/V3d_Trihedron.cxx:238 | the integer cast truncates toward zero: the result lies within one unit of the value, at or toward zero |
| `V3d.Abs` | src/V3d/V3d_Trihedron.cxx:145 | the absolute value is non-negative and equals the value or its negation |
| `V3d.NamedPositions` | src/V3d/V3d_Trihedron.cxx:236-243 | which of the named corners set a horizontal or vertical offset (center none, top/bottom only y, left/right only x, the four corners both) |
| `V3d.FacetsChangedAsWrittenIff` | src/V3d/V3d_Trihedron.cxx:184 | the 32-bit test as written is true iff the counts differ and their difference is not ±2^31 |
| `V3d.FacetsChangeMissed` | src/V3d/V3d_Trihedron.cxx:184 | the test as written does not fire for a change from 0 to -2^31 |
| `V3d.DisplayTwice` | src/V3d/V3d_Trihedron.cxx:195-214 | a second Display reuses the first structure, displays it, and recomputes again because the flag stays set (two clears) |
| `V3d.EraseTwice` | src/V3d/V3d_Trihedron.cxx:220-227 | Erase after Display hides and drops the structure; a second Erase leaves the same state |
| `V3d.OffsetFollowsSetPosition` | src/V3d/V3d_Trihedron.cxx:233-247 | the offset is taken from the scale at SetPosition: after SetScale(2.0) it stays (500, 500), and SetPosition(RIGHT) gives (1000, 0) |
| `Int32.Wrap` | src/V3d/V3d_Trihedron.cxx:184 | the wrapped value is congruent to the input modulo 2^32 and equals it when it is in range |
| `Int32.Sub` | src/V3d/V3d_Trihedron.cxx:184 | integer subtraction agrees with the exact difference whenever that fits in 32 bits |
| `Int32.Abs` | src/V3d/V3d_Trihedron.cxx:184 | Abs is non-negative and equals the value or its negation, except that the smallest integer maps to itself |
| `OpenGl.Material.NbOfVec4` | src/OpenGl/OpenGl_Workspace.hxx:91 | the packed record has 5 vectors |
| `OpenGl.Material.Packed` | src/OpenGl/OpenGl_Workspace.hxx:89-91 | exactly `NbOfVec4()` = 5 vectors: Ambient, Diffuse, Specular, Emission, Params in declaration order |
| `OpenGl.Material.Shine` | src/OpenGl/OpenGl_Workspace.hxx:80 | shine is component x of the fifth packed vector |
| `OpenGl.Material.Transparency` | src/OpenGl/OpenGl_Workspace.hxx:83 | transparency is component y of the fifth packed vector |
| `OpenGl.Material.ChangeShine` | src/OpenGl/OpenGl_Workspace.hxx:81 | writing through the shine reference changes only Params.x: transparency, the rest of Params and the first four vectors are unchanged |
| `OpenGl.Material.ChangeTransparency` | src/OpenGl/OpenGl_Workspace.hxx:84 | writing through the transparency reference changes only Params.y: shine, the rest of Params and the first four vectors are unchanged |
| `OpenGl.TransparencyScenario` | src/OpenGl/OpenGl_Workspace.hxx:74-84 | ambient (1, 0, 0, 1) with all else zero reads transparency 0; after setting 0.5 it reads 0.5, with ambient and shine unchanged |
| `OpenGl.Workspace.SetActiveView` | src/OpenGl/OpenGl_Workspace.hxx:111-112 | ActiveView() returns exactly the view last set; no other field changes |
| `OpenGl.Workspace.ActiveView` | src/OpenGl/OpenGl_Workspace.hxx:112 | returns the stored view and reads nothing else |
| `OpenGl.Workspace.Invalidate` | src/OpenGl/OpenGl_Workspace.hxx:125-128 | the back-buffer-restored flag ends false and no other field changes, so a second call changes nothing |
| `OpenGl.Workspace.SetTextParam` | src/OpenGl/OpenGl_Workspace.hxx:178 | only the requested text parameter changes; AspectTextParams() still returns the applied one |
| `OpenGl.Workspace.AspectTextParams` | src/OpenGl/OpenGl_Workspace.hxx:185-188 | returns the applied text parameters and reads nothing else |
| `OpenGl.Workspace.SetRenderFilter` | src/OpenGl/OpenGl_Workspace.hxx:201-211 | GetRenderFilter() returns exactly the filter last set; no other field changes |
| `OpenGl.Workspace.GetRenderFilter` | src/OpenGl/OpenGl_Workspace.hxx:208-211 | returns the stored render filter and reads nothing else |
| `OpenGl.Workspace.ViewMatrix` | src/OpenGl/OpenGl_Workspace.hxx:214 | returns the applied view matrix and reads nothing else |
| `OpenGl.Workspace.ModelMatrix` | src/OpenGl/OpenGl_Workspace.hxx:217 | returns the applied structure matrix and reads nothing else |
| `OpenGl.WorkspaceScenario` | src/OpenGl/OpenGl_Workspace.hxx:111-211 | the set view and filter read back unchanged, the applied text parameters survive SetTextParam, and two Invalidate calls leave the flag false |

## Left out

- Geometry in `compute()` is not modelled: circle sines and cosines, the sphere, cylinder and disk tessellations, the `gp_Trsf`/`gp_Ax3` placements, and what `Prs3d_Text::Draw` emits. Each part keeps its parameters, its axis and its distance along that axis. Each label keeps its text and anchor point.
- Reals are Dafny `real`, not IEEE doubles or floats, so rounding is not modelled.
- `V3d.Trunc`: a cast of a value outside the 32-bit range is undefined in C++. The model returns the unbounded truncation.
- Apart from colour, the aspects' settings are left out: shading material, reflection mode, texture flag, interior style, line type and width. Aspect objects are reduced to per-axis colour arrays.
- The header `V3d_Trihedron.hxx` is not part of this model. That covers `invalidate()` (modelled as setting the flag), the other inline accessors, and any wireframe setter.
- The defaults of `Graphic3d_Structure` and `Graphic3d_TransformPers` are not part of this model. Z-layer and priority are `None` until `Display` sets them. The persistence offset starts at (0, 0), and the constructor overwrites it at once.
- Each group is built as a value and appended once complete. In the source, `NewGroup` appends first and the group is filled afterwards. Nothing observes the group in between.
- `V3d.Trihedron.Compute`: the clear at src/V3d/V3d_Trihedron.cxx:255 is `GraphicClear (Standard_False)`, whose body is in `Graphic3d_Structure`, which is not part of this model. The model reads it as removing every group. A structure that keeps its old groups emptied, and appends the new ones after them, is not modelled. "Exactly the groups of `Layout`" in `Compute`, `Display`, `FlagStaysSet` and `DisplayTwice` holds under that reading.
- `V3d.TrihedronStructure.Compute` requires that its trihedron still holds this structure. The source's redirect (src/V3d/V3d_Trihedron.cxx:55) does not check this, and after `Erase` (line 225) the trihedron's handle is null, so a structure recomputed after Erase is not modelled.
- The structure manager, the view affinity and the displaying of a structure are reduced to the fields the trihedron writes.
- Every `OpenGl_Workspace` member that is only declared is left out, because its body is not in the header: `Redraw`, `RedrawImmediate`, `SetImmediateModeDrawToFront`, `SetAspect*`/`Aspect*`, `ResetAppliedAspect`, texture enable/disable, `updateMaterial`, the ray-trace geometry routines, `InitOpenCL`/`ReleaseOpenCL`, buffer writes and kernel launches.
- `Print`, `FBOCreate`/`FBORelease`, `BufferDump` and `DisplayCallback` are left out: they do device and raster I/O.
- `OpenGl_Material::Init` is left out: only declared.
- The `OpenClInitStatus` enum only names states, so it is not modelled.
- `PrinterContext`, `UseZBuffer`, `UseDepthTest` and `UseGLLight` are inline accessors that the workspace does not otherwise use in this header. They are not modelled.
- The workspace constructor's body is not in the header. Scenarios set the starting fields they need directly.
- The toolbar widget `tools/VInspector/VInspector_ToolBar.hxx` is Qt wiring with no logic; it is not part of this model.

## Findings

| source | as written | input that shows it | evidently intended | confidence | as-written member | corrected member |
|---|---|---|---|---|---|---|
| src/V3d/V3d_Trihedron.cxx:184 | `Abs (myNbFacettes - theNbFacets) > 0` in 32-bit arithmetic | old count 0, new count -2147483648: the difference wraps to -2^31, whose Abs is still -2^31, so the trihedron is not invalidated although the count changed | invalidate whenever the count changes | low (needs a negative facet count, and the overflow is undefined in C++), not executed | `V3d.FacetsChangeMissed` | `V3d.Trihedron.SetNbFacets` |
