/** The scene records of Renderer.h (object and material kinds, Material,
    Object), the integer codes under which they reach the ray-tracing
    shader, and value-level specifications of the ways Renderer.cpp
    rewrites the object list: the two presets, the per-object UI edits and
    removal. The imperative Renderer class is proved against these
    functions. */
module Scene {
  import opened Geometry
  import opened Grids
  import opened Lists

  datatype Option<T> = None | Some(value: T)

  /** ObjectType, in declaration order. */
  datatype ObjectType = NullObject | Sphere

  /** MaterialType, in declaration order. */
  datatype MaterialType = NullMaterial | Lambertian | Metal | Dielectric

  /** A material; the C++ field `type` is called `kind` here. */
  datatype Material = Material(kind: MaterialType, albedo: Vec3, fuzz: real, refraction_index: real)

  /** A scene object; the C++ field `type` is called `kind` here. */
  datatype Object = Object(kind: ObjectType, position: Vec3, scale: Vec3, material: Material)

  /** MAX_OBJECT_COUNT: the cap on "Add Object". */
  const MaxObjectCount: nat := 128

  /** `Object()`: value-initialisation zeroes every member, so both kinds are
      the first enumerator and every vector and scalar is zero. */
  const DefaultObject := Object(NullObject, Zero, Zero, Material(NullMaterial, Zero, 0.0, 0.0))

  // ------------------------------------------------------ integer codes

  /** static_cast<int> of an ObjectType: its declaration index. */
  function ObjectTypeCode(t: ObjectType): (c: int)
    ensures 0 <= c < 2
  {
    match t
    case NullObject => 0
    case Sphere => 1
  }

  /** The ObjectType with a given declaration index, if there is one. */
  function ObjectTypeOfCode(c: int): (r: Option<ObjectType>)
    ensures r.Some? <==> 0 <= c < 2
  {
    if c == 0 then Some(NullObject) else if c == 1 then Some(Sphere) else None
  }

  /** static_cast<int> of a MaterialType: its declaration index. */
  function MaterialTypeCode(t: MaterialType): (c: int)
    ensures 0 <= c < 4
  {
    match t
    case NullMaterial => 0
    case Lambertian => 1
    case Metal => 2
    case Dielectric => 3
  }

  function MaterialTypeOfCode(c: int): (r: Option<MaterialType>)
    ensures r.Some? <==> 0 <= c < 4
  {
    if c == 0 then Some(NullMaterial)
    else if c == 1 then Some(Lambertian)
    else if c == 2 then Some(Metal)
    else if c == 3 then Some(Dielectric)
    else None
  }

  /** The codes are a bijection between the enumerators and 0..1 / 0..3. */
  lemma ObjectTypeCodeRoundTrip(t: ObjectType, c: int)
    ensures ObjectTypeOfCode(ObjectTypeCode(t)) == Some(t)
    ensures ObjectTypeOfCode(c).Some? ==> ObjectTypeCode(ObjectTypeOfCode(c).value) == c
  {
  }

  lemma MaterialTypeCodeRoundTrip(t: MaterialType, c: int)
    ensures MaterialTypeOfCode(MaterialTypeCode(t)) == Some(t)
    ensures MaterialTypeOfCode(c).Some? ==> MaterialTypeCode(MaterialTypeOfCode(c).value) == c
  {
  }

  /** The seven uniforms RenderObjects sends for one object
      (u_objects[i].type, .position, .scale, .material.type, .albedo, .fuzz,
      .refraction_index). */
  datatype ObjectUniforms = ObjectUniforms(
    kind: int, position: Vec3, scale: Vec3,
    material_kind: int, albedo: Vec3, fuzz: real, refraction_index: real)

  function Upload(o: Object): ObjectUniforms {
    ObjectUniforms(ObjectTypeCode(o.kind), o.position, o.scale,
      MaterialTypeCode(o.material.kind), o.material.albedo, o.material.fuzz, o.material.refraction_index)
  }

  /** What the shader can reconstruct from the uniforms of one object. */
  function Download(u: ObjectUniforms): (r: Option<Object>)
    ensures r.Some? <==> ObjectTypeOfCode(u.kind).Some? && MaterialTypeOfCode(u.material_kind).Some?
  {
    match (ObjectTypeOfCode(u.kind), MaterialTypeOfCode(u.material_kind))
    case (Some(k), Some(mk)) => Some(Object(k, u.position, u.scale, Material(mk, u.albedo, u.fuzz, u.refraction_index)))
    case _ => None
  }

  /** No information about an object is lost on upload. */
  lemma UploadRoundTrip(o: Object)
    ensures Download(Upload(o)) == Some(o)
  {
    ObjectTypeCodeRoundTrip(o.kind, 0);
    MaterialTypeCodeRoundTrip(o.material.kind, 0);
  }

  // ------------------------------------------------------------ Preset 1

  const Preset1Ground := Material(Lambertian, Vec3(0.8, 0.8, 0.0), 0.0, 0.0)
  const Preset1Center := Material(Lambertian, Vec3(0.1, 0.2, 0.5), 0.0, 0.0)
  const Preset1Left := Material(Dielectric, Zero, 0.0, 1.5)
  const Preset1Right := Material(Metal, Vec3(0.8, 0.6, 0.2), 0.2, 0.0)

  /** The five spheres ApplyPreset1 pushes, in order: the ground, the
      centre, a glass sphere and a smaller hollow (negative-scale) one inside
      it, and a metal sphere. */
  function Preset1Objects(): (r: seq<Object>)
    ensures |r| == 5
    ensures forall k :: 0 <= k < |r| ==> r[k].kind == Sphere
  {
    [ Object(Sphere, Vec3(0.0, -100.5, -1.0), Splat(100.0), Preset1Ground),
      Object(Sphere, Vec3(0.0, 0.0, -1.0), Splat(0.5), Preset1Center),
      Object(Sphere, Vec3(-1.0, 0.0, -1.0), Splat(0.5), Preset1Left),
      Object(Sphere, Vec3(-1.0, 0.0, -1.0), Splat(-0.4), Preset1Left),
      Object(Sphere, Vec3(1.0, 0.0, -1.0), Splat(0.5), Preset1Right) ]
  }

  // ------------------------------------------------------------ Preset 2

  /** The random draws one grid cell consumes: choose_mat, the two jitters of
      the centre, three albedo components and the fuzz. Only the draws the
      chosen material needs are consumed by the source; the rest are
      ignored here. */
  datatype CellDraw = CellDraw(choose_mat: real, jitter_x: real, jitter_z: real,
                               r1: real, r2: real, r3: real, fuzz: real)

  /** glm::vec3::length() is the component count, not the Euclidean norm. */
  const ComponentCount: int := 3

  /** The exclusion test `(center - vec3(4, 0.2, 0)).length() > 0.9`. */
  predicate CellKept() {
    ComponentCount as real > 0.9
  }

  function CellCenter(a: int, b: int, d: CellDraw): Vec3 {
    Vec3(a as real + 0.9 * d.jitter_x, 0.2, b as real + 0.9 * d.jitter_z)
  }

  /** The material of a grid sphere, by the choose_mat draw. */
  function CellMaterial(d: CellDraw): (r: Material)
    ensures r.kind == Lambertian <==> d.choose_mat < 0.8
    ensures r.kind == Metal <==> 0.8 <= d.choose_mat < 0.95
    ensures r.kind == Dielectric <==> 0.95 <= d.choose_mat
    ensures r.kind == Dielectric ==> r.refraction_index == 1.5
    ensures r.kind == Metal ==> r.fuzz == d.fuzz
  {
    if d.choose_mat < 0.8 then Material(Lambertian, Vec3(d.r1, d.r2, d.r3), 0.0, 0.0)
    else if d.choose_mat < 0.95 then Material(Metal, Vec3(d.r1, d.r2, d.r3), d.fuzz, 0.0)
    else Material(Dielectric, Zero, 0.0, 1.5)
  }

  function CellSphere(a: int, b: int, d: CellDraw): Object {
    Object(Sphere, CellCenter(a, b, d), Splat(0.2), CellMaterial(d))
  }

  /** The sphere each cell of the grid contributes. The exclusion test is
      always passed (CellKept), so every cell contributes exactly this one. */
  function Preset2Cells(draw: (int, int) -> CellDraw): (int, int) -> Object {
    (a: int, b: int) => CellSphere(a, b, draw(a, b))
  }

  const Preset2Ground := Object(Sphere, Vec3(0.0, -1000.0, 0.0), Splat(1000.0), Material(Lambertian, Splat(0.5), 0.0, 0.0))

  /** The three large spheres pushed after the grid. */
  function Preset2Finale(): seq<Object> {
    [ Object(Sphere, Vec3(0.0, 1.0, 0.0), Splat(1.0), Material(Dielectric, Zero, 0.0, 1.5)),
      Object(Sphere, Vec3(-4.0, 1.0, 0.0), Splat(1.0), Material(Lambertian, Vec3(0.4, 0.2, 0.1), 0.0, 0.0)),
      Object(Sphere, Vec3(4.0, 1.0, 0.0), Splat(1.0), Material(Metal, Vec3(0.7, 0.6, 0.5), 0.0, 0.0)) ]
  }

  /** The list ApplyPreset2 builds around the grid spheres g: the ground
      first, then g, then the three large spheres. */
  function Preset2Around(g: seq<Object>): (r: seq<Object>)
    ensures |r| == |g| + 4
    ensures r[0] == Preset2Ground
    ensures forall k :: 0 <= k < |g| ==> r[k + 1] == g[k]
    ensures r[|g| + 1] == Preset2Finale()[0]
    ensures r[|g| + 2] == Preset2Finale()[1]
    ensures r[|g| + 3] == Preset2Finale()[2]
  {
    [Preset2Ground] + g + Preset2Finale()
  }

  /** The list ApplyPreset2 builds for the given random draws. */
  function Preset2Objects(draw: (int, int) -> CellDraw): seq<Object> {
    Preset2Around(GridPrefix(Preset2Cells(draw), 64))
  }

  /** ApplyPreset2 always yields 68 objects: the ground first, then one
      sphere for each of the 64 cells, then the three large spheres. */
  lemma Preset2Shape(draw: (int, int) -> CellDraw)
    ensures |Preset2Objects(draw)| == 68
    ensures Preset2Objects(draw)[0] == Preset2Ground
    ensures Preset2Objects(draw)[65] == Preset2Finale()[0]
    ensures Preset2Objects(draw)[66] == Preset2Finale()[1]
    ensures Preset2Objects(draw)[67] == Preset2Finale()[2]
  {
  }

  /** The sphere of cell (a, b) is at index 1 + 8 (a + 4) + (b + 4). */
  lemma Preset2Cell(draw: (int, int) -> CellDraw, a: int, b: int)
    requires -4 <= a < 4 && -4 <= b < 4
    ensures 1 + CellIndex(a, b) < |Preset2Objects(draw)|
    ensures Preset2Objects(draw)[1 + CellIndex(a, b)] == CellSphere(a, b, draw(a, b))
  {
    CellIndexInverse(a, b);
  }

  /** Every grid sphere rests at height 0.2 with scale 0.2, and is the
      sphere of one cell, whose material follows the choose_mat thresholds
      (CellMaterial). */
  lemma Preset2GridSpheres(draw: (int, int) -> CellDraw, k: int)
    requires 1 <= k < 65
    ensures k < |Preset2Objects(draw)|
    ensures var o := Preset2Objects(draw)[k];
      o.kind == Sphere && o.position.y == 0.2 && o.scale == Splat(0.2)
    ensures exists a, b :: -4 <= a < 4 && -4 <= b < 4 && Preset2Objects(draw)[k] == CellSphere(a, b, draw(a, b))
  {
    IndexCellInverse(k - 1);
    Preset2Cell(draw, RowOf(k - 1), ColumnOf(k - 1));
  }

  /** The last three objects are the radius-1 spheres at x = 0, -4 and 4. */
  lemma Preset2LastThree(draw: (int, int) -> CellDraw)
    ensures |Preset2Objects(draw)| == 68
    ensures var s := Preset2Objects(draw);
      s[65].position == Vec3(0.0, 1.0, 0.0) && s[66].position == Vec3(-4.0, 1.0, 0.0) && s[67].position == Vec3(4.0, 1.0, 0.0) &&
      s[65].scale == Splat(1.0) && s[66].scale == Splat(1.0) && s[67].scale == Splat(1.0)
  {
    Preset2Shape(draw);
  }

  // ---------------------------------------------------------- UI edits

  /** What the user does in one object's tree node during one frame. Each
      `Some` is a widget that reported a change with its new value; `open`
      says whether the tree node is expanded at all. */
  datatype ObjectEdit = ObjectEdit(
    open: bool,
    kind: Option<ObjectType>,
    position: Option<Vec3>,
    radius: Option<real>,
    material_kind: Option<MaterialType>,
    albedo: Option<Vec3>,
    fuzz: Option<real>,
    refraction_index: Option<real>,
    remove: bool)

  /** An edit in which nothing is touched. */
  const NoEdit := ObjectEdit(false, None, None, None, None, None, None, None, false)

  function OrElse<T>(o: Option<T>, d: T): T {
    if o.Some? then o.value else d
  }

  /** The kind shown after the type combo. */
  function EditedKind(o: Object, e: ObjectEdit): ObjectType {
    OrElse(e.kind, o.kind)
  }

  /** The material kind shown after the material combo. */
  function EditedMaterialKind(o: Object, e: ObjectEdit): MaterialType {
    OrElse(e.material_kind, o.material.kind)
  }

  /** The widgets in source order. The radius slider (scale.x) is shown only
      for a sphere; albedo for Lambertian and Metal, fuzz for Metal and the
      refraction index for Dielectric, each judged by the kinds as they are
      once the combos above have been applied. */
  function EditedObject(o: Object, e: ObjectEdit): (r: Object)
    ensures !e.open ==> r == o
    ensures r.scale.y == o.scale.y && r.scale.z == o.scale.z
    ensures r.scale.x != o.scale.x ==> EditedKind(o, e) == Sphere
    ensures r.material.fuzz != o.material.fuzz ==> EditedMaterialKind(o, e) == Metal
    ensures r.material.refraction_index != o.material.refraction_index ==> EditedMaterialKind(o, e) == Dielectric
    ensures r.material.albedo != o.material.albedo ==> EditedMaterialKind(o, e) in {Lambertian, Metal}
  {
    if !e.open then o
    else
      var kind := EditedKind(o, e);
      var position := OrElse(e.position, o.position);
      var scale := if kind == Sphere && e.radius.Some? then Vec3(e.radius.value, o.scale.y, o.scale.z) else o.scale;
      var mkind := EditedMaterialKind(o, e);
      var albedo := if mkind in {Lambertian, Metal} then OrElse(e.albedo, o.material.albedo) else o.material.albedo;
      var fuzz := if mkind == Metal then OrElse(e.fuzz, o.material.fuzz) else o.material.fuzz;
      var refraction := if mkind == Dielectric then OrElse(e.refraction_index, o.material.refraction_index) else o.material.refraction_index;
      Object(kind, position, scale, Material(mkind, albedo, fuzz, refraction))
  }

  /** Some widget that was shown reported a change. */
  predicate WidgetChanged(o: Object, e: ObjectEdit) {
    var mkind := EditedMaterialKind(o, e);
    e.kind.Some? || e.position.Some? ||
    (EditedKind(o, e) == Sphere && e.radius.Some?) ||
    e.material_kind.Some? ||
    (mkind in {Lambertian, Metal} && e.albedo.Some?) ||
    (mkind == Metal && e.fuzz.Some?) ||
    (mkind == Dielectric && e.refraction_index.Some?)
  }

  /** isObjectModified: in an expanded node, some widget reported a change
      or Remove was pressed. */
  predicate Modified(o: Object, e: ObjectEdit) {
    e.open && (WidgetChanged(o, e) || e.remove)
  }

  /** An edit that changes the object is a modification. */
  lemma ChangeIsModification(o: Object, e: ObjectEdit)
    requires EditedObject(o, e) != o
    ensures Modified(o, e)
  {
  }

  /** Remove pressed in an expanded node. */
  predicate Removes(e: ObjectEdit) {
    e.open && e.remove
  }

  /** What one visit of the objects loop leaves in place of the object. */
  function Visit(o: Object, e: ObjectEdit): seq<Object> {
    if Removes(e) then [] else [EditedObject(o, e)]
  }

  /** The object list after one pass of the objects loop, one edit per
      visited node in visiting order. */
  function ObjectsAfterEdits(s: seq<Object>, edits: seq<ObjectEdit>): seq<Object>
    requires |edits| == |s|
  {
    Visited(Visit, s, edits)
  }

  /** Whether any visit of the loop sets the dirty flag. */
  predicate AnyModified(s: seq<Object>, edits: seq<ObjectEdit>)
    requires |edits| == |s|
  {
    exists k :: 0 <= k < |s| && Modified(s[k], edits[k])
  }

  /** The loop shortens the list by the number of Remove presses. */
  lemma ObjectsAfterEditsLength(s: seq<Object>, edits: seq<ObjectEdit>)
    requires |edits| == |s|
    ensures |ObjectsAfterEdits(s, edits)| == |s| - Count(Removes, edits)
  {
    VisitedLength(Visit, Removes, s, edits);
  }

  /** Without a Remove press every object keeps its place, edited. */
  lemma ObjectsAfterEditsInPlace(s: seq<Object>, edits: seq<ObjectEdit>)
    requires |edits| == |s|
    requires forall k :: 0 <= k < |s| ==> !Removes(edits[k])
    ensures |ObjectsAfterEdits(s, edits)| == |s|
    ensures forall k :: 0 <= k < |s| ==> ObjectsAfterEdits(s, edits)[k] == EditedObject(s[k], edits[k])
  {
    VisitedSingletons(Visit, s, edits);
  }

  /** A node that reports no modification (it stays closed, or it is open
      and none of its shown widgets changed and Remove was not pressed)
      keeps its object as it was. */
  lemma UnmodifiedKept(o: Object, e: ObjectEdit)
    requires !Modified(o, e)
    ensures Visit(o, e) == [o]
  {
  }

  /** A frame in which no tree node reports a modification leaves the list
      as it was and does not set the flag. */
  lemma UnmodifiedNodesKeepList(s: seq<Object>, edits: seq<ObjectEdit>)
    requires |edits| == |s|
    requires forall k :: 0 <= k < |edits| ==> !Modified(s[k], edits[k])
    ensures ObjectsAfterEdits(s, edits) == s
    ensures !AnyModified(s, edits)
  {
    forall k | 0 <= k < |s|
      ensures Visit(s[k], edits[k]) == [s[k]]
    {
      UnmodifiedKept(s[k], edits[k]);
    }
    VisitedKeepsAll(Visit, s, edits);
  }

  /** Remove pressed on object i, with no other node reporting a
      modification, is `erase(begin() + i)`: the list shrinks by one, the
      other objects keep their order, and the flag is set. */
  lemma RemoveErases(s: seq<Object>, edits: seq<ObjectEdit>, i: nat)
    requires |edits| == |s| && i < |s|
    requires Removes(edits[i])
    requires forall k :: 0 <= k < |s| && k != i ==> !Modified(s[k], edits[k])
    ensures ObjectsAfterEdits(s, edits) == Erase(s, i)
    ensures AnyModified(s, edits)
  {
    forall k | 0 <= k < |s| && k != i
      ensures Visit(s[k], edits[k]) == [s[k]]
    {
      UnmodifiedKept(s[k], edits[k]);
    }
    VisitedEraseOne(Visit, s, edits, i);
    assert Modified(s[i], edits[i]);
  }
}
