/** The Renderer class of Renderer.cpp: its scene settings, its object list
    and the dirty flag `scene_updated` that decides whether the offscreen
    ray-traced texture is regenerated in a frame. GPU and ImGui calls are
    not modelled; what a frame hands to the GPU is returned as a value, and
    what the user does in the ImGui panels during a frame is an input. */
module Renderers {
  import opened Geometry
  import opened Grids
  import opened Lists
  import opened Scene
  import opened Cameras

  /** The defaults of the Renderer constructor. */
  const DefaultLightBounces: int := 20
  const DefaultSamplesPerPixel: int := 64
  const DefaultResolutionFactor: real := 0.5
  const DefaultShowTooltip: bool := true

  /** Conversion of a float to int: truncation toward zero. */
  function TruncToInt(x: real): (r: int)
    ensures 0.0 <= x ==> 0 <= r && r as real <= x < r as real + 1.0
    ensures x < 0.0 ==> r <= 0 && r as real - 1.0 < x <= r as real
  {
    if x >= 0.0 then x.Floor else -((-x).Floor)
  }

  lemma ScaleDown(w: int, factor: real)
    ensures 0 <= w && 0.0 <= factor <= 1.0 ==> 0.0 <= w as real * factor <= w as real
  {
    if 0 <= w && 0.0 <= factor <= 1.0 {
      assert w as real * factor <= w as real * 1.0;
    }
  }

  /** UpdateTexture's `window_width * resolution_factor` stored in an int:
      with a factor in [0, 1] the offscreen texture is never larger than the
      window. */
  function OffscreenSize(window: int, factor: real): (r: int)
    ensures 0 <= window && 0.0 <= factor <= 1.0 ==> 0 <= r <= window
  {
    ScaleDown(window, factor);
    TruncToInt(window as real * factor)
  }

  /** What UpdateTexture hands to the GPU: the texture size, the camera's
      viewport uniforms, the two integer settings and one set of uniforms
      per scene object. */
  datatype OffscreenPass = OffscreenPass(
    width: int, height: int, viewport: Viewport,
    samples_per_pixel: int, light_bounces: int, objects: seq<ObjectUniforms>)

  /** The ray-tracing pass renders the given window size scaled by the
      resolution factor, with the given sample and bounce counts, and
      uploads exactly the given objects in list order. */
  predicate RendersScene(pass: OffscreenPass, window_width: int, window_height: int, factor: real,
                         samples_per_pixel: int, light_bounces: int, objects: seq<Object>)
  {
    pass.width == OffscreenSize(window_width, factor) &&
    pass.height == OffscreenSize(window_height, factor) &&
    pass.samples_per_pixel == samples_per_pixel && pass.light_bounces == light_bounces &&
    |pass.objects| == |objects| &&
    forall k :: 0 <= k < |objects| ==> Download(pass.objects[k]) == Some(objects[k])
  }

  /** The passes of one frame: the ray-tracing pass into the offscreen
      texture, if it ran, and the composite of that texture onto the
      window, which always runs. */
  datatype FramePasses = FramePasses(offscreen: Option<OffscreenPass>, composite_width: int, composite_height: int)

  /** What the user does in the "Scene" panel in one frame: a `Some` is a
      widget that reported a change, with its new value. */
  datatype SceneSettingsInput = SceneSettingsInput(
    light_bounces: Option<int>, samples_per_pixel: Option<int>,
    resolution_factor: Option<real>, show_tooltip: Option<bool>, toggle_play: bool)

  /** What the user does in the "Camera" panel in one frame. */
  datatype CameraSettingsInput = CameraSettingsInput(
    move_speed: Option<real>, turn_speed: Option<real>, zoom_speed: Option<real>,
    look_from: Option<Vec3>, look_at: Option<Vec3>, vfov: Option<real>, reset: bool)

  /** Everything the edit-mode panels receive in one frame: the two panels
      above, the preset buttons with the random draws Preset 2 would
      consume, the edit made in the node visited k-th, and "Add Object". */
  datatype FrameInput = FrameInput(
    scene: SceneSettingsInput, camera: CameraSettingsInput,
    preset1: bool, preset2: bool, draw: (int, int) -> CellDraw,
    edit: int -> ObjectEdit, add: bool)

  /** The sliders of the "Scene" panel set the flag; the tooltip checkbox
      does not. */
  predicate SceneSettingsTouched(i: SceneSettingsInput) {
    i.light_bounces.Some? || i.samples_per_pixel.Some? || i.resolution_factor.Some?
  }

  /** Every widget of the "Camera" panel sets the flag. */
  predicate CameraSettingsTouched(i: CameraSettingsInput) {
    i.move_speed.Some? || i.turn_speed.Some? || i.zoom_speed.Some? ||
    i.look_from.Some? || i.look_at.Some? || i.vfov.Some? || i.reset
  }

  /** The three camera inputs that the "Camera" panel and the presets
      write. */
  datatype CameraView = CameraView(look_from: Vec3, look_at: Vec3, vfov: real)

  /** The view of a new camera, which "Reset Camera" and Preset 1 restore. */
  const DefaultView := CameraView(DefaultLookFrom, DefaultLookAt, DefaultVfov)

  /** The view Preset 2 sets. */
  const Preset2View := CameraView(Vec3(13.0, 2.0, 3.0), Zero, 20.0)

  function ViewOf(c: Camera): CameraView
    reads c
  {
    CameraView(c.look_from, c.look_at, c.vfov)
  }

  /** The view after the "Camera" panel: each input that reported a change
      replaces its field, and "Reset Camera", handled last, overrides them
      all. */
  function ViewAfterCameraPanel(v: CameraView, i: CameraSettingsInput): CameraView {
    if i.reset then DefaultView
    else CameraView(OrElse(i.look_from, v.look_from), OrElse(i.look_at, v.look_at), OrElse(i.vfov, v.vfov))
  }

  /** The view after the "Presets" panel; Preset 2 runs after Preset 1. */
  function ViewAfterPresets(v: CameraView, i: FrameInput): CameraView {
    if i.preset2 then Preset2View else if i.preset1 then DefaultView else v
  }

  /** The view after the edit-mode panels: the "Camera" panel is drawn
      before the "Presets" panel, so a preset overrides it. */
  function ViewAfterPanels(v: CameraView, i: FrameInput): CameraView {
    ViewAfterPresets(ViewAfterCameraPanel(v, i.camera), i)
  }

  /** A preset button makes the view independent of the "Camera" panel and
      of the view before; otherwise the panel alone decides it. */
  lemma PresetOverridesCameraPanel(v: CameraView, w: CameraView, i: FrameInput, j: CameraSettingsInput)
    ensures i.preset1 || i.preset2 ==> ViewAfterPanels(v, i) == ViewAfterPanels(w, i.(camera := j))
    ensures !i.preset1 && !i.preset2 ==> ViewAfterPanels(v, i) == ViewAfterCameraPanel(v, i.camera)
  {
  }

  /** The list after the "Presets" panel. */
  function ListAfterPresets(s: seq<Object>, i: FrameInput): seq<Object> {
    if i.preset2 then Preset2Objects(i.draw) else if i.preset1 then Preset1Objects() else s
  }

  /** The edits of one pass of the objects loop over a list of n objects. */
  function EditsOf(i: FrameInput, n: nat): (r: seq<ObjectEdit>)
    ensures |r| == n && forall k :: 0 <= k < n ==> r[k] == i.edit(k)
  {
    seq(n, k => i.edit(k))
  }

  /** The list after "Add Object": one default object more, below the cap. */
  function ListAfterAdd(s: seq<Object>, add: bool): (r: seq<Object>)
    ensures r == s || r == s + [DefaultObject]
    ensures r != s <==> add && |s| < MaxObjectCount
  {
    if add && |s| < MaxObjectCount then s + [DefaultObject] else s
  }

  /** The list after the edit-mode panels of one frame. */
  function ListAfterPanels(s: seq<Object>, i: FrameInput): seq<Object> {
    var p := ListAfterPresets(s, i);
    ListAfterAdd(ObjectsAfterEdits(p, EditsOf(i, |p|)), i.add)
  }

  /** Whether the "Presets" and "Objects" panels of one frame set the flag. */
  predicate ListPanelsSetFlag(s: seq<Object>, i: FrameInput) {
    var p := ListAfterPresets(s, i);
    i.preset1 || i.preset2 ||
    AnyModified(p, EditsOf(i, |p|)) ||
    (i.add && |ObjectsAfterEdits(p, EditsOf(i, |p|))| < MaxObjectCount)
  }

  /** Whether the edit-mode panels of one frame set the flag. */
  predicate PanelsSetFlag(s: seq<Object>, i: FrameInput, hasCamera: bool) {
    SceneSettingsTouched(i.scene) || (hasCamera && CameraSettingsTouched(i.camera)) ||
    ListPanelsSetFlag(s, i)
  }

  /** The widgets of one expanded tree node, in source order; each widget's
      visibility follows the kinds as they stand after the widgets above
      it. */
  method EditWidgets(o: Object, e: ObjectEdit) returns (r: Object, changed: bool)
    requires e.open
    ensures r == EditedObject(o, e)
    ensures changed == WidgetChanged(o, e)
  {
    r, changed := o, false;
    if e.kind.Some? {
      r, changed := r.(kind := e.kind.value), true;
    }
    if e.position.Some? {
      r, changed := r.(position := e.position.value), true;
    }
    if r.kind == Sphere && e.radius.Some? {
      r, changed := r.(scale := r.scale.(x := e.radius.value)), true;
    }
    if e.material_kind.Some? {
      r, changed := r.(material := r.material.(kind := e.material_kind.value)), true;
    }
    match r.material.kind {
      case Lambertian =>
        if e.albedo.Some? {
          r, changed := r.(material := r.material.(albedo := e.albedo.value)), true;
        }
      case Metal =>
        if e.albedo.Some? {
          r, changed := r.(material := r.material.(albedo := e.albedo.value)), true;
        }
        if e.fuzz.Some? {
          r, changed := r.(material := r.material.(fuzz := e.fuzz.value)), true;
        }
      case Dielectric =>
        if e.refraction_index.Some? {
          r, changed := r.(material := r.material.(refraction_index := e.refraction_index.value)), true;
        }
      case NullMaterial =>
    }
  }

  class Renderer {
    var light_bounces: int
    var samples_per_pixel: int
    var resolution_factor: real
    var show_tooltip: bool
    var scene_objects: seq<Object>
    var scene_updated: bool
    var play_mode: bool
    var camera: Camera?

    /** The object list never exceeds MAX_OBJECT_COUNT. */
    ghost predicate Valid()
      reads this
    {
      |scene_objects| <= MaxObjectCount
    }

    /** The camera, as a set that is empty while there is none. */
    function CameraSet(): set<Camera>
      reads this
    {
      if camera == null then {} else {camera}
    }

    /** The camera argument is ignored: the member initialiser sets the
        camera to null. The first preset is loaded only if GLEW starts. */
    constructor (glewOk: bool,
                 camera: Camera? := null,
                 light_bounces: int := DefaultLightBounces,
                 samples_per_pixel: int := DefaultSamplesPerPixel,
                 resolution_factor: real := DefaultResolutionFactor,
                 show_tooltip: bool := DefaultShowTooltip)
      ensures this.camera == null
      ensures this.light_bounces == light_bounces && this.samples_per_pixel == samples_per_pixel
      ensures this.resolution_factor == resolution_factor && this.show_tooltip == show_tooltip
      ensures scene_updated && !play_mode
      ensures scene_objects == if glewOk then Preset1Objects() else []
      ensures Valid()
    {
      this.camera := null;
      this.light_bounces, this.samples_per_pixel := light_bounces, samples_per_pixel;
      this.resolution_factor, this.show_tooltip := resolution_factor, show_tooltip;
      scene_updated, play_mode := true, false;
      scene_objects := [];
      new;
      if glewOk {
        ApplyPreset1();
      }
    }

    method ApplyPreset1()
      modifies this`scene_objects, this`scene_updated
      modifies CameraSet()`look_at, CameraSet()`look_from, CameraSet()`vfov
      ensures scene_objects == Preset1Objects() && scene_updated
      ensures camera != null ==> ViewOf(camera) == DefaultView
      ensures Valid()
    {
      var spheres := Preset1Objects();
      scene_objects := [];
      scene_objects := scene_objects + [spheres[0]];
      scene_objects := scene_objects + [spheres[1]];
      scene_objects := scene_objects + [spheres[2]];
      scene_objects := scene_objects + [spheres[3]];
      scene_objects := scene_objects + [spheres[4]];
      if camera != null {
        camera.look_at := DefaultLookAt;
        camera.look_from := DefaultLookFrom;
        camera.vfov := DefaultVfov;
      }
      scene_updated := true;
    }

    /** The grid loops of the second preset; the camera is dereferenced
        without a check. */
    method ApplyPreset2(draw: (int, int) -> CellDraw)
      requires camera != null
      modifies this`scene_objects, this`scene_updated
      modifies camera`look_at, camera`look_from, camera`vfov
      ensures scene_objects == Preset2Objects(draw) && scene_updated
      ensures ViewOf(camera) == Preset2View
      ensures Valid()
    {
      ghost var cells := Preset2Cells(draw);
      scene_objects := [];
      scene_objects := scene_objects + [Preset2Ground];
      var a := -4;
      while a < 4
        invariant -4 <= a <= 4
        invariant scene_objects == [Preset2Ground] + GridPrefix(cells, CellIndex(a, -4))
      {
        var b := -4;
        while b < 4
          invariant -4 <= b <= 4
          invariant scene_objects == [Preset2Ground] + GridPrefix(cells, CellIndex(a, b))
        {
          var d := draw(a, b);
          if CellKept() {
            PushCell(cells, draw, a, b);
            scene_objects := scene_objects + [CellSphere(a, b, d)];
          }
          b := b + 1;
        }
        a := a + 1;
      }
      var finale := Preset2Finale();
      scene_objects := scene_objects + [finale[0]];
      scene_objects := scene_objects + [finale[1]];
      scene_objects := scene_objects + [finale[2]];
      camera.look_from := Preset2View.look_from;
      camera.look_at := Preset2View.look_at;
      camera.vfov := Preset2View.vfov;
      scene_updated := true;
    }

    /** One pass of the objects loop. The loop index i runs over the current
        list; after a removal it steps back, so that the object that moves
        into slot i is visited next. The counter j says which visit this is,
        and so which of the user's edits applies. */
    method EditObjects(edits: seq<ObjectEdit>)
      requires |edits| == |scene_objects|
      modifies this`scene_objects, this`scene_updated
      ensures scene_objects == ObjectsAfterEdits(old(scene_objects), edits)
      ensures scene_updated == (old(scene_updated) || AnyModified(old(scene_objects), edits))
    {
      ghost var s0 := scene_objects;
      ghost var done: seq<Object> := [];
      var j := 0;
      var i := 0;
      while i < |scene_objects|
        invariant 0 <= j <= |s0|
        invariant done == Visited(Visit, s0[..j], edits[..j])
        invariant scene_objects == done + s0[j..]
        invariant i == |done|
        invariant scene_updated == (old(scene_updated) || ModifiedBefore(s0, edits, j))
        decreases |s0| - j
      {
        var removed;
        removed, done := VisitNext(i, s0, edits, j, done);
        ModifiedBeforeSnoc(s0, edits, j);
        if removed {
          i := i - 1;
        }
        i := i + 1;
        j := j + 1;
      }
      assert s0[..j] == s0 && edits[..j] == edits;
    }

    /** One iteration of the objects loop, stated in terms of the pass so
        far: the node in slot i is the j-th object of the list the pass
        started from, and visiting it extends the visited part. */
    method VisitNext(i: int, ghost s0: seq<Object>, edits: seq<ObjectEdit>, j: int, ghost done: seq<Object>)
      returns (removed: bool, ghost done': seq<Object>)
      requires |edits| == |s0| && 0 <= j < |s0|
      requires done == Visited(Visit, s0[..j], edits[..j])
      requires scene_objects == done + s0[j..] && i == |done|
      modifies this`scene_objects, this`scene_updated
      ensures done' == Visited(Visit, s0[..j + 1], edits[..j + 1])
      ensures scene_objects == done' + s0[j + 1..]
      ensures |done'| == if removed then i else i + 1
      ensures scene_updated == (old(scene_updated) || Modified(s0[j], edits[j]))
    {
      VisitedCursor(Visit, s0, edits, j, done, scene_objects);
      removed := VisitNode(i, edits[j]);
      ghost var visit: (Object, ObjectEdit) -> seq<Object> := Visit;
      assert visit(s0[j], edits[j]) == Visit(s0[j], edits[j]);
      done' := done + Visit(s0[j], edits[j]);
    }

    /** The body of the objects loop for the object in slot i: its tree
        node, the widgets inside it and its Remove button. */
    method VisitNode(i: int, e: ObjectEdit) returns (removed: bool)
      requires 0 <= i < |scene_objects|
      modifies this`scene_objects, this`scene_updated
      ensures scene_objects == old(scene_objects)[..i] + Visit(old(scene_objects)[i], e) + old(scene_objects)[i + 1..]
      ensures removed == Removes(e) && |Visit(old(scene_objects)[i], e)| == if removed then 0 else 1
      ensures scene_updated == (old(scene_updated) || Modified(old(scene_objects)[i], e))
    {
      removed := false;
      if e.open {
        var o, modified := EditWidgets(scene_objects[i], e);
        ReplaceSplit(scene_objects, i, o);
        EraseSplit(scene_objects, i, o);
        scene_objects := scene_objects[i := o];
        if e.remove {
          scene_objects := Erase(scene_objects, i);
          modified := true;
          removed := true;
        }
        if modified {
          scene_updated := true;
        }
      }
    }

    /** The "Add Object" button: below the cap it appends a default object
        and sets the flag; at the cap it does nothing. */
    method AddObject()
      modifies this`scene_objects, this`scene_updated
      ensures scene_objects == ListAfterAdd(old(scene_objects), true)
      ensures scene_updated == (old(scene_updated) || old(|scene_objects|) < MaxObjectCount)
      ensures old(Valid()) ==> Valid()
    {
      if |scene_objects| < MaxObjectCount {
        scene_objects := scene_objects + [DefaultObject];
        scene_updated := true;
      }
    }

    /** The "Objects" panel: the per-object tree nodes, then "Add Object". */
    method RenderObjectsUI(edits: seq<ObjectEdit>, add: bool)
      requires |edits| == |scene_objects|
      modifies this`scene_objects, this`scene_updated
      ensures scene_objects == ListAfterAdd(ObjectsAfterEdits(old(scene_objects), edits), add)
      ensures scene_updated == (old(scene_updated) || AnyModified(old(scene_objects), edits) ||
                                (add && |ObjectsAfterEdits(old(scene_objects), edits)| < MaxObjectCount))
      ensures old(Valid()) ==> Valid()
    {
      EditObjects(edits);
      ObjectsAfterEditsLength(old(scene_objects), edits);
      if add {
        AddObject();
      }
    }

    /** The "Scene" panel. */
    method RenderSceneSettings(input: SceneSettingsInput)
      modifies this`light_bounces, this`samples_per_pixel, this`resolution_factor
      modifies this`show_tooltip, this`play_mode, this`scene_updated
      ensures light_bounces == OrElse(input.light_bounces, old(light_bounces))
      ensures samples_per_pixel == OrElse(input.samples_per_pixel, old(samples_per_pixel))
      ensures resolution_factor == OrElse(input.resolution_factor, old(resolution_factor))
      ensures show_tooltip == OrElse(input.show_tooltip, old(show_tooltip))
      ensures play_mode == (old(play_mode) != input.toggle_play)
      ensures scene_updated == (old(scene_updated) || SceneSettingsTouched(input))
    {
      if input.light_bounces.Some? {
        light_bounces := input.light_bounces.value;
        scene_updated := true;
      }
      if input.samples_per_pixel.Some? {
        samples_per_pixel := input.samples_per_pixel.value;
        scene_updated := true;
      }
      if input.resolution_factor.Some? {
        resolution_factor := input.resolution_factor.value;
        scene_updated := true;
      }
      if input.show_tooltip.Some? {
        show_tooltip := input.show_tooltip.value;
      }
      if input.toggle_play {
        play_mode := !play_mode;
      }
    }

    /** The "Camera" panel; without a camera it only shows a message. */
    method RenderCameraSettings(input: CameraSettingsInput)
      modifies this`scene_updated
      modifies CameraSet()`move_speed, CameraSet()`turn_speed, CameraSet()`zoom_speed
      modifies CameraSet()`look_from, CameraSet()`look_at, CameraSet()`vfov
      ensures scene_updated == (old(scene_updated) || (camera != null && CameraSettingsTouched(input)))
      ensures camera != null ==>
        camera.move_speed == OrElse(input.move_speed, old(camera.move_speed)) &&
        camera.turn_speed == OrElse(input.turn_speed, old(camera.turn_speed)) &&
        camera.zoom_speed == OrElse(input.zoom_speed, old(camera.zoom_speed))
      ensures camera != null && input.reset ==>
        camera.look_at == DefaultLookAt && camera.look_from == DefaultLookFrom && camera.vfov == DefaultVfov
      ensures camera != null && !input.reset ==>
        camera.look_from == OrElse(input.look_from, old(camera.look_from)) &&
        camera.look_at == OrElse(input.look_at, old(camera.look_at)) &&
        camera.vfov == OrElse(input.vfov, old(camera.vfov))
    {
      if camera != null {
        var speeds := CameraSpeedSliders(camera, input);
        var view := CameraViewInputs(camera, input);
        if speeds || view {
          scene_updated := true;
        }
      }
    }

    /** The "Presets" panel. Preset 2 needs a camera. */
    method RenderPresetsMenu(input: FrameInput)
      requires input.preset2 ==> camera != null
      modifies this`scene_objects, this`scene_updated
      modifies CameraSet()`look_at, CameraSet()`look_from, CameraSet()`vfov
      ensures scene_objects == ListAfterPresets(old(scene_objects), input)
      ensures scene_updated == (old(scene_updated) || input.preset1 || input.preset2)
      ensures camera != null ==> ViewOf(camera) == ViewAfterPresets(old(ViewOf(camera)), input)
      ensures old(Valid()) ==> Valid()
    {
      if input.preset1 {
        ApplyPreset1();
      }
      if input.preset2 {
        ApplyPreset2(input.draw);
      }
    }

    /** The loop of RenderObjects: the seven uniforms of every object, in
        list order. */
    method RenderObjects() returns (u: seq<ObjectUniforms>)
      ensures |u| == |scene_objects|
      ensures forall k :: 0 <= k < |u| ==> u[k] == Upload(scene_objects[k])
      ensures forall k :: 0 <= k < |u| ==> Download(u[k]) == Some(scene_objects[k])
    {
      u := [];
      var i := 0;
      while i < |scene_objects|
        invariant 0 <= i <= |scene_objects|
        invariant |u| == i
        invariant forall k :: 0 <= k < i ==> u[k] == Upload(scene_objects[k])
        invariant forall k :: 0 <= k < i ==> Download(u[k]) == Some(scene_objects[k])
      {
        UploadRoundTrip(scene_objects[i]);
        u := u + [Upload(scene_objects[i])];
        i := i + 1;
      }
    }

    /** The ray-tracing pass at the scaled resolution; SendUniforms tells
        the camera the scaled size, which recomputes its viewport. */
    method UpdateTexture(window_width: int, window_height: int) returns (pass: OffscreenPass)
      requires camera != null
      modifies camera`window_width, camera`window_height
      modifies camera`camera_center, camera`pixel_delta_u, camera`pixel_delta_v, camera`pixel00_loc
      ensures pass.width == OffscreenSize(window_width, resolution_factor)
      ensures pass.height == OffscreenSize(window_height, resolution_factor)
      ensures camera.window_width == pass.width as real && camera.window_height == pass.height as real
      ensures camera.Consistent() && pass.viewport == camera.Derived()
      ensures pass.samples_per_pixel == samples_per_pixel && pass.light_bounces == light_bounces
      ensures |pass.objects| == |scene_objects|
      ensures forall k :: 0 <= k < |pass.objects| ==> Download(pass.objects[k]) == Some(scene_objects[k])
    {
      var lower_width := TruncToInt(window_width as real * resolution_factor);
      var lower_height := TruncToInt(window_height as real * resolution_factor);
      camera.UpdateWindow(lower_width as real, lower_height as real);
      var objects := RenderObjects();
      pass := OffscreenPass(lower_width, lower_height, camera.Derived(), samples_per_pixel, light_bounces, objects);
    }

    /** The texture is regenerated only while the flag is set; the
        composite onto the window always runs. */
    method RenderScene(framebuffer_width: int, framebuffer_height: int) returns (frame: FramePasses)
      requires scene_updated ==> camera != null
      modifies CameraSet()`window_width, CameraSet()`window_height
      modifies CameraSet()`camera_center, CameraSet()`pixel_delta_u, CameraSet()`pixel_delta_v, CameraSet()`pixel00_loc
      ensures frame.offscreen.Some? <==> scene_updated
      ensures frame.offscreen.Some? ==>
        RendersScene(frame.offscreen.value, framebuffer_width, framebuffer_height, resolution_factor,
                     samples_per_pixel, light_bounces, scene_objects)
      ensures frame.offscreen.Some? ==>
        camera != null && camera.Consistent() && frame.offscreen.value.viewport == camera.Derived() &&
        camera.window_width == frame.offscreen.value.width as real &&
        camera.window_height == frame.offscreen.value.height as real
      ensures !scene_updated && camera != null ==>
        camera.window_width == old(camera.window_width) && camera.window_height == old(camera.window_height) &&
        camera.Derived() == old(camera.Derived())
      ensures frame.composite_width == framebuffer_width && frame.composite_height == framebuffer_height
    {
      var offscreen := None;
      if scene_updated {
        var pass := UpdateTexture(framebuffer_width, framebuffer_height);
        offscreen := Some(pass);
      }
      frame := FramePasses(offscreen, framebuffer_width, framebuffer_height);
    }

    /** One frame. In play mode the flag is forced on, so the next frame
        renders again; in edit mode it is cleared and the panels decide. */
    method Render(framebuffer_width: int, framebuffer_height: int, input: FrameInput) returns (frame: FramePasses)
      requires scene_updated ==> camera != null
      requires !play_mode && input.preset2 ==> camera != null
      modifies this`light_bounces, this`samples_per_pixel, this`resolution_factor
      modifies this`show_tooltip, this`play_mode, this`scene_updated, this`scene_objects
      modifies CameraSet()
      ensures frame.offscreen.Some? <==> old(scene_updated)
      ensures frame.offscreen.Some? ==>
        RendersScene(frame.offscreen.value, framebuffer_width, framebuffer_height, old(resolution_factor),
                     old(samples_per_pixel), old(light_bounces), old(scene_objects))
      ensures frame.offscreen.Some? ==>
        camera != null && frame.offscreen.value.viewport == camera.Derived() &&
        frame.offscreen.value.viewport == ViewportOf(camera.math, old(camera.look_from), old(camera.look_at), old(camera.vfov),
                                                     frame.offscreen.value.width as real, frame.offscreen.value.height as real) &&
        camera.window_width == frame.offscreen.value.width as real &&
        camera.window_height == frame.offscreen.value.height as real
      ensures !old(scene_updated) && camera != null ==>
        camera.window_width == old(camera.window_width) && camera.window_height == old(camera.window_height) &&
        camera.Derived() == old(camera.Derived())
      ensures frame.composite_width == framebuffer_width && frame.composite_height == framebuffer_height
      ensures old(play_mode) ==> scene_updated && play_mode && scene_objects == old(scene_objects)
      ensures old(play_mode) ==> light_bounces == old(light_bounces) && samples_per_pixel == old(samples_per_pixel)
      ensures old(play_mode) ==> resolution_factor == old(resolution_factor) && show_tooltip == old(show_tooltip)
      ensures old(play_mode) && camera != null ==>
        ViewOf(camera) == old(ViewOf(camera)) && camera.move_speed == old(camera.move_speed) &&
        camera.turn_speed == old(camera.turn_speed) && camera.zoom_speed == old(camera.zoom_speed)
      ensures !old(play_mode) ==> play_mode == input.scene.toggle_play
      ensures !old(play_mode) ==>
        light_bounces == OrElse(input.scene.light_bounces, old(light_bounces)) &&
        samples_per_pixel == OrElse(input.scene.samples_per_pixel, old(samples_per_pixel)) &&
        resolution_factor == OrElse(input.scene.resolution_factor, old(resolution_factor)) &&
        show_tooltip == OrElse(input.scene.show_tooltip, old(show_tooltip))
      ensures !old(play_mode) && camera != null ==>
        ViewOf(camera) == ViewAfterPanels(old(ViewOf(camera)), input) &&
        camera.move_speed == OrElse(input.camera.move_speed, old(camera.move_speed)) &&
        camera.turn_speed == OrElse(input.camera.turn_speed, old(camera.turn_speed)) &&
        camera.zoom_speed == OrElse(input.camera.zoom_speed, old(camera.zoom_speed))
      ensures !old(play_mode) ==> scene_objects == ListAfterPanels(old(scene_objects), input)
      ensures !old(play_mode) ==> scene_updated == PanelsSetFlag(old(scene_objects), input, camera != null)
      ensures old(Valid()) ==> Valid()
    {
      frame := RenderScene(framebuffer_width, framebuffer_height);
      if play_mode {
        scene_updated := true;
      } else {
        scene_updated := false;
        RenderPanels(input);
      }
    }

    /** The edit-mode half of a frame: the four panels in the order Render
        draws them. */
    method RenderPanels(input: FrameInput)
      requires input.preset2 ==> camera != null
      modifies this`light_bounces, this`samples_per_pixel, this`resolution_factor
      modifies this`show_tooltip, this`play_mode, this`scene_updated, this`scene_objects
      modifies CameraSet()`move_speed, CameraSet()`turn_speed, CameraSet()`zoom_speed
      modifies CameraSet()`look_from, CameraSet()`look_at, CameraSet()`vfov
      ensures play_mode == (old(play_mode) != input.scene.toggle_play)
      ensures light_bounces == OrElse(input.scene.light_bounces, old(light_bounces))
      ensures samples_per_pixel == OrElse(input.scene.samples_per_pixel, old(samples_per_pixel))
      ensures resolution_factor == OrElse(input.scene.resolution_factor, old(resolution_factor))
      ensures show_tooltip == OrElse(input.scene.show_tooltip, old(show_tooltip))
      ensures camera != null ==>
        camera.move_speed == OrElse(input.camera.move_speed, old(camera.move_speed)) &&
        camera.turn_speed == OrElse(input.camera.turn_speed, old(camera.turn_speed)) &&
        camera.zoom_speed == OrElse(input.camera.zoom_speed, old(camera.zoom_speed))
      ensures camera != null ==> ViewOf(camera) == ViewAfterPanels(old(ViewOf(camera)), input)
      ensures scene_objects == ListAfterPanels(old(scene_objects), input)
      ensures scene_updated == (old(scene_updated) || PanelsSetFlag(old(scene_objects), input, camera != null))
      ensures old(Valid()) ==> Valid()
    {
      RenderSettingsPanels(input);
      RenderListPanels(input);
    }

    /** The "Scene" and "Camera" panels. */
    method RenderSettingsPanels(input: FrameInput)
      modifies this`light_bounces, this`samples_per_pixel, this`resolution_factor
      modifies this`show_tooltip, this`play_mode, this`scene_updated
      modifies CameraSet()`move_speed, CameraSet()`turn_speed, CameraSet()`zoom_speed
      modifies CameraSet()`look_from, CameraSet()`look_at, CameraSet()`vfov
      ensures play_mode == (old(play_mode) != input.scene.toggle_play)
      ensures light_bounces == OrElse(input.scene.light_bounces, old(light_bounces))
      ensures samples_per_pixel == OrElse(input.scene.samples_per_pixel, old(samples_per_pixel))
      ensures resolution_factor == OrElse(input.scene.resolution_factor, old(resolution_factor))
      ensures show_tooltip == OrElse(input.scene.show_tooltip, old(show_tooltip))
      ensures camera != null ==>
        camera.move_speed == OrElse(input.camera.move_speed, old(camera.move_speed)) &&
        camera.turn_speed == OrElse(input.camera.turn_speed, old(camera.turn_speed)) &&
        camera.zoom_speed == OrElse(input.camera.zoom_speed, old(camera.zoom_speed))
      ensures camera != null ==> ViewOf(camera) == ViewAfterCameraPanel(old(ViewOf(camera)), input.camera)
      ensures scene_updated == (old(scene_updated) || SceneSettingsTouched(input.scene) ||
                                (camera != null && CameraSettingsTouched(input.camera)))
    {
      RenderSceneSettings(input.scene);
      RenderCameraSettings(input.camera);
    }

    /** The "Presets" and "Objects" panels. */
    method RenderListPanels(input: FrameInput)
      requires input.preset2 ==> camera != null
      modifies this`scene_objects, this`scene_updated
      modifies CameraSet()`look_at, CameraSet()`look_from, CameraSet()`vfov
      ensures scene_objects == ListAfterPanels(old(scene_objects), input)
      ensures scene_updated == (old(scene_updated) || ListPanelsSetFlag(old(scene_objects), input))
      ensures camera != null ==> ViewOf(camera) == ViewAfterPresets(old(ViewOf(camera)), input)
      ensures old(Valid()) ==> Valid()
    {
      RenderPresetsMenu(input);
      RenderObjectsUI(EditsOf(input, |scene_objects|), input.add);
    }
  }

  /** Whether one of the first j visits sets the flag. */
  predicate ModifiedBefore(s: seq<Object>, edits: seq<ObjectEdit>, j: nat)
    requires |edits| == |s| && j <= |s|
  {
    exists k :: 0 <= k < j && Modified(s[k], edits[k])
  }

  /** Whether one more visit sets the flag. */
  lemma ModifiedBeforeSnoc(s: seq<Object>, edits: seq<ObjectEdit>, j: nat)
    requires |edits| == |s| && j < |s|
    ensures ModifiedBefore(s, edits, j + 1) == (ModifiedBefore(s, edits, j) || Modified(s[j], edits[j]))
  {
    if ModifiedBefore(s, edits, j + 1) && !Modified(s[j], edits[j]) {
      var k :| 0 <= k < j + 1 && Modified(s[k], edits[k]);
      assert k < j;
    }
  }

  /** One grid iteration pushes the sphere of cell (a, b). */
  lemma PushCell(cells: (int, int) -> Object, draw: (int, int) -> CellDraw, a: int, b: int)
    requires cells == Preset2Cells(draw)
    requires -4 <= a < 4 && -4 <= b < 4
    ensures GridPrefix(cells, CellIndex(a, b) + 1) == GridPrefix(cells, CellIndex(a, b)) + [CellSphere(a, b, draw(a, b))]
    ensures CellIndex(a, b) + 1 == CellIndex(a, b + 1)
  {
    CellIndexInverse(a, b);
    GridPrefixSnoc(cells, CellIndex(a, b));
  }

  /** The three speed sliders of the "Camera" panel; each reports whether
      it changed. */
  method CameraSpeedSliders(camera: Camera, input: CameraSettingsInput) returns (touched: bool)
    modifies camera`move_speed, camera`turn_speed, camera`zoom_speed
    ensures camera.move_speed == OrElse(input.move_speed, old(camera.move_speed))
    ensures camera.turn_speed == OrElse(input.turn_speed, old(camera.turn_speed))
    ensures camera.zoom_speed == OrElse(input.zoom_speed, old(camera.zoom_speed))
    ensures touched == (input.move_speed.Some? || input.turn_speed.Some? || input.zoom_speed.Some?)
  {
    touched := false;
    if input.move_speed.Some? {
      camera.move_speed := input.move_speed.value;
      touched := true;
    }
    if input.turn_speed.Some? {
      camera.turn_speed := input.turn_speed.value;
      touched := true;
    }
    if input.zoom_speed.Some? {
      camera.zoom_speed := input.zoom_speed.value;
      touched := true;
    }
  }

  /** Position, Target, FOV and "Reset Camera", in that order. */
  method CameraViewInputs(camera: Camera, input: CameraSettingsInput) returns (touched: bool)
    modifies camera`look_from, camera`look_at, camera`vfov
    ensures input.reset ==>
      camera.look_at == DefaultLookAt && camera.look_from == DefaultLookFrom && camera.vfov == DefaultVfov
    ensures !input.reset ==>
      camera.look_from == OrElse(input.look_from, old(camera.look_from)) &&
      camera.look_at == OrElse(input.look_at, old(camera.look_at)) &&
      camera.vfov == OrElse(input.vfov, old(camera.vfov))
    ensures touched == (input.look_from.Some? || input.look_at.Some? || input.vfov.Some? || input.reset)
  {
    touched := false;
    if input.look_from.Some? {
      camera.look_from := input.look_from.value;
      touched := true;
    }
    if input.look_at.Some? {
      camera.look_at := input.look_at.value;
      touched := true;
    }
    if input.vfov.Some? {
      camera.vfov := input.vfov.value;
      touched := true;
    }
    if input.reset {
      camera.Reset();
      touched := true;
    }
  }
}
