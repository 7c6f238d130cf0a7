# Raytracer session logic in Dafny

The OpenGL Raytracer is an interactive GPU path tracer. A GLFW window hosts
a full-screen quad, and an ImGui overlay edits the scene: a list of spheres
with Lambertian, metal or dielectric materials. GLFW key, scroll and cursor
callbacks switch between two modes. Edit mode shows the panels. Play mode
flies the camera with W/A/S/D/Space/Left-Ctrl, the mouse and the scroll
wheel. A dirty flag, `scene_updated`, decides in each frame whether the
offscreen ray-traced texture is regenerated. The composite of that texture
onto the window always runs.

This project models that session logic: what the program does apart from
its GPU, ImGui and windowing calls.

- **Geometry** (`geometry.dfy`) covers `glm::vec3` over the reals.
  - glm's `normalize` and `length` and C's `tan/sin/cos/asin/atan2` are
    fields of a `FloatMath` value passed in as a parameter.
  - The predicates `NormalizesAt`, `FixesUnitAt` and `PythagoreanAt` state
    what the proofs assume of these functions. Each is stated at the one
    argument where a proof uses it.
- **Grids** (`grid.dfy`) covers the loop order of the second preset's
  nested `for (a) for (b)` loops over [-4, 4).
- **Lists** (`lists.dfy`) covers the list operations the editor performs:
  - `vector::erase` by index;
  - the "visit each element once, leave zero or one in its place" pass that
    the objects panel makes with its `--i` adjustment;
  - a fold over a run of events.
- **Scene** (`scene.dfy`) covers:
  - the records and enums of `Renderer.h` and the integer codes they are
    uploaded under;
  - the two presets: the random draws of preset 2 are an input
    `draw: (int, int) -> CellDraw`;
  - the per-object UI edits as values.
- **Cameras** (`camera.dfy`) is the `Camera` class. Its inputs (`look_from`,
  `look_at`, `vfov`, the window size, the speeds) and its derived viewport
  fields are mutable fields. Pure functions (`ZoomedFov`, `MovedPose`,
  `TurnedPose`, `ViewportOf`) specify its methods.
- **Renderers** (`renderers.dfy`) is the `Renderer` class: its settings, its
  `scene_objects` list, `scene_updated`, `play_mode` and its nullable
  camera.
  - What the user does in the panels during a frame is a `FrameInput`
    value.
  - What a frame hands to the GPU is returned as `FramePasses`.
  - `ApplyPreset2` keeps the nested loops, and `EditObjects` keeps the loop
    that erases in place and steps its index back.
- **Windows** (`windows.dfy`) is the `WindowManager` class.
  - Its callbacks are specified by pure functions over one event
    (`KeysAfter`, `PlayAfter`, `MouseOffsets`). `AfterEvent` combines them:
    it is the whole state the callbacks touch (a `Session`) after one event.
  - The main loop runs over a finite sequence of frames. In each frame, the
    held keys become `Camera::Move` calls (`FrameMoves`), then the renderer
    renders, then the polled events are handled.

The second preset's exclusion test calls glm's member `length()`. That
member returns the component count 3, not the Euclidean norm, so the test
`3 > 0.9` always passes. The model follows the code as written: the preset
always yields 1 + 64 + 3 = 68 objects.

Changing the play mode never clears `pressed_keys`: `HeldKeys` shows that
only presses and releases decide the set.

## Model

| member | source | states |
|---|---|---|
| Grids.CellIndexInverse | Raytracer/src/Renderer.cpp:147-148 | cell (a, b) of the two loops, with a outermost, is iteration 8(a+4)+(b+4), which lies in [0, 64), and that iteration maps back to (a, b) |
| Grids.IndexCellInverse | Raytracer/src/Renderer.cpp:147-148 | every iteration number in [0, 64) is one cell of the 8 x 8 grid and maps back to itself |
| Grids.GridPrefixSnoc | Raytracer/src/Renderer.cpp:147-174 | one more inner-loop iteration appends exactly the next cell's value to what the loops have pushed |
| Lists.Erase | Raytracer/src/Renderer.cpp:394 | erasing index i leaves a list one shorter: the elements before i are unchanged and those after i shift down by one |
| Lists.EraseMultiset | Raytracer/src/Renderer.cpp:394 | erasing removes exactly the one element at i and nothing else |
| Lists.VisitedCursor | Raytracer/src/Renderer.cpp:314-406 | after j visits, the loop index stands at the length of what the visits left, which is where original element j now sits; visiting it extends that part by its replacement (this is why `--i` is right) |
| Lists.VisitedLength | Raytracer/src/Renderer.cpp:314-406 | a pass in which the removing inputs drop their element and every other element is replaced by one shortens the list by the number of removing inputs |
| Lists.VisitedSingletons | Raytracer/src/Renderer.cpp:314-406 | with no removal, element k after the pass is the replacement of element k |
| Lists.VisitedKeepsAll | Raytracer/src/Renderer.cpp:314-406 | a pass that keeps every element as it is leaves the list unchanged |
| Lists.VisitedEraseOne | Raytracer/src/Renderer.cpp:393-397 | a pass that removes only element i and keeps all the others is erase(i): the relative order of the rest is kept |
| Lists.FoldAppend | Raytracer/src/WindowManager.cpp:138-164 | handling the events of two runs in a row equals handling the second run from the state the first left |
| Scene.ObjectTypeCode | Raytracer/include/Renderer.h:16-19 | the int cast of an ObjectType is 0 or 1 |
| Scene.ObjectTypeOfCode | Raytracer/include/Renderer.h:16-19 | an int is an ObjectType exactly when it is in [0, 2) |
| Scene.MaterialTypeCode | Raytracer/include/Renderer.h:21-26 | the int cast of a MaterialType is in [0, 4) |
| Scene.MaterialTypeOfCode | Raytracer/include/Renderer.h:21-26 | an int is a MaterialType exactly when it is in [0, 4) |
| Scene.ObjectTypeCodeRoundTrip | Raytracer/include/Renderer.h:16-19 | code and kind convert into each other both ways: NullObject is 0 and Sphere is 1, in declaration order |
| Scene.MaterialTypeCodeRoundTrip | Raytracer/include/Renderer.h:21-26 | code and kind convert into each other both ways: NullMaterial, Lambertian, Metal and Dielectric are 0..3 in declaration order |
| Scene.Download | Raytracer/src/Renderer.cpp:522-540 | the uniforms of one object describe an object exactly when both of their kind codes are valid |
| Scene.UploadRoundTrip | Raytracer/src/Renderer.cpp:524-539 | the seven uniforms RenderObjects sends for an object (type, position, scale, material type, albedo, fuzz, refraction index) determine the object completely |
| Scene.Preset1Objects | Raytracer/src/Renderer.cpp:113-123 | preset 1 is exactly five objects, all spheres |
| Scene.CellMaterial | Raytracer/src/Renderer.cpp:154-171 | a grid sphere is Lambertian iff choose_mat < 0.8, Metal iff 0.8 <= choose_mat < 0.95, and Dielectric iff choose_mat >= 0.95; a dielectric has refraction index 1.5 and a metal has the drawn fuzz |
| Scene.Preset2Around | Raytracer/src/Renderer.cpp:142-180 | preset 2's list is the ground sphere, then the grid spheres in push order, then the three large spheres |
| Scene.Preset2Shape | Raytracer/src/Renderer.cpp:144-180 | whatever the draws, preset 2 yields 68 objects: object 0 is the ground sphere and objects 65-67 are the three large spheres in push order |
| Scene.Preset2Cell | Raytracer/src/Renderer.cpp:147-173 | object 1 + 8(a+4) + (b+4) is the sphere of grid cell (a, b), built from that cell's draws |
| Scene.Preset2GridSpheres | Raytracer/src/Renderer.cpp:150-170 | each of objects 1..64 is a sphere at height 0.2 with scale 0.2, and is the sphere of some cell of the grid |
| Scene.Preset2LastThree | Raytracer/src/Renderer.cpp:175-180 | the last three objects are the radius-1 spheres centred at x = 0, -4 and 4 with y = 1 |
| Scene.EditedObject | Raytracer/src/Renderer.cpp:320-380 | a closed tree node leaves the object as it is; only scale.x is editable; the radius changes only for a sphere; fuzz changes only for Metal, the refraction index only for Dielectric, and albedo only for Lambertian or Metal; each kind is taken after the combos above it |
| Scene.ChangeIsModification | Raytracer/src/Renderer.cpp:318-404 | an edit that changes the object counts as a modification of it |
| Scene.ObjectsAfterEditsLength | Raytracer/src/Renderer.cpp:314-406 | one pass of the objects panel shortens the list by exactly the number of Remove presses in open nodes |
| Scene.ObjectsAfterEditsInPlace | Raytracer/src/Renderer.cpp:314-406 | without a Remove, the pass keeps the length, and object k after it is object k with its own edits applied |
| Scene.UnmodifiedKept | Raytracer/src/Renderer.cpp:317-404 | a node that reports no modification (closed, or open with no shown widget changed and Remove not pressed) leaves its object exactly as it was |
| Scene.UnmodifiedNodesKeepList | Raytracer/src/Renderer.cpp:314-406 | when no tree node reports a modification, the list is unchanged and nothing counts as modified |
| Scene.RemoveErases | Raytracer/src/Renderer.cpp:393-403 | a Remove on node i, with no other node reporting a modification (other nodes may be open), leaves exactly erase(i) and counts as a modification |
| Cameras.Clamp | Raytracer/src/Camera.cpp:23 | the result lies in [lo, hi]; it is x when x is inside, lo below and hi above |
| Cameras.ZoomedFov | Raytracer/src/Camera.cpp:21-24 | the new vfov is vfov - amount * zoom_speed clamped to [1, 120]; it always lies in that range |
| Cameras.ZoomOutStaysAtMax | Raytracer/src/Camera.cpp:21-24 | from vfov 120, any run of zoom-outs stays at 120 |
| Cameras.ZoomInStaysAtMin | Raytracer/src/Camera.cpp:21-24 | from vfov 1, any run of zoom-ins stays at 1 |
| Cameras.ZoomedFovAllInRange | Raytracer/src/Camera.cpp:21-24 | after at least one zoom, vfov lies in [1, 120] whatever it was before |
| Cameras.MoveKeepsViewingDirection | Raytracer/src/Camera.cpp:26-52 | after any Move, look_at - look_from is the old unit front vector: the viewing direction is kept and the focal distance becomes 1 |
| Cameras.VerticalMovesAreExact | Raytracer/src/Camera.cpp:43-48 | Upward and Downward move look_from by exactly +move_speed and -move_speed along (0, 1, 0) |
| Cameras.OppositeMovesCancel | Raytracer/src/Camera.cpp:26-52 | a Move followed by the opposite Move returns look_from to its start, with look_at one front vector ahead of it |
| Cameras.ForwardStep | Raytracer/src/Camera.cpp:31-50 | Forward moves look_from by move_speed along the unit front vector and leaves look_at one front vector ahead of it |
| Cameras.DefaultFront | Raytracer/include/Camera.h:34-35 | the default camera looks down -z |
| Cameras.DefaultForwardStep | Raytracer/include/Camera.h:32-35 | one forward step of the default camera at the default speed 0.25 takes look_from to (0, 0, 0.75) and look_at to (0, 0, -0.25) |
| Cameras.TurnAngles | Raytracer/src/Camera.cpp:55-73 | the pitch Turn computes always lies in [-89, 89] |
| Cameras.TurnedPose | Raytracer/src/Camera.cpp:54-87 | Turn never moves look_from |
| Cameras.FrontOfAnglesNonZero | Raytracer/src/Camera.cpp:80-83 | the front vector built from a yaw and a pitch is never zero, so normalising it is defined |
| Cameras.TurnGivesUnitFront | Raytracer/src/Camera.cpp:54-87 | after Turn, look_from is unchanged and look_at is exactly one unit away from it |
| Cameras.BasisOrthogonal | Raytracer/src/Camera.cpp:100-102 | u = normalize(vup x w) and v = w x u are orthogonal to each other and to w |
| Cameras.PixelDeltasOrthogonal | Raytracer/src/Camera.cpp:104-110 | dividing the viewport edges by the window size keeps them orthogonal to each other and to w |
| Cameras.ViewportBasisOrthogonal | Raytracer/src/Camera.cpp:90-115 | the per-pixel steps Update derives are orthogonal to each other and to the viewing axis whenever vup x w is not zero |
| Cameras.Camera.constructor | Raytracer/src/Camera.cpp:6-19 | stores every argument and then computes the derived fields from them |
| Cameras.Camera.Update | Raytracer/src/Camera.cpp:90-115 | sets the derived fields to ViewportOf of the current inputs (camera_center = look_from, pixel00 = upper_left + 1/2 (du + dv)) and changes nothing else |
| Cameras.Camera.UpdateWindow | Raytracer/src/Camera.cpp:117-121 | stores the window size and recomputes, so the derived fields agree with the new size |
| Cameras.Camera.Zoom | Raytracer/src/Camera.cpp:21-24 | vfov becomes ZoomedFov(vfov, amount, zoom_speed); no other field changes |
| Cameras.Camera.Move | Raytracer/src/Camera.cpp:26-52 | the pose becomes MovedPose of the old pose, and the derived fields are recomputed for it |
| Cameras.Camera.Turn | Raytracer/src/Camera.cpp:54-87 | look_at becomes that of TurnedPose of the old pose; nothing else changes and nothing is recomputed |
| Cameras.Camera.Reset | Raytracer/src/Camera.cpp:123-127 | look_at (0, 0, 0), look_from (0, 0, 1) and vfov 90, which are the constructor defaults; the speeds and derived fields are left alone |
| Renderers.TruncToInt | Raytracer/src/Renderer.cpp:470-471 | float-to-int conversion truncates toward zero: the result is within one of x, on the zero side |
| Renderers.OffscreenSize | Raytracer/src/Renderer.cpp:470-471 | with a resolution factor in [0, 1], the offscreen size is between 0 and the window size |
| Renderers.ListAfterAdd | Raytracer/src/Renderer.cpp:409-414 | "Add Object" either leaves the list alone or appends one default object, and it appends exactly when pressed below 128 objects |
| Renderers.PresetOverridesCameraPanel | Raytracer/src/Renderer.cpp:210-212 | the "Camera" panel is drawn before the presets: when a preset is pressed, the view after the panels depends neither on the view before nor on the "Camera" panel; otherwise that panel alone decides it |
| Renderers.EditWidgets | Raytracer/src/Renderer.cpp:320-380 | the widgets of an open node produce EditedObject, and isObjectModified is set exactly when a visible widget reports a change |
| Renderers.Renderer.constructor | Raytracer/src/Renderer.cpp:23-33 | the camera is null whatever was passed, the settings are the arguments, the flag is set, play mode is off, and the list is preset 1 exactly when GLEW initialised |
| Renderers.Renderer.ApplyPreset1 | Raytracer/src/Renderer.cpp:112-131 | the list becomes preset 1 whatever it held, the flag is set, and a present camera gets the default look_at, look_from and vfov |
| Renderers.Renderer.ApplyPreset2 | Raytracer/src/Renderer.cpp:141-186 | the nested loops build Preset2Objects(draw), the flag is set, and the camera looks from (13, 2, 3) at the origin with vfov 20 |
| Renderers.Renderer.EditObjects | Raytracer/src/Renderer.cpp:314-406 | the loop with its in-place erase and `--i` leaves ObjectsAfterEdits of the old list, and it sets the flag exactly when some open node was modified |
| Renderers.Renderer.VisitNext | Raytracer/src/Renderer.cpp:317-405 | one iteration of the loop extends the visited prefix by the visited object's replacement and leaves the index on the next unvisited object |
| Renderers.Renderer.VisitNode | Raytracer/src/Renderer.cpp:317-405 | one tree node replaces object i by its edited version, or erases it on Remove, and sets the flag exactly when the node was modified |
| Renderers.Renderer.AddObject | Raytracer/src/Renderer.cpp:409-414 | below 128 objects, appends one default object and sets the flag; at 128 it changes neither |
| Renderers.Renderer.RenderObjectsUI | Raytracer/src/Renderer.cpp:311-417 | the objects panel applies the edits pass and then "Add Object"; the flag is set by a modification or by an add that fits |
| Renderers.Renderer.RenderSceneSettings | Raytracer/src/Renderer.cpp:242-264 | each slider stores its new value; the flag is set exactly when a slider changed, so not by the tooltip checkbox; the play button negates play mode |
| Renderers.Renderer.RenderCameraSettings | Raytracer/src/Renderer.cpp:266-298 | with a camera, each widget stores its value and Reset restores the defaults, and the flag is set exactly when a widget reported; without a camera nothing changes |
| Renderers.Renderer.RenderPresetsMenu | Raytracer/src/Renderer.cpp:300-309 | preset 1, then preset 2, each replaces the list when pressed, and the flag is set when either was pressed; a present camera gets the view of the last preset pressed, and keeps its view when neither was |
| Renderers.Renderer.RenderObjects | Raytracer/src/Renderer.cpp:522-544 | one set of uniforms per object, in list order, from which each object can be recovered |
| Renderers.Renderer.UpdateTexture | Raytracer/src/Renderer.cpp:468-480 | the texture size is the truncated window size times the resolution factor; the camera gets that size and a recomputed viewport; each object is uploaded |
| Renderers.Renderer.RenderScene | Raytracer/src/Renderer.cpp:455-466 | the offscreen pass runs exactly when the flag is set, and then renders the scaled framebuffer size with the current samples, bounces and list (each object recoverable from its uniforms), leaving the camera at that size with a viewport consistent with it; with the flag clear the camera's size and viewport are untouched; the composite at the framebuffer size always runs |
| Renderers.Renderer.Render | Raytracer/src/Renderer.cpp:189-217 | the texture is regenerated exactly when the flag was set before the frame, from the list, settings and camera view as they were before the panels, and the camera keeps that scaled size and viewport; with the flag clear the camera's size and viewport are untouched; the composite always runs; in play mode the flag is forced on and the list, the scene settings, the camera speeds and the view are untouched; in edit mode the flag is cleared and then the panels decide it (PanelsSetFlag), the list (ListAfterPanels), each scene setting and camera speed, and the view (ViewAfterPanels) |
| Renderers.Renderer.RenderPanels | Raytracer/src/Renderer.cpp:210-213 | the four edit-mode panels, in order: each scene setting and camera speed is its widget's value if it reported one, the view is ViewAfterPanels (a preset overrides the "Camera" panel), the list is ListAfterPanels and the flag is set by PanelsSetFlag |
| Renderers.Renderer.RenderSettingsPanels | Raytracer/src/Renderer.cpp:210-211 | the "Scene" and "Camera" panels store each reported value, the view follows ViewAfterCameraPanel and the flag is set by a scene slider or, with a camera, by any camera widget; the list is untouched |
| Renderers.Renderer.RenderListPanels | Raytracer/src/Renderer.cpp:212-213 | the "Presets" and "Objects" panels give ListAfterPanels, set the flag by ListPanelsSetFlag, and leave the view as the presets set it |
| Renderers.CameraSpeedSliders | Raytracer/src/Renderer.cpp:269-277 | the three speed sliders store their values and report whether any of them changed |
| Renderers.CameraViewInputs | Raytracer/src/Renderer.cpp:280-292 | position, target and fov store their values unless Reset restores the defaults; the result reports whether any of them was used |
| Windows.KeysAfter | Raytracer/src/WindowManager.cpp:97-115 | a press of one of the six motion keys inserts it, a press of any other key changes nothing, a release erases the key (a no-op if absent), and repeats change nothing; only motion keys ever enter |
| Windows.HeldKeys | Raytracer/src/WindowManager.cpp:97-115 | after a run of events, a key is held iff it was held before and never released since, or it is a motion key pressed at some point and not released after it; Enter and Esc play no part |
| Windows.KeysStayMotionKeys | Raytracer/src/WindowManager.cpp:105-107 | the pressed set only ever holds motion keys |
| Windows.PlayAfter | Raytracer/src/WindowManager.cpp:97-111 | an Esc press forces play mode off, an Enter press negates it, and any other event (F included) leaves it as it was |
| Windows.ModeWithoutEscape | Raytracer/src/WindowManager.cpp:108-110 | without Esc, the mode flips once per Enter press, so an even number of them restores it |
| Windows.ModeAfterEscape | Raytracer/src/WindowManager.cpp:98-101 | after an Esc press, the mode no longer depends on anything that happened before it |
| Windows.MouseOffsets | Raytracer/src/WindowManager.cpp:124-128 | the first cursor sample yields zero offsets; later ones yield xpos - lastX and lastY - ypos |
| Windows.TravelTelescopes | Raytracer/src/WindowManager.cpp:124-131 | the offsets of a run of samples add up to the travel from the last sample before the run (or the first sample of the first run) to the last one |
| Windows.AfterEvent | Raytracer/src/WindowManager.cpp:72-136 | no event changes the camera settings or look_from; in edit mode no event changes the vfov or the pose; the dirty flag is set by a resize and by nothing else; the cursor statics follow every cursor move |
| Windows.AfterEventsKeysAndMode | Raytracer/src/WindowManager.cpp:94-116 | over a run of events, the set and the mode depend only on the key events among them |
| Windows.EditModeKeepsCamera | Raytracer/src/WindowManager.cpp:86-136 | in edit mode, a run of events without an Enter press keeps edit mode and leaves the vfov and the pose as they were |
| Windows.ResizesSetFlag | Raytracer/src/WindowManager.cpp:72-80 | after a run of events the dirty flag is set exactly when it was set before or one of the events was a framebuffer resize |
| Windows.KeyOf | Raytracer/src/WindowManager.cpp:141-159 | every direction's key is one of the motion keys |
| Windows.KeyOfInjective | Raytracer/src/WindowManager.cpp:141-159 | each motion key moves in exactly one direction |
| Windows.FrameMovesMembers | Raytracer/src/WindowManager.cpp:141-160 | a direction is moved in a frame iff play mode is on, the set is non-empty and that direction's key is held |
| Windows.FrameMovesOrdered | Raytracer/src/WindowManager.cpp:141-160 | a frame's moves follow the order FORWARD, LEFT, BACKWARD, RIGHT, UPWARD, DOWNWARD, each at most once |
| Windows.NoMovesWhenIdle | Raytracer/src/WindowManager.cpp:141 | a frame moves nothing iff play mode is off or no key is held |
| Windows.WindowManager.constructor | Raytracer/src/WindowManager.cpp:14-47 | is_fullscreen is the argument and agrees with the window's monitor; the camera is new with every default (pose, vfov, window size and the three speeds) and consistent derived fields; the renderer is new with its default settings and preset 1 (when GLEW initialised), and then shares the camera; no key is held |
| Windows.WindowManager.ToggleFullscreen | Raytracer/src/WindowManager.cpp:56-66 | the monitor state flips and is_fullscreen follows it |
| Windows.WindowManager.IsFullscreenMode | Raytracer/src/WindowManager.cpp:68-70 | the returned flag is the window's actual monitor state |
| Windows.WindowManager.FramebufferSizeCallback | Raytracer/src/WindowManager.cpp:72-80 | a framebuffer resize sets the dirty flag |
| Windows.WindowManager.ScrollCallback | Raytracer/src/WindowManager.cpp:86-92 | scrolling zooms by yoffset only in play mode; otherwise vfov is unchanged |
| Windows.WindowManager.KeyCallback | Raytracer/src/WindowManager.cpp:94-116 | the set becomes KeysAfter and play mode PlayAfter of the event; F toggles fullscreen; the manager's invariant is kept |
| Windows.WindowManager.MouseMoveCallback | Raytracer/src/WindowManager.cpp:122-136 | the statics always move to the new sample, even in edit mode, and the camera turns by MouseOffsets only in play mode |
| Windows.WindowManager.HandleEvent | Raytracer/src/WindowManager.cpp:36-41 | each event goes to its callback, and the whole session (keys, monitor state, mode, cursor statics, dirty flag, vfov and pose) becomes AfterEvent of the old one |
| Windows.WindowManager.HandleEvents | Raytracer/src/WindowManager.cpp:163 | after polling, the session is AfterEvent folded over the polled events in order; the set and the mode are the folds of KeysAfter and PlayAfter over the key events among them |
| Windows.WindowManager.DispatchMoves | Raytracer/src/WindowManager.cpp:141-160 | the camera pose becomes the result of applying FrameMoves of the held keys and mode, one Move each, in order |
| Windows.WindowManager.RunFrame | Raytracer/src/WindowManager.cpp:140-163 | one loop iteration keeps the invariant and composites at the framebuffer size; the offscreen pass runs exactly when the flag was set, renders the list and settings from before the frame and leaves the camera at the scaled size; the set is the fold over that frame's key events, the mode is ModeAfterFrame, and the list is kept in play mode and is ListAfterPanels in edit mode |
| Windows.WindowManager.RunMainLoop | Raytracer/src/WindowManager.cpp:138-164 | over a run of frames, each frame composites at its framebuffer size, the set is the fold over all key events of the run, and the mode is ModeAfterFrame folded over the frames |
| Windows.WindowManager.RunNextFrame | Raytracer/src/WindowManager.cpp:139-163 | frame i of the loop extends the folds of the set and the mode by that frame |

## Left out

- GPU work is not modelled: GL calls, VAO/VBO and FBO setup, shader compilation, uniform locations, the screen-quad draw and the time uniform. A frame's GPU work is returned as a `FramePasses` value. Shader.cpp, Shader.h and main.cpp are not part of this model.
- ImGui and GLFW calls are not modelled: widget drawing, font scaling, the tooltip window, cursor modes and window and monitor geometry. The positions and sizes `glfwSetWindowMonitor` receives are omitted; `on_monitor` stands for the window's monitor.
- Floating point is replaced by real arithmetic. There is no rounding and no float/double conversion of the mouse offsets, and a division by zero yields 0 where floats give an infinity or NaN.
- The floating-point library functions are unspecified function values. The proofs assume their properties (normalising gives a unit vector in the same direction, a unit vector normalises to itself, sin² + cos² = 1) only at the arguments where each lemma states them. Normalising the zero vector is left unconstrained.
- Randomness: preset 2 takes the values `randomFloat` returns as an input. The model does not fix the order in which C++ evaluates the draws within one expression, and it ignores draws the chosen material does not consume.
- Enums.h is not part of this model. Its `Direction` is the datatype `Cameras.Direction`.
- Process exits on GLFW or window initialisation failure are not modelled. A failed GLEW initialisation is modelled: the renderer is left with an empty list.
- Object labels and ImGui tree-node state are not modelled. Which nodes are open, and what each widget reports, are inputs of the frame (`FrameInput.edit`). A node's ImGui identity shifting after a removal in the same frame is not captured.
- ImGui clamps a slider's value to its range; the model stores the reported value as it is.
- The cursor callback's function-local statics, shared by the whole process, are a per-manager field `mouse`.
- The callbacks' null check of the camera is not modelled, since the manager always has a camera.
- The window loop runs over a finite sequence of frames rather than until the window is closed. The empty WindowResizeCallback and MouseButtonCallback are omitted.
- Windows.WindowManager.RunFrame: the contract states the pressed keys, the mode, the list, the offscreen pass and the composite size. It does not state the camera pose, the vfov or the dirty flag after the frame; DispatchMoves, Render and HandleEvents state each of them for their step.
- Windows.WindowManager.RunMainLoop: the contract states the pressed keys, the mode and the composite sizes over the run. It does not state the camera pose or the list frame by frame.
