/** The cloud sea of cloud-mesh.js: a large plane whose material needs the depth of
    the rest of the scene. Once per frame `renderDepth` draws the scene into a depth
    target with the cloud and a caller-supplied list of objects hidden; `resize` keeps
    the target and the material's `resolution` uniform at the window's size.

    The renderer is abstract: its current target, the pixel ratio it reports and a log
    of what it was asked to do, where each draw records the override material and which
    objects were visible at that moment. */
module CloudDepth {

  /** A scene object with a `visible` flag (here: those in the caller's list). */
  class Object3D {
    var visible: bool

    constructor (visible: bool)
      ensures this.visible == visible
    {
      this.visible := visible;
    }
  }

  /** The caller's list of objects to hide during the depth pass, held by reference:
      objects pushed onto it later take part in later passes. */
  class ObjectList {
    var items: seq<Object3D>

    constructor ()
      ensures items == []
    {
      items := [];
    }

    /** `list.push(o)`. */
    method Push(o: Object3D)
      modifies this
      ensures items == old(items) + [o]
    {
      items := items + [o];
    }
  }

  class Texture {
    constructor () {}
  }

  /** The `MeshDepthMaterial` drawn in place of every material during the depth pass. */
  class DepthMaterial {
    constructor () {}
  }

  /** The depth `WebGLRenderTarget`: its size, its colour texture and its depth texture. */
  class RenderTarget {
    var width: real
    var height: real
    const texture: Texture
    const depthTexture: Texture

    constructor (width: real, height: real)
      ensures this.width == width && this.height == height && texture != depthTexture
    {
      this.width := width;
      this.height := height;
      texture := new Texture();
      depthTexture := new Texture();
    }

    /** `setSize(width, height)`. */
    method SetSize(width: real, height: real)
      modifies this
      ensures this.width == width && this.height == height
    {
      this.width := width;
      this.height := height;
    }
  }

  /** The window's size and its `devicePixelRatio`. */
  datatype Window = Window(innerWidth: real, innerHeight: real, devicePixelRatio: real)

  /** The camera's clipping planes. */
  datatype Camera = Camera(near: real, far: real)

  /** The scene; during the depth pass its `overrideMaterial` replaces every material. */
  class Scene {
    var overrideMaterial: DepthMaterial?

    constructor ()
      ensures overrideMaterial == null
    {
      overrideMaterial := null;
    }
  }

  /** What the renderer was asked to do. A draw records the target it drew into, the
      override material, the listed objects that were visible and whether the cloud
      itself was. */
  datatype Event =
    | SetTarget(target: RenderTarget?)
    | Clear(target: RenderTarget?)
    | Draw(target: RenderTarget?, overrideMaterial: DepthMaterial?, shown: set<Object3D>, meshVisible: bool)

  /** The listed objects that are visible now. */
  function Shown(objects: seq<Object3D>): (shown: set<Object3D>)
    reads set o | o in objects
    ensures shown <= set o | o in objects
    ensures forall k | 0 <= k < |objects| :: objects[k] in shown <==> objects[k].visible
  {
    set o | o in objects && o.visible
  }

  /** The number of draws in a log. */
  function Draws(log: seq<Event>): (n: nat)
    ensures n <= |log|
  {
    if log == [] then 0 else Draws(log[..|log| - 1]) + if log[|log| - 1].Draw? then 1 else 0
  }

  lemma {:induction false} DrawsAppend(a: seq<Event>, b: seq<Event>)
    ensures Draws(a + b) == Draws(a) + Draws(b)
    decreases |b|
  {
    if b == [] {
      assert a + b == a;
    } else {
      var b' := b[..|b| - 1];
      assert (a + b)[..|a + b| - 1] == a + b';
      DrawsAppend(a, b');
    }
  }

  /** The renderer: its current render target, `getPixelRatio()`, and the log. */
  class Renderer {
    var target: RenderTarget?
    var pixelRatio: real
    var log: seq<Event>

    constructor (pixelRatio: real)
      ensures target == null && this.pixelRatio == pixelRatio && log == []
    {
      target := null;
      this.pixelRatio := pixelRatio;
      log := [];
    }

    /** `setRenderTarget(t)`. */
    method SetRenderTarget(t: RenderTarget?)
      modifies this
      ensures target == t && pixelRatio == old(pixelRatio) && log == old(log) + [SetTarget(t)]
    {
      target := t;
      log := log + [SetTarget(t)];
    }

    /** `clear()`: clears the current target. */
    method ClearTarget()
      modifies this
      ensures target == old(target) && pixelRatio == old(pixelRatio) && log == old(log) + [Clear(target)]
    {
      log := log + [Clear(target)];
    }

    /** `render(scene, camera)`, which records what it would draw and may throw
        (`throws`); the draw is recorded either way. */
    method Render(scene: Scene, objects: seq<Object3D>, meshVisible: bool, throws: bool) returns (threw: bool)
      modifies this
      ensures target == old(target) && pixelRatio == old(pixelRatio) && threw == throws
      ensures log == old(log) + [Draw(target, scene.overrideMaterial, Shown(objects), meshVisible)]
    {
      log := log + [Draw(target, scene.overrideMaterial, Shown(objects), meshVisible)];
      threw := throws;
    }
  }

  /** The uniforms of the cloud material that the mesh sets (cloud-material.js:5-30),
      with the initial values given there. */
  class CloudUniforms {
    var tDepth: Texture?
    var tMask: Texture?
    var cameraNear: real
    var cameraFar: real
    var resolutionX: real
    var resolutionY: real

    constructor ()
      ensures tDepth == null && tMask == null && cameraNear == 0.0 && cameraFar == 0.0
      ensures resolutionX == 0.0 && resolutionY == 0.0
    {
      tDepth, tMask := null, null;
      cameraNear, cameraFar := 0.0, 0.0;
      resolutionX, resolutionY := 0.0, 0.0;
    }

    /** `resolution.value.set(x, y)`. */
    method SetResolution(x: real, y: real)
      modifies this
      ensures resolutionX == x && resolutionY == y
      ensures tDepth == old(tDepth) && tMask == old(tMask)
      ensures cameraNear == old(cameraNear) && cameraFar == old(cameraFar)
    {
      resolutionX, resolutionY := x, y;
    }
  }

  /** The constructor sizes the target by the renderer's pixel ratio and the resolution
      by the window's: on a window of some width the two agree exactly when the ratios
      do. */
  lemma ConstructionSizesAgree(window: Window, pixelRatio: real)
    requires window.innerWidth > 0.0
    ensures (&& window.innerWidth * pixelRatio == window.innerWidth * window.devicePixelRatio
             && window.innerHeight * pixelRatio == window.innerHeight * window.devicePixelRatio)
            <==> pixelRatio == window.devicePixelRatio
  {
    if window.innerWidth * pixelRatio == window.innerWidth * window.devicePixelRatio {
      assert window.innerWidth * (pixelRatio - window.devicePixelRatio) == 0.0;
    }
  }

  datatype Outcome = Completed | Threw

  /** Sets `visible` on every listed object: the two loops of `renderDepth`. */
  method SetAllVisible(objects: seq<Object3D>, visible: bool)
    modifies set o | o in objects
    ensures forall o | o in objects :: o.visible == visible
  {
    for k := 0 to |objects|
      invariant forall j | 0 <= j < k :: objects[j].visible == visible
    {
      objects[k].visible := visible;
    }
  }

  /** The cloud mesh (cloud-mesh.js:8-45): the list it hides, its depth target and
      depth material, its material's uniforms and its own `visible` flag. */
  class CloudMesh {
    const depthInvisibleList: ObjectList
    const depthRenderTarget: RenderTarget
    const depthMaterial: DepthMaterial
    const uniforms: CloudUniforms
    var visible: bool

    /** The target's size and the `resolution` uniform are the same pair. */
    ghost predicate InStep()
      reads depthRenderTarget, uniforms
    {
      depthRenderTarget.width == uniforms.resolutionX && depthRenderTarget.height == uniforms.resolutionY
    }

    /** The constructor (cloud-mesh.js:9-43): the list is kept by reference; the target
        is sized by the renderer's pixel ratio, the resolution by the window's; the
        mask and depth uniforms point at the target's two textures. */
    constructor (list: ObjectList, renderer: Renderer, camera: Camera, window: Window)
      ensures depthInvisibleList == list && visible
      ensures fresh(depthRenderTarget) && fresh(depthMaterial) && fresh(uniforms)
      ensures depthRenderTarget.width == window.innerWidth * renderer.pixelRatio
      ensures depthRenderTarget.height == window.innerHeight * renderer.pixelRatio
      ensures uniforms.resolutionX == window.innerWidth * window.devicePixelRatio
      ensures uniforms.resolutionY == window.innerHeight * window.devicePixelRatio
      ensures uniforms.tMask == depthRenderTarget.depthTexture && uniforms.tDepth == depthRenderTarget.texture
      ensures uniforms.cameraNear == camera.near && uniforms.cameraFar == camera.far
      ensures window.innerWidth > 0.0 ==> (InStep() <==> renderer.pixelRatio == window.devicePixelRatio)
    {
      depthInvisibleList := list;
      var pixelRatio := renderer.pixelRatio;
      var target := new RenderTarget(window.innerWidth * pixelRatio, window.innerHeight * pixelRatio);
      depthRenderTarget := target;
      depthMaterial := new DepthMaterial();
      var u := new CloudUniforms();
      u.tMask := target.depthTexture;
      u.tDepth := target.texture;
      u.cameraNear := camera.near;
      u.cameraFar := camera.far;
      u.SetResolution(window.innerWidth * window.devicePixelRatio, window.innerHeight * window.devicePixelRatio);
      uniforms := u;
      visible := true;
      if window.innerWidth > 0.0 {
        ConstructionSizesAgree(window, renderer.pixelRatio);
      }
    }

    /** `resize` (cloud-mesh.js:69-79): target and resolution both become the window
        size times the renderer's pixel ratio, so they are in step afterwards. */
    method Resize(renderer: Renderer, window: Window)
      modifies depthRenderTarget, uniforms
      ensures depthRenderTarget.width == uniforms.resolutionX == window.innerWidth * renderer.pixelRatio
      ensures depthRenderTarget.height == uniforms.resolutionY == window.innerHeight * renderer.pixelRatio
      ensures InStep()
      ensures uniforms.tMask == old(uniforms.tMask) && uniforms.tDepth == old(uniforms.tDepth)
      ensures uniforms.cameraNear == old(uniforms.cameraNear) && uniforms.cameraFar == old(uniforms.cameraFar)
    {
      var pixelRatio := renderer.pixelRatio;
      depthRenderTarget.SetSize(window.innerWidth * pixelRatio, window.innerHeight * pixelRatio);
      uniforms.SetResolution(window.innerWidth * pixelRatio, window.innerHeight * pixelRatio);
    }

    /** `renderDepth` (cloud-mesh.js:47-68). The target is set and cleared, the listed
        objects and the cloud hidden, the depth material installed, and the scene drawn
        once; then target and override are reset and every listed object and the cloud
        are made visible, whatever they were before. There is no `try`/`finally`: if
        the draw throws (`renderThrows`), nothing after it runs, so the objects and the
        cloud stay hidden and the target and override stay set. */
    method RenderDepth(renderer: Renderer, scene: Scene, renderThrows: bool) returns (outcome: Outcome)
      modifies this, renderer, scene, set o | o in depthInvisibleList.items
      ensures outcome == Completed <==> !renderThrows
      ensures renderer.pixelRatio == old(renderer.pixelRatio)
      ensures renderer.log == old(renderer.log) + DepthPass(depthRenderTarget, depthMaterial, outcome)
      ensures outcome == Completed ==>
        && renderer.target == null && scene.overrideMaterial == null
        && visible && forall o | o in depthInvisibleList.items :: o.visible
      ensures outcome == Threw ==>
        && renderer.target == depthRenderTarget && scene.overrideMaterial == depthMaterial
        && !visible && forall o | o in depthInvisibleList.items :: !o.visible
    {
      var objects := depthInvisibleList.items;
      ghost var drawn := renderer.log + DepthPass(depthRenderTarget, depthMaterial, Threw);
      var threw := DrawHidden(renderer, scene, renderThrows);
      if threw {
        outcome := Threw;
      } else {
        renderer.SetRenderTarget(null);
        scene.overrideMaterial := null;
        SetAllVisible(objects, true);
        visible := true;
        outcome := Completed;
        assert renderer.log == drawn + [SetTarget(null)];
      }
    }

    /** The part of `renderDepth` up to and including the draw (cloud-mesh.js:48-58). */
    method DrawHidden(renderer: Renderer, scene: Scene, renderThrows: bool) returns (threw: bool)
      modifies this, renderer, scene, set o | o in depthInvisibleList.items
      ensures threw == renderThrows && renderer.pixelRatio == old(renderer.pixelRatio)
      ensures renderer.log == old(renderer.log) + DepthPass(depthRenderTarget, depthMaterial, Threw)
      ensures renderer.target == depthRenderTarget && scene.overrideMaterial == depthMaterial
      ensures !visible && forall o | o in depthInvisibleList.items :: !o.visible
    {
      var objects := depthInvisibleList.items;
      renderer.SetRenderTarget(depthRenderTarget);
      renderer.ClearTarget();
      SetAllVisible(objects, false);
      visible := false;
      scene.overrideMaterial := depthMaterial;
      assert Shown(objects) == {};
      threw := renderer.Render(scene, objects, visible, renderThrows);
    }
  }

  /** Every depth pass, completed or not, adds exactly one draw to the log. */
  lemma DepthPassAddsOneDraw(log: seq<Event>, t: RenderTarget, m: DepthMaterial, outcome: Outcome)
    ensures Draws(log + DepthPass(t, m, outcome)) == Draws(log) + 1
  {
    DrawsAppend(log, DepthPass(t, m, outcome));
  }

  /** The events one depth pass adds to the log: the depth target set and cleared,
      one draw into it with the depth material and with nothing listed and not the
      cloud visible, and, if the draw returned, the target reset. */
  function DepthPass(t: RenderTarget, m: DepthMaterial, outcome: Outcome): (pass: seq<Event>)
    ensures Draws(pass) == 1
    ensures |pass| == (if outcome == Completed then 4 else 3)
    ensures forall k | 0 <= k < |pass| && pass[k].Draw? :: k == 2 && pass[k] == Draw(t, m, {}, false)
    ensures pass[0] == SetTarget(t) && pass[1] == Clear(t)
    ensures outcome == Completed ==> pass[3] == SetTarget(null)
  {
    var pass := [SetTarget(t), Clear(t), Draw(t, m, {}, false)];
    assert Draws(pass[..1]) == 0 by { assert pass[..1][..0] == []; }
    assert Draws(pass[..2]) == 0 by { assert pass[..2][..1] == pass[..1]; }
    assert Draws(pass) == 1 by { assert pass[..2] == pass[..|pass| - 1]; }
    assert Draws(pass + [SetTarget(null)]) == 1 by { assert (pass + [SetTarget(null)])[..3] == pass; }
    if outcome == Completed then pass + [SetTarget(null)] else pass
  }
}
