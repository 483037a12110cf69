/**
 * The application of main.rs: the asset-loading state machine, the
 * extraction of the camera resource into the render world, the camera that
 * setup inserts, and the cube vertex tables.
 */
module App {
  import opened Glam
  import Camera
  import opened Render

  // ---------------------------------------------------------------------------
  // The window and the initial camera.
  // ---------------------------------------------------------------------------

  const WINDOW_WIDTH: real := 800.0
  const WINDOW_HEIGHT: real := 600.0

  /** The CustomCamera resource that setup inserts. */
  function InitialCamera(m: MathEnv): Camera.CameraState {
    Camera.CameraState(Vec3(0.0, 0.0, 3.0), ToRadians(m, -90.0), ToRadians(m, 0.0), Y, 45.0, 800.0 / 600.0, 0.1, 100.0)
  }

  /**
   * The initial camera starts at the widest field of view the zoom allows,
   * its aspect ratio is the window's, and it looks down the negative z axis
   * towards the origin, with y up.
   */
  lemma InitialCameraLooksAtOrigin(m: MathEnv)
    requires Lawful(m)
    ensures var c := InitialCamera(m);
      && Camera.MIN_FOV <= c.fov <= Camera.MAX_FOV && c.fov == Camera.MAX_FOV
      && c.aspectRatio == WINDOW_WIDTH / WINDOW_HEIGHT
      && 0.0 < c.near < c.far
      && Camera.Direction(m, c.yaw, c.pitch) == Vec3(0.0, 0.0, -1.0)
      && Add(c.position, Scale(Camera.Direction(m, c.yaw, c.pitch), 3.0)) == ZERO
  {
    var c := InitialCamera(m);
    assert c.yaw == -m.pi / 2.0;
    assert c.pitch == 0.0;
    Camera.DirectionIsUnit(m, c.yaw, c.pitch);
  }

  /** Zooming the initial camera out is saturated: the field of view stays at 45. */
  lemma InitialCameraCannotZoomOut(m: MathEnv, amount: real)
    requires amount <= 0.0
    ensures Camera.ZoomedFov(InitialCamera(m).fov, amount) == Camera.MAX_FOV
  {
  }

  /** The derived Default of CustomCamera: every field zero. */
  function DefaultCamera(): Camera.CameraState {
    Camera.CameraState(ZERO, 0.0, 0.0, ZERO, 0.0, 0.0, 0.0, 0.0)
  }

  /**
   * `extract_custom_camera`: when the main world has a CustomCamera, the
   * render world's resource becomes a copy of it; otherwise it is kept.
   */
  method ExtractCustomCamera(mainCamera: Camera.CustomCamera?, renderCamera: Camera.CustomCamera)
    requires mainCamera != renderCamera
    modifies renderCamera
    ensures mainCamera != null ==> renderCamera.State() == mainCamera.State()
    ensures mainCamera == null ==> renderCamera.State() == old(renderCamera.State())
  {
    if mainCamera != null {
      renderCamera.CopyFrom(mainCamera);
    }
  }

  /**
   * The render app's camera over its first extract stage: `init_resource`
   * makes the derived Default, then `extract_custom_camera` runs. The result
   * is the main world's camera when there is one and the all-zero default
   * otherwise; its fov is then 0, outside the zoom range.
   */
  method RenderCameraAfterExtract(mainCamera: Camera.CustomCamera?) returns (renderCamera: Camera.CustomCamera)
    ensures fresh(renderCamera)
    ensures mainCamera != null ==> renderCamera.State() == mainCamera.State()
    ensures mainCamera == null ==> (
      && renderCamera.position == ZERO && renderCamera.up == ZERO
      && renderCamera.yaw == renderCamera.pitch == renderCamera.fov == 0.0
      && renderCamera.aspectRatio == renderCamera.near == renderCamera.far == 0.0)
    ensures mainCamera == null ==> renderCamera.fov < Camera.MIN_FOV
  {
    renderCamera := new Camera.CustomCamera.FromState(DefaultCamera());
    ExtractCustomCamera(mainCamera, renderCamera);
  }

  // ---------------------------------------------------------------------------
  // Asset loading.
  // ---------------------------------------------------------------------------

  datatype AppState = LoadAssets | Main

  /** The asset server's load state of a handle. */
  datatype LoadState = NotLoaded | Loading | Loaded | Failed | Unloaded

  const DIFFUSE_TEXTURE_PATH: string := "textures/container2.png"
  const SPECULAR_TEXTURE_PATH: string := "textures/container2_specular.png"

  /** `textures.iter().all(|t| get_load_state(t) == Loaded)` */
  predicate AllLoaded(textures: seq<Handle>, loadState: Handle -> LoadState) {
    if textures == [] then true
    else AllLoaded(textures[..|textures| - 1], loadState) && loadState(textures[|textures| - 1]) == Loaded
  }

  /** All are loaded exactly when each one is; an empty list is vacuously loaded. */
  lemma {:induction false} AllLoadedEach(textures: seq<Handle>, loadState: Handle -> LoadState)
    ensures AllLoaded(textures, loadState) <==> forall i :: 0 <= i < |textures| ==> loadState(textures[i]) == Loaded
  {
    if textures != [] {
      var init := textures[..|textures| - 1];
      AllLoadedEach(init, loadState);
      assert forall i :: 0 <= i < |init| ==> init[i] == textures[i];
    }
  }

  /** The app's state and the TextureShaderResources resource. */
  class AppWorld {
    var state: AppState
    var textureResources: Option<seq<Handle>>

    /** `insert_resource(TextureShaderResources(None))` and `add_state(AppState::LoadAssets)` */
    constructor ()
      ensures state == LoadAssets && textureResources == None
    {
      state := LoadAssets;
      textureResources := None;
    }

    /** `load_assets`, on entering LoadAssets: the two textures, diffuse first. */
    method LoadAssetsSystem(load: string -> Handle)
      modifies this
      ensures textureResources == Some([load(DIFFUSE_TEXTURE_PATH), load(SPECULAR_TEXTURE_PATH)])
      ensures state == old(state)
    {
      textureResources := Some([load(DIFFUSE_TEXTURE_PATH), load(SPECULAR_TEXTURE_PATH)]);
    }

    /**
     * `assets_loaded`, on every update in LoadAssets: moves to Main exactly
     * when the textures are known and all of them are loaded. The state is
     * LoadAssets while it runs, so setting Main cannot fail.
     */
    method AssetsLoadedSystem(loadState: Handle -> LoadState)
      requires state == LoadAssets
      modifies this
      ensures textureResources == old(textureResources)
      ensures state == Main <==> textureResources.Some? && AllLoaded(textureResources.value, loadState)
      ensures textureResources.None? ==> state == old(state)
    {
      match textureResources {
        case Some(textures) =>
          if AllLoaded(textures, loadState) {
            state := Main;
          }
        case None =>
      }
    }

    /** From a fresh world, one load and one check move to Main exactly when both textures are loaded. */
    method Startup(load: string -> Handle, loadState: Handle -> LoadState)
      requires state == LoadAssets
      modifies this
      ensures state == Main <==>
        loadState(load(DIFFUSE_TEXTURE_PATH)) == Loaded && loadState(load(SPECULAR_TEXTURE_PATH)) == Loaded
    {
      LoadAssetsSystem(load);
      AssetsLoadedSystem(loadState);
      AllLoadedEach(textureResources.value, loadState);
    }
  }

  // ---------------------------------------------------------------------------
  // The cube: six faces of six vertices, two triangles each.
  // ---------------------------------------------------------------------------

  const CUBE: seq<Vec3> := [
    // Face 1
    Vec3(-0.5, -0.5, -0.5),
    Vec3(0.5, -0.5, -0.5),
    Vec3(0.5, 0.5, -0.5),
    Vec3(0.5, 0.5, -0.5),
    Vec3(-0.5, 0.5, -0.5),
    Vec3(-0.5, -0.5, -0.5)
  ] + [
    // Face 2
    Vec3(-0.5, -0.5, 0.5),
    Vec3(0.5, -0.5, 0.5),
    Vec3(0.5, 0.5, 0.5),
    Vec3(0.5, 0.5, 0.5),
    Vec3(-0.5, 0.5, 0.5),
    Vec3(-0.5, -0.5, 0.5)
  ] + [
    // Face 3
    Vec3(-0.5, 0.5, 0.5),
    Vec3(-0.5, 0.5, -0.5),
    Vec3(-0.5, -0.5, -0.5),
    Vec3(-0.5, -0.5, -0.5),
    Vec3(-0.5, -0.5, 0.5),
    Vec3(-0.5, 0.5, 0.5)
  ] + [
    // Face 4
    Vec3(0.5, 0.5, 0.5),
    Vec3(0.5, 0.5, -0.5),
    Vec3(0.5, -0.5, -0.5),
    Vec3(0.5, -0.5, -0.5),
    Vec3(0.5, -0.5, 0.5),
    Vec3(0.5, 0.5, 0.5)
  ] + [
    // Face 5
    Vec3(-0.5, -0.5, -0.5),
    Vec3(0.5, -0.5, -0.5),
    Vec3(0.5, -0.5, 0.5),
    Vec3(0.5, -0.5, 0.5),
    Vec3(-0.5, -0.5, 0.5),
    Vec3(-0.5, -0.5, -0.5)
  ] + [
    // Face 6
    Vec3(-0.5, 0.5, -0.5),
    Vec3(0.5, 0.5, -0.5),
    Vec3(0.5, 0.5, 0.5),
    Vec3(0.5, 0.5, 0.5),
    Vec3(-0.5, 0.5, 0.5),
    Vec3(-0.5, 0.5, -0.5)
  ]

  const CUBE_UV: seq<Vec2> := [
    // Face 1
    Vec2(0.0, 0.0),
    Vec2(1.0, 0.0),
    Vec2(1.0, 1.0),
    Vec2(1.0, 1.0),
    Vec2(0.0, 1.0),
    Vec2(0.0, 0.0)
  ] + [
    // Face 2
    Vec2(0.0, 0.0),
    Vec2(1.0, 0.0),
    Vec2(1.0, 1.0),
    Vec2(1.0, 1.0),
    Vec2(0.0, 1.0),
    Vec2(0.0, 0.0)
  ] + [
    // Face 3
    Vec2(1.0, 0.0),
    Vec2(1.0, 1.0),
    Vec2(0.0, 1.0),
    Vec2(0.0, 1.0),
    Vec2(0.0, 0.0),
    Vec2(1.0, 0.0)
  ] + [
    // Face 4
    Vec2(1.0, 0.0),
    Vec2(1.0, 1.0),
    Vec2(0.0, 1.0),
    Vec2(0.0, 1.0),
    Vec2(0.0, 0.0),
    Vec2(1.0, 0.0)
  ] + [
    // Face 5
    Vec2(0.0, 1.0),
    Vec2(1.0, 1.0),
    Vec2(1.0, 0.0),
    Vec2(1.0, 0.0),
    Vec2(0.0, 0.0),
    Vec2(0.0, 1.0)
  ] + [
    // Face 6
    Vec2(0.0, 1.0),
    Vec2(1.0, 1.0),
    Vec2(1.0, 0.0),
    Vec2(1.0, 0.0),
    Vec2(0.0, 0.0),
    Vec2(0.0, 1.0)
  ]

  const CUBE_NORMALS: seq<Vec3> := [
    // Face 1
    Vec3(0.0, 0.0, -1.0),
    Vec3(0.0, 0.0, -1.0),
    Vec3(0.0, 0.0, -1.0),
    Vec3(0.0, 0.0, -1.0),
    Vec3(0.0, 0.0, -1.0),
    Vec3(0.0, 0.0, -1.0)
  ] + [
    // Face 2
    Vec3(0.0, 0.0, 1.0),
    Vec3(0.0, 0.0, 1.0),
    Vec3(0.0, 0.0, 1.0),
    Vec3(0.0, 0.0, 1.0),
    Vec3(0.0, 0.0, 1.0),
    Vec3(0.0, 0.0, 1.0)
  ] + [
    // Face 3
    Vec3(-1.0, 0.0, 0.0),
    Vec3(-1.0, 0.0, 0.0),
    Vec3(-1.0, 0.0, 0.0),
    Vec3(-1.0, 0.0, 0.0),
    Vec3(-1.0, 0.0, 0.0),
    Vec3(-1.0, 0.0, 0.0)
  ] + [
    // Face 4
    Vec3(1.0, 0.0, 0.0),
    Vec3(1.0, 0.0, 0.0),
    Vec3(1.0, 0.0, 0.0),
    Vec3(1.0, 0.0, 0.0),
    Vec3(1.0, 0.0, 0.0),
    Vec3(1.0, 0.0, 0.0)
  ] + [
    // Face 5
    Vec3(0.0, -1.0, 0.0),
    Vec3(0.0, -1.0, 0.0),
    Vec3(0.0, -1.0, 0.0),
    Vec3(0.0, -1.0, 0.0),
    Vec3(0.0, -1.0, 0.0),
    Vec3(0.0, -1.0, 0.0)
  ] + [
    // Face 6
    Vec3(0.0, 1.0, 0.0),
    Vec3(0.0, 1.0, 0.0),
    Vec3(0.0, 1.0, 0.0),
    Vec3(0.0, 1.0, 0.0),
    Vec3(0.0, 1.0, 0.0),
    Vec3(0.0, 1.0, 0.0)
  ]

  /** The outward normal of each face, in table order. */
  const FACE_NORMALS: seq<Vec3> := [
    Vec3(0.0, 0.0, -1.0), Vec3(0.0, 0.0, 1.0), Vec3(-1.0, 0.0, 0.0),
    Vec3(1.0, 0.0, 0.0), Vec3(0.0, -1.0, 0.0), Vec3(0.0, 1.0, 0.0)
  ]

  predicate Half(x: real) {
    x == 0.5 || x == -0.5
  }

  predicate Bit(x: real) {
    x == 0.0 || x == 1.0
  }

  /** The three tables describe the same 36 vertices, six faces of six. */
  lemma CubeTablesAgree()
    ensures |CUBE| == |CUBE_UV| == |CUBE_NORMALS| == 36 == 6 * |FACE_NORMALS|
  {
  }

  /** Within a face the normal is that face's unit axis vector. */
  lemma CubeNormalsPerFace()
    ensures forall i :: 0 <= i < 36 ==> CUBE_NORMALS[i] == FACE_NORMALS[i / 6]
    ensures forall f :: 0 <= f < 6 ==> LengthSquared(FACE_NORMALS[f]) == 1.0
  {
  }

  /** Every vertex has coordinates of plus or minus one half. */
  lemma CubeVerticesOnHalfUnits()
    ensures forall i :: 0 <= i < 36 ==> Half(CUBE[i].x) && Half(CUBE[i].y) && Half(CUBE[i].z)
  {
  }

  /** Every vertex lies on the plane of its face, half a unit out along the face's normal. */
  lemma CubeVerticesOnFaces()
    ensures forall i :: 0 <= i < 36 ==> Dot(CUBE[i], CUBE_NORMALS[i]) == 0.5
  {
  }

  /** Every UV coordinate is 0 or 1. */
  lemma CubeUvsOnCorners()
    ensures forall i :: 0 <= i < 36 ==> Bit(CUBE_UV[i].x) && Bit(CUBE_UV[i].y)
  {
  }

  /**
   * Face f of a table lists a, b, c, c, d, a for four distinct corners: two
   * triangles across the diagonal from a to c.
   */
  predicate QuadFace<T(==)>(t: seq<T>, f: nat)
    requires 6 * f + 6 <= |t|
  {
    var a, b, c, d := t[6 * f], t[6 * f + 1], t[6 * f + 2], t[6 * f + 4];
    && t[6 * f + 3] == c && t[6 * f + 5] == a
    && a != b && a != c && a != d && b != c && b != d && c != d
  }

  /** Every face of the positions is such a quad. */
  lemma CubeFaceIsQuad(f: nat)
    requires f < 6
    ensures QuadFace(CUBE, f)
  {
    if f == 0 {
      assert QuadFace(CUBE, 0);
    } else if f == 1 {
      assert QuadFace(CUBE, 1);
    } else if f == 2 {
      assert QuadFace(CUBE, 2);
    } else if f == 3 {
      assert QuadFace(CUBE, 3);
    } else if f == 4 {
      assert QuadFace(CUBE, 4);
    } else {
      assert QuadFace(CUBE, 5);
    }
  }

  /** Every face of the UVs is such a quad. */
  lemma CubeUvFaceIsQuad(f: nat)
    requires f < 6
    ensures QuadFace(CUBE_UV, f)
  {
    if f == 0 {
      assert QuadFace(CUBE_UV, 0);
    } else if f == 1 {
      assert QuadFace(CUBE_UV, 1);
    } else if f == 2 {
      assert QuadFace(CUBE_UV, 2);
    } else if f == 3 {
      assert QuadFace(CUBE_UV, 3);
    } else if f == 4 {
      assert QuadFace(CUBE_UV, 4);
    } else {
      assert QuadFace(CUBE_UV, 5);
    }
  }
}
