/** src/texture.ts: the three.js pipeline. The cube texture comes from the
    panorama or from six face URLs, then one plane is rendered per entry of the
    face table with that entry's viewing angle and captured as a texture. */
module ThreeTexture {
  import opened Wrappers
  import opened Vectors
  import opened Canvas2D
  import opened WebGL
  import opened Common
  import Orthographic

  /** The built-in placeholder image, a data URL. */
  const Missing: string := "data:image/png;base64,iVBORw0KGgoAAAANSUhEUgAAAgAAAAIAAQMAAADOtka5AAAAAXNSR0IArs4c6QAAAARnQU1BAACxjwv8YQUAAAAGUExURf8A/wAAAJ+mFPIAAAAJcEhZcwAADsIAAA7CARUoSoAAAACTSURBVHja7c4xDQAACASx928aJDAwQXoCmstUDQEAAAAAAAAAAAAAAAAAAAAAAAAAAAAAAAAAAAAAAAAAAAAAAAAAAAAAAAAAAAAAAAAAAAAAAAAAbIEDiwAAAAAAAAAAAAAAAAAAAAAAAAAAAAAAAAAAAAAAAAAAAAAAAAAAAAAAAAAAAAAAAAAAAAAAAAA+A0kDXH3Dske5kGcAAAAASUVORK5CYII="

  /** A face and its viewing angle (phi, theta) in quarter turns. */
  datatype FaceInfo = FaceInfo(face: Direction, angle: (int, int))

  const Faces: seq<FaceInfo> := [
    FaceInfo(North, (0, 0)),
    FaceInfo(South, (0, 1)),
    FaceInfo(West, (0, 2)),
    FaceInfo(East, (0, 3)),
    FaceInfo(Up, (1, 2)),
    FaceInfo(Down, (-1, 2))
  ]

  /** The face table lists the six sides in their canonical order, with the
      same angles as the WebGL hemisphere renderer. */
  lemma FacesTable()
    ensures |Faces| == 6
    ensures forall i :: 0 <= i < 6 ==> Faces[i].face == Sides[i] && Faces[i].angle == Orthographic.HemisphereAngles[i]
    ensures forall i :: 0 <= i < 4 ==> Faces[i].angle == (0, i)
  {
  }

  /** `mapping == 'equirectangular' && equirectangular`. */
  predicate TakesPanorama(opts: Options)
  {
    opts.mapping == Equirectangular && Truthy(opts.equirectangular)
  }

  /** `[north, south, west, east, up, down].map(side => side && mapping == 'cube' ? side : missing)`. */
  function CubeUrls(opts: Options): (urls: seq<string>)
    ensures |urls| == 6
    ensures forall i :: 0 <= i < 6 ==>
      urls[i] == if Truthy(SideSource(opts, Sides[i])) && opts.mapping == Cube then SideSource(opts, Sides[i]).value else Missing
  {
    var sources := [opts.north, opts.south, opts.west, opts.east, opts.up, opts.down];
    seq(6, i requires 0 <= i < 6 => if Truthy(sources[i]) && opts.mapping == Cube then sources[i].value else Missing)
  }

  /** In panorama mode the cube path only happens without a panorama, and then
      every face is the placeholder whatever the face sources say. */
  lemma PanoramaWithoutImageIsAllMissing(opts: Options)
    requires opts.mapping == Equirectangular
    ensures forall i :: 0 <= i < 6 ==> CubeUrls(opts)[i] == Missing
  {
  }

  /** In cube mode a face keeps its own source exactly when that source is set. */
  lemma CubeModeKeepsSetSources(opts: Options, i: nat)
    requires opts.mapping == Cube && i < 6
    ensures Truthy(SideSource(opts, Sides[i])) ==> CubeUrls(opts)[i] == SideSource(opts, Sides[i]).value
    ensures !Truthy(SideSource(opts, Sides[i])) ==> CubeUrls(opts)[i] == Missing
  {
  }

  /** The cube texture the loaders resolve to: the panorama converted to a cube
      of the given side, or six face images in side order. */
  datatype CubeTexture = Panorama(image: Image, length: nat) | FaceImages(images: seq<Image>)

  /** The rejection of a three.js loader, identified by the URL that failed. */
  function LoadFailure(url: string): Error
  {
    Error(url)
  }

  /** `CubeTextureLoader.loadAsync(urls)`: all images, or the first URL in order that fails. */
  function LoadUrls(host: Host, urls: seq<string>): (r: Result<seq<Image>, Error>)
    ensures r.Success? <==> forall i :: 0 <= i < |urls| ==> urls[i] in host.decodable
    ensures r.Success? ==> |r.value| == |urls| && forall i :: 0 <= i < |urls| ==> r.value[i] == host.decodable[urls[i]]
    ensures r.Failure? ==> exists i :: 0 <= i < |urls| && urls[i] !in host.decodable && r.error == LoadFailure(urls[i])
  {
    if urls == [] then Success([])
    else if urls[0] !in host.decodable then Failure(LoadFailure(urls[0]))
    else
      var rest := LoadUrls(host, urls[1..]);
      assert forall i :: 1 <= i < |urls| ==> urls[i] == urls[1..][i - 1];
      if rest.Failure? then Failure(rest.error)
      else Success([host.decodable[urls[0]]] + rest.value)
  }

  /** `loadTexture(renderer, opts)`. */
  function LoadTexture(opts: Options, host: Host): (r: Result<CubeTexture, Error>)
    ensures r.Success? && r.value.Panorama? <==> TakesPanorama(opts) && opts.equirectangular.value in host.decodable
    ensures r.Success? && r.value.Panorama? ==> r.value.length == opts.textureLength
    ensures r.Success? && r.value.FaceImages? ==> |r.value.images| == 6
  {
    if TakesPanorama(opts) then
      var url := opts.equirectangular.value;
      if url in host.decodable then Success(Panorama(host.decodable[url], opts.textureLength))
      else Failure(LoadFailure(url))
    else
      var images := LoadUrls(host, CubeUrls(opts));
      if images.Failure? then Failure(images.error) else Success(FaceImages(images.value))
  }

  /** The panorama path fails only on the panorama itself; the cube path loads
      face i from its own source or from the placeholder. */
  lemma LoadTextureSources(opts: Options, host: Host)
    ensures TakesPanorama(opts) ==> (LoadTexture(opts, host).Failure? <==> opts.equirectangular.value !in host.decodable)
    ensures !TakesPanorama(opts) ==>
      (LoadTexture(opts, host).Success? <==> forall i :: 0 <= i < 6 ==> CubeUrls(opts)[i] in host.decodable)
    ensures !TakesPanorama(opts) && LoadTexture(opts, host).Success? ==>
      forall i :: 0 <= i < 6 ==> LoadTexture(opts, host).value.images[i] == host.decodable[CubeUrls(opts)[i]]
  {
  }

  /** One render of the plane: the cube texture with its magnification filter,
      the rotation and the viewing angle the material holds at the time. */
  datatype Capture = Capture(cubemap: CubeTexture, magFilter: Filter, rotation: Orthographic.Quat, angle: (int, int))

  datatype TextureInfo = TextureInfo(face: Direction, texture: Capture)

  /** The shader material of the plane; only its `angle` uniform changes between renders. */
  class PlaneMaterial {
    const cubemap: CubeTexture
    const magFilter: Filter
    const rotation: Orthographic.Quat
    var angle: (int, int)

    constructor (cubemap: CubeTexture, magFilter: Filter, rotation: Orthographic.Quat)
      ensures this.cubemap == cubemap && this.magFilter == magFilter && this.rotation == rotation && angle == (0, 0)
    {
      this.cubemap, this.magFilter, this.rotation := cubemap, magFilter, rotation;
      angle := (0, 0);
    }

    /** `renderer.render(scene, camera)` followed by `toDataURL()`. */
    method Render() returns (c: Capture)
      ensures c == Capture(cubemap, magFilter, rotation, angle)
    {
      c := Capture(cubemap, magFilter, rotation, angle);
    }
  }

  /** `generateTextures(opts)`, with the Euler-to-quaternion conversion given as `toQuat`:
      the load error, or one texture per face in side order, rendered at that
      face's angle with the requested rotation, magnified linearly exactly when
      smoothing is on. */
  method GenerateTextures(opts: Options, host: Host, toQuat: Vec3 -> Orthographic.Quat) returns (r: Result<seq<TextureInfo>, Error>)
    ensures r.Failure? <==> LoadTexture(opts, host).Failure?
    ensures r.Failure? ==> r.error == LoadTexture(opts, host).error
    ensures r.Success? ==> |r.value| == 6 && forall i :: 0 <= i < 6 ==>
      && r.value[i].face == Sides[i]
      && r.value[i].texture.cubemap == LoadTexture(opts, host).value
      && (r.value[i].texture.magFilter == Linear <==> opts.smoothing)
      && r.value[i].texture.rotation == toQuat(opts.rotation)
      && r.value[i].texture.angle == Orthographic.HemisphereAngles[i]
  {
    var texture := LoadTexture(opts, host);
    if texture.Failure? {
      return Failure(texture.error);
    }
    var magFilter := if opts.smoothing then Linear else Nearest;
    var material := new PlaneMaterial(texture.value, magFilter, toQuat(opts.rotation));
    FacesTable();
    var output := [];
    for i := 0 to |Faces|
      invariant material.cubemap == texture.value && material.magFilter == magFilter && material.rotation == toQuat(opts.rotation)
      invariant |output| == i
      invariant forall j :: 0 <= j < i ==> output[j] == TextureInfo(Faces[j].face, Capture(texture.value, magFilter, toQuat(opts.rotation), Faces[j].angle))
    {
      material.angle := Faces[i].angle;
      var c := material.Render();
      output := output + [TextureInfo(Faces[i].face, c)];
    }
    r := Success(output);
  }
}
