/** The decisions `create_album_wallpaper` takes before handing pixels to the
    imaging library: background fill, paste offset and output file name. */
module Compositor {
  import opened Results
  import opened Text
  import opened Settings
  import opened Catalog
  import ImageFiles

  /** Top-left corner at which the album art is pasted; may be negative. */
  datatype Placement = Placement(x: int, y: int)

  /** What one call writes: a `width` x `height` canvas filled with `fill`,
      the art fetched from `imageUrl` pasted at `placement`, saved at `path`. */
  datatype WallpaperPlan = WallpaperPlan(
    path: string,
    width: int,
    height: int,
    fill: Rgb,
    imageUrl: string,
    placement: Placement)

  /** Background fill: the art's median colour in "average" mode, black for
      every other setting, a colour tuple included. */
  function BackgroundFill(setting: Background, median: Rgb): (fill: Rgb)
    ensures setting == Named("average") ==> fill == median
    ensures setting != Named("average") ==> fill == Black
  {
    if setting == Named("average") then median else Black
  }

  /** The modes the settings comment lists besides "average", and any colour
      tuple, all fall back to black whatever the art looks like. */
  lemma OtherSettingsFillBlack(c: Rgb, median: Rgb)
    ensures BackgroundFill(Named("blured"), median) == Black
    ensures BackgroundFill(Named("grain"), median) == Black
    ensures BackgroundFill(Fixed(c), median) == Black
  {
  }

  /** One axis of the paste offset, `(canvas - size) // 2`: the largest
      start that leaves at least as much room after the art as before it. */
  function CenterOffset(canvas: int, size: int): (start: int)
    ensures 2 * start <= canvas - size <= 2 * start + 1
    ensures 0 <= size <= canvas ==> 0 <= start && start + size <= canvas
    ensures size > canvas ==> start < 0
    ensures 0 <= (canvas - (start + size)) - start <= 1
  {
    (canvas - size) / 2
  }

  /** `f"{folder}/{track_name}.png"`, the file name before normalisation. */
  function WallpaperPath(folder: string, trackName: string): (path: string)
    ensures EndsWith(path, ".png")
    ensures |path| == |folder| + |trackName| + 5
    ensures path[..|folder|] == folder && path[|folder|] == '/'
    ensures path[|folder| + 1..|path| - 4] == trackName
  {
    var path := folder + "/" + trackName + ".png";
    EndsWithAppend(folder + "/" + trackName, ".png");
    assert path[..|folder|] == folder;
    assert path[|folder| + 1..|path| - 4] == trackName;
    path
  }

  /** Two tracks get the same file exactly when their names are equal, so a
      later track overwrites an earlier one of the same name. */
  lemma WallpaperPathCollides(folder: string, a: string, b: string)
    ensures WallpaperPath(folder, a) == WallpaperPath(folder, b) <==> a == b
  {
    if WallpaperPath(folder, a) == WallpaperPath(folder, b) {
      var p := WallpaperPath(folder, a);
      assert a == p[|folder| + 1..|p| - 4] == b;
    }
  }

  /** A written wallpaper passes the image check whenever ".png" is configured. */
  lemma WallpaperPathIsImage(cfg: Config, trackName: string)
    requires ".png" in cfg.imageExtensions
    ensures ImageFiles.IsImage(cfg.imageExtensions, WallpaperPath(cfg.folder, trackName))
    ensures ImageFiles.IsImage(cfg.imageExtensions, trackName + ".png")
  {
    ImageFiles.IsImageHasSuffix(cfg.imageExtensions, WallpaperPath(cfg.folder, trackName));
    ImageFiles.IsImageHasSuffix(cfg.imageExtensions, trackName + ".png");
    EndsWithAppend(trackName, ".png");
  }

  /** The box of the declared size `[x, x + w) x [y, y + h)`, with `w` and `h`
      the width and height the response reports, is centred on the canvas, to
      within one pixel towards the top-left. */
  predicate CenteredOn(plan: WallpaperPlan, image: AlbumImage) {
    && 0 <= (plan.width - (plan.placement.x + image.width)) - plan.placement.x <= 1
    && 0 <= (plan.height - (plan.placement.y + image.height)) - plan.placement.y <= 1
  }

  /** The box of the declared size lies inside the canvas. */
  predicate InsideCanvas(plan: WallpaperPlan, image: AlbumImage) {
    && 0 <= plan.placement.x && plan.placement.x + image.width <= plan.width
    && 0 <= plan.placement.y && plan.placement.y + image.height <= plan.height
  }

  /** `create_album_wallpaper` for one track; `medianOf` stands for fetching
      the art at a URL and taking its per-channel median. */
  function CreateAlbumWallpaper(cfg: Config, track: Track, medianOf: string -> Rgb): (r: Result<WallpaperPlan, Error>)
    ensures r.Ok? <==> HasAlbumImage(track)
    ensures r.Err? ==> r.error == MissingAlbumImage(track.name)
    ensures r.Ok? ==>
      var image := track.album.images[0];
      && r.value.width == cfg.width && r.value.height == cfg.height
      && r.value.imageUrl == image.url
      && r.value.path == WallpaperPath(cfg.folder, track.name)
      && (cfg.background == Named("average") ==> r.value.fill == medianOf(image.url))
      && (cfg.background != Named("average") ==> r.value.fill == Black)
      && CenteredOn(r.value, image)
      && (0 <= image.width <= cfg.width && 0 <= image.height <= cfg.height ==> InsideCanvas(r.value, image))
  {
    if !HasAlbumImage(track) then Err(MissingAlbumImage(track.name))
    else
      var image := track.album.images[0];
      Ok(WallpaperPlan(
        WallpaperPath(cfg.folder, track.name),
        cfg.width,
        cfg.height,
        BackgroundFill(cfg.background, medianOf(image.url)),
        image.url,
        Placement(CenterOffset(cfg.width, image.width), CenterOffset(cfg.height, image.height))))
  }

  /** A 300 x 300 cover on the shipped 1920 x 1080 canvas in "average" mode
      is pasted at (810, 390) over its own median colour. */
  lemma SongAExample(red: Rgb)
    ensures
      var track := Track("Song A", Album([AlbumImage("http://x/img.png", 300, 300)]));
      var r := CreateAlbumWallpaper(Default, track, _ => red);
      && r.Ok?
      && r.value.placement == Placement(810, 390)
      && r.value.fill == red
      && r.value.width == 1920 && r.value.height == 1080
      && r.value.path == Default.folder + "/Song A.png"
  {
  }
}
