/** The script's stages wired together: fetch the liked tracks, write one
    wallpaper per track, pick one at random. */
module Pipeline {
  import opened Results
  import opened Settings
  import opened Catalog
  import opened Compositor
  import ImageFiles

  /** The `track` field of every item, in order. */
  function TracksOf(items: seq<SavedItem>): (tracks: seq<Track>)
    ensures |tracks| == |items|
    ensures forall i :: 0 <= i < |items| ==> tracks[i] == items[i].track
    decreases |items|
  {
    if |items| == 0 then [] else [items[0].track] + TracksOf(items[1..])
  }

  /** `get_spotify_tracks`: `items` is the saved-tracks response for
      (`queryCount`, `queryOffset`); only the "liked" source is implemented,
      every other source silently yields no tracks. */
  function SpotifyTracks(cfg: Config, items: seq<SavedItem>): (tracks: seq<Track>)
    ensures cfg.source == "liked" ==>
      |tracks| == |items| && forall i :: 0 <= i < |items| ==> tracks[i] == items[i].track
    ensures cfg.source != "liked" ==> tracks == []
  {
    if cfg.source == "liked" then TracksOf(items) else []
  }

  /** The projection distributes over concatenation, keeping order. */
  lemma {:induction false} TracksOfAppend(a: seq<SavedItem>, b: seq<SavedItem>)
    ensures TracksOf(a + b) == TracksOf(a) + TracksOf(b)
  {
    assert |TracksOf(a + b)| == |TracksOf(a) + TracksOf(b)|;
    forall i | 0 <= i < |a| + |b|
      ensures TracksOf(a + b)[i] == (TracksOf(a) + TracksOf(b))[i]
    {
      if i < |a| {
        assert (a + b)[i] == a[i];
      } else {
        assert (a + b)[i] == b[i - |a|];
      }
    }
  }

  /** `create_album_wallpapers`: one wallpaper per track, in track order. The
      first track without album art aborts the run; the wallpapers of the
      tracks before it stay written. */
  method CreateAlbumWallpapers(cfg: Config, tracks: seq<Track>, medianOf: string -> Rgb)
    returns (paths: Result<seq<string>, Error>, written: seq<WallpaperPlan>)
    ensures paths.Ok? <==> forall i :: 0 <= i < |tracks| ==> HasAlbumImage(tracks[i])
    ensures |written| <= |tracks|
    ensures forall i :: 0 <= i < |written| ==>
      CreateAlbumWallpaper(cfg, tracks[i], medianOf) == Ok(written[i])
    ensures paths.Ok? ==>
      && |paths.value| == |written| == |tracks|
      && forall i :: 0 <= i < |tracks| ==> paths.value[i] == WallpaperPath(cfg.folder, tracks[i].name)
    ensures paths.Err? ==>
      && |written| < |tracks|
      && !HasAlbumImage(tracks[|written|])
      && paths.error == MissingAlbumImage(tracks[|written|].name)
    ensures paths.Ok? ==> forall i, j :: 0 <= i < |tracks| && 0 <= j < |tracks| ==>
      (paths.value[i] == paths.value[j] <==> tracks[i].name == tracks[j].name)
  {
    var done: seq<string> := [];
    written := [];
    var k := 0;
    while k < |tracks|
      invariant 0 <= k <= |tracks|
      invariant |done| == |written| == k
      invariant forall i :: 0 <= i < k ==> CreateAlbumWallpaper(cfg, tracks[i], medianOf) == Ok(written[i])
      invariant forall i :: 0 <= i < k ==> done[i] == written[i].path
    {
      var r := CreateAlbumWallpaper(cfg, tracks[k], medianOf);
      if r.Err? {
        return Err(r.error), written;
      }
      written := written + [r.value];
      done := done + [r.value.path];
      k := k + 1;
    }
    forall i, j | 0 <= i < |tracks| && 0 <= j < |tracks|
      ensures done[i] == done[j] <==> tracks[i].name == tracks[j].name
    {
      WallpaperPathCollides(cfg.folder, tracks[i].name, tracks[j].name);
    }
    paths := Ok(done);
  }

  /** `random.choice`: any element of a non-empty list; an empty list is an error. */
  method RandomChoice<T>(xs: seq<T>) returns (r: Result<T, Error>)
    ensures r.Ok? <==> |xs| > 0
    ensures r.Ok? ==> r.value in xs
    ensures r.Err? ==> r.error == EmptyChoice
  {
    if |xs| == 0 {
      return Err(EmptyChoice);
    }
    var i :| 0 <= i < |xs|;
    return Ok(xs[i]);
  }

  /** `get_wallpaper_paths`: the image names of a listing of the output folder. */
  function WallpaperNames(cfg: Config, listing: seq<string>): (names: seq<string>)
    ensures forall n :: n in names <==> n in listing && ImageFiles.IsImage(cfg.imageExtensions, n)
    ensures forall n :: multiset(names)[n]
                        == if ImageFiles.IsImage(cfg.imageExtensions, n) then multiset(listing)[n] else 0
    ensures ImageFiles.IsSubsequence(names, listing)
  {
    ImageFiles.FilterImagesExact(cfg.imageExtensions, listing);
    ImageFiles.FilterImages(cfg.imageExtensions, listing)
  }

  /** `get_random_wallpaper`: a random image name from a listing of the output
      folder; fails when the listing holds no image. */
  method GetRandomWallpaper(cfg: Config, listing: seq<string>) returns (r: Result<string, Error>)
    ensures r.Ok? <==> exists n :: n in listing && ImageFiles.IsImage(cfg.imageExtensions, n)
    ensures r.Ok? ==> r.value in listing && ImageFiles.IsImage(cfg.imageExtensions, r.value)
    ensures r.Err? ==> r.error == EmptyChoice
  {
    var names := WallpaperNames(cfg, listing);
    if |names| > 0 {
      assert names[0] in names;
    }
    r := RandomChoice(names);
  }

  /** The script's entry point: make the wallpapers of the liked tracks in
      `items` and choose the one to set as the desktop background. */
  method Run(cfg: Config, items: seq<SavedItem>, medianOf: string -> Rgb)
    returns (chosen: Result<string, Error>, written: seq<WallpaperPlan>)
    ensures chosen.Ok? <==>
      && cfg.source == "liked"
      && |items| > 0
      && forall i :: 0 <= i < |items| ==> HasAlbumImage(items[i].track)
    ensures chosen.Ok? ==>
      exists i :: 0 <= i < |items| && chosen.value == WallpaperPath(cfg.folder, items[i].track.name)
    ensures chosen.Ok? ==> |written| == |items|
    ensures |written| <= |items|
    ensures forall i :: 0 <= i < |written| ==>
      CreateAlbumWallpaper(cfg, items[i].track, medianOf) == Ok(written[i])
    ensures cfg.source != "liked" ==> written == [] && chosen == Err(EmptyChoice)
    ensures chosen == Err(EmptyChoice) <==> cfg.source != "liked" || |items| == 0
    ensures cfg.source == "liked" && chosen.Err? && |items| > 0 ==>
      && |written| < |items|
      && !HasAlbumImage(items[|written|].track)
      && chosen == Err(MissingAlbumImage(items[|written|].track.name))
  {
    var tracks := SpotifyTracks(cfg, items);
    var paths;
    paths, written := CreateAlbumWallpapers(cfg, tracks, medianOf);
    if paths.Err? {
      return Err(paths.error), written;
    }
    chosen := RandomChoice(paths.value);
    if chosen.Ok? {
      var i :| 0 <= i < |paths.value| && paths.value[i] == chosen.value;
      assert chosen.value == WallpaperPath(cfg.folder, items[i].track.name);
    }
  }
}
