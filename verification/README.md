# Album-art wallpaper generator — Dafny model

The program fetches the user's liked tracks from a music service, composites
each track's album art centred on a fixed-size canvas, saves that canvas as
`<folder>/<track name>.png`, and sets one of the written files, picked at
random, as the desktop background.

This project models the deterministic decisions beneath that I/O:

- `Settings`: the configuration constants as one immutable `Config` record,
  with `Default` holding the shipped values (average background, 1920 x 1080,
  source "liked", 20 tracks from offset 0, extensions ".png" and ".jpg").
- `Catalog`: the fields of the saved-tracks response the program reads
  (track name, album image URL and declared size).
- `ImageFiles`: the extension check `is_image` and the listing filter of
  `get_wallpaper_paths`.
- `Compositor`: background fill, paste offset and output path of
  `create_album_wallpaper`. A call yields a `WallpaperPlan`: the canvas it
  would save and the path it would save it to.
- `Pipeline`: track projection, one wallpaper per track, the random pick,
  and the entry point.
- `Results`: the failures the program raises, as returned values.

The music service response, the album art's median colour and the folder
listing are inputs. The median is a function from image URL to colour. The
random pick is a nondeterministic choice; its only promise is membership.

Two behaviours of the code are kept as written:

- The settings comment (main.py:13) lists a colour tuple, but the code fills
  black for it (main.py:110-113).
- The code does not reject an art larger than the canvas: the offset goes
  negative and the paste goes ahead (main.py:119-121).

`get_random_wallpaper` returns a name from the folder listing, not a path
inside the folder, although its docstring says "Path". The model keeps this:
`Pipeline.GetRandomWallpaper` returns a listing entry. The entry point does
not use this function.

## Model

| member | source | states |
|---|---|---|
| `ImageFiles.IsImageHasSuffix` | main.py:149-153 | the early-return scan over the extensions accepts a path exactly when it ends, case-sensitively, with one of the extensions |
| `ImageFiles.DefaultIsImage` | main.py:26 | with the shipped extensions, a path is an image exactly when it ends with ".png" or ".jpg" |
| `ImageFiles.IsImageExamples` | main.py:142-147 | the documented examples hold ("backgrounds/test.png" and ".jpg" accepted, ".pdf" rejected), and "x.PNG" is rejected |
| `ImageFiles.FilterImages` | main.py:166-167 | a name is in the filtered listing exactly when it is listed and is an image |
| `ImageFiles.FilterImagesExact` | main.py:166-167 | the filtered listing holds each image name as often as the listing does and no other name, in listing order (a subsequence of the listing) |
| `ImageFiles.FilterImagesIdempotent` | main.py:166-167 | algebraic property of the filter: applying it to its own result changes nothing |
| `ImageFiles.FilterImagesAppend` | main.py:166-167 | algebraic property of the filter: it distributes over concatenation, keeping order |
| `Compositor.BackgroundFill` | main.py:110-113 | the fill is the supplied median when the setting is "average" and black for every other setting |
| `Compositor.OtherSettingsFillBlack` | main.py:12-14 | "blured", "grain" and any colour tuple all give black, whatever the median |
| `Compositor.CenterOffset` | main.py:119-120 | the offset is the floor of half the size difference; an art no larger than the canvas lies inside it, a larger one gets a negative offset, and the margin after exceeds the margin before by 0 or 1 |
| `Compositor.WallpaperPath` | main.py:124-125 | the path is the folder, "/", the track name and ".png"; it ends with ".png" |
| `Compositor.WallpaperPathCollides` | main.py:124-128 | two track names give the same output path string exactly when they are equal, so same-named tracks overwrite each other |
| `Compositor.WallpaperPathIsImage` | main.py:124-125 | a written wallpaper's path and file name pass the image check whenever ".png" is a configured extension |
| `Compositor.CreateAlbumWallpaper` | main.py:87-130 | fails exactly when the album has no image; otherwise the canvas has the configured size, the first image's art is centred to within a pixel (inside the canvas when it fits), the fill follows the background setting, and the path is built from the track name |
| `Compositor.SongAExample` | main.py:110-125 | a 300 x 300 cover in "average" mode on the shipped canvas is pasted at (810, 390) over its median colour and saved as "Song A.png" in the folder |
| `Pipeline.TracksOf` | main.py:60-61 | the projection holds each item's track, same length, same order |
| `Pipeline.SpotifyTracks` | main.py:57-63 | in "liked" mode the tracks are the items' tracks in order; any other source gives no tracks |
| `Pipeline.TracksOfAppend` | main.py:60-61 | algebraic property of the projection: it distributes over concatenation, keeping order |
| `Pipeline.CreateAlbumWallpapers` | main.py:66-84 | every track gets one wallpaper, in track order, and path strings coincide exactly when track names do; the first track without art aborts the run with that track's error, and the wallpapers of the tracks before it stay written |
| `Pipeline.RandomChoice` | main.py:205-206 | a non-empty list yields one of its elements; an empty list is an error |
| `Pipeline.WallpaperNames` | main.py:156-169 | the wallpaper names are the image names of the listing, each as often as listed, in listing order |
| `Pipeline.GetRandomWallpaper` | main.py:172-184 | yields an image name from the listing, and fails exactly when the listing holds no image |
| `Pipeline.Run` | main.py:211-217 | succeeds exactly in "liked" mode with at least one track and art for every track; the chosen path is the wallpaper path of one of the tracks; outside "liked" mode nothing is written and the random pick fails; a "liked" run with no saved tracks fails with the empty-choice error, and that error comes back exactly outside "liked" mode or for an empty response; a failed "liked" run with saved tracks stops at the first track without art, with that track's error, after writing the tracks before it |

## Left out

- OAuth and the music-service client (`create_spotify_oauth`, the saved-tracks call): foreign library calls. The response items are an input. The query bounds live in `Config` but nothing checks them.
- `image_from_url`: an HTTP fetch and image decoding. Only the URL and the declared width and height are modelled.
- The per-channel median of the art and the imaging library's canvas, paste and save: pixels are not modelled. The median is an input (`medianOf`). A median with other than three channels (for example RGBA art) is not modelled.
- Failures of the fetch and decode (main.py:107) and of the save (main.py:128) are not modelled. These include track names the file system refuses (`?`, `:`, `"`, `*`, `|`, `<`, `>`, or a `/` naming a missing folder such as "AC/DC") and names that differ only in case, which collide on a case-insensitive file system. So the "exactly when" contracts of `Compositor.CreateAlbumWallpaper`, `Pipeline.CreateAlbumWallpapers` and `Pipeline.Run` cover only the failures the model has: a missing album image and an empty random pick.
- Pixel clipping when the art is larger than the canvas is not modelled. Only the offset is.
- `os.path.abspath` and `os.listdir`: operating-system path behaviour. The path is the string before normalisation, and the listing is an input.
- `set_wallpaper`: a Windows system call whose result is ignored. `Pipeline.Run` returns the path it would pass.
- Randomness itself: the pick is nondeterministic, and uniformity is not stated.
- Missing or `None` fields in the service's JSON are not modelled. Every track has a name and an album with an image list.
- `WALLPAPER_DISPLAY_TRACK_INFO` is a field of `Config` but no code reads it.
