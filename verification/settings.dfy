/** The script's configuration constants as one immutable record. */
module Settings {

  type Channel = x: int | 0 <= x <= 255

  datatype Rgb = Rgb(red: Channel, green: Channel, blue: Channel)

  const Black := Rgb(0, 0, 0)

  /** The background setting is either a mode name ("average", "blured",
      "grain", ...) or a colour tuple. */
  datatype Background = Named(mode: string) | Fixed(colour: Rgb)

  datatype Config = Config(
    background: Background,
    width: int,              // canvas width in pixels
    height: int,             // canvas height in pixels
    trackInfo: string,       // declared but read nowhere
    folder: string,          // output folder, as written (before path normalisation)
    source: string,          // "liked", "playlist" or "artist"
    queryCount: int,         // page size passed to the saved-tracks query
    queryOffset: int,        // page offset passed to the saved-tracks query
    imageExtensions: seq<string>)

  /** The values the script ships with. */
  const Default := Config(
    Named("average"),
    1920,
    1080,
    "none",
    "C:\\Users\\Karsten Pedersen\\Pictures\\generated-album-wallpapers",
    "liked",
    20,
    0,
    [".png", ".jpg"])
}
