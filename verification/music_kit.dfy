/** The MusicKit values the screens read, reduced to the fields they use.
    Every MusicKit call (catalog search, resource requests, the player) is
    outside this model; its outcomes enter the operations as parameters. */
module MusicKit {

  /** A wall-clock reading (`Date()`), in whole milliseconds. */
  type Instant = int

  /** `MusicItemID` is represented by its raw string value. */
  datatype Album = Album(id: string, title: string, artistName: string)

  datatype Song = Song(id: string, title: string, artistName: string)

  datatype Artist = Artist(id: string, name: string)

  datatype Track = Track(id: string, title: string)

  /** The three result lists of one `MusicCatalogSearchRequest`. */
  datatype SearchResponse = SearchResponse(albums: seq<Album>, songs: seq<Song>, artists: seq<Artist>)

  /** `MusicPlayer.PlaybackStatus`; `Unrecognized` stands for any case added
      after the code was written (its `@unknown default` branches). */
  datatype PlaybackStatus =
    | Playing
    | Paused
    | Stopped
    | Interrupted
    | SeekingForward
    | SeekingBackward
    | Unrecognized
}

/** The SwiftUI colours the screens pick from. */
module Palette {
  datatype Color = Blue | Green | Orange | Gray | Red | Yellow
}
