/** Track descriptors and the one song list that the command line, the status listener and the
    playback backends all hold a reference to. */
module Songs {

  /** A playable track, with the six fields the catalog client fills in, in their order. */
  datatype Song = Song(
    title: string,
    albumName: string,
    artist: string,
    url: string,
    contentType: string,
    albumArt: string)

  /** What a backend's play request reports: it went ahead, or `NoSongsToPlayException` was raised. */
  datatype Outcome = Ok | NoSongsToPlay

  /** The shared, mutable Python list of songs. Every holder keeps a reference to this one
      object, so a change made through one holder is seen by all of them. */
  class SongList {
    var items: seq<Song>

    constructor ()
      ensures items == []
    {
      items := [];
    }

    /** `songs.clear()` */
    method Clear()
      modifies this
      ensures items == []
    {
      items := [];
    }

    /** `songs.extend(xs)` */
    method Extend(xs: seq<Song>)
      modifies this
      ensures items == old(items) + xs
    {
      items := items + xs;
    }

    /** `songs.pop(0)` on a non-empty list; callers handle the empty case themselves. */
    method PopHead() returns (head: Song)
      requires items != []
      modifies this
      ensures head == old(items)[0] && items == old(items)[1..]
    {
      head := items[0];
      items := items[1..];
    }
  }
}
