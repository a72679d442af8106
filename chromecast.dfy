/** The remote-cast backend: the device commands it issues, the status listener that advances
    the shared queue, and device lookup. */
module Chromecast {
  import opened Base
  import opened Songs

  /** The Cast media metadata type of a music track. */
  const MusicTrackMetadata := 3

  /** The reason the device reports when a track played to its end. */
  const FinishedReason := "FINISHED"

  datatype MediaMetadata = MediaMetadata(metadataType: int, albumName: string, title: string, artist: string)

  /** The calls made on the device and its media controller, recorded in order. */
  datatype CastCommand =
    | PlayMedia(url: string, contentType: string, title: string, mediaInfo: MediaMetadata, thumb: string)
    | Play
    | Pause
    | SetVolume(level: real)
    | VolumeUp(up: real)
    | VolumeDown(down: real)
    | QuitApp

  /** The player state the device last reported. */
  datatype PlayerState = PlayerPlaying | PlayerPaused | PlayerIdle

  /** `status.player_is_playing` */
  predicate IsPlaying(s: PlayerState) { s == PlayerPlaying }

  /** `is_paused` */
  predicate IsPaused(s: PlayerState) { s == PlayerPaused }

  /** A status event: whether the player is idle and, if given, the reason. */
  datatype MediaStatus = MediaStatus(playerIsIdle: bool, idleReason: Option<string>)

  /** `ChromecastNotFoundException`, carrying the friendly name that was looked up. */
  datatype ChromecastNotFound = ChromecastNotFound(keyword: string)

  /** The song a play command starts, read back from the command's own fields. */
  function PlayedSong(c: CastCommand): Option<Song> {
    match c
    case PlayMedia(url, contentType, title, info, thumb) =>
      Some(Song(title, info.albumName, info.artist, url, contentType, thumb))
    case _ => None
  }

  /** The signed volume change a relative volume command asks for. */
  function SignedDelta(c: CastCommand): real {
    match c
    case VolumeUp(d) => d
    case VolumeDown(d) => -d
    case _ => 0.0
  }

  /** `play_on_chromecast(song, controller)`: one `play_media` call whose fields carry the song
      unchanged, with music-track metadata whose title agrees with the call's title. */
  function PlayOnChromecast(song: Song): (c: CastCommand)
    ensures PlayedSong(c) == Some(song)
    ensures c.mediaInfo.metadataType == MusicTrackMetadata && c.mediaInfo.title == c.title
  {
    PlayMedia(song.url, song.contentType, song.title,
              MediaMetadata(MusicTrackMetadata, song.albumName, song.title, song.artist),
              song.albumArt)
  }

  /** Distinct songs give distinct play commands. */
  lemma PlayOnChromecastInjective(a: Song, b: Song)
    ensures PlayOnChromecast(a) == PlayOnChromecast(b) ==> a == b
  {
    assert PlayedSong(PlayOnChromecast(a)) == Some(a);
    assert PlayedSong(PlayOnChromecast(b)) == Some(b);
  }

  /** The backend's play/pause rule: pause exactly when the device reports playing. */
  function PlaypauseCommand(playerIsPlaying: bool): (c: CastCommand)
    ensures c == Pause || c == Play
    ensures c == Pause <==> playerIsPlaying
  {
    if playerIsPlaying then Pause else Play
  }

  /** The backend's relative volume rule: up for a positive value, down otherwise, always by a
      non-negative amount, and the signed change asked for is the value itself. */
  function VolumeDeltaCommand(value: real): (c: CastCommand)
    ensures c.VolumeUp? <==> value > 0.0
    ensures c.VolumeUp? || c.VolumeDown?
    ensures c.VolumeUp? ==> c.up >= 0.0
    ensures c.VolumeDown? ==> c.down >= 0.0
    ensures SignedDelta(c) == value
  {
    if value > 0.0 then VolumeUp(value) else VolumeDown(-value)
  }

  /** `find_chromecast(label)` given what discovery listed for that friendly name. */
  function FindChromecast<T>(name: string, listed: seq<T>): (r: Result<T, ChromecastNotFound>)
    ensures r.Failure? <==> listed == []
    ensures r.Failure? ==> r.error == ChromecastNotFound(name)
    ensures r.Success? ==> r.value == listed[0]
  {
    if listed == [] then Failure(ChromecastNotFound(name)) else Success(listed[0])
  }

  /** When the status listener moves on to the next song. */
  predicate Advances(status: MediaStatus, queue: seq<Song>) {
    status.playerIsIdle && status.idleReason == Some(FinishedReason) && queue != []
  }

  /** A cast device together with its media controller. `playerState` is what the device last
      reported; `log` records every call made on it. */
  class CastDevice {
    const friendlyName: string
    var playerState: PlayerState
    var log: seq<CastCommand>

    constructor (friendlyName: string)
      ensures this.friendlyName == friendlyName && log == [] && playerState == PlayerIdle
    {
      this.friendlyName := friendlyName;
      playerState := PlayerIdle;
      log := [];
    }

    method Issue(c: CastCommand)
      modifies this`log
      ensures log == old(log) + [c]
    {
      log := log + [c];
    }
  }

  /** `MyChromecastListener`, holding the shared song list. */
  class ChromecastListener {
    const songs: SongList
    const device: CastDevice

    constructor (songs: SongList, device: CastDevice)
      ensures this.songs == songs && this.device == device
    {
      this.songs := songs;
      this.device := device;
    }

    /** `new_media_status`: on an idle/FINISHED report with songs left, pop the head and play it;
        on any other report change nothing. */
    method NewMediaStatus(status: MediaStatus)
      modifies songs, device`log
      ensures Advances(status, old(songs.items)) ==>
        && songs.items == old(songs.items)[1..]
        && device.log == old(device.log) + [PlayOnChromecast(old(songs.items)[0])]
      ensures !Advances(status, old(songs.items)) ==>
        && songs.items == old(songs.items)
        && device.log == old(device.log)
    {
      if status.playerIsIdle && status.idleReason == Some(FinishedReason) {
        if songs.items != [] {
          var song := songs.PopHead();
          device.Issue(PlayOnChromecast(song));
        }
      }
    }

    /** `load_media_failed`: only reported; the queue and the device are left as they are. */
    method LoadMediaFailed(item: int, errorCode: int)
      ensures unchanged(songs, device)
    {
    }
  }

  /** `ChromecastBackend`: the device found by name, the shared song list and the listener
      registered on the device at construction. */
  class ChromecastBackend {
    const chromecast: CastDevice
    const songs: SongList
    const listener: ChromecastListener

    /** Construction after `find_chromecast` has found `device`; the listener shares the list. */
    constructor (device: CastDevice, songs: SongList)
      ensures chromecast == device && this.songs == songs
      ensures fresh(listener) && listener.songs == songs && listener.device == device
    {
      chromecast := device;
      this.songs := songs;
      listener := new ChromecastListener(songs, device);
    }

    /** `play_next`: pop the head and play it; on an empty queue raise `NoSongsToPlay` and
        issue nothing. */
    method PlayNext() returns (r: Outcome)
      modifies songs, chromecast`log
      ensures r == NoSongsToPlay <==> old(songs.items) == []
      ensures r == Ok ==>
        && songs.items == old(songs.items)[1..]
        && chromecast.log == old(chromecast.log) + [PlayOnChromecast(old(songs.items)[0])]
      ensures r == NoSongsToPlay ==> songs.items == [] && chromecast.log == old(chromecast.log)
    {
      if songs.items != [] {
        var song := songs.PopHead();
        chromecast.Issue(PlayOnChromecast(song));
        r := Ok;
      } else {
        r := NoSongsToPlay;
      }
    }

    method Playpause()
      modifies chromecast`log
      ensures chromecast.log == old(chromecast.log) + [PlaypauseCommand(IsPlaying(chromecast.playerState))]
    {
      if IsPlaying(chromecast.playerState) {
        chromecast.Issue(Pause);
      } else {
        chromecast.Issue(Play);
      }
    }

    method VolumeSet(value: real)
      modifies chromecast`log
      ensures chromecast.log == old(chromecast.log) + [SetVolume(value)]
    {
      chromecast.Issue(SetVolume(value));
    }

    method VolumeDelta(value: real)
      modifies chromecast`log
      ensures chromecast.log == old(chromecast.log) + [VolumeDeltaCommand(value)]
    {
      if value > 0.0 {
        chromecast.Issue(VolumeUp(value));
      } else {
        chromecast.Issue(VolumeDown(-value));
      }
    }

    method Stop()
      modifies chromecast`log
      ensures chromecast.log == old(chromecast.log) + [QuitApp]
    {
      chromecast.Issue(QuitApp);
    }
  }
  /** `ChromecastBackend(config, songs)` given what discovery listed for the configured name:
      `ChromecastNotFound` when nothing was listed, otherwise a backend on the first device
      listed, sharing `songs`. */
  method NewChromecastBackend(name: string, listed: seq<CastDevice>, songs: SongList)
    returns (r: Result<ChromecastBackend, ChromecastNotFound>)
    ensures r.Failure? <==> listed == []
    ensures r.Failure? ==> r.error == ChromecastNotFound(name)
    ensures r.Success? ==>
      && fresh(r.value) && r.value.chromecast == listed[0] && r.value.songs == songs
      && fresh(r.value.listener) && r.value.listener.songs == songs && r.value.listener.device == listed[0]
  {
    var found := FindChromecast(name, listed);
    if found.Failure? {
      return Failure(found.error);
    }
    var backend := new ChromecastBackend(found.value, songs);
    return Success(backend);
  }
}
