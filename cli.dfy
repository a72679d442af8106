/** The interactive command line: its queue commands over the shared song list, and the start-up
    wiring that hands that one list to both the command line and the status listener. */
module Cli {
  import opened Base
  import opened Songs
  import opened Chromecast
  import opened Subsonic

  /** The client name sent to the Subsonic server. */
  const SubsonicAppId := "castme"

  /** How a command ends: normally, by printing `AlbumNotFoundException`, or with the
      `IndexError` of `pop(0)` on an empty list, which the command line does not catch. */
  datatype Reply = Done | AlbumNotFoundPrinted(error: AlbumNotFound) | IndexErrorRaised

  /** The command line's play/pause rule: resume when the device reports paused, pause otherwise. */
  function CliPlaypauseCommand(isPaused: bool): (c: CastCommand)
    ensures c == Play || c == Pause
    ensures c == Play <==> isPaused
  {
    if isPaused then Play else Pause
  }

  /** The command line and the backend toggle alike exactly when the device is playing or
      paused; on an idle device the command line pauses where the backend plays. */
  lemma PlaypauseRulesAgree(s: PlayerState)
    ensures CliPlaypauseCommand(IsPaused(s)) == PlaypauseCommand(IsPlaying(s)) <==> s != PlayerIdle
  {
  }

  predicate HasPrefix(line: string, c: char) {
    |line| > 0 && line[0] == c
  }

  /** `do_volume` given the number `parsed` that `float(line)` reads: a leading `+` raises the
      volume by a hundredth of it, a leading `-` lowers it by minus a hundredth of it, and
      anything else sets it to a hundredth of it. */
  function VolumeCommand(line: string, parsed: real): (c: CastCommand)
    ensures c.VolumeUp? <==> HasPrefix(line, '+')
    ensures c.VolumeDown? <==> HasPrefix(line, '-')
    ensures c.SetVolume? <==> !HasPrefix(line, '+') && !HasPrefix(line, '-')
    ensures c.VolumeUp? || c.VolumeDown? ==> SignedDelta(c) == parsed / 100.0
    ensures c.SetVolume? ==> c.level == parsed / 100.0
  {
    var value := parsed / 100.0;
    if HasPrefix(line, '+') then VolumeUp(value)
    else if HasPrefix(line, '-') then VolumeDown(-value)
    else SetVolume(value)
  }

  /** When the parsed number's sign agrees with the prefix (positive after `+`, not positive
      after `-`), the relative command is the backend's `volume_delta` rule for the same change,
      so the amount handed to the device is never negative. */
  lemma {:induction false} VolumeCommandIsDelta(line: string, parsed: real)
    requires HasPrefix(line, '+') ==> parsed > 0.0
    requires HasPrefix(line, '-') ==> parsed <= 0.0
    requires HasPrefix(line, '+') || HasPrefix(line, '-')
    ensures VolumeCommand(line, parsed) == VolumeDeltaCommand(parsed / 100.0)
    ensures VolumeCommand(line, parsed).VolumeUp? ==> VolumeCommand(line, parsed).up >= 0.0
    ensures VolumeCommand(line, parsed).VolumeDown? ==> VolumeCommand(line, parsed).down >= 0.0
  {
    var c := VolumeCommand(line, parsed);
    var d := VolumeDeltaCommand(parsed / 100.0);
    if HasPrefix(line, '+') {
      assert parsed / 100.0 > 0.0;
      assert c == VolumeUp(parsed / 100.0) && d == VolumeUp(parsed / 100.0);
    } else {
      assert parsed / 100.0 <= 0.0;
      assert c == VolumeDown(-(parsed / 100.0)) && d == VolumeDown(-(parsed / 100.0));
    }
  }

  /** `CastMeCli`: the Subsonic client, the device and the shared song list. */
  class CastMeCli {
    const subsonic: SubSonic
    const chromecast: CastDevice
    const songs: SongList

    constructor (subsonic: SubSonic, chromecast: CastDevice, songs: SongList)
      ensures this.subsonic == subsonic && this.chromecast == chromecast && this.songs == songs
    {
      this.subsonic := subsonic;
      this.chromecast := chromecast;
      this.songs := songs;
    }

    /** `do_queue`: the queue in order, each song numbered from 1; nothing is changed. */
    method DoQueue() returns (listing: seq<(int, Song)>)
      ensures |listing| == |songs.items|
      ensures forall i :: 0 <= i < |listing| ==> listing[i] == (i + 1, songs.items[i])
    {
      listing := [];
      var idx := 0;
      while idx < |songs.items|
        invariant 0 <= idx <= |songs.items|
        invariant |listing| == idx
        invariant forall i :: 0 <= i < idx ==> listing[i] == (i + 1, songs.items[i])
      {
        listing := listing + [(1 + idx, songs.items[idx])];
        idx := idx + 1;
      }
    }

    /** `do_play`: the queue is cleared before the album lookup, so it stays empty when the
        lookup fails; otherwise the first song found is played and the rest, in order, become
        the queue. An album without tracks leaves the `pop(0)` of an empty list uncaught. */
    method DoPlay(line: string, env: Env, lib: Library) returns (reply: Reply)
      modifies songs, chromecast`log
      ensures var found := AlbumLookup(subsonic, env, lib, line);
        && (found.Failure? ==>
          && reply == AlbumNotFoundPrinted(AlbumNotFound(line))
          && songs.items == [] && chromecast.log == old(chromecast.log))
        && (found.Success? && found.value == [] ==>
          && reply == IndexErrorRaised
          && songs.items == [] && chromecast.log == old(chromecast.log))
        && (found.Success? && found.value != [] ==>
          && reply == Done
          && songs.items == found.value[1..]
          && chromecast.log == old(chromecast.log) + [PlayOnChromecast(found.value[0])])
    {
      songs.Clear();
      var found := GetSongsForAlbum(subsonic, env, lib, line);
      if found.Failure? {
        return AlbumNotFoundPrinted(found.error);
      }
      songs.Extend(found.value);
      if songs.items == [] {
        return IndexErrorRaised;
      }
      var song := songs.PopHead();
      chromecast.Issue(PlayOnChromecast(song));
      return Done;
    }

    method DoPlaypause()
      modifies chromecast`log
      ensures chromecast.log == old(chromecast.log) + [CliPlaypauseCommand(IsPaused(chromecast.playerState))]
    {
      if IsPaused(chromecast.playerState) {
        chromecast.Issue(Play);
      } else {
        chromecast.Issue(Pause);
      }
    }

    /** `do_next`: pop the head and play it; on an empty queue the `IndexError` escapes and
        nothing changes. */
    method DoNext() returns (reply: Reply)
      modifies songs, chromecast`log
      ensures reply == IndexErrorRaised <==> old(songs.items) == []
      ensures reply == Done ==>
        && songs.items == old(songs.items)[1..]
        && chromecast.log == old(chromecast.log) + [PlayOnChromecast(old(songs.items)[0])]
      ensures reply == IndexErrorRaised ==> songs.items == old(songs.items) && chromecast.log == old(chromecast.log)
    {
      if songs.items == [] {
        return IndexErrorRaised;
      }
      var song := songs.PopHead();
      chromecast.Issue(PlayOnChromecast(song));
      return Done;
    }

    /** `do_volume`, with `parsed` the value `float(line)` reads from the line. */
    method DoVolume(line: string, parsed: real)
      modifies chromecast`log
      ensures chromecast.log == old(chromecast.log) + [VolumeCommand(line, parsed)]
    {
      var value := parsed / 100.0;
      if HasPrefix(line, '+') {
        chromecast.Issue(VolumeUp(value));
      } else if HasPrefix(line, '-') {
        chromecast.Issue(VolumeDown(-value));
      } else {
        chromecast.Issue(SetVolume(value));
      }
    }
  }

  /** The start-up wiring of `main`: one empty list, handed to the status listener registered
      on the device and to the command line. */
  method Start(user: string, password: string, server: string, device: CastDevice)
    returns (cli: CastMeCli, listener: ChromecastListener)
    ensures fresh(cli) && fresh(listener) && fresh(cli.songs)
    ensures cli.songs == listener.songs && cli.songs.items == []
    ensures cli.chromecast == device && listener.device == device
    ensures cli.subsonic == SubSonic(SubsonicAppId, user, password, server)
  {
    var songs := new SongList();
    listener := new ChromecastListener(songs, device);
    cli := new CastMeCli(SubSonic(SubsonicAppId, user, password, server), device, songs);
  }
  /** A status report handled by the listener is seen through the command line's list. */
  method ListenerPopSeenByCli(cli: CastMeCli, listener: ChromecastListener, status: MediaStatus)
    requires cli.songs == listener.songs
    modifies cli.songs, listener.device`log
    ensures Advances(status, old(cli.songs.items)) ==> cli.songs.items == old(cli.songs.items)[1..]
    ensures !Advances(status, old(cli.songs.items)) ==> cli.songs.items == old(cli.songs.items)
  {
    listener.NewMediaStatus(status);
  }

  /** A `next` command on the command line is seen through the listener's list. */
  method CliPopSeenByListener(cli: CastMeCli, listener: ChromecastListener) returns (reply: Reply)
    requires cli.songs == listener.songs
    modifies cli.songs, cli.chromecast`log
    ensures reply == Done ==> old(listener.songs.items) != [] && listener.songs.items == old(listener.songs.items)[1..]
    ensures reply == IndexErrorRaised ==> listener.songs.items == old(listener.songs.items) == []
  {
    reply := cli.DoNext();
  }
}
