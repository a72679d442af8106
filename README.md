# castme playback queue, modelled in Dafny

castme is a command-line music player. It fetches albums from a Subsonic server and plays them
either on a Chromecast or on the local audio device. At its centre is one Python list of songs,
the play queue. The command line, the Chromecast status listener and the playback backends all
hold a reference to that same list, and each of them consumes or rebuilds it in place.

The project models that core:

- `songs.dfy` (module `Songs`) holds:
  - the six-field `Song` record;
  - the shared queue as one `SongList` object, with the three in-place list operations the
    code uses (`clear`, `extend`, `pop(0)`).
- `params.dfy` (module `Params`) models Python dictionaries as insertion-ordered association
  lists, and the dictionary union on them. It proves which value each key ends up with, and the
  key order that `urlencode` then sees.
- `subsonic.dfy` (module `Subsonic`) models the catalog client:
  - the signed request URL: a salt, a token, and the caller's parameters merged with the
    authentication parameters;
  - `get_songs_for_album`, with its two nested loops written as methods and proved against a
    reference definition of the result.
- `chromecast.dfy` (module `Chromecast`) models the Chromecast backend:
  - the commands it sends to the device, recorded in a command log;
  - the status listener that advances the shared queue when a track finishes;
  - device lookup through discovery.
- `local.dfy` (module `LocalBackend`) models the local-audio backend:
  - its worker's Stopped/Playing/Paused state machine, as a pure transition function and as a
    `WorkerThread` class proved to follow it;
  - the whole worker loop over its FIFO of messages;
  - the producer object, whose methods each put one message on the FIFO.
- `cli.dfy` (module `Cli`) models the interactive commands over the shared queue, and the
  start-up wiring that gives the command line and the status listener one and the same list.

Effects outside the program become data:

- Device, mixer-channel and audio calls are appended to a log in the model (`CastDevice.log`,
  `WorkerThread.channel`).
- The HTTP server is a `Library` value: the album list and each album's track records.
- md5, `difflib.get_close_matches`, `urlencode` and the random salt draws are fields of an
  `Env` value, and the model leaves them uninterpreted.

## Model

| member | source | states |
|---|---|---|
| Songs.SongList.Clear | castme/main.py:43 | `songs.clear()` empties the shared list. |
| Songs.SongList.Extend | castme/main.py:45 | `songs.extend(xs)` appends `xs`, in order, behind the current contents. |
| Songs.SongList.PopHead | castme/backends/chromecast.py:27 | `songs.pop(0)` on a non-empty list returns the head and leaves the rest in order. Every caller handles the empty case first. |
| Params.LookupUnion | castme/subsonic.py:36-43 | When `b` is merged into `a` (Python's dictionary union), a key of `b` takes `b`'s value, and every other key keeps `a`'s value (or stays absent). |
| Params.KeysUnion | castme/subsonic.py:36-43 | The keys of that merge are `a`'s keys in their order, followed by `b`'s keys that are new to `a`, in `b`'s order. |
| Params.Put | castme/subsonic.py:36-43 | Storing `k` grows the dictionary by one entry exactly when `k` is new. Its values and key order are given by `Params.LookupPut` and `Params.KeysPut`. |
| Params.LookupPut | castme/subsonic.py:36-43 | After storing `v` under `k`, looking up `k` gives `v`, and every other key keeps its value. |
| Params.KeysPut | castme/subsonic.py:36-43 | Storing under a present key keeps the key order; storing under a new key appends it last. |
| Params.Union | castme/subsonic.py:36-43 | The merge of `b` into `a` stores `b`'s entries into `a` one after another, in `b`'s order (Python's dictionary union). It has at least as many entries as `a` and at most those of both. |
| Subsonic.MakeSalt | castme/subsonic.py:34 | The salt has exactly 10 characters, each an ASCII letter or digit. |
| Subsonic.AuthParamsLookup | castme/subsonic.py:36-43 | The authentication dictionary has the keys u, t, v, c, f, s, in that order and each once. It maps them to the user, the token, "1.16.1", the app id, "json" and the salt. |
| Subsonic.MakeSonicUrl | castme/subsonic.py:33-45 | The URL is the fixed prefix followed by the verb, whatever the parameters. The parameters are the caller's merged with at most six more. The values and order are given by `Subsonic.MakeSonicUrlParams`. |
| Subsonic.MakeSonicUrlParams | castme/subsonic.py:33-45 | The URL is the fixed `https://m.l.marache.net/rest/` prefix followed by the verb, whatever the parameters. The merged parameters hold u=user, t=md5(password ++ salt), v="1.16.1", c=app id, f="json" and s=salt, and these override same-named caller parameters. Every other caller parameter passes through unchanged and keeps its position. |
| Subsonic.SignedUrl | castme/subsonic.py:48-49 | The full request URL starts with the fixed prefix, the verb and "?", followed by the encoded merged parameters. |
| Subsonic.CoverUrl | castme/subsonic.py:65-67 | An album's cover URL is a `getCoverArt` request whose parameters hold the album's cover-art id. |
| Subsonic.StreamUrl | castme/subsonic.py:73 | A track's URL is a `stream` request whose parameters hold the track id. |
| Subsonic.TrackSong | castme/subsonic.py:74-83 | A song copies title, album, artist and content type unchanged from its track record. Its URL is the track's stream URL, and its album art is the album's cover URL. |
| Subsonic.AlbumNames | castme/subsonic.py:59 | The candidate names are the albums' names, one per album, in list order. |
| Subsonic.AlbumLookup | castme/subsonic.py:53-61 | The lookup fails exactly when the fuzzy matcher returns no candidate, and the failure carries the query. |
| Subsonic.TrackSongs | castme/subsonic.py:72-83 | There is one song per track record, in the server's order; see `Subsonic.TrackSongsAt`. |
| Subsonic.AlbumSongs | castme/subsonic.py:63-83 | An album whose name differs from the chosen match contributes nothing. One that bears it contributes one song per track. |
| Subsonic.MatchedSongs | castme/subsonic.py:63-84 | The reference definition of the result is album after album in list order. When no album bears the chosen name, the result is empty. |
| Subsonic.BuildAlbumSongs | castme/subsonic.py:64-83 | The inner loop produces the songs of the album's track records, in the server's order, all with the album's cover URL. |
| Subsonic.GetSongsForAlbum | castme/subsonic.py:53-84 | The nested loops return what `AlbumLookup` specifies: AlbumNotFound(query) when nothing matches, otherwise the songs of every album bearing the chosen name, album after album in list order. |
| Subsonic.MatchedSongsAppend | castme/subsonic.py:63-84 | The result for a concatenation of album lists is the concatenation of the results, so albums contribute in list order. |
| Subsonic.TrackSongsAt | castme/subsonic.py:72-83 | One song per track, at the same position. The song takes title, album, artist and content type from its track record. Its URL is the stream URL for the track id plus "?" plus the encoded parameters, and its album art is the album's cover URL. |
| Subsonic.MatchedSongsFrom | castme/subsonic.py:63-83 | Every returned song is built from a track of some album in the list whose name equals the chosen match. |
| Subsonic.AlbumSongsFrom | castme/subsonic.py:64-83 | A song that one album contributes comes from one of that album's tracks, and the album bears the chosen name. |
| Subsonic.MatchedSongsCover | castme/subsonic.py:63-83 | Every track of every album whose name equals the chosen match appears as a song in the result. |
| Subsonic.AlbumSongsCover | castme/subsonic.py:64-83 | Every track of an album bearing the chosen name yields a song of that album's part of the result. |
| Chromecast.PlayOnChromecast | castme/backends/chromecast.py:81-97 | One `play_media` call that carries the song's url, content type, title and album art unchanged. Its metadata has type 3 and has album name, title and artist from the song, so the song can be read back from the call. |
| Chromecast.PlayOnChromecastInjective | castme/backends/chromecast.py:81-97 | Different songs give different play calls. |
| Chromecast.PlaypauseCommand | castme/backends/chromecast.py:31-35 | The backend issues `pause` exactly when the device reports playing, and `play` otherwise. |
| Chromecast.VolumeDeltaCommand | castme/backends/chromecast.py:40-44 | The backend issues `volume_up` exactly for a positive value, and `volume_down` otherwise. The amount passed is never negative, and the signed change equals the value. |
| Chromecast.FindChromecast | castme/backends/chromecast.py:73-78 | Lookup fails with ChromecastNotFound(label) exactly when discovery lists nothing, and otherwise returns the first device listed. |
| Chromecast.ChromecastListener.constructor | castme/backends/chromecast.py:59-61 | The listener keeps the list it was given and the device. |
| Chromecast.NewChromecastBackend | castme/backends/chromecast.py:16-23 | Construction fails with ChromecastNotFound(name) exactly when discovery lists nothing. Otherwise the backend uses the first device listed, keeps the shared list, and registers a new listener on the same list and device. |
| Chromecast.Advances | castme/backends/chromecast.py:64-65 | The listener's condition for moving on: the player is idle, the reason is "FINISHED", and songs remain. |
| Chromecast.ChromecastListener.NewMediaStatus | castme/backends/chromecast.py:63-66 | The listener advances only on an idle report whose reason is "FINISHED" while songs remain; it then pops exactly the head and plays it. Otherwise the queue and the command log are unchanged. |
| Chromecast.ChromecastListener.LoadMediaFailed | castme/backends/chromecast.py:68-70 | The queue and the device are left untouched. |
| Chromecast.ChromecastBackend.constructor | castme/backends/chromecast.py:18-23 | Given the device that discovery found, the backend keeps it and the shared list, and registers a new listener on the same list and device. |
| Chromecast.ChromecastBackend.PlayNext | castme/backends/chromecast.py:25-29 | On a non-empty queue, it removes exactly the head, plays that song, and keeps the rest in order. On an empty queue it reports NoSongsToPlay and issues nothing. |
| Chromecast.ChromecastBackend.Playpause | castme/backends/chromecast.py:31-35 | It appends exactly the command `PlaypauseCommand` picks for whether the device's reported state is playing. |
| Chromecast.ChromecastBackend.VolumeSet | castme/backends/chromecast.py:37-38 | `set_volume(value)` is forwarded unchanged. |
| Chromecast.ChromecastBackend.VolumeDelta | castme/backends/chromecast.py:40-44 | It appends exactly the command `VolumeDeltaCommand(value)`. |
| Chromecast.ChromecastBackend.Stop | castme/backends/chromecast.py:46-47 | It issues `quit_app`. |
| LocalBackend.PlayPauseMessage | castme/backends/local.py:39-41 | A PLAY_PAUSE message with no payload. |
| LocalBackend.StopMessage | castme/backends/local.py:43-45 | A STOP message with no payload. |
| LocalBackend.ExitMessage | castme/backends/local.py:47-49 | An EXIT message with no payload. |
| LocalBackend.ForcePlayMessage | castme/backends/local.py:51-53 | A FORCE_PLAY message with no payload. |
| LocalBackend.VolumeSetMessage | castme/backends/local.py:150 | A VOLUME_SET message whose payload is the value, unchanged. |
| LocalBackend.VolumeDeltaMessage | castme/backends/local.py:153 | A VOLUME_DELTA message whose payload is the value, unchanged. |
| LocalBackend.Handle | castme/backends/local.py:80-108 | No message changes the song list, and only EXIT ends the loop. Each message makes at most one channel call. Volume messages leave the state alone: VOLUME_SET sets the payload, VOLUME_DELTA gives old volume + delta, and no other message touches the volume. STOP always gives Stopped. EXIT and PLAY leave the state and channel unchanged. |
| LocalBackend.PlayPauseTransitions | castme/backends/local.py:89-102 | PLAY_PAUSE takes Playing to Paused (`pause`) and Paused to Playing (`unpause`). From Stopped it goes to Playing and plays `songs[0]` without removing it if the list is non-empty; otherwise nothing changes. |
| LocalBackend.ForcePlayTransitions | castme/backends/local.py:103-106 | FORCE_PLAY plays `songs[0]` without removing it and goes to Playing. On an empty list it changes nothing. |
| LocalBackend.PlayPauseTwice | castme/backends/local.py:89-102 | Two PLAY_PAUSE messages return a playing or paused worker to its state. |
| LocalBackend.StopIdempotent | castme/backends/local.py:86-88 | STOP a second time leaves the worker as the first STOP did, except that the channel log records one more `stop` call. The first STOP leaves the songs untouched. |
| LocalBackend.VolumeSetThenDelta | castme/backends/local.py:81-85 | VOLUME_SET 0.5 followed by VOLUME_DELTA -0.2 leaves the volume at 0.3. |
| LocalBackend.OnEndEvent | castme/backends/local.py:112-121 | While Playing, an end-of-track event removes exactly the head. If songs remain it plays the new head and stays Playing; otherwise it goes to Stopped. In Paused or Stopped nothing changes. Popping an empty list kills the worker. |
| LocalBackend.HandleKeepsHead | castme/backends/local.py:80-108 | Every message keeps the invariant that, while Playing or Paused, the last track played is the head of the list. |
| LocalBackend.EndEventKeepsHead | castme/backends/local.py:112-121 | The end-of-track event keeps that invariant, and under it the event never pops an empty list. |
| LocalBackend.Iteration | castme/backends/local.py:76-121 | One pass of the loop takes at most the oldest waiting message, and leaves the rest waiting. |
| LocalBackend.RunLoopConsumesPrefix | castme/backends/local.py:76-78 | After any run, the messages still waiting are a suffix of those that were waiting: consumption is FIFO. |
| LocalBackend.RunLoop | castme/backends/local.py:76-121 | The loop over a sequence of passes. Once the loop has returned or died, nothing more happens. Messages stay well formed and never grow in number. A loop still running at the end has consumed one message per pass, or emptied its FIFO. |
| LocalBackend.HandleAll | castme/backends/local.py:80-106 | A run of non-EXIT messages keeps the loop running and the song list unchanged. |
| LocalBackend.RunLoopInOrder | castme/backends/local.py:76-108 | Without end-of-track events, n passes handle exactly the n oldest messages, one after another in queue order, and leave the rest waiting. |
| LocalBackend.RunLoopExit | castme/backends/local.py:107-108 | An EXIT at the front ends the loop, and no message behind it is ever handled. |
| LocalBackend.RunLoopKeepsHead | castme/backends/local.py:66-121 | When only the worker touches the list, the head stays the current track over any run, and the worker never dies on an empty pop. |
| LocalBackend.MessageQueue.Put | castme/backends/local.py:137-156 | `queue.put` appends the message behind every waiting one. |
| LocalBackend.MessageQueue.Get | castme/backends/local.py:78 | It takes the oldest message and leaves the rest in order. |
| LocalBackend.WorkerThread.constructor | castme/backends/local.py:69-74 | The worker starts with a fresh channel, in the Stopped state, with the shared list and FIFO. |
| LocalBackend.WorkerThread.Step | castme/backends/local.py:80-108 | The worker's new state, volume, list and channel log are exactly `Handle` of the old ones. |
| LocalBackend.WorkerThread.EndEvent | castme/backends/local.py:112-121 | The worker's new state, list and channel log are exactly `OnEndEvent` of the old ones. |
| LocalBackend.WorkerThread.Iterate | castme/backends/local.py:76-121 | One pass of `while True` changes the worker and its FIFO exactly as `Iteration` says. |
| LocalBackend.WorkerThread.Run | castme/backends/local.py:66-121 | The loop changes the worker and its FIFO exactly as `RunLoop` says. |
| LocalBackend.LocalBackendImpl.constructor | castme/backends/local.py:125-135 | It creates a fresh empty FIFO, and a Stopped worker that shares that FIFO and the caller's list. |
| LocalBackend.LocalBackendImpl.Close | castme/backends/local.py:137-139 | It enqueues exactly one EXIT message. |
| LocalBackend.LocalBackendImpl.Playpause | castme/backends/local.py:141-142 | It enqueues exactly one PLAY_PAUSE message. |
| LocalBackend.LocalBackendImpl.ForcePlay | castme/backends/local.py:144-147 | It reports NoSongsToPlay exactly when the shared list is empty, and then enqueues nothing. Otherwise it enqueues exactly one FORCE_PLAY. It never changes the list. |
| LocalBackend.LocalBackendImpl.VolumeSet | castme/backends/local.py:149-150 | It enqueues exactly one VOLUME_SET message carrying the value unchanged. |
| LocalBackend.LocalBackendImpl.VolumeDelta | castme/backends/local.py:152-153 | It enqueues exactly one VOLUME_DELTA message carrying the value unchanged. |
| LocalBackend.LocalBackendImpl.Stop | castme/backends/local.py:155-156 | It enqueues exactly one STOP message. |
| Cli.CliPlaypauseCommand | castme/main.py:50-55 | The command line issues `play` exactly when the device reports paused, and `pause` otherwise. |
| Cli.PlaypauseRulesAgree | castme/main.py:50-55 | The command line's rule and the backend's rule pick the same command exactly when the device is playing or paused. On an idle device the command line pauses where the backend plays. |
| Cli.VolumeCommand | castme/main.py:61-73 | It dispatches on the first character: a leading "+" gives `volume_up`, a leading "-" gives `volume_down`, and anything else gives `set_volume`. The change asked for is the parsed number / 100. |
| Cli.VolumeCommandIsDelta | castme/main.py:67-71 | When the number's sign matches its prefix, the command is the backend's `volume_delta` rule for the same change, so the magnitude sent is never negative. |
| Cli.CastMeCli.constructor | castme/main.py:20-25 | The command line keeps the Subsonic client, the device and the shared list. |
| Cli.CastMeCli.DoQueue | castme/main.py:27-30 | It lists the songs in queue order, numbered 1 to n, and changes nothing. |
| Cli.CastMeCli.DoPlay | castme/main.py:40-48 | The queue is cleared before the lookup, so after AlbumNotFound the queue is empty and nothing plays. On success it plays the first song found and leaves the others, in order, as the queue. An album without tracks raises the uncaught IndexError. |
| Cli.CastMeCli.DoPlaypause | castme/main.py:50-55 | It appends exactly the command `CliPlaypauseCommand` picks for whether the device's reported state is paused. |
| Cli.CastMeCli.DoNext | castme/main.py:57-59 | It removes exactly the head and plays it. On an empty queue the IndexError escapes and nothing changes. |
| Cli.CastMeCli.DoVolume | castme/main.py:61-73 | It appends exactly `VolumeCommand(line, parsed)`. |
| Cli.Start | castme/main.py:84-101 | The command line and the status listener get the same new, empty list object and the same device. |
| Cli.ListenerPopSeenByCli | castme/main.py:84-101 | A pop made by the listener is seen through the command line's list. |
| Cli.CliPopSeenByListener | castme/main.py:84-101 | A pop made by `next` is seen through the listener's list. |

## Left out

- Threads, `queue.get(timeout=0.1)`, `event.wait(100)` and `join` are not modelled. The worker loop is a sequence of passes. Each pass says whether an end-of-track event was seen, and nobody else changes the list during a run.
- The pygame mixer, `Sound`, `get_song`'s HTTP download, pychromecast and `requests.get`/`raise_for_status` are foreign calls. They appear only as entries in a command log, or through the `Library` value.
- md5, `difflib.get_close_matches`, `random.choices` and `urlencode` are uninterpreted.
- Subsonic.MakeSonicUrl: the random source is one draw function per verb and parameter dictionary, so two requests with the same verb and parameters get the same salt. Only the salt's length and alphabet are specified.
- Cli.CastMeCli.DoVolume: `float(line)` is not modelled. The parsed number is a parameter, and a line that does not parse (a `ValueError`) is not modelled.
- The volume is a real number. VOLUME_DELTA reads `channel.get_volume()` (castme/backends/local.py:85), and the model takes that to return the last value set. pygame's clamping to [0, 1], its rounding of the stored level, and pychromecast's own range checks are therefore not modelled.
- Which channel calls later cause an end-of-track event is not modelled.
- castme/backends/local.py:113 compares the `Event` that `event.wait` returns with the integer `STOP_EVENT`. Under pygame's event equality (pygame is not part of this model) that comparison would never hold, and the worker would never advance. The model follows the evidently intended `pygame_event.type == STOP_EVENT`: the flag `ended` of each pass says whether an end-of-track event was observed. The as-written reading is the case where every `ended` is false, which `LocalBackend.RunLoopInOrder` describes.
- LocalBackend.Handle: it requires a numeric payload on the two volume messages, because the only producer always supplies one.
- `make_sonic_url` ignores `server_prefix` and hard-codes `https://m.l.marache.net/rest/`. The model follows the code. The repository's test expects a `localhost` URL and a `(title, songs)` tuple from `get_songs_for_album`, where the code returns a list, so those expectations are not modelled.
- Starting and skipping tracks are modelled exactly as the code does them, with no skip-ahead behaviour added:
  - the local `force_play` plays the head without removing it (castme/backends/local.py:144-147, 103-106);
  - the command line's `do_next` pops the head and plays it, and does not catch the IndexError of an empty list (castme/main.py:57-59).
- `do_list` calls `get_all_albums`, which `castme/subsonic.py` does not define, so it is not part of this model. Neither is `call_sonic`'s JSON unpacking: the `Library` value stands for the server's already-unpacked answer.
- `do_quit`, `default`, the prompt, printing, `castme/messages.py`, `castme/config.py`, argparse, `castme/player.py` and the `backend` context manager are output or process set-up, and are left out.
- The device's reported player state is set by the device. The model takes it as an external value with three cases: playing, paused, idle. `player_is_playing` and `is_paused` are both derived from it, so they are never both true. Buffering and the other states pychromecast distinguishes are not modelled, and neither are the state's updates.
- Chromecast.ChromecastBackend.constructor: it takes the device that `find_chromecast` returned. The lookup and its ChromecastNotFound error are modelled by `Chromecast.NewChromecastBackend`. The `wait()` for the device to be ready is left out, as are the other device calls.
