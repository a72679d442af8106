/** The catalog client: signed request parameters and the assembly of an album's songs. */
module Subsonic {
  import opened Base
  import opened Params
  import opened Songs

  const SupportedVersion := "1.16.1"

  /** The request URL is built on this fixed host; the configured server prefix is not used. */
  const RestPrefix := "https://m.l.marache.net/rest/"

  /** `string.ascii_letters + string.digits` */
  const SaltAlphabet := "abcdefghijklmnopqrstuvwxyzABCDEFGHIJKLMNOPQRSTUVWXYZ0123456789"

  const SaltLength := 10

  /** The keys of the authentication parameters, in the order they are written. */
  const AuthKeys := ["u", "t", "v", "c", "f", "s"]

  datatype SubSonic = SubSonic(appId: string, user: string, password: string, serverPrefix: string)

  /** `AlbumNotFoundException`, carrying the query that matched nothing. */
  datatype AlbumNotFound = AlbumNotFound(keyword: string)

  /** One entry of the server's album list. */
  datatype AlbumEntry = AlbumEntry(album: string, id: Value, coverArt: Value)

  /** One track record of the server's album description. */
  datatype Track = Track(id: Value, title: string, album: string, artist: string, contentType: string)

  /** The server's answers: the album list, and the track records of the album with a given id. */
  datatype Library = Library(albumList: seq<AlbumEntry>, albumTracks: Value -> seq<Track>)

  /** Library code that the model leaves uninterpreted: the md5 hex digest, `urlencode`,
      `difflib.get_close_matches(query, names, 1)`, and the random indices that
      `random.choices` draws for the call of `make_sonic_url` with a given verb and parameters. */
  datatype Env = Env(
    md5Hex: string -> string,
    urlencode: Dict -> string,
    closeMatches: (string, seq<string>) -> seq<string>,
    draws: (string, Dict) -> (nat -> nat))

  /** The salt drawn from `draw`, the random source: ten characters of the alphabet. */
  function MakeSalt(draw: nat -> nat): (salt: string)
    ensures |salt| == SaltLength
    ensures forall i :: 0 <= i < |salt| ==> salt[i] in SaltAlphabet
  {
    seq(SaltLength, i requires 0 <= i => SaltAlphabet[draw(i) % |SaltAlphabet|])
  }

  function AuthParams(api: SubSonic, token: string, salt: string): Dict {
    [("u", Text(api.user)), ("t", Text(token)), ("v", Text(SupportedVersion)),
     ("c", Text(api.appId)), ("f", Text("json")), ("s", Text(salt))]
  }

  lemma AuthParamsLookup(api: SubSonic, token: string, salt: string)
    ensures var d := AuthParams(api, token, salt);
      && Keys(d) == AuthKeys && UniqueKeys(d)
      && Lookup(d, "u") == Some(Text(api.user))
      && Lookup(d, "t") == Some(Text(token))
      && Lookup(d, "v") == Some(Text(SupportedVersion))
      && Lookup(d, "c") == Some(Text(api.appId))
      && Lookup(d, "f") == Some(Text("json"))
      && Lookup(d, "s") == Some(Text(salt))
  {
    var d := AuthParams(api, token, salt);
    assert Keys(d) == AuthKeys;
    LookupAt(d, 0); LookupAt(d, 1); LookupAt(d, 2); LookupAt(d, 3); LookupAt(d, 4); LookupAt(d, 5);
  }

  /** `make_sonic_url(verb, **kwargs)`: the request URL and its parameters. */
  function MakeSonicUrl(api: SubSonic, verb: string, kwargs: Dict, draw: nat -> nat, md5Hex: string -> string)
    : (r: (string, Dict))
    ensures r.0 == RestPrefix + verb
    ensures |kwargs| <= |r.1| <= |kwargs| + |AuthKeys|
  {
    var salt := MakeSalt(draw);
    var auth := AuthParams(api, md5Hex(api.password + salt), salt);
    (RestPrefix + verb, Union(kwargs, auth))
  }

  /** The URL is the fixed prefix followed by the verb. The six authentication parameters
      override caller parameters of the same name; every other caller parameter is passed on
      unchanged and keeps its place, and the authentication keys new to the caller's
      dictionary follow in their written order. */
  lemma MakeSonicUrlParams(api: SubSonic, verb: string, kwargs: Dict, draw: nat -> nat, md5Hex: string -> string)
    ensures var (url, parameters) := MakeSonicUrl(api, verb, kwargs, draw, md5Hex);
      var salt := MakeSalt(draw);
      && url == RestPrefix + verb
      && Lookup(parameters, "u") == Some(Text(api.user))
      && Lookup(parameters, "t") == Some(Text(md5Hex(api.password + salt)))
      && Lookup(parameters, "v") == Some(Text(SupportedVersion))
      && Lookup(parameters, "c") == Some(Text(api.appId))
      && Lookup(parameters, "f") == Some(Text("json"))
      && Lookup(parameters, "s") == Some(Text(salt))
      && (forall k :: k !in AuthKeys ==> Lookup(parameters, k) == Lookup(kwargs, k))
      && Keys(parameters) == Keys(kwargs) + Appended(AuthKeys, Keys(kwargs))
  {
    var salt := MakeSalt(draw);
    var auth := AuthParams(api, md5Hex(api.password + salt), salt);
    AuthParamsLookup(api, md5Hex(api.password + salt), salt);
    forall k ensures Lookup(Union(kwargs, auth), k) == if k in AuthKeys then Lookup(auth, k) else Lookup(kwargs, k) {
      LookupUnion(kwargs, auth, k);
    }
    KeysUnion(kwargs, auth);
  }

  /** The full URL of a request: `url + "?" + urlencode(params)`. */
  function SignedUrl(api: SubSonic, env: Env, verb: string, kwargs: Dict): (url: string)
    ensures RestPrefix + verb + "?" <= url
  {
    var (url, parameters) := MakeSonicUrl(api, verb, kwargs, env.draws(verb, kwargs), env.md5Hex);
    url + "?" + env.urlencode(parameters)
  }

  function CoverUrl(api: SubSonic, env: Env, album: AlbumEntry): (url: string)
    ensures RestPrefix + "getCoverArt?" <= url
  {
    SignedUrl(api, env, "getCoverArt", [("id", album.coverArt)])
  }

  function StreamUrl(api: SubSonic, env: Env, track: Track): (url: string)
    ensures RestPrefix + "stream?" <= url
  {
    SignedUrl(api, env, "stream", [("id", track.id)])
  }

  function TrackSong(api: SubSonic, env: Env, track: Track, coverUrl: string): (s: Song)
    ensures s.title == track.title && s.albumName == track.album && s.artist == track.artist
    ensures s.contentType == track.contentType
    ensures s.url == StreamUrl(api, env, track) && s.albumArt == coverUrl
  {
    Song(track.title, track.album, track.artist, StreamUrl(api, env, track), track.contentType, coverUrl)
  }

  /** The song built for `track` of `album`: title, album, artist and content type copied from the
      track record, the stream URL for the track's id, the cover URL for the album's cover art. */
  predicate MadeFrom(s: Song, api: SubSonic, env: Env, album: AlbumEntry, track: Track) {
    && s.title == track.title
    && s.albumName == track.album
    && s.artist == track.artist
    && s.contentType == track.contentType
    && s.url == StreamUrl(api, env, track)
    && s.albumArt == CoverUrl(api, env, album)
  }

  function AlbumNames(albums: seq<AlbumEntry>): (names: seq<string>)
    ensures |names| == |albums| && forall i :: 0 <= i < |albums| ==> names[i] == albums[i].album
  {
    seq(|albums|, i requires 0 <= i < |albums| => albums[i].album)
  }

  /** The songs of `tracks`, in order, all with the cover URL of their album. */
  function TrackSongs(api: SubSonic, env: Env, tracks: seq<Track>, coverUrl: string): (songs: seq<Song>)
    ensures |songs| == |tracks|
    decreases |tracks|
  {
    if tracks == [] then []
    else TrackSongs(api, env, tracks[..|tracks| - 1], coverUrl) + [TrackSong(api, env, tracks[|tracks| - 1], coverUrl)]
  }

  /** The songs one album contributes when `name` is the chosen match. */
  function AlbumSongs(api: SubSonic, env: Env, lib: Library, album: AlbumEntry, name: string): (songs: seq<Song>)
    ensures album.album != name ==> songs == []
    ensures album.album == name ==> |songs| == |lib.albumTracks(album.id)|
  {
    if album.album == name then TrackSongs(api, env, lib.albumTracks(album.id), CoverUrl(api, env, album)) else []
  }

  /** The songs of every album of `albums` named `name`, album after album in list order. */
  function MatchedSongs(api: SubSonic, env: Env, lib: Library, albums: seq<AlbumEntry>, name: string): (songs: seq<Song>)
    ensures (forall i :: 0 <= i < |albums| ==> albums[i].album != name) ==> songs == []
    decreases |albums|
  {
    if albums == [] then []
    else MatchedSongs(api, env, lib, albums[..|albums| - 1], name) + AlbumSongs(api, env, lib, albums[|albums| - 1], name)
  }

  /** What `get_songs_for_album(query)` returns or raises. */
  function AlbumLookup(api: SubSonic, env: Env, lib: Library, query: string): (r: Result<seq<Song>, AlbumNotFound>)
    ensures r.Failure? <==> env.closeMatches(query, AlbumNames(lib.albumList)) == []
    ensures r.Failure? ==> r.error == AlbumNotFound(query)
  {
    var closest := env.closeMatches(query, AlbumNames(lib.albumList));
    if closest == [] then Failure(AlbumNotFound(query))
    else Success(MatchedSongs(api, env, lib, lib.albumList, closest[0]))
  }

  /** The inner loop of `get_songs_for_album` for one matching album: the cover URL is built once,
      then one song per track record of the album, in the server's order. */
  method BuildAlbumSongs(api: SubSonic, env: Env, lib: Library, album: AlbumEntry) returns (songs: seq<Song>)
    ensures songs == TrackSongs(api, env, lib.albumTracks(album.id), CoverUrl(api, env, album))
  {
    var coverUrl := CoverUrl(api, env, album);
    var data := lib.albumTracks(album.id);
    songs := [];
    var j := 0;
    while j < |data|
      invariant 0 <= j <= |data|
      invariant songs == TrackSongs(api, env, data[..j], coverUrl)
    {
      TrackSongsSnoc(api, env, data, j, coverUrl);
      songs := songs + [TrackSong(api, env, data[j], coverUrl)];
      j := j + 1;
    }
    assert data[..j] == data;
  }

  /** `get_songs_for_album`: the nested loops over the album list and each matching album's tracks. */
  method GetSongsForAlbum(api: SubSonic, env: Env, lib: Library, albumName: string)
    returns (r: Result<seq<Song>, AlbumNotFound>)
    ensures r == AlbumLookup(api, env, lib, albumName)
  {
    var albums := lib.albumList;
    var songs: seq<Song> := [];
    var closest := env.closeMatches(albumName, AlbumNames(albums));
    if closest == [] {
      return Failure(AlbumNotFound(albumName));
    }
    var i := 0;
    while i < |albums|
      invariant 0 <= i <= |albums|
      invariant songs == MatchedSongs(api, env, lib, albums[..i], closest[0])
    {
      var album := albums[i];
      MatchedSongsSnoc(api, env, lib, albums, i, closest[0]);
      if album.album == closest[0] {
        var albumSongs := BuildAlbumSongs(api, env, lib, album);
        songs := songs + albumSongs;
      }
      i := i + 1;
    }
    assert albums[..i] == albums;
    return Success(songs);
  }

  lemma MatchedSongsSnoc(api: SubSonic, env: Env, lib: Library, albums: seq<AlbumEntry>, i: int, name: string)
    requires 0 <= i < |albums|
    ensures MatchedSongs(api, env, lib, albums[..i + 1], name)
      == MatchedSongs(api, env, lib, albums[..i], name) + AlbumSongs(api, env, lib, albums[i], name)
  {
    assert albums[..i + 1][..i] == albums[..i];
  }

  lemma TrackSongsSnoc(api: SubSonic, env: Env, tracks: seq<Track>, j: int, coverUrl: string)
    requires 0 <= j < |tracks|
    ensures TrackSongs(api, env, tracks[..j + 1], coverUrl)
      == TrackSongs(api, env, tracks[..j], coverUrl) + [TrackSong(api, env, tracks[j], coverUrl)]
  {
    assert tracks[..j + 1][..j] == tracks[..j];
  }

  /** The result for a list of albums is the result for its first part followed by that of the rest. */
  lemma {:induction false} MatchedSongsAppend(api: SubSonic, env: Env, lib: Library, a: seq<AlbumEntry>, b: seq<AlbumEntry>, name: string)
    ensures MatchedSongs(api, env, lib, a + b, name) == MatchedSongs(api, env, lib, a, name) + MatchedSongs(api, env, lib, b, name)
    decreases |b|
  {
    if b == [] {
      assert a + b == a;
    } else {
      var b' := b[..|b| - 1];
      assert (a + b)[..|a + b| - 1] == a + b';
      assert (a + b)[|a + b| - 1] == b[|b| - 1];
      MatchedSongsAppend(api, env, lib, a, b', name);
    }
  }

  /** Every song of an album's track list is built from its own track, at the same position. */
  lemma {:induction false} TrackSongsAt(api: SubSonic, env: Env, album: AlbumEntry, tracks: seq<Track>)
    ensures var songs := TrackSongs(api, env, tracks, CoverUrl(api, env, album));
      |songs| == |tracks| && forall i :: 0 <= i < |tracks| ==> MadeFrom(songs[i], api, env, album, tracks[i])
    decreases |tracks|
  {
    if tracks != [] {
      var cover := CoverUrl(api, env, album);
      var n := |tracks| - 1;
      var front := tracks[..n];
      TrackSongsAt(api, env, album, front);
      var songs := TrackSongs(api, env, tracks, cover);
      assert songs == TrackSongs(api, env, front, cover) + [TrackSong(api, env, tracks[n], cover)];
      forall i | 0 <= i < |tracks| ensures MadeFrom(songs[i], api, env, album, tracks[i]) {
        if i < n {
          assert songs[i] == TrackSongs(api, env, front, cover)[i] && tracks[i] == front[i];
        } else {
          assert songs[i] == TrackSong(api, env, tracks[n], cover);
        }
      }
    }
  }

  /** Every song in the result comes from a track of an album of the list that carries the chosen name. */
  lemma {:induction false} MatchedSongsFrom(api: SubSonic, env: Env, lib: Library, albums: seq<AlbumEntry>, name: string, s: Song)
    requires s in MatchedSongs(api, env, lib, albums, name)
    ensures exists i, t ::
      0 <= i < |albums| && albums[i].album == name && t in lib.albumTracks(albums[i].id) && MadeFrom(s, api, env, albums[i], t)
    decreases |albums|
  {
    var n := |albums| - 1;
    var front := albums[..n];
    var album := albums[n];
    assert MatchedSongs(api, env, lib, albums, name)
      == MatchedSongs(api, env, lib, front, name) + AlbumSongs(api, env, lib, album, name);
    if s in MatchedSongs(api, env, lib, front, name) {
      MatchedSongsFrom(api, env, lib, front, name, s);
      var i, t :| 0 <= i < |front| && front[i].album == name && t in lib.albumTracks(front[i].id)
        && MadeFrom(s, api, env, front[i], t);
      assert albums[i] == front[i];
    } else {
      AlbumSongsFrom(api, env, lib, album, name, s);
      assert albums[n] == album;
    }
  }

  /** Every song one album contributes is built from one of that album's tracks. */
  lemma AlbumSongsFrom(api: SubSonic, env: Env, lib: Library, album: AlbumEntry, name: string, s: Song)
    requires s in AlbumSongs(api, env, lib, album, name)
    ensures album.album == name
    ensures exists t :: t in lib.albumTracks(album.id) && MadeFrom(s, api, env, album, t)
  {
    var tracks := lib.albumTracks(album.id);
    var songs := TrackSongs(api, env, tracks, CoverUrl(api, env, album));
    TrackSongsAt(api, env, album, tracks);
    var k :| 0 <= k < |songs| && songs[k] == s;
    assert MadeFrom(s, api, env, album, tracks[k]) && tracks[k] in tracks;
  }
  /** Conversely, every track of every album of the list that carries the chosen name yields
      a song of the result. */
  lemma {:induction false} MatchedSongsCover(api: SubSonic, env: Env, lib: Library, albums: seq<AlbumEntry>, name: string, i: int, t: Track)
    requires 0 <= i < |albums| && albums[i].album == name && t in lib.albumTracks(albums[i].id)
    ensures TrackSong(api, env, t, CoverUrl(api, env, albums[i])) in MatchedSongs(api, env, lib, albums, name)
  {
    var album := albums[i];
    var front := albums[..i + 1];
    assert albums == front + albums[i + 1..];
    MatchedSongsAppend(api, env, lib, front, albums[i + 1..], name);
    assert front[..i] == albums[..i] && front[i] == album;
    assert MatchedSongs(api, env, lib, front, name)
      == MatchedSongs(api, env, lib, albums[..i], name) + AlbumSongs(api, env, lib, album, name);
    AlbumSongsCover(api, env, lib, album, name, t);
  }

  /** Every track of an album bearing the chosen name yields a song of that album's part. */
  lemma AlbumSongsCover(api: SubSonic, env: Env, lib: Library, album: AlbumEntry, name: string, t: Track)
    requires album.album == name && t in lib.albumTracks(album.id)
    ensures TrackSong(api, env, t, CoverUrl(api, env, album)) in AlbumSongs(api, env, lib, album, name)
  {
    var tracks := lib.albumTracks(album.id);
    TrackSongsAt(api, env, album, tracks);
    var k :| 0 <= k < |tracks| && tracks[k] == t;
    var songs := TrackSongs(api, env, tracks, CoverUrl(api, env, album));
    assert MadeFrom(songs[k], api, env, album, t);
    assert songs[k] == TrackSong(api, env, t, CoverUrl(api, env, album));
  }
}
