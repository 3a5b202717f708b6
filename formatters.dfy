/** How the data hooks turn catalog responses into the records the pages and
    the player store use: every absent or falsy field gets a default, and
    result lists are cut to a fixed length. A catalog response is untyped
    JSON; here each object is a record whose fields are optional, with
    numeric ids carried as their text. */
module Formatters {
  import opened Songs
  import opened Decimal

  /** A nested response object such as `track.artist` or `track.album`. */
  datatype Ref = Ref(id: Option<string>, name: Option<string>, title: Option<string>, coverMedium: Option<string>)

  /** A track, album or artist object as the catalog returns it. */
  datatype Raw = Raw(
    id: Option<string>,
    title: Option<string>,
    name: Option<string>,
    artist: Option<Ref>,
    album: Option<Ref>,
    duration: Option<int>,
    preview: Option<string>,
    coverMedium: Option<string>,
    pictureMedium: Option<string>)

  datatype AlbumCard = AlbumCard(id: string, title: string, artist: string, artistId: string, cover: string)

  datatype ArtistCard = ArtistCard(id: string, name: string, image: string)

  /** An album lookup response; `trackData` is None when `tracks` or
      `tracks.data` is missing or is not an array. */
  datatype AlbumPayload = AlbumPayload(
    id: Option<string>,
    title: Option<string>,
    artist: Option<Ref>,
    coverMedium: Option<string>,
    releaseDate: Option<string>,
    nbTracks: Option<int>,
    trackData: Option<seq<Raw>>)

  datatype AlbumDetails = AlbumDetails(
    id: string, title: string, artist: string, artistId: string, cover: string,
    releaseDate: string, trackCount: int, tracks: seq<Song>)

  /** An artist lookup response. */
  datatype ArtistPayload = ArtistPayload(
    id: Option<string>,
    name: Option<string>,
    pictureMedium: Option<string>,
    nbFan: Option<int>,
    genres: Option<seq<string>>)

  datatype ArtistDetails = ArtistDetails(
    id: string, name: string, image: string, followers: int, genres: seq<string>,
    topTracks: seq<Song>, albums: seq<AlbumCard>)

  datatype SearchType = TrackSearch | AlbumSearch | ArtistSearch

  datatype SearchHits = SongHits(songs: seq<Song>) | AlbumHits(albums: seq<AlbumCard>) | ArtistHits(artists: seq<ArtistCard>)

  const UnknownSong := "Unknown Song"
  const UnknownArtist := "Unknown Artist"
  const UnknownAlbum := "Unknown Album"
  const UnknownId := "unknown"
  const DefaultDuration := 30
  const PlaceholderImage := "/placeholder.svg?height=300&width=300"
  const FallbackAudio := "https://www.soundhelix.com/examples/mp3/SoundHelix-Song-1.mp3"
  const DefaultReleaseDate := "2023"
  const DefaultTrackCount := 10
  const DefaultFollowers := 10000
  const DefaultGenres := ["Pop", "Rock"]

  const FeaturedLimit: nat := 6
  const NewReleasesLimit: nat := 6
  const SearchLimit: nat := 12
  const TopTracksLimit: nat := 10
  const ArtistAlbumsLimit: nat := 6

  // ---------------------------------------------------------------------
  // JavaScript's `a || b` on optional fields

  /** Whether a string field is present and not the empty string. */
  predicate Truthy(v: Option<string>) {
    v.Some? && v.value != ""
  }

  /** `v || fallback` for a string field. */
  function Or(v: Option<string>, fallback: string): string {
    if Truthy(v) then v.value else fallback
  }

  /** `v || fallback` for a numeric field: absent and zero are falsy. */
  function OrNumber(v: Option<int>, fallback: int): int {
    if v.Some? && v.value != 0 then v.value else fallback
  }

  /** Optional chaining into a nested object: `r?.id`, `r?.name`, ... */
  function IdOf(r: Option<Ref>): Option<string> { if r.Some? then r.value.id else None }
  function NameOf(r: Option<Ref>): Option<string> { if r.Some? then r.value.name else None }
  function TitleOf(r: Option<Ref>): Option<string> { if r.Some? then r.value.title else None }
  function CoverOf(r: Option<Ref>): Option<string> { if r.Some? then r.value.coverMedium else None }

  /** No text field is empty and the duration is not zero: the shape every
      formatted song has, whatever the response left out. */
  predicate Complete(s: Song) {
    && s.id != "" && s.title != "" && s.artist != "" && s.artistId != ""
    && s.album != "" && s.albumId != "" && s.duration != 0 && s.cover != "" && s.audioUrl != ""
  }

  predicate CompleteAlbum(a: AlbumCard) {
    a.id != "" && a.title != "" && a.artist != "" && a.artistId != "" && a.cover != ""
  }

  predicate CompleteArtist(a: ArtistCard) {
    a.id != "" && a.name != "" && a.image != ""
  }

  // ---------------------------------------------------------------------
  // Record formatters

  /** formatTrackToSong. `nonce` is the text of the `Math.random()` value
      used for a missing id. */
  function FormatTrackToSong(t: Raw, nonce: string): (s: Song)
    ensures Complete(s)
  {
    Song(
      Or(t.id, "song-" + nonce),
      Or(t.title, UnknownSong),
      Or(NameOf(t.artist), UnknownArtist),
      Or(IdOf(t.artist), UnknownId),
      Or(TitleOf(t.album), UnknownAlbum),
      Or(IdOf(t.album), UnknownId),
      OrNumber(t.duration, DefaultDuration),
      Or(CoverOf(t.album), PlaceholderImage),
      Or(t.preview, FallbackAudio))
  }

  /** Present fields are copied unchanged; absent or falsy ones take the
      fixed defaults. */
  lemma FormatTrackToSongFields(t: Raw, nonce: string)
    ensures var s := FormatTrackToSong(t, nonce);
      && (Truthy(t.id) ==> s.id == t.id.value) && (!Truthy(t.id) ==> s.id == "song-" + nonce)
      && (Truthy(t.title) ==> s.title == t.title.value) && (!Truthy(t.title) ==> s.title == "Unknown Song")
      && (Truthy(NameOf(t.artist)) ==> s.artist == t.artist.value.name.value)
      && (!Truthy(NameOf(t.artist)) ==> s.artist == "Unknown Artist")
      && (Truthy(IdOf(t.artist)) ==> s.artistId == t.artist.value.id.value)
      && (!Truthy(IdOf(t.artist)) ==> s.artistId == "unknown")
      && (Truthy(TitleOf(t.album)) ==> s.album == t.album.value.title.value)
      && (!Truthy(TitleOf(t.album)) ==> s.album == "Unknown Album")
      && (Truthy(IdOf(t.album)) ==> s.albumId == t.album.value.id.value)
      && (!Truthy(IdOf(t.album)) ==> s.albumId == "unknown")
      && (t.duration.Some? && t.duration.value != 0 ==> s.duration == t.duration.value)
      && (t.duration.None? || t.duration.value == 0 ==> s.duration == 30)
      && (Truthy(CoverOf(t.album)) ==> s.cover == t.album.value.coverMedium.value)
      && (!Truthy(CoverOf(t.album)) ==> s.cover == "/placeholder.svg?height=300&width=300")
      && (Truthy(t.preview) ==> s.audioUrl == t.preview.value)
      && (!Truthy(t.preview) ==> s.audioUrl == "https://www.soundhelix.com/examples/mp3/SoundHelix-Song-1.mp3")
  {
  }

  /** The catalog response that describes a song. */
  function SongAsRaw(s: Song): Raw {
    Raw(Some(s.id), Some(s.title), None,
        Some(Ref(Some(s.artistId), Some(s.artist), None, None)),
        Some(Ref(Some(s.albumId), None, Some(s.album), Some(s.cover))),
        Some(s.duration), Some(s.audioUrl), None, None)
  }

  /** A song with no empty field survives formatting unchanged. */
  lemma FormatTrackToSongKeepsCompleteSong(s: Song, nonce: string)
    requires Complete(s)
    ensures FormatTrackToSong(SongAsRaw(s), nonce) == s
  {
  }

  /** formatAlbum; `nonce` stands for the `Math.random()` text of a missing id. */
  function FormatAlbum(a: Raw, nonce: string): (c: AlbumCard)
    ensures CompleteAlbum(c)
    ensures Truthy(a.id) ==> c.id == a.id.value
    ensures !Truthy(a.id) ==> c.id == "album-" + nonce
    ensures Truthy(a.title) ==> c.title == a.title.value
    ensures !Truthy(a.title) ==> c.title == "Unknown Album"
    ensures Truthy(NameOf(a.artist)) ==> c.artist == a.artist.value.name.value
    ensures !Truthy(NameOf(a.artist)) ==> c.artist == "Unknown Artist"
    ensures Truthy(IdOf(a.artist)) ==> c.artistId == a.artist.value.id.value
    ensures !Truthy(IdOf(a.artist)) ==> c.artistId == "unknown"
    ensures Truthy(a.coverMedium) ==> c.cover == a.coverMedium.value
    ensures !Truthy(a.coverMedium) ==> c.cover == "/placeholder.svg?height=300&width=300"
  {
    AlbumCard(
      Or(a.id, "album-" + nonce),
      Or(a.title, UnknownAlbum),
      Or(NameOf(a.artist), UnknownArtist),
      Or(IdOf(a.artist), UnknownId),
      Or(a.coverMedium, PlaceholderImage))
  }

  /** formatArtist; `nonce` stands for the `Math.random()` text of a missing id. */
  function FormatArtist(a: Raw, nonce: string): (c: ArtistCard)
    ensures CompleteArtist(c)
    ensures Truthy(a.id) ==> c.id == a.id.value
    ensures !Truthy(a.id) ==> c.id == "artist-" + nonce
    ensures Truthy(a.name) ==> c.name == a.name.value
    ensures !Truthy(a.name) ==> c.name == "Unknown Artist"
    ensures Truthy(a.pictureMedium) ==> c.image == a.pictureMedium.value
    ensures !Truthy(a.pictureMedium) ==> c.image == "/placeholder.svg?height=300&width=300"
  {
    ArtistCard(
      Or(a.id, "artist-" + nonce),
      Or(a.name, UnknownArtist),
      Or(a.pictureMedium, PlaceholderImage))
  }

  // ---------------------------------------------------------------------
  // Album details and its track list

  /** The `index`-th entry of an album's track list as a song: track fields
      where present, otherwise `track-<index>`, `Track <index+1>` and 30
      seconds; artist, album and cover come from the album. */
  function AlbumTrack(album: AlbumPayload, albumId: string, t: Raw, index: nat): (s: Song)
    ensures s.id != "" && s.title != "" && s.duration != 0
    ensures Truthy(album.id) || albumId != "" ==> Complete(s)
  {
    Song(
      Or(t.id, "track-" + NatToString(index)),
      Or(t.title, "Track " + NatToString(index + 1)),
      Or(NameOf(album.artist), UnknownArtist),
      Or(IdOf(album.artist), UnknownId),
      Or(album.title, UnknownAlbum),
      Or(album.id, albumId),
      OrNumber(t.duration, DefaultDuration),
      Or(album.coverMedium, PlaceholderImage),
      Or(t.preview, FallbackAudio))
  }

  /** `Array.isArray(tracks?.data) ? tracks.data.map(...) : []` */
  function AlbumTracks(album: AlbumPayload, albumId: string): (r: seq<Song>)
    ensures album.trackData.None? ==> r == []
    ensures album.trackData.Some? ==> |r| == |album.trackData.value|
  {
    match album.trackData
    case None => []
    case Some(ts) => seq(|ts|, i requires 0 <= i < |ts| => AlbumTrack(album, albumId, ts[i], i))
  }

  /** Each track keeps the fields it has and otherwise takes its position's
      defaults; artist, album and cover come from the album, with the same
      defaults as a single track. */
  lemma AlbumTracksDefaults(album: AlbumPayload, albumId: string, i: nat)
    requires album.trackData.Some? && i < |album.trackData.value|
    ensures var t, s := album.trackData.value[i], AlbumTracks(album, albumId)[i];
      && (Truthy(t.id) ==> s.id == t.id.value)
      && (!Truthy(t.id) ==> s.id == "track-" + NatToString(i))
      && (Truthy(t.title) ==> s.title == t.title.value)
      && (!Truthy(t.title) ==> s.title == "Track " + NatToString(i + 1))
      && (t.duration.Some? && t.duration.value != 0 ==> s.duration == t.duration.value)
      && (t.duration.None? || t.duration.value == 0 ==> s.duration == 30)
      && (Truthy(t.preview) ==> s.audioUrl == t.preview.value)
      && (!Truthy(t.preview) ==> s.audioUrl == "https://www.soundhelix.com/examples/mp3/SoundHelix-Song-1.mp3")
      && (Truthy(NameOf(album.artist)) ==> s.artist == album.artist.value.name.value)
      && (!Truthy(NameOf(album.artist)) ==> s.artist == "Unknown Artist")
      && (Truthy(IdOf(album.artist)) ==> s.artistId == album.artist.value.id.value)
      && (!Truthy(IdOf(album.artist)) ==> s.artistId == "unknown")
      && (Truthy(album.title) ==> s.album == album.title.value)
      && (!Truthy(album.title) ==> s.album == "Unknown Album")
      && (Truthy(album.id) ==> s.albumId == album.id.value)
      && (!Truthy(album.id) ==> s.albumId == albumId)
      && (Truthy(album.coverMedium) ==> s.cover == album.coverMedium.value)
      && (!Truthy(album.coverMedium) ==> s.cover == "/placeholder.svg?height=300&width=300")
  {
  }

  /** Two tracks of one album that both lack an id get different ids. */
  lemma AlbumTrackFallbackIdsDistinct(album: AlbumPayload, albumId: string, i: nat, j: nat)
    requires album.trackData.Some? && i < j < |album.trackData.value|
    requires !Truthy(album.trackData.value[i].id) && !Truthy(album.trackData.value[j].id)
    ensures AlbumTracks(album, albumId)[i].id != AlbumTracks(album, albumId)[j].id
  {
    var a, b := NatToString(i), NatToString(j);
    NatToStringInjective(i, j);
    var p := "track-";
    assert (p + a)[|p|..] == a && (p + b)[|p|..] == b;
  }

  /** The album record the album page shows. */
  function FormatAlbumDetails(album: AlbumPayload, albumId: string): (d: AlbumDetails)
    ensures d.tracks == AlbumTracks(album, albumId)
    ensures d.id == Or(album.id, albumId)
    ensures d.title != "" && d.artist != "" && d.artistId != "" && d.cover != "" && d.releaseDate != ""
    ensures d.trackCount != 0
    ensures Truthy(album.title) ==> d.title == album.title.value
    ensures !Truthy(album.title) ==> d.title == "Unknown Album"
    ensures Truthy(NameOf(album.artist)) ==> d.artist == album.artist.value.name.value
    ensures !Truthy(NameOf(album.artist)) ==> d.artist == "Unknown Artist"
    ensures Truthy(IdOf(album.artist)) ==> d.artistId == album.artist.value.id.value
    ensures !Truthy(IdOf(album.artist)) ==> d.artistId == "unknown"
    ensures Truthy(album.coverMedium) ==> d.cover == album.coverMedium.value
    ensures !Truthy(album.coverMedium) ==> d.cover == "/placeholder.svg?height=300&width=300"
    ensures Truthy(album.releaseDate) ==> d.releaseDate == album.releaseDate.value
    ensures !Truthy(album.releaseDate) ==> d.releaseDate == "2023"
    ensures album.nbTracks.Some? && album.nbTracks.value != 0 ==> d.trackCount == album.nbTracks.value
    ensures album.nbTracks.None? || album.nbTracks.value == 0 ==> d.trackCount == 10
  {
    AlbumDetails(
      Or(album.id, albumId),
      Or(album.title, UnknownAlbum),
      Or(NameOf(album.artist), UnknownArtist),
      Or(IdOf(album.artist), UnknownId),
      Or(album.coverMedium, PlaceholderImage),
      Or(album.releaseDate, DefaultReleaseDate),
      OrNumber(album.nbTracks, DefaultTrackCount),
      AlbumTracks(album, albumId))
  }

  // ---------------------------------------------------------------------
  // Result lists and their limits

  /** `Array.isArray(data) ? data.slice(0, limit).map(formatTrackToSong) : []`;
      `nonces(i)` is the random text for the `i`-th song. */
  function SongList(data: Option<seq<Raw>>, limit: nat, nonces: nat -> string): (r: seq<Song>)
    ensures |r| <= limit
    ensures data.None? ==> r == []
    ensures data.Some? ==> |r| == (if |data.value| < limit then |data.value| else limit)
    ensures forall i :: 0 <= i < |r| ==> Complete(r[i])
    ensures forall i :: 0 <= i < |r| ==> r[i] == FormatTrackToSong(data.value[i], nonces(i))
  {
    match data
    case None => []
    case Some(d) =>
      var kept := Take(d, limit);
      var r := seq(|kept|, i requires 0 <= i < |kept| => FormatTrackToSong(kept[i], nonces(i)));
      assert forall i :: 0 <= i < |r| ==> r[i] == FormatTrackToSong(kept[i], nonces(i)) && Complete(r[i]);
      r
  }

  /** The same cut for album cards. */
  function AlbumList(data: Option<seq<Raw>>, limit: nat, nonces: nat -> string): (r: seq<AlbumCard>)
    ensures |r| <= limit
    ensures data.None? ==> r == []
    ensures data.Some? ==> |r| == (if |data.value| < limit then |data.value| else limit)
    ensures forall i :: 0 <= i < |r| ==> CompleteAlbum(r[i])
    ensures forall i :: 0 <= i < |r| ==> r[i] == FormatAlbum(data.value[i], nonces(i))
  {
    match data
    case None => []
    case Some(d) =>
      var kept := Take(d, limit);
      var r := seq(|kept|, i requires 0 <= i < |kept| => FormatAlbum(kept[i], nonces(i)));
      assert forall i :: 0 <= i < |r| ==> r[i] == FormatAlbum(kept[i], nonces(i)) && CompleteAlbum(r[i]);
      r
  }

  /** The same cut for artist cards. */
  function ArtistList(data: Option<seq<Raw>>, limit: nat, nonces: nat -> string): (r: seq<ArtistCard>)
    ensures |r| <= limit
    ensures data.None? ==> r == []
    ensures data.Some? ==> |r| == (if |data.value| < limit then |data.value| else limit)
    ensures forall i :: 0 <= i < |r| ==> CompleteArtist(r[i])
    ensures forall i :: 0 <= i < |r| ==> r[i] == FormatArtist(data.value[i], nonces(i))
  {
    match data
    case None => []
    case Some(d) =>
      var kept := Take(d, limit);
      var r := seq(|kept|, i requires 0 <= i < |kept| => FormatArtist(kept[i], nonces(i)));
      assert forall i :: 0 <= i < |r| ==> r[i] == FormatArtist(kept[i], nonces(i)) && CompleteArtist(r[i]);
      r
  }

  /** The featured-songs query: at most six songs from the chart. */
  function FeaturedSongs(chart: Option<seq<Raw>>, nonces: nat -> string): (r: seq<Song>)
    ensures |r| <= 6
    ensures chart.None? ==> r == []
    ensures chart.Some? ==> |r| == (if |chart.value| < 6 then |chart.value| else 6)
    ensures forall i :: 0 <= i < |r| ==> r[i] == FormatTrackToSong(chart.value[i], nonces(i))
  {
    SongList(chart, FeaturedLimit, nonces)
  }

  /** The new-releases query: at most six albums. */
  function NewReleases(albums: Option<seq<Raw>>, nonces: nat -> string): (r: seq<AlbumCard>)
    ensures |r| <= 6
    ensures albums.None? ==> r == []
    ensures albums.Some? ==> |r| == (if |albums.value| < 6 then |albums.value| else 6)
    ensures forall i :: 0 <= i < |r| ==> r[i] == FormatAlbum(albums.value[i], nonces(i))
  {
    AlbumList(albums, NewReleasesLimit, nonces)
  }

  function HitCount(h: SearchHits): nat {
    match h
    case SongHits(s) => |s|
    case AlbumHits(a) => |a|
    case ArtistHits(a) => |a|
  }

  function KindOf(h: SearchHits): SearchType {
    match h
    case SongHits(_) => TrackSearch
    case AlbumHits(_) => AlbumSearch
    case ArtistHits(_) => ArtistSearch
  }

  /** The search query: nothing for an empty query, otherwise at most twelve
      hits of the requested kind, in the catalog's order. */
  function SearchResults(query: string, kind: SearchType, data: Option<seq<Raw>>, nonces: nat -> string): (h: SearchHits)
    ensures KindOf(h) == kind
    ensures HitCount(h) <= 12
    ensures query == "" || data.None? ==> HitCount(h) == 0
    ensures query != "" && data.Some? ==> HitCount(h) == (if |data.value| < 12 then |data.value| else 12)
    ensures h.SongHits? ==> forall i :: 0 <= i < |h.songs| ==> h.songs[i] == FormatTrackToSong(data.value[i], nonces(i))
    ensures h.AlbumHits? ==> forall i :: 0 <= i < |h.albums| ==> h.albums[i] == FormatAlbum(data.value[i], nonces(i))
    ensures h.ArtistHits? ==> forall i :: 0 <= i < |h.artists| ==> h.artists[i] == FormatArtist(data.value[i], nonces(i))
  {
    var d := if query == "" then Some([]) else data;
    match kind
    case TrackSearch => SongHits(SongList(d, SearchLimit, nonces))
    case AlbumSearch => AlbumHits(AlbumList(d, SearchLimit, nonces))
    case ArtistSearch => ArtistHits(ArtistList(d, SearchLimit, nonces))
  }

  /** The artist record the artist page shows: at most ten top tracks and
      six albums. */
  function FormatArtistDetails(
    artist: ArtistPayload, nameOrId: string, tracks: Option<seq<Raw>>, albums: Option<seq<Raw>>,
    trackNonces: nat -> string, albumNonces: nat -> string): (d: ArtistDetails)
    ensures d.topTracks == SongList(tracks, TopTracksLimit, trackNonces)
    ensures d.albums == AlbumList(albums, ArtistAlbumsLimit, albumNonces)
    ensures |d.topTracks| <= 10 && |d.albums| <= 6
    ensures tracks.None? ==> d.topTracks == []
    ensures albums.None? ==> d.albums == []
    ensures Truthy(artist.id) ==> d.id == artist.id.value
    ensures !Truthy(artist.id) ==> d.id == nameOrId
    ensures Truthy(artist.name) ==> d.name == artist.name.value
    ensures !Truthy(artist.name) ==> d.name == "Unknown Artist"
    ensures Truthy(artist.pictureMedium) ==> d.image == artist.pictureMedium.value
    ensures !Truthy(artist.pictureMedium) ==> d.image == "/placeholder.svg?height=300&width=300"
    ensures artist.nbFan.Some? && artist.nbFan.value != 0 ==> d.followers == artist.nbFan.value
    ensures artist.nbFan.None? || artist.nbFan.value == 0 ==> d.followers == 10000
    ensures artist.genres.Some? ==> d.genres == artist.genres.value
    ensures artist.genres.None? ==> d.genres == ["Pop", "Rock"]
  {
    ArtistDetails(
      Or(artist.id, nameOrId),
      Or(artist.name, UnknownArtist),
      Or(artist.pictureMedium, PlaceholderImage),
      OrNumber(artist.nbFan, DefaultFollowers),
      if artist.genres.Some? then artist.genres.value else DefaultGenres,
      SongList(tracks, TopTracksLimit, trackNonces),
      AlbumList(albums, ArtistAlbumsLimit, albumNonces))
  }
}
