# Player store and catalog formatting of a music-streaming web client

This project models, in Dafny, the logic core of a client-side music
streaming application built on a third-party music catalog:

- the **player store** (`store/player-store.ts`): one mutable record holding
  the current song, the play and mute flags, the volume, the playback queue,
  a history of at most fifty songs, the repeat mode (off, all, one), the
  shuffle flag, the favourites and the playlists, with a reserved playlist
  `"favorites"` that mirrors the favourites. Its synchronous actions move
  songs between these fields. Only volume, favourites and playlists are
  persisted.
- the **pure helpers of the data hooks** (`hooks/use-music.ts`): the
  on-device cache that stores a value with an expiry instant and judges it
  stale afterwards; the formatters that turn catalog responses into songs,
  album cards and artist cards, substituting defaults for absent or falsy
  fields; the album track list, whose tracks fall back to `track-<index>` and
  `Track <index+1>`; and the limits applied to result lists (6 featured songs,
  6 new releases, 12 search hits, 10 top tracks, 6 artist albums).

## Files

- `songs.dfy`, module `Songs`: the `Song` and `Playlist` records, membership
  by id, `WithoutId` (the store's `filter(s => s.id !== id)`), `Take`
  (`slice(0, n)`) and lemmas about them.
- `player.dfy`, module `Player`: the store's state as a value
  (`PlayerState`), one function per action giving the state it leaves, the
  invariant `Valid` (history holds at most fifty songs), and the lemmas that
  state what each action promises.
- `player_store.dfy`, module `PlayerStore`: class `Store`, whose fields are
  the store's fields and whose methods update them in place, each proved to
  leave exactly the state the matching `Player` function gives and to keep
  `Valid`.
- `decimal.dfy`, module `Decimal`: the decimal text of a non-negative
  integer, as a template literal writes it, with its inverse.
- `formatters.dfy`, module `Formatters`: the record formatters and list
  limits.
- `music_cache.dfy`, module `MusicCache`: class `Storage` over a map of keys
  to stored items, with `Save` and `Get`, and the lemmas about expiry.

Inputs the source draws from the host are parameters: `Math.random()` is a
real `random` with `0 <= random < 1` (the index picked is
`Floor(random * n)`, as `Math.floor(Math.random() * n)`); the random text in
fallback ids such as `song-${Math.random()}` is a string `nonce` (or a
function `nonces` from list position to string); the `Date.now()` id of a
new playlist is a parameter `id`; the clock of the cache is a parameter
`now` in milliseconds; whether a browser window exists is the constant
`inBrowser` of a `Storage`.

A catalog response is untyped JSON. Here a response object is a record whose
fields are `Option`s. A string field counts as falsy for `||` when absent or
empty, a numeric field when absent or zero. Ids, numeric in the catalog, are
carried as their text, so the falsiness of a numeric id 0 is not captured
(see "Left out").

## Model

| member | source | states |
|---|---|---|
| Songs.WithoutId | store/player-store.ts:114 | the filtered list keeps exactly the songs whose id differs, in order, contains no song with that id, and is strictly shorter when the id was present |
| Songs.Take | store/player-store.ts:106 | `slice(0, n)` is the prefix of length `n`, or the whole list when shorter |
| Songs.WithoutAbsentId | store/player-store.ts:156 | filtering out an id no song has leaves the list unchanged |
| Songs.WithoutIdAppend | store/player-store.ts:156 | filtering distributes over concatenation |
| Songs.AppendThenRemove | store/player-store.ts:156 | appending a song with a new id and filtering that id out gives back the original list |
| Songs.WithoutHeadIdOfUnique | store/player-store.ts:114 | on a list of distinct ids, filtering out the head's id removes exactly the head |
| Songs.AppendNewIdKeepsUnique | store/player-store.ts:187 | appending a song whose id is absent keeps ids distinct |
| Songs.WithoutIdKeepsUnique | store/player-store.ts:199 | filtering by id keeps ids distinct |
| Player.Initial | store/player-store.ts:62-74 | the start state has no current song, is not playing, has volume 0.7 unmuted, empty queue, history and favourites, repeat off, shuffle off, no API key, and one playlist, the reserved favourites playlist, mirroring the empty favourites |
| Player.RandomIndex | store/player-store.ts:110 | `Math.floor(Math.random() * n)` is a valid index of a non-empty list |
| Player.Partialize | store/player-store.ts:211-215 | the persisted projection holds volume, favourites and playlists |
| Player.SetCurrentSong | store/player-store.ts:76 | the song is set and `isPlaying` is true exactly when the song is not null; nothing else changes |
| Player.TogglePlay | store/player-store.ts:78 | `isPlaying` flips; nothing else changes |
| Player.SetVolume | store/player-store.ts:82 | volume is set and `isMuted` is true exactly when the volume is 0; nothing else changes |
| Player.SetIsPlaying | store/player-store.ts:80 | `isPlaying` takes the given value; nothing else changes |
| Player.ToggleMute | store/player-store.ts:84-87 | `isMuted` flips; nothing else changes |
| Player.AddToQueue | store/player-store.ts:136-139 | the song is appended at the end of the queue, the rest of the queue and all other fields unchanged |
| Player.ClearQueue | store/player-store.ts:141 | the queue becomes empty; nothing else changes |
| Player.NextRepeat | store/player-store.ts:143-146 | the next repeat mode always differs from the current one |
| Player.ToggleRepeat | store/player-store.ts:143-146 | the repeat mode changes; nothing else changes |
| Player.ToggleShuffle | store/player-store.ts:148 | `shuffle` flips; nothing else changes |
| Player.SetApiKey | store/player-store.ts:150 | the API key takes the given value; nothing else changes |
| Player.NextSong | store/player-store.ts:89-116 | nextSong keeps history within fifty songs; with songs queued, a queued song plays and every song with its id leaves the queue, which gets shorter; with an empty queue, the queue stays empty and history never grows; only the current song, queue and history change |
| Player.PreviousSong | store/player-store.ts:118-134 | previousSong keeps history within fifty songs; with empty history nothing changes; otherwise history[0] plays, history loses one entry, the queue gains the song that was playing (if any); only the current song, queue and history change |
| Player.ToggledFavorites | store/player-store.ts:154-156 | after a toggle the song's id is a favourite exactly when it was not; removal keeps exactly the other-id favourites, addition keeps all and adds the song |
| Player.ToggleFavorite | store/player-store.ts:152-167 | toggleFavorite flips membership by id, makes every reserved playlist hold exactly the new favourites, keeps the number of playlists, and changes no field besides favourites and playlists |
| Player.AddedOnce | store/player-store.ts:187 | the target's song list afterwards holds the song's id, keeps its old songs as a prefix, grows by at most one, and keeps ids distinct |
| Player.AddToPlaylist | store/player-store.ts:181-191 | every playlist with the target id holds the song's id afterwards; the number of playlists and every other field are unchanged |
| Player.RemoveFromPlaylist | store/player-store.ts:193-203 | no playlist with the target id holds the song id afterwards; the number of playlists and every other field are unchanged |
| Player.CreatePlaylist | store/player-store.ts:169-179 | an empty playlist with the given id and name is appended; existing playlists and all other fields unchanged |
| Player.EditPlaylists | store/player-store.ts:183-191 | the playlist-by-id update maps each playlist with the target id to its edited songs and keeps every other playlist |
| Player.ToggleRepeatCycles | store/player-store.ts:143-146 | toggleRepeat goes off to all, all to one, one to off, returns to the start after three steps and changes no other field |
| Player.NextSongFromQueue | store/player-store.ts:104-115 | with songs queued and shuffle off, the queue head plays, every song with its id leaves the queue, and the previous song (if any) heads the history followed by the first 49 old entries |
| Player.NextSongShuffledFromQueue | store/player-store.ts:104-115 | with shuffle on, the queued song at `floor(random * length)` plays, the queue becomes its filter by that id, history is pushed exactly as with shuffle off, and nothing else changes |
| Player.NextSongAtEndIsNoOp | store/player-store.ts:92-102 | with an empty queue, unless repeat is all and history is non-empty, the whole state is unchanged |
| Player.NextSongRestartsFromHistory | store/player-store.ts:93-99 | repeat-all restart with shuffle off plays history[0], history becomes history[0] followed by the other-id entries, no other entry has its id, history never lengthens, and only the current song and history change |
| Player.NextSongRestartsShuffled | store/player-store.ts:95-99 | repeat-all restart with shuffle on plays the history entry at `floor(random * length)` and changes nothing else, history included |
| Player.PreviousSongSteps | store/player-store.ts:118-134 | with empty history nothing changes; otherwise history[0] plays, history becomes its tail, and the previous song (if any) is put back at the front of the queue |
| Player.PreviousSongUndoesNextSong | store/player-store.ts:89-134 | with shuffle off, a song playing, a queue of distinct ids and history below fifty, previousSong after nextSong restores the whole state |
| Player.AddToQueueThenNextSong | store/player-store.ts:89-139 | queuing a song on an empty queue and advancing with shuffle off plays that song and empties the queue |
| Player.ActionsKeepValid | store/player-store.ts:76-203 | every action (setCurrentSong with a song or null, togglePlay, setIsPlaying, setVolume, toggleMute, nextSong, previousSong, addToQueue, clearQueue, toggleRepeat, toggleShuffle, setApiKey, toggleFavorite, createPlaylist, addToPlaylist, removeFromPlaylist) keeps history within fifty songs |
| Player.ToggleFavoriteFlips | store/player-store.ts:152-167 | toggleFavorite flips membership by id, sets the songs of each reserved playlist to the new favourites keeping its id, name and cover, and leaves every other playlist and field unchanged |
| Player.ToggleFavoriteContents | store/player-store.ts:154-156 | removal keeps the other favourites in order; addition appends the song |
| Player.ToggleFavoriteTwice | store/player-store.ts:152-167 | toggling a song that is not a favourite twice restores the favourites exactly, and the whole state when the reserved playlist mirrored them |
| Player.AddToPlaylistAddsOnce | store/player-store.ts:181-191 | the target playlist gains the song at its end exactly when its id was absent, keeps ids distinct, and other playlists are unchanged |
| Player.AddToPlaylistPresentIsNoOp | store/player-store.ts:187 | adding a song whose id the target playlist already holds changes nothing |
| Player.RemoveFromPlaylistRemovesAll | store/player-store.ts:193-203 | the target playlist's songs become exactly their filter by that id: every song with the id leaves, the others stay in order, ids stay distinct, and other playlists are unchanged |
| Player.PlaybackActionsAreNotPersisted | store/player-store.ts:209-215 | playback and queue actions (nextSong, previousSong, setCurrentSong with a song or null, togglePlay, setIsPlaying, toggleMute, addToQueue, clearQueue, toggleRepeat, toggleShuffle, setApiKey) leave the persisted projection unchanged |
| PlayerStore.Store.Persisted | store/player-store.ts:211-215 | the persisted slice of the live store is its volume, favourites and playlists |
| PlayerStore.Store.constructor | store/player-store.ts:62-74 | a new store is in the initial state |
| PlayerStore.Store.SetCurrentSong | store/player-store.ts:76 | in place: the new state is `Player.SetCurrentSong` of the old |
| PlayerStore.Store.TogglePlay | store/player-store.ts:78 | in place: the new state is `Player.TogglePlay` of the old |
| PlayerStore.Store.SetIsPlaying | store/player-store.ts:80 | in place: only `isPlaying` is set |
| PlayerStore.Store.SetVolume | store/player-store.ts:82 | in place: the new state is `Player.SetVolume` of the old; muted exactly at volume 0 |
| PlayerStore.Store.ToggleMute | store/player-store.ts:84-87 | in place: the new state is `Player.ToggleMute` of the old |
| PlayerStore.Store.NextSong | store/player-store.ts:89-116 | in place, through the two successive updates of the source: the new state is `Player.NextSong` of the old, and history stays within fifty |
| PlayerStore.Store.PreviousSong | store/player-store.ts:118-134 | in place: the new state is `Player.PreviousSong` of the old |
| PlayerStore.Store.AddToQueue | store/player-store.ts:136-139 | in place: the song is appended to the queue |
| PlayerStore.Store.ClearQueue | store/player-store.ts:141 | in place: only the queue is emptied |
| PlayerStore.Store.ToggleRepeat | store/player-store.ts:143-146 | in place: the new state is `Player.ToggleRepeat` of the old |
| PlayerStore.Store.ToggleShuffle | store/player-store.ts:148 | in place: the new state is `Player.ToggleShuffle` of the old |
| PlayerStore.Store.SetApiKey | store/player-store.ts:150 | in place: only the API key is set |
| PlayerStore.Store.ToggleFavorite | store/player-store.ts:152-167 | in place: the new state is `Player.ToggleFavorite` of the old, with the reserved playlist mirroring the favourites |
| PlayerStore.Store.CreatePlaylist | store/player-store.ts:169-179 | in place: the new state is `Player.CreatePlaylist` of the old |
| PlayerStore.Store.AddToPlaylist | store/player-store.ts:181-191 | in place: the new state is `Player.AddToPlaylist` of the old |
| PlayerStore.Store.RemoveFromPlaylist | store/player-store.ts:193-203 | in place: the new state is `Player.RemoveFromPlaylist` of the old |
| Decimal.NatToString | hooks/use-music.ts:394-395 | the text of an index is a non-empty string of decimal digits without a leading zero |
| Decimal.NatToStringRoundTrip | hooks/use-music.ts:394-395 | reading the digits back gives the index |
| Decimal.NatToStringInjective | hooks/use-music.ts:394 | distinct indexes give distinct texts |
| Formatters.FormatTrackToSong | hooks/use-music.ts:71-83 | a formatted song has no empty text field and a non-zero duration, whatever the response omits |
| Formatters.FormatTrackToSongFields | hooks/use-music.ts:71-83 | each present field is copied unchanged; each absent or falsy one becomes "Unknown Song", "Unknown Artist", "Unknown Album", "unknown", 30, the placeholder image, the fallback audio or `song-<random>` |
| Formatters.FormatTrackToSongKeepsCompleteSong | hooks/use-music.ts:71-83 | a song with no empty field, presented as a catalog track, formats back to itself |
| Formatters.FormatAlbum | hooks/use-music.ts:86-92 | an album card has no empty field; id, title, artist name, artist id and cover are copied when present, else `album-<random>`, "Unknown Album", "Unknown Artist", "unknown" and the placeholder image |
| Formatters.FormatArtist | hooks/use-music.ts:95-99 | an artist card has no empty field; id, name and picture are copied when present, else `artist-<random>`, "Unknown Artist" and the placeholder image |
| Formatters.AlbumTrack | hooks/use-music.ts:393-407 | an album track always has an id, a title and a non-zero duration, and is complete whenever an album id is known |
| Formatters.AlbumTracks | hooks/use-music.ts:392-408 | a missing or non-array track list yields `[]`; otherwise one song per track |
| Formatters.AlbumTracksDefaults | hooks/use-music.ts:392-408 | track `i` keeps its id, title, duration and preview when present, else `track-<i>`, `Track <i+1>`, 30 and the fallback audio; artist, artist id, album title and cover come from the album with the usual defaults, and the album id falls back to the route id |
| Formatters.AlbumTrackFallbackIdsDistinct | hooks/use-music.ts:394 | two tracks of one album that both lack an id get different ids |
| Formatters.FormatAlbumDetails | hooks/use-music.ts:383-409 | id, title, artist name, artist id, cover, release date and track count are copied when present, else the route id, "Unknown Album", "Unknown Artist", "unknown", the placeholder image, "2023" and 10; the tracks are the mapped track list |
| Formatters.SongList | hooks/use-music.ts:121-123 | `isArray ? slice(0, limit).map(formatTrackToSong) : []`: at most `limit` songs, the first ones of the response in order, all complete; `[]` for a non-array |
| Formatters.AlbumList | hooks/use-music.ts:168-170 | the same cut for album cards |
| Formatters.ArtistList | hooks/use-music.ts:277-279 | the same cut for artist cards |
| Formatters.FeaturedSongs | hooks/use-music.ts:119-123 | the featured songs are the first six chart entries (all of them when fewer), each formatted as a song, in order; `[]` for a non-array |
| Formatters.NewReleases | hooks/use-music.ts:166-170 | the new releases are the first six album entries (all of them when fewer), each formatted as an album card, in order; `[]` for a non-array |
| Formatters.SearchResults | hooks/use-music.ts:261-280 | an empty query gives no hits; otherwise the hits are of the requested kind and are the first twelve response entries (all when fewer), each formatted as a song, album card or artist card, in order; `[]` for a non-array |
| Formatters.FormatArtistDetails | hooks/use-music.ts:468-482 | top tracks are the first ten formatted tracks and albums the first six formatted albums, `[]` for non-arrays; id, name, picture, fan count and genres are copied when present, else the route id, "Unknown Artist", the placeholder image, 10000 and ["Pop", "Rock"] |
| MusicCache.Read | hooks/use-music.ts:41-51 | a missing or unreadable item reads as no data and expired; a stored entry returns its data, expired exactly when `now > expiry`; a parsed record whose expiry is no number returns its data and is never expired |
| MusicCache.Storage.Save | hooks/use-music.ts:59-68 | in a browser the key is set to the data with expiry `now + minutes * 60 * 1000`; without a window nothing changes |
| MusicCache.Storage.Get | hooks/use-music.ts:35-56 | the reader's result is `Read` of local storage in a browser, and no data and expired without a window |
| MusicCache.SaveWritesExpiry | hooks/use-music.ts:59-64 | a save writes the data with expiry `now + minutes * 60000`, `now + 3600000` by default, and leaves every other key as it was |
| MusicCache.SaveThenReadIsFresh | hooks/use-music.ts:41-64 | a read at the instant of a save with a non-negative duration returns the saved data, not expired |
| MusicCache.EntryExpiresAfterExpiry | hooks/use-music.ts:47-51 | a saved entry is fresh up to and including its expiry instant, expired after it, and its data is returned either way |
| MusicCache.SaveLeavesOtherKeys | hooks/use-music.ts:64 | a save under one key changes what no other key reads |
| MusicCache.FreshnessIsMonotone | hooks/use-music.ts:47 | an entry fresh at some instant was fresh, with the same data, at every earlier instant |

## Notes on behaviour

- The reserved `"favorites"` playlist mirrors the favourites in the initial
  state (`Player.Initial`) and right after each `toggleFavorite`
  (`Player.ToggleFavoriteFlips`), but it is not an invariant of the store: `addToPlaylist` and `removeFromPlaylist` accept the reserved id
  and then change that playlist alone. The song card's menu leaves the
  reserved playlist out of its targets (`components/song-card.tsx:86-87`),
  but the library page links to `/playlist/favorites`
  (`app/library/page.tsx:42`), whose song list calls `removeFromPlaylist`
  with the reserved id (`app/playlist/[id]/page.tsx:61-62`), so the two
  lists can drift apart there.
- Toggling a favourite twice restores the state when the song was not a
  favourite to begin with and the reserved playlist mirrored the favourites
  (`Player.ToggleFavoriteTwice`). When it was a favourite, the first toggle
  removes it and the second appends it at the end, so the order of the
  favourites changes unless it was the last entry, and any duplicate entries
  of that id are gone.
- `previousSong` right after `nextSong` restores the whole state under the
  conditions of `Player.PreviousSongUndoesNextSong`, and in some other cases
  (both are no-ops when the queue and the history are empty). It fails, for
  example, when fifty songs are in history, since the oldest is dropped for
  good; when the queue held the next song's id more than once, since all
  copies leave the queue and only one returns; when no song was playing;
  when shuffle picked a song other than the queue's head; and after a
  repeat-all restart from history.
- When the queue is empty and repeat is not "all", `nextSong` changes
  nothing: the song that just ended stays current and `isPlaying` stays as
  it was (`Player.NextSongAtEndIsNoOp`).

## Left out

- `updateCurrentTime` and `updateDuration`: passive mirrors of the audio
  element's floating-point position and length.
- The "ended" handler of `components/music-player.tsx`, which replays the
  song itself when repeat is "one" and otherwise calls `nextSong`; the store
  never consults the "one" mode.
- The persist middleware's JSON serialisation and rehydration; only the
  `partialize` field selection is modelled.
- The React Query and effect orchestration of `hooks/use-music.ts`: fetching,
  the fallbacks to expired cache data, to random catalog entries and to mock
  data, and the popular-artists mapping without defaults. They are
  asynchronous I/O around the modelled helpers.
- The JSON round trip of cached data: `Get` returns exactly the value
  `Save` stored, whereas `JSON.stringify` then `JSON.parse` drops
  `undefined` members and functions and turns dates into strings.
- The `console.error` logging in both cache helpers' `catch` branches.
- A `setItem` that throws (storage quota, serialisation failure) is not
  modelled: `Save` always succeeds in a browser.
- `lib/music-api.ts` (catalog REST calls and API-key lookup) and
  `store/user-store.ts` (three plain setters) are not part of this model, nor
  are pages and components.
- Numeric ids: the catalog's ids are numbers and a numeric id 0 is falsy for
  `||`, so the source replaces it with the default; ids are text here and
  "0" is kept.
- Id comparison by type: the source compares ids with `===`, which tells a
  numeric catalog id (copied by `hooks/use-music.ts:72`) from the same digits
  as text (the placeholder song of `app/song/[id]/page.tsx:78-79` takes the
  route text). `toggleFavorite` and `addToPlaylist`
  (`store/player-store.ts:154`, `187`) treat those as two songs; here ids are
  text only, so they are one.
- Floating point: volume is an exact real, `Math.random()` an exact real in
  [0, 1), and durations and counts are integers; `NaN` as a falsy duration
  is not represented.
