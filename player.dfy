/** The player store's state and, for each of its actions, the state it
    leaves behind. The class in PlayerStore performs these actions in place;
    this module says what each one means and proves what the store promises
    about it. */
module Player {
  import opened Songs

  datatype RepeatMode = Off | All | One

  datatype PlayerState = PlayerState(
    currentSong: Option<Song>,
    isPlaying: bool,
    volume: real,
    isMuted: bool,
    queue: seq<Song>,
    history: seq<Song>,
    repeat: RepeatMode,
    shuffle: bool,
    apiKey: Option<string>,
    favorites: seq<Song>,
    playlists: seq<Playlist>)

  /** The part of the state written to on-device storage (`partialize`). */
  datatype PersistedState = PersistedState(volume: real, favorites: seq<Song>, playlists: seq<Playlist>)

  /** The most entries history holds: one current song plus `slice(0, 49)`. */
  const HistoryLimit: nat := 50
  /** The reserved playlist that mirrors the favourites list. */
  const FavoritesId: string := "favorites"

  /** The state every session starts from. */
  function Initial(): (s: PlayerState)
    ensures Valid(s) && FavoritesMirrored(s)
    ensures s.currentSong == None && !s.isPlaying && s.volume == 0.7 && !s.isMuted
    ensures s.queue == [] && s.history == [] && s.favorites == []
    ensures s.repeat == Off && !s.shuffle && s.apiKey == None
    ensures |s.playlists| == 1 && s.playlists[0].id == FavoritesId && s.playlists[0].songs == s.favorites
  {
    PlayerState(None, false, 0.7, false, [], [], Off, false, None, [],
                [Playlist(FavoritesId, "Liked Songs", [], None)])
  }

  /** The store's lasting invariant: history is bounded. */
  predicate Valid(s: PlayerState) {
    |s.history| <= HistoryLimit
  }

  /** Every playlist carrying the reserved id holds exactly the favourites. */
  predicate FavoritesMirrored(s: PlayerState) {
    forall i :: 0 <= i < |s.playlists| && s.playlists[i].id == FavoritesId ==> s.playlists[i].songs == s.favorites
  }

  /** `Math.floor(Math.random() * n)` with `random` the value of `Math.random()`. */
  function RandomIndex(random: real, n: nat): (i: nat)
    requires 0.0 <= random < 1.0 && n > 0
    ensures i < n
  {
    var x := random * n as real;
    assert x < n as real by {
      assert (1.0 - random) * n as real > 0.0;
    }
    x.Floor
  }

  function Partialize(s: PlayerState): (p: PersistedState)
    ensures p.volume == s.volume && p.favorites == s.favorites && p.playlists == s.playlists
  {
    PersistedState(s.volume, s.favorites, s.playlists)
  }

  // ---------------------------------------------------------------------
  // Actions

  function SetCurrentSong(s: PlayerState, song: Option<Song>): (t: PlayerState)
    ensures t.currentSong == song
    ensures t.isPlaying <==> song.Some?
    ensures t.(currentSong := s.currentSong, isPlaying := s.isPlaying) == s
  {
    s.(currentSong := song, isPlaying := song.Some?)
  }

  function TogglePlay(s: PlayerState): (t: PlayerState)
    ensures t.isPlaying != s.isPlaying
    ensures t.(isPlaying := s.isPlaying) == s
  {
    s.(isPlaying := !s.isPlaying)
  }

  function SetIsPlaying(s: PlayerState, playing: bool): (t: PlayerState)
    ensures t.isPlaying == playing
    ensures t.(isPlaying := s.isPlaying) == s
  {
    s.(isPlaying := playing)
  }

  function SetVolume(s: PlayerState, volume: real): (t: PlayerState)
    ensures t.volume == volume
    ensures t.isMuted <==> volume == 0.0
    ensures t.(volume := s.volume, isMuted := s.isMuted) == s
  {
    s.(volume := volume, isMuted := volume == 0.0)
  }

  function ToggleMute(s: PlayerState): (t: PlayerState)
    ensures t.isMuted != s.isMuted
    ensures t.(isMuted := s.isMuted) == s
  {
    s.(isMuted := !s.isMuted)
  }

  /** Advance playback. `random` is the value `Math.random()` would return;
      it is consulted only when shuffle is on. */
  function NextSong(s: PlayerState, random: real): (t: PlayerState)
    requires 0.0 <= random < 1.0
    ensures Valid(s) ==> Valid(t)
    ensures |s.queue| > 0 ==>
      && t.currentSong.Some? && t.currentSong.value in s.queue
      && !HasId(t.queue, t.currentSong.value.id) && |t.queue| < |s.queue|
    ensures |s.queue| == 0 ==> t.queue == [] && |t.history| <= |s.history|
    ensures t.(currentSong := s.currentSong, queue := s.queue, history := s.history) == s
  {
    if |s.queue| == 0 then
      if s.repeat == All && |s.history| > 0 then
        var k := if s.shuffle then RandomIndex(random, |s.history|) else 0;
        var next := s.history[k];
        assert HasId(s.history, next.id);
        s.(currentSong := Some(next),
           history := if s.shuffle then s.history else [next] + WithoutId(s.history, next.id))
      else
        s
    else
      var archived := if s.currentSong.Some? then s.(history := [s.currentSong.value] + Take(s.history, HistoryLimit - 1)) else s;
      var k := if s.shuffle then RandomIndex(random, |s.queue|) else 0;
      var next := s.queue[k];
      assert HasId(s.queue, next.id);
      archived.(currentSong := Some(next), queue := WithoutId(s.queue, next.id))
  }

  /** Step back to the most recent history entry. */
  function PreviousSong(s: PlayerState): (t: PlayerState)
    ensures Valid(s) ==> Valid(t)
    ensures |s.history| == 0 ==> t == s
    ensures |s.history| > 0 ==>
      && t.currentSong == Some(s.history[0]) && |t.history| == |s.history| - 1
      && |t.queue| == |s.queue| + (if s.currentSong.Some? then 1 else 0)
    ensures t.(currentSong := s.currentSong, queue := s.queue, history := s.history) == s
  {
    if |s.history| == 0 then s
    else
      var requeued := if s.currentSong.Some? then s.(queue := [s.currentSong.value] + s.queue) else s;
      requeued.(currentSong := Some(s.history[0]), history := s.history[1..])
  }

  function AddToQueue(s: PlayerState, song: Song): (t: PlayerState)
    ensures |t.queue| == |s.queue| + 1
    ensures t.queue[..|s.queue|] == s.queue && t.queue[|s.queue|] == song
    ensures t.(queue := s.queue) == s
  {
    s.(queue := s.queue + [song])
  }

  function ClearQueue(s: PlayerState): (t: PlayerState)
    ensures t.queue == []
    ensures t.(queue := s.queue) == s
  {
    s.(queue := [])
  }

  /** off -> all -> one -> off */
  function NextRepeat(m: RepeatMode): (r: RepeatMode)
    ensures r != m
  {
    match m
    case Off => All
    case All => One
    case One => Off
  }

  function ToggleRepeat(s: PlayerState): (t: PlayerState)
    ensures t.repeat != s.repeat
    ensures t.(repeat := s.repeat) == s
  {
    s.(repeat := NextRepeat(s.repeat))
  }

  function ToggleShuffle(s: PlayerState): (t: PlayerState)
    ensures t.shuffle != s.shuffle
    ensures t.(shuffle := s.shuffle) == s
  {
    s.(shuffle := !s.shuffle)
  }

  function SetApiKey(s: PlayerState, key: string): (t: PlayerState)
    ensures t.apiKey == Some(key)
    ensures t.(apiKey := s.apiKey) == s
  {
    s.(apiKey := Some(key))
  }

  /** `playlists.map(p => p.id === id ? { ...p, songs: edit(p.songs) } : p)` */
  function EditPlaylists(playlists: seq<Playlist>, id: string, edit: seq<Song> -> seq<Song>): (r: seq<Playlist>)
    ensures |r| == |playlists|
    ensures forall i :: 0 <= i < |r| ==>
      r[i] == if playlists[i].id == id then playlists[i].(songs := edit(playlists[i].songs)) else playlists[i]
  {
    seq(|playlists|, i requires 0 <= i < |playlists| =>
      if playlists[i].id == id then playlists[i].(songs := edit(playlists[i].songs)) else playlists[i])
  }

  /** The favourites list after toggling `song`. */
  function ToggledFavorites(favorites: seq<Song>, song: Song): (r: seq<Song>)
    ensures HasId(r, song.id) <==> !HasId(favorites, song.id)
    ensures forall x :: x in r <==>
      if HasId(favorites, song.id) then x in favorites && x.id != song.id else x in favorites || x == song
  {
    if HasId(favorites, song.id) then WithoutId(favorites, song.id)
    else
      var r := favorites + [song];
      assert r[|favorites|] == song;
      r
  }

  function ToggleFavorite(s: PlayerState, song: Song): (t: PlayerState)
    ensures HasId(t.favorites, song.id) <==> !HasId(s.favorites, song.id)
    ensures FavoritesMirrored(t)
    ensures |t.playlists| == |s.playlists|
    ensures t.(favorites := s.favorites, playlists := s.playlists) == s
  {
    var updated := ToggledFavorites(s.favorites, song);
    s.(favorites := updated, playlists := EditPlaylists(s.playlists, FavoritesId, _ => updated))
  }

  /** `id` is the id the source derives from `Date.now()`. */
  function CreatePlaylist(s: PlayerState, name: string, id: string): (t: PlayerState)
    ensures |t.playlists| == |s.playlists| + 1
    ensures t.playlists[..|s.playlists|] == s.playlists
    ensures t.playlists[|s.playlists|..] == [Playlist(id, name, [], None)]
    ensures t.(playlists := s.playlists) == s
  {
    s.(playlists := s.playlists + [Playlist(id, name, [], None)])
  }

  /** The target playlist's songs after `addToPlaylist`. */
  function AddedOnce(songs: seq<Song>, song: Song): (r: seq<Song>)
    ensures HasId(r, song.id)
    ensures |songs| <= |r| <= |songs| + 1 && r[..|songs|] == songs
    ensures UniqueIds(songs) ==> UniqueIds(r)
  {
    if HasId(songs, song.id) then songs
    else
      var r := songs + [song];
      assert r[|songs|] == song;
      assert UniqueIds(songs) ==> UniqueIds(r) by {
        if UniqueIds(songs) {
          AppendNewIdKeepsUnique(songs, song);
        }
      }
      r
  }

  function AddToPlaylist(s: PlayerState, playlistId: string, song: Song): (t: PlayerState)
    ensures |t.playlists| == |s.playlists|
    ensures forall i :: 0 <= i < |s.playlists| && s.playlists[i].id == playlistId ==>
      HasId(t.playlists[i].songs, song.id)
    ensures t.(playlists := s.playlists) == s
  {
    s.(playlists := EditPlaylists(s.playlists, playlistId, songs => AddedOnce(songs, song)))
  }

  function RemoveFromPlaylist(s: PlayerState, playlistId: string, songId: string): (t: PlayerState)
    ensures |t.playlists| == |s.playlists|
    ensures forall i :: 0 <= i < |s.playlists| && s.playlists[i].id == playlistId ==>
      !HasId(t.playlists[i].songs, songId)
    ensures t.(playlists := s.playlists) == s
  {
    s.(playlists := EditPlaylists(s.playlists, playlistId, songs => WithoutId(songs, songId)))
  }

  // ---------------------------------------------------------------------
  // Repeat

  /** toggleRepeat walks off -> all -> one -> off from any start, comes back
      after three steps, and touches no other field. */
  lemma ToggleRepeatCycles(s: PlayerState)
    ensures s.repeat == Off ==> ToggleRepeat(s).repeat == All
    ensures s.repeat == All ==> ToggleRepeat(s).repeat == One
    ensures s.repeat == One ==> ToggleRepeat(s).repeat == Off
    ensures ToggleRepeat(s).(repeat := s.repeat) == s
    ensures ToggleRepeat(ToggleRepeat(ToggleRepeat(s))) == s
    ensures ToggleRepeat(s) != s && ToggleRepeat(ToggleRepeat(s)) != s
  {
  }

  // ---------------------------------------------------------------------
  // nextSong / previousSong

  /** With songs queued and shuffle off, the head of the queue plays, every
      song with its id leaves the queue, and the song that was playing (if
      any) heads the history. */
  lemma NextSongFromQueue(s: PlayerState, random: real)
    requires 0.0 <= random < 1.0
    requires |s.queue| > 0 && !s.shuffle
    ensures var t := NextSong(s, random);
      && t.currentSong == Some(s.queue[0])
      && t.queue == WithoutId(s.queue, s.queue[0].id)
      && !HasId(t.queue, s.queue[0].id)
      && |t.queue| < |s.queue|
      && (s.currentSong.Some? ==> t.history == [s.currentSong.value] + Take(s.history, HistoryLimit - 1))
      && (s.currentSong.None? ==> t.history == s.history)
      && t.(currentSong := s.currentSong, queue := s.queue, history := s.history) == s
  {
  }

  /** With shuffle on, the queued song at `floor(random * length)` plays,
      every song with its id leaves the queue, and the history is pushed
      exactly as with shuffle off. */
  lemma NextSongShuffledFromQueue(s: PlayerState, random: real)
    requires 0.0 <= random < 1.0
    requires |s.queue| > 0 && s.shuffle
    ensures var t, k := NextSong(s, random), RandomIndex(random, |s.queue|);
      && t.currentSong == Some(s.queue[k])
      && t.queue == WithoutId(s.queue, s.queue[k].id)
      && !HasId(t.queue, s.queue[k].id)
      && |t.queue| < |s.queue|
      && (s.currentSong.Some? ==> t.history == [s.currentSong.value] + Take(s.history, HistoryLimit - 1))
      && (s.currentSong.None? ==> t.history == s.history)
      && t.(currentSong := s.currentSong, queue := s.queue, history := s.history) == s
  {
  }

  /** An empty queue without "repeat all" over a non-empty history leaves
      the whole state as it was: the song keeps its place and isPlaying its value. */
  lemma NextSongAtEndIsNoOp(s: PlayerState, random: real)
    requires 0.0 <= random < 1.0
    requires |s.queue| == 0 && (s.repeat != All || |s.history| == 0)
    ensures NextSong(s, random) == s
  {
  }

  /** Repeat-all restart with shuffle off: the most recent history entry
      plays again, stays first, and no other entry shares its id. */
  lemma NextSongRestartsFromHistory(s: PlayerState, random: real)
    requires 0.0 <= random < 1.0
    requires |s.queue| == 0 && s.repeat == All && |s.history| > 0 && !s.shuffle
    ensures var t := NextSong(s, random);
      && t.currentSong == Some(s.history[0])
      && |t.history| > 0 && t.history[0] == s.history[0]
      && (forall i :: 1 <= i < |t.history| ==> t.history[i].id != s.history[0].id)
      && t.history == [s.history[0]] + WithoutId(s.history, s.history[0].id)
      && |t.history| <= |s.history|
      && t.(currentSong := s.currentSong, history := s.history) == s
  {
    var t := NextSong(s, random);
    var rest := WithoutId(s.history, s.history[0].id);
    assert t.history == [s.history[0]] + rest;
    forall i | 1 <= i < |t.history| ensures t.history[i].id != s.history[0].id {
      assert t.history[i] == rest[i - 1];
    }
  }

  /** Repeat-all restart with shuffle on: the history entry at
      `floor(random * length)` plays and nothing else changes, the history
      included. */
  lemma NextSongRestartsShuffled(s: PlayerState, random: real)
    requires 0.0 <= random < 1.0
    requires |s.queue| == 0 && s.repeat == All && |s.history| > 0 && s.shuffle
    ensures var t := NextSong(s, random);
      && t.currentSong == Some(s.history[RandomIndex(random, |s.history|)])
      && t.(currentSong := s.currentSong) == s
  {
  }

  /** previousSong with an empty history changes nothing; otherwise the
      most recent history entry plays, history loses it, and the song that
      was playing (if any) goes back to the front of the queue. */
  lemma PreviousSongSteps(s: PlayerState)
    ensures |s.history| == 0 ==> PreviousSong(s) == s
    ensures |s.history| > 0 ==> var t := PreviousSong(s);
      && t.currentSong == Some(s.history[0])
      && t.history == s.history[1..]
      && t.queue == (if s.currentSong.Some? then [s.currentSong.value] + s.queue else s.queue)
      && t.(currentSong := s.currentSong, queue := s.queue, history := s.history) == s
    ensures Valid(s) ==> Valid(PreviousSong(s))
  {
  }

  /** Going back right after advancing from a queue of distinct songs, with
      shuffle off, a song playing and history below its bound, restores
      the whole state. */
  lemma PreviousSongUndoesNextSong(s: PlayerState, random: real)
    requires 0.0 <= random < 1.0
    requires |s.queue| > 0 && !s.shuffle && s.currentSong.Some?
    requires UniqueIds(s.queue) && |s.history| < HistoryLimit
    ensures PreviousSong(NextSong(s, random)) == s
  {
    WithoutHeadIdOfUnique(s.queue);
    var t := NextSong(s, random);
    assert t.history == [s.currentSong.value] + s.history;
    assert t.queue == s.queue[1..];
    assert [s.queue[0]] + s.queue[1..] == s.queue;
  }

  /** Queuing a song on an empty queue and advancing plays that song and
      leaves the queue empty. */
  lemma AddToQueueThenNextSong(s: PlayerState, song: Song, random: real)
    requires 0.0 <= random < 1.0
    requires |s.queue| == 0 && !s.shuffle
    ensures var t := NextSong(AddToQueue(s, song), random);
      t.currentSong == Some(song) && t.queue == []
  {
    var q := AddToQueue(s, song).queue;
    assert q == [song];
    assert WithoutId(q, song.id) == WithoutId([], song.id);
  }

  /** Every action keeps history within its bound. */
  lemma ActionsKeepValid(s: PlayerState, song: Song, random: real, v: real, id: string, name: string,
                         playing: bool, key: string)
    requires 0.0 <= random < 1.0 && Valid(s)
    ensures Valid(NextSong(s, random)) && Valid(PreviousSong(s))
    ensures Valid(SetCurrentSong(s, Some(song))) && Valid(SetCurrentSong(s, None))
    ensures Valid(SetIsPlaying(s, playing)) && Valid(SetApiKey(s, key))
    ensures Valid(TogglePlay(s)) && Valid(SetVolume(s, v))
    ensures Valid(ToggleMute(s)) && Valid(AddToQueue(s, song)) && Valid(ClearQueue(s))
    ensures Valid(ToggleRepeat(s)) && Valid(ToggleShuffle(s)) && Valid(ToggleFavorite(s, song))
    ensures Valid(CreatePlaylist(s, name, id)) && Valid(AddToPlaylist(s, id, song))
    ensures Valid(RemoveFromPlaylist(s, id, song.id))
  {
  }

  // ---------------------------------------------------------------------
  // Favourites

  /** toggleFavorite flips whether the song's id is a favourite, makes the
      reserved playlist hold exactly the new favourites, and leaves every
      other playlist and every other field as it was. */
  lemma ToggleFavoriteFlips(s: PlayerState, song: Song)
    ensures var t := ToggleFavorite(s, song);
      && (HasId(t.favorites, song.id) <==> !HasId(s.favorites, song.id))
      && FavoritesMirrored(t)
      && |t.playlists| == |s.playlists|
      && (forall i :: 0 <= i < |t.playlists| && s.playlists[i].id != FavoritesId ==> t.playlists[i] == s.playlists[i])
      && (forall i :: 0 <= i < |s.playlists| && s.playlists[i].id == FavoritesId ==>
            t.playlists[i] == s.playlists[i].(songs := t.favorites))
      && t.(favorites := s.favorites, playlists := s.playlists) == s
  {
    if !HasId(s.favorites, song.id) {
      var f := s.favorites + [song];
      assert f[|s.favorites|] == song;
    }
  }

  /** Removing a favourite keeps the others in order; adding one appends it. */
  lemma ToggleFavoriteContents(s: PlayerState, song: Song)
    ensures HasId(s.favorites, song.id) ==>
      ToggleFavorite(s, song).favorites == WithoutId(s.favorites, song.id)
    ensures !HasId(s.favorites, song.id) ==>
      ToggleFavorite(s, song).favorites == s.favorites + [song]
  {
  }

  /** Toggling a song that is not a favourite twice restores the favourites
      exactly; when the reserved playlist already mirrored them, the whole
      state comes back. */
  lemma ToggleFavoriteTwice(s: PlayerState, song: Song)
    requires !HasId(s.favorites, song.id)
    ensures ToggleFavorite(ToggleFavorite(s, song), song).favorites == s.favorites
    ensures FavoritesMirrored(s) ==> ToggleFavorite(ToggleFavorite(s, song), song) == s
  {
    var t := ToggleFavorite(s, song);
    ToggleFavoriteFlips(s, song);
    AppendThenRemove(s.favorites, song);
    var u := ToggleFavorite(t, song);
    assert u.favorites == s.favorites;
    if FavoritesMirrored(s) {
      assert u.playlists == s.playlists by {
        forall i | 0 <= i < |s.playlists| ensures u.playlists[i] == s.playlists[i] {
          if s.playlists[i].id == FavoritesId {
            assert u.playlists[i] == s.playlists[i].(songs := s.favorites);
          }
        }
      }
    }
  }

  // ---------------------------------------------------------------------
  // Playlists

  /** addToPlaylist appends the song to the target playlist when its id is
      absent there, leaves the playlist alone when present, never creates a
      second entry with one id, and leaves every other playlist unchanged. */
  lemma AddToPlaylistAddsOnce(s: PlayerState, playlistId: string, song: Song)
    ensures var t := AddToPlaylist(s, playlistId, song);
      && |t.playlists| == |s.playlists|
      && t.(playlists := s.playlists) == s
      && forall i :: 0 <= i < |s.playlists| ==>
        var before, after := s.playlists[i], t.playlists[i];
        && after.id == before.id && after.name == before.name && after.cover == before.cover
        && (before.id != playlistId ==> after == before)
        && (before.id == playlistId ==>
              && HasId(after.songs, song.id)
              && (HasId(before.songs, song.id) ==> after.songs == before.songs)
              && (!HasId(before.songs, song.id) ==> after.songs == before.songs + [song])
              && (UniqueIds(before.songs) ==> UniqueIds(after.songs)))
  {
    var t := AddToPlaylist(s, playlistId, song);
    forall i | 0 <= i < |s.playlists| && s.playlists[i].id == playlistId
      ensures HasId(t.playlists[i].songs, song.id)
      ensures UniqueIds(s.playlists[i].songs) ==> UniqueIds(t.playlists[i].songs)
    {
      var before := s.playlists[i].songs;
      if !HasId(before, song.id) {
        assert (before + [song])[|before|] == song;
        if UniqueIds(before) {
          AppendNewIdKeepsUnique(before, song);
        }
      }
    }
  }

  /** Adding a song the target playlist already holds is a no-op. */
  lemma AddToPlaylistPresentIsNoOp(s: PlayerState, playlistId: string, song: Song)
    requires forall i :: 0 <= i < |s.playlists| && s.playlists[i].id == playlistId ==> HasId(s.playlists[i].songs, song.id)
    ensures AddToPlaylist(s, playlistId, song) == s
  {
    var t := AddToPlaylist(s, playlistId, song);
    assert t.playlists == s.playlists;
  }

  /** removeFromPlaylist drops every song with that id from the target
      playlist, keeps its other songs in order, and leaves every other
      playlist unchanged. */
  lemma RemoveFromPlaylistRemovesAll(s: PlayerState, playlistId: string, songId: string)
    ensures var t := RemoveFromPlaylist(s, playlistId, songId);
      && |t.playlists| == |s.playlists|
      && t.(playlists := s.playlists) == s
      && forall i :: 0 <= i < |s.playlists| ==>
        var before, after := s.playlists[i], t.playlists[i];
        && after.id == before.id && after.name == before.name && after.cover == before.cover
        && (before.id != playlistId ==> after == before)
        && (before.id == playlistId ==>
              && after.songs == WithoutId(before.songs, songId)
              && !HasId(after.songs, songId)
              && (forall x :: x in after.songs <==> x in before.songs && x.id != songId)
              && (UniqueIds(before.songs) ==> UniqueIds(after.songs)))
  {
    var t := RemoveFromPlaylist(s, playlistId, songId);
    forall i | 0 <= i < |s.playlists| && s.playlists[i].id == playlistId && UniqueIds(s.playlists[i].songs)
      ensures UniqueIds(t.playlists[i].songs)
    {
      WithoutIdKeepsUnique(s.playlists[i].songs, songId);
    }
  }

  // ---------------------------------------------------------------------
  // Persistence

  /** Only volume, favourites and playlists are persisted: the playback
      actions leave the persisted projection unchanged. */
  lemma PlaybackActionsAreNotPersisted(s: PlayerState, song: Song, random: real, key: string, playing: bool)
    requires 0.0 <= random < 1.0
    ensures Partialize(NextSong(s, random)) == Partialize(s)
    ensures Partialize(PreviousSong(s)) == Partialize(s)
    ensures Partialize(SetCurrentSong(s, Some(song))) == Partialize(s)
    ensures Partialize(SetCurrentSong(s, None)) == Partialize(s)
    ensures Partialize(SetIsPlaying(s, playing)) == Partialize(s)
    ensures Partialize(TogglePlay(s)) == Partialize(s)
    ensures Partialize(ToggleMute(s)) == Partialize(s)
    ensures Partialize(AddToQueue(s, song)) == Partialize(s)
    ensures Partialize(ClearQueue(s)) == Partialize(s)
    ensures Partialize(ToggleRepeat(s)) == Partialize(s)
    ensures Partialize(ToggleShuffle(s)) == Partialize(s)
    ensures Partialize(SetApiKey(s, key)) == Partialize(s)
  {
  }
}
