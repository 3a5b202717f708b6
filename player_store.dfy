/** The global player store: one mutable record whose actions update its
    fields in place. Each action is proved to leave exactly the state the
    corresponding function of module Player describes, and to keep the
    history bound. */
module PlayerStore {
  import opened Songs
  import Player

  class Store {
    var currentSong: Option<Song>
    var isPlaying: bool
    var volume: real
    var isMuted: bool
    var queue: seq<Song>
    var history: seq<Song>
    var repeat: Player.RepeatMode
    var shuffle: bool
    var apiKey: Option<string>
    var favorites: seq<Song>
    var playlists: seq<Playlist>

    /** The store's fields read as one value. */
    function State(): Player.PlayerState
      reads this
    {
      Player.PlayerState(currentSong, isPlaying, volume, isMuted, queue, history,
                         repeat, shuffle, apiKey, favorites, playlists)
    }

    predicate Valid()
      reads this
    {
      Player.Valid(State())
    }

    /** The persisted slice of the store (`partialize`). */
    function Persisted(): (p: Player.PersistedState)
      reads this
      ensures p.volume == volume && p.favorites == favorites && p.playlists == playlists
    {
      Player.Partialize(State())
    }

    constructor ()
      ensures Valid() && State() == Player.Initial()
    {
      currentSong := None;
      isPlaying := false;
      volume := 0.7;
      isMuted := false;
      queue := [];
      history := [];
      repeat := Player.Off;
      shuffle := false;
      apiKey := None;
      favorites := [];
      playlists := [Playlist(Player.FavoritesId, "Liked Songs", [], None)];
    }

    method SetCurrentSong(song: Option<Song>)
      requires Valid()
      modifies this
      ensures Valid() && State() == Player.SetCurrentSong(old(State()), song)
      ensures isPlaying <==> song.Some?
    {
      currentSong, isPlaying := song, song.Some?;
    }

    method TogglePlay()
      requires Valid()
      modifies this
      ensures Valid() && State() == Player.TogglePlay(old(State()))
    {
      isPlaying := !isPlaying;
    }

    method SetIsPlaying(playing: bool)
      requires Valid()
      modifies this
      ensures Valid() && State() == Player.SetIsPlaying(old(State()), playing)
    {
      isPlaying := playing;
    }

    method SetVolume(v: real)
      requires Valid()
      modifies this
      ensures Valid() && State() == Player.SetVolume(old(State()), v)
      ensures isMuted <==> v == 0.0
    {
      volume, isMuted := v, v == 0.0;
    }

    method ToggleMute()
      requires Valid()
      modifies this
      ensures Valid() && State() == Player.ToggleMute(old(State()))
    {
      isMuted := !isMuted;
    }

    /** `random` stands for the value of `Math.random()`. The source writes
        history first and then the current song and queue, in two updates;
        nothing observes the state between them. */
    method NextSong(random: real)
      requires Valid() && 0.0 <= random < 1.0
      modifies this
      ensures Valid() && State() == Player.NextSong(old(State()), random)
    {
      var q, cur, h := queue, currentSong, history;
      if |q| == 0 {
        if repeat == Player.All && |h| > 0 {
          var k := if shuffle then Player.RandomIndex(random, |h|) else 0;
          var next := h[k];
          currentSong := Some(next);
          history := if shuffle then h else [next] + WithoutId(h, next.id);
        }
        return;
      }
      if cur.Some? {
        history := [cur.value] + Take(history, Player.HistoryLimit - 1);
      }
      var k := if shuffle then Player.RandomIndex(random, |q|) else 0;
      var next := q[k];
      currentSong := Some(next);
      queue := WithoutId(q, next.id);
    }

    method PreviousSong()
      requires Valid()
      modifies this
      ensures Valid() && State() == Player.PreviousSong(old(State()))
    {
      var h, cur := history, currentSong;
      if |h| == 0 {
        return;
      }
      var prev := h[0];
      if cur.Some? {
        queue := [cur.value] + queue;
      }
      currentSong := Some(prev);
      history := h[1..];
    }

    method AddToQueue(song: Song)
      requires Valid()
      modifies this
      ensures Valid() && State() == Player.AddToQueue(old(State()), song)
      ensures queue == old(queue) + [song]
    {
      queue := queue + [song];
    }

    method ClearQueue()
      requires Valid()
      modifies this
      ensures Valid() && State() == Player.ClearQueue(old(State()))
    {
      queue := [];
    }

    method ToggleRepeat()
      requires Valid()
      modifies this
      ensures Valid() && State() == Player.ToggleRepeat(old(State()))
    {
      repeat := Player.NextRepeat(repeat);
    }

    method ToggleShuffle()
      requires Valid()
      modifies this
      ensures Valid() && State() == Player.ToggleShuffle(old(State()))
    {
      shuffle := !shuffle;
    }

    method SetApiKey(key: string)
      requires Valid()
      modifies this
      ensures Valid() && State() == Player.SetApiKey(old(State()), key)
    {
      apiKey := Some(key);
    }

    method ToggleFavorite(song: Song)
      requires Valid()
      modifies this
      ensures Valid() && State() == Player.ToggleFavorite(old(State()), song)
      ensures Player.FavoritesMirrored(State())
    {
      var updated := Player.ToggledFavorites(favorites, song);
      favorites, playlists := updated, Player.EditPlaylists(playlists, Player.FavoritesId, _ => updated);
    }

    /** `id` is the id the source builds from `Date.now()`. */
    method CreatePlaylist(name: string, id: string)
      requires Valid()
      modifies this
      ensures Valid() && State() == Player.CreatePlaylist(old(State()), name, id)
    {
      playlists := playlists + [Playlist(id, name, [], None)];
    }

    method AddToPlaylist(playlistId: string, song: Song)
      requires Valid()
      modifies this
      ensures Valid() && State() == Player.AddToPlaylist(old(State()), playlistId, song)
    {
      playlists := Player.EditPlaylists(playlists, playlistId, songs => Player.AddedOnce(songs, song));
    }

    method RemoveFromPlaylist(playlistId: string, songId: string)
      requires Valid()
      modifies this
      ensures Valid() && State() == Player.RemoveFromPlaylist(old(State()), playlistId, songId)
    {
      playlists := Player.EditPlaylists(playlists, playlistId, songs => WithoutId(songs, songId));
    }
  }

  /** A sample session: queue two songs on a fresh store, advance twice,
      step back, then favourite the playing song twice. */
  method Session(a: Song, b: Song)
    requires a.id != b.id
  {
    var store := new Store();
    store.AddToQueue(a);
    store.AddToQueue(b);
    store.NextSong(0.0);
    assert store.currentSong == Some(a);
    store.NextSong(0.0);
    assert store.currentSong == Some(b) && store.history == [a] && store.queue == [];
    store.PreviousSong();
    assert store.currentSong == Some(a) && store.queue == [b] && store.history == [];
    ghost var before := store.State();
    Player.ToggleFavoriteTwice(before, a);
    store.ToggleFavorite(a);
    assert HasId(store.favorites, a.id) by { assert store.favorites[0] == a; }
    store.ToggleFavorite(a);
    assert store.State() == before;
  }
}
