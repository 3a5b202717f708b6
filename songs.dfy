/** Songs and playlists as the player store keeps them, and the list
    operations the store applies to them: membership by id, removal of every
    song with a given id (`filter(s => s.id !== id)`) and the prefix
    `slice(0, n)`. */
module Songs {

  datatype Option<+T> = None | Some(value: T)

  /** A catalog song. Identity is by `id`: two records with the same id are
      the same song for every store action. */
  datatype Song = Song(
    id: string,
    title: string,
    artist: string,
    artistId: string,
    album: string,
    albumId: string,
    duration: int,   // seconds
    cover: string,
    audioUrl: string)

  datatype Playlist = Playlist(id: string, name: string, songs: seq<Song>, cover: Option<string>)

  /** `songs.some(s => s.id === id)` */
  predicate HasId(songs: seq<Song>, id: string) {
    exists i :: 0 <= i < |songs| && songs[i].id == id
  }

  /** No two songs of the list share an id. */
  predicate UniqueIds(songs: seq<Song>) {
    forall i, j :: 0 <= i < j < |songs| ==> songs[i].id != songs[j].id
  }

  /** `songs.filter(s => s.id !== id)`: every song with that id goes, the
      others stay in their order. */
  function WithoutId(songs: seq<Song>, id: string): (r: seq<Song>)
    ensures |r| <= |songs|
    ensures !HasId(r, id)
    ensures forall x :: x in r <==> x in songs && x.id != id
    ensures HasId(songs, id) ==> |r| < |songs|
  {
    if songs == [] then []
    else if songs[0].id == id then WithoutId(songs[1..], id)
    else [songs[0]] + WithoutId(songs[1..], id)
  }

  /** `s.slice(0, n)`: the first `n` elements, or all of them when fewer. */
  function Take<T>(s: seq<T>, n: nat): (r: seq<T>)
    ensures |r| <= n && |r| <= |s|
    ensures |r| == n || r == s
    ensures r == s[..|r|]
  {
    if |s| <= n then s else s[..n]
  }

  /** Filtering out an id that is absent returns the list unchanged. */
  lemma {:induction false} WithoutAbsentId(songs: seq<Song>, id: string)
    requires !HasId(songs, id)
    ensures WithoutId(songs, id) == songs
  {
    if songs != [] {
      assert songs[0].id != id;
      assert !HasId(songs[1..], id) by {
        forall i | 0 <= i < |songs[1..]| ensures songs[1..][i].id != id {
          assert songs[1..][i] == songs[i + 1];
        }
      }
      WithoutAbsentId(songs[1..], id);
      assert songs == [songs[0]] + songs[1..];
    }
  }

  /** Filtering distributes over concatenation. */
  lemma {:induction false} WithoutIdAppend(a: seq<Song>, b: seq<Song>, id: string)
    ensures WithoutId(a + b, id) == WithoutId(a, id) + WithoutId(b, id)
  {
    if a != [] {
      assert (a + b)[1..] == a[1..] + b;
      WithoutIdAppend(a[1..], b, id);
    } else {
      assert a + b == b;
    }
  }

  /** Appending a song whose id is new and then filtering that id out gives
      back the original list: the heart of "toggle a new favourite twice". */
  lemma AppendThenRemove(songs: seq<Song>, song: Song)
    requires !HasId(songs, song.id)
    ensures WithoutId(songs + [song], song.id) == songs
  {
    WithoutIdAppend(songs, [song], song.id);
    WithoutAbsentId(songs, song.id);
    assert WithoutId([song], song.id) == WithoutId([], song.id);
  }

  /** On a list whose ids are distinct, removing the id of the head removes
      exactly the head. */
  lemma {:induction false} WithoutHeadIdOfUnique(songs: seq<Song>)
    requires |songs| > 0 && UniqueIds(songs)
    ensures WithoutId(songs, songs[0].id) == songs[1..]
  {
    var rest := songs[1..];
    assert !HasId(rest, songs[0].id) by {
      forall i | 0 <= i < |rest| ensures rest[i].id != songs[0].id {
        assert rest[i] == songs[i + 1];
      }
    }
    WithoutAbsentId(rest, songs[0].id);
  }

  /** Appending a song with a new id keeps the ids distinct. */
  lemma AppendNewIdKeepsUnique(songs: seq<Song>, song: Song)
    requires UniqueIds(songs) && !HasId(songs, song.id)
    ensures UniqueIds(songs + [song])
  {
    var r := songs + [song];
    forall i, j | 0 <= i < j < |r| ensures r[i].id != r[j].id {
      if j == |songs| {
        assert r[i] == songs[i];
      } else {
        assert r[i] == songs[i] && r[j] == songs[j];
      }
    }
  }

  /** Filtering never introduces a shared id. */
  lemma {:induction false} WithoutIdKeepsUnique(songs: seq<Song>, id: string)
    requires UniqueIds(songs)
    ensures UniqueIds(WithoutId(songs, id))
  {
    if songs != [] {
      var rest := songs[1..];
      assert UniqueIds(rest) by {
        forall i, j | 0 <= i < j < |rest| ensures rest[i].id != rest[j].id {
          assert rest[i] == songs[i + 1] && rest[j] == songs[j + 1];
        }
      }
      WithoutIdKeepsUnique(rest, id);
      if songs[0].id != id {
        var tail := WithoutId(rest, id);
        var r := [songs[0]] + tail;
        forall i, j | 0 <= i < j < |r| ensures r[i].id != r[j].id {
          if i == 0 {
            assert r[j] in tail;
            assert r[j] in rest;
            var k :| 0 <= k < |rest| && rest[k] == r[j];
            assert rest[k] == songs[k + 1];
          } else {
            assert r[i] == tail[i - 1] && r[j] == tail[j - 1];
          }
        }
      }
    }
  }
}
