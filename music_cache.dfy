/** The hooks' on-device cache: `saveToStorage` writes a value together with
    the instant it goes stale, and `getFromStorage` reads it back and judges
    staleness. The clock is a parameter `now` in milliseconds. */
module MusicCache {
  import opened Songs

  /** What a key of local storage holds:
      - `Entry`: a record the cache wrote;
      - `Parsed`: other text that parses as JSON and can be destructured
        (a number, an object without the expected members). `dataMember` is
        its `data` member, if any; `expiryNumber` is the number its `expiry` member
        converts to in a comparison, None when that is NaN (absent, a
        non-numeric string, an object);
      - `Unreadable`: the empty string, text that is not JSON, or `null`
        (the reader's falsy check and its `catch` branch). */
  datatype Item<T> = Entry(data: T, expiry: int) | Parsed(dataMember: Option<T>, expiryNumber: Option<int>) | Unreadable

  /** `{ data, expired }` as the reader returns it. */
  datatype Lookup<T> = Lookup(data: Option<T>, expired: bool)

  const DefaultExpiryMinutes: int := 60
  const MillisPerMinute: int := 60 * 1000

  /** The expiry instant written for a save at `now`; an absent
      `expiryMinutes` takes the default of sixty minutes. */
  function ExpiryTime(now: int, expiryMinutes: Option<int>): int {
    var minutes := if expiryMinutes.Some? then expiryMinutes.value else DefaultExpiryMinutes;
    now + minutes * MillisPerMinute
  }

  /** What the reader reports for `key` at `now`: nothing and expired for a
      missing or unreadable item, otherwise the stored data, expired exactly
      when `now` is past the expiry instant; an expiry that is not a number
      never compares as past, so such an item reads as fresh forever. */
  function Read<T>(items: map<string, Item<T>>, key: string, now: int): (r: Lookup<T>)
    ensures key !in items ==> r == Lookup(None, true)
    ensures key in items && items[key].Unreadable? ==> r == Lookup(None, true)
    ensures key in items && items[key].Entry? ==>
      r.data == Some(items[key].data) && (r.expired <==> now > items[key].expiry)
    ensures key in items && items[key].Parsed? ==>
      r.data == items[key].dataMember
      && (r.expired <==> items[key].expiryNumber.Some? && now > items[key].expiryNumber.value)
  {
    if key !in items then Lookup(None, true)
    else match items[key]
      case Unreadable => Lookup(None, true)
      case Parsed(data, expiry) => Lookup(data, expiry.Some? && now > expiry.value)
      case Entry(data, expiry) => Lookup(Some(data), now > expiry)
  }

  /** Local storage after a save of `data` under `key` at `now`. */
  function Written<T>(items: map<string, Item<T>>, key: string, data: T, expiryMinutes: Option<int>, now: int): map<string, Item<T>> {
    items[key := Entry(data, ExpiryTime(now, expiryMinutes))]
  }

  class Storage<T> {
    /** The keys of local storage and what each holds. */
    var items: map<string, Item<T>>
    /** Whether a browser window exists (`typeof window !== "undefined"`);
        without one, saving does nothing and every read misses. */
    const inBrowser: bool

    constructor (inBrowser: bool)
      ensures this.inBrowser == inBrowser && items == map[]
    {
      this.inBrowser := inBrowser;
      items := map[];
    }

    /** saveToStorage */
    method Save(key: string, data: T, expiryMinutes: Option<int>, now: int)
      modifies this
      ensures items == if inBrowser then Written(old(items), key, data, expiryMinutes, now) else old(items)
    {
      if !inBrowser {
        return;
      }
      var minutes := if expiryMinutes.Some? then expiryMinutes.value else DefaultExpiryMinutes;
      var expiry := now + minutes * 60 * 1000;
      items := items[key := Entry(data, expiry)];
    }

    /** getFromStorage */
    method Get(key: string, now: int) returns (r: Lookup<T>)
      ensures r == if inBrowser then Read(items, key, now) else Lookup(None, true)
    {
      if !inBrowser || key !in items {
        return Lookup(None, true);
      }
      match items[key]
      case Unreadable =>
        r := Lookup(None, true);
      case Parsed(data, expiry) =>
        if expiry.Some? && now > expiry.value {
          r := Lookup(data, true);
        } else {
          r := Lookup(data, false);
        }
      case Entry(data, expiry) =>
        if now > expiry {
          r := Lookup(Some(data), true);
        } else {
          r := Lookup(Some(data), false);
        }
    }
  }

  /** A save writes `now + expiryMinutes * 60 * 1000`, with sixty minutes
      when no duration is given, and no other key changes. */
  lemma SaveWritesExpiry<T>(items: map<string, Item<T>>, key: string, data: T, expiryMinutes: Option<int>, now: int)
    ensures var w := Written(items, key, data, expiryMinutes, now);
      && key in w && w[key].Entry? && w[key].data == data
      && (expiryMinutes.None? ==> w[key].expiry == now + 3600000)
      && (expiryMinutes.Some? ==> w[key].expiry == now + expiryMinutes.value * 60000)
      && (forall k :: k != key ==> (k in w <==> k in items) && (k in items ==> w[k] == items[k]))
  {
  }

  /** Reading back at the instant of saving, with a duration that is not
      negative, yields the saved data and "not expired". */
  lemma SaveThenReadIsFresh<T>(items: map<string, Item<T>>, key: string, data: T, expiryMinutes: Option<int>, now: int)
    requires expiryMinutes.None? || expiryMinutes.value >= 0
    ensures Read(Written(items, key, data, expiryMinutes, now), key, now) == Lookup(Some(data), false)
  {
  }

  /** A saved entry stays fresh up to and including its expiry instant and is
      expired from the next millisecond on; its data is returned either way. */
  lemma EntryExpiresAfterExpiry<T>(items: map<string, Item<T>>, key: string, data: T, expiryMinutes: Option<int>, now: int, later: int)
    ensures var e := ExpiryTime(now, expiryMinutes);
      var r := Read(Written(items, key, data, expiryMinutes, now), key, later);
      && r.data == Some(data)
      && (r.expired <==> later > e)
  {
  }

  /** A save under one key leaves what every other key reads unchanged. */
  lemma SaveLeavesOtherKeys<T>(items: map<string, Item<T>>, key: string, data: T, expiryMinutes: Option<int>, now: int, other: string, at: int)
    requires other != key
    ensures Read(Written(items, key, data, expiryMinutes, now), other, at) == Read(items, other, at)
  {
  }

  /** Freshness only runs out: an entry fresh at some instant was fresh at
      every earlier one. */
  lemma FreshnessIsMonotone<T>(items: map<string, Item<T>>, key: string, earlier: int, later: int)
    requires earlier <= later
    requires !Read(items, key, later).expired
    ensures !Read(items, key, earlier).expired
    ensures Read(items, key, earlier).data == Read(items, key, later).data
  {
  }

  /** A client of the class: outside a browser nothing is ever cached; in a
      browser a save followed by a read at the same instant hits. */
  method CacheRoundTrip<T>(data: T, now: int)
  {
    var server := new Storage<T>(false);
    server.Save("music_featured_songs", data, Some(60), now);
    var miss := server.Get("music_featured_songs", now);
    assert miss == Lookup(None, true);

    var browser := new Storage<T>(true);
    browser.Save("music_featured_songs", data, Some(60), now);
    var hit := browser.Get("music_featured_songs", now);
    assert hit == Lookup(Some(data), false);
  }
}
