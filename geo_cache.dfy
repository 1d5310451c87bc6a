/**
 * The address cache: quantised coordinates to resolved address records,
 * valid for one hour after they were written. Expiry is checked only on
 * read; nothing is ever removed. The clock reading is passed in as `now`
 * (milliseconds, as `Date.now()` reports them).
 */
module GeoCache {
  import opened Wrappers
  import opened Address

  /** One hour, in milliseconds. */
  const Ttl: int := 3600000

  /** A coordinate axis at four decimals: the integer nearest to x * 10^4, ties away from zero. */
  function Quantise(x: real): (q: int)
    ensures x >= 0.0 ==> 0 <= q && x * 10000.0 - 0.5 < q as real <= x * 10000.0 + 0.5
    ensures x < 0.0 ==> q <= 0 && x * 10000.0 - 0.5 <= q as real < x * 10000.0 + 0.5
  {
    if x < 0.0 then -(-x * 10000.0 + 0.5).Floor else (x * 10000.0 + 0.5).Floor
  }

  /** The cache key: both axes quantised. */
  datatype Key = Key(longitude: int, latitude: int)

  function GetKey(longitude: real, latitude: real): (k: Key)
    ensures k.longitude == Quantise(longitude) && k.latitude == Quantise(latitude)
  {
    Key(Quantise(longitude), Quantise(latitude))
  }

  /** Two coordinate pairs share a cache entry exactly when both axes quantise alike. */
  lemma SharedKeyIffSameQuantisation(lng: real, lat: real, lng': real, lat': real)
    ensures GetKey(lng, lat) == GetKey(lng', lat') <==> Quantise(lng) == Quantise(lng') && Quantise(lat) == Quantise(lat')
  {
  }

  datatype Entry = Entry(data: AddressRecord, timestamp: int)

  /** What `get` sees in a cache `m` at time `now`. */
  function Lookup(m: map<Key, Entry>, k: Key, now: int): (r: Option<AddressRecord>)
    ensures r.Some? <==> k in m && now - m[k].timestamp < Ttl
    ensures r.Some? ==> r.value == m[k].data
  {
    if k in m && now - m[k].timestamp < Ttl then Some(m[k].data) else None
  }

  /** What `set` leaves behind: the entry for `k` replaced, every other entry untouched. */
  function Store(m: map<Key, Entry>, k: Key, data: AddressRecord, now: int): (r: map<Key, Entry>)
    ensures r.Keys == m.Keys + {k}
    ensures r[k] == Entry(data, now)
    ensures forall k' :: k' in m && k' != k ==> r[k'] == m[k']
  {
    m[k := Entry(data, now)]
  }

  /** Within the hour after a write, reading the same key gives what was written. */
  lemma FreshAfterStore(m: map<Key, Entry>, k: Key, data: AddressRecord, t: int, t': int)
    requires t' - t < Ttl
    ensures Lookup(Store(m, k, data, t), k, t') == Some(data)
  {
  }

  /** From the hour after a write on, the key reads as absent although its entry is still held. */
  lemma ExpiredAfterStore(m: map<Key, Entry>, k: Key, data: AddressRecord, t: int, t': int)
    requires t' - t >= Ttl
    ensures Lookup(Store(m, k, data, t), k, t') == None
    ensures k in Store(m, k, data, t) && Store(m, k, data, t)[k].data == data
  {
  }

  /** Once an entry reads as expired it stays expired until it is overwritten. */
  lemma ExpiryIsPermanent(m: map<Key, Entry>, k: Key, t: int, t': int)
    requires k in m && Lookup(m, k, t) == None && t <= t'
    ensures Lookup(m, k, t') == None
  {
  }

  /** A write leaves what every other key reads unchanged, at any time. */
  lemma StoreIsolated(m: map<Key, Entry>, k: Key, data: AddressRecord, t: int, k': Key, now: int)
    requires k' != k
    ensures Lookup(Store(m, k, data, t), k', now) == Lookup(m, k', now)
  {
  }

  /** Coordinates that agree to four decimals share a key, so one's write is the other's hit. */
  lemma SameQuantisationShared(m: map<Key, Entry>, lng: real, lat: real, lng': real, lat': real,
                                data: AddressRecord, t: int, t': int)
    requires Quantise(lng) == Quantise(lng') && Quantise(lat) == Quantise(lat')
    requires t' - t < Ttl
    ensures Lookup(Store(m, GetKey(lng, lat), data, t), GetKey(lng', lat'), t') == Some(data)
  {
  }

  /** The cache object: a mutable dictionary from key to timestamped record. */
  class AddressCache {
    var cache: map<Key, Entry>

    constructor ()
      ensures cache == map[]
    {
      cache := map[];
    }

    /** `get(lng, lat)` at time `now`. */
    function Get(longitude: real, latitude: real, now: int): (r: Option<AddressRecord>)
      reads this
      ensures var k := GetKey(longitude, latitude);
        && (r.Some? <==> k in cache && now - cache[k].timestamp < Ttl)
        && (r.Some? ==> r.value == cache[k].data)
    {
      Lookup(cache, GetKey(longitude, latitude), now)
    }

    /** `set(lng, lat, data)` at time `now`: overwrites the entry for the key, touches no other. */
    method Set(longitude: real, latitude: real, data: AddressRecord, now: int)
      modifies this
      ensures cache == Store(old(cache), GetKey(longitude, latitude), data, now)
      ensures forall t :: t - now < Ttl ==> Get(longitude, latitude, t) == Some(data)
    {
      cache := cache[GetKey(longitude, latitude) := Entry(data, now)];
      forall t | t - now < Ttl ensures Get(longitude, latitude, t) == Some(data) {
        FreshAfterStore(old(cache), GetKey(longitude, latitude), data, now, t);
      }
    }
  }
}
