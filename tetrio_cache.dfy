/**
 * The parts of the TETR.IO API client that the handlers rely on, as an
 * abstract model: a cache from (key, session) to stored packets, and an
 * upstream that answers requests with a finite script of replies, one per
 * request, in order. The client library itself is not part of this model.
 */
module TetrioCache {
  import opened Prelude

  /** A cache key: the URL-like key and the optional session id. */
  datatype CacheKey = CacheKey(url: string, session: Option<string>)

  /** The (pri, sec, ter) keyset cursor; the code only copies it. */
  datatype Prisecter = Prisecter(pri: real, sec: real, ter: real)

  /** Cache metadata of a packet: a fixed lifetime, or what the upstream sent along. */
  datatype CacheMeta = CachedFor(seconds: nat) | UpstreamMeta(status: string, cachedAt: int, cachedUntil: int)

  /** The API's response envelope. */
  datatype Packet<T> = Packet(success: bool, error: Option<string>, data: Option<T>, cache: Option<CacheMeta>)

  /** The `p` member of a leaderboard entry: absent, a well-formed triple, or something that does not parse. */
  datatype CursorField = NoCursor | CursorValue(cursor: Prisecter) | MalformedCursor(reason: string)

  /** A leaderboard entry: its JSON text apart from `p`, and its `p`. */
  datatype Entry = Entry(record: string, p: CursorField)

  /** The `data` document of a leaderboard page, as far as the walk looks at it. */
  datatype LeagueBody = WithEntries(entries: seq<Entry>) | EntriesNotArray | NoEntriesField

  /** One upstream answer: a transport/status error, or the packet's `data` (possibly absent). */
  type UpstreamReply = Result<Option<LeagueBody>, string>

  /** `ValueBoundQuery`. */
  datatype ValueBoundQuery =
    | NotBound(limit: Option<nat>, country: Option<string>)
    | After(after: Prisecter, limit: Option<nat>, country: Option<string>)

  /** One call of `make_tetrio_api_request`: the path, its query and the session id. */
  datatype ApiRequest = ApiRequest(path: string, query: ValueBoundQuery, session: Option<string>)

  /** What a cache entry holds. */
  datatype Stored = LeaderboardValue(leaderboard: Packet<seq<Entry>>) | ImageValue(image: Packet<seq<byte>>)

  /**
   * The cache: its entries, the keys whose read fails (backend unavailable,
   * undecodable entry) with the error, and the keys whose write fails.
   */
  datatype CacheState = CacheState(entries: map<CacheKey, Stored>, unreadable: map<CacheKey, string>, unwritable: map<CacheKey, string>)

  const NoResponse := "upstream did not answer"
  const WrongType := "cached value has another type"

  /** `get_from_cache::<Vec<Value>>`. */
  function ReadLeaderboard(c: CacheState, key: CacheKey): (r: Result<Option<Packet<seq<Entry>>>, string>)
    ensures key !in c.unreadable && key !in c.entries ==> r == Success(None)
    ensures r.Success? && r.value.Some? ==> key in c.entries && c.entries[key] == LeaderboardValue(r.value.value)
  {
    if key in c.unreadable then Failure(c.unreadable[key])
    else if key !in c.entries then Success(None)
    else match c.entries[key]
      case LeaderboardValue(p) => Success(Some(p))
      case ImageValue(_) => Failure(WrongType)
  }

  /** `get_from_cache::<Box<[u8]>>`. */
  function ReadImage(c: CacheState, key: CacheKey): (r: Result<Option<Packet<seq<byte>>>, string>)
    ensures key !in c.unreadable && key !in c.entries ==> r == Success(None)
    ensures r.Success? && r.value.Some? ==> key in c.entries && c.entries[key] == ImageValue(r.value.value)
  {
    if key in c.unreadable then Failure(c.unreadable[key])
    else if key !in c.entries then Success(None)
    else match c.entries[key]
      case ImageValue(p) => Success(Some(p))
      case LeaderboardValue(_) => Failure(WrongType)
  }

  /**
   * `cache_tetrio_api_result_if_not_present`, read after its name: a value is
   * stored only under a key that holds none, and the value now under the key
   * is returned.
   */
  function WriteIfAbsent(c: CacheState, key: CacheKey, v: Stored): (r: Result<(Stored, CacheState), string>)
    ensures key in c.unwritable <==> r.Failure?
    ensures r.Success? ==>
      && r.value.1.unreadable == c.unreadable && r.value.1.unwritable == c.unwritable
      && key in r.value.1.entries && r.value.0 == r.value.1.entries[key]
      && (key in c.entries ==> r.value.1 == c)
      && (key !in c.entries ==> r.value.1.entries == c.entries[key := v] && r.value.0 == v)
  {
    if key in c.unwritable then Failure(c.unwritable[key])
    else if key in c.entries then Success((c.entries[key], c))
    else Success((v, c.(entries := c.entries[key := v])))
  }

  /** `s` with its first `n` elements consumed. */
  function Drop<T>(s: seq<T>, n: nat): (r: seq<T>)
    ensures n <= |s| ==> r == s[n..]
    ensures n >= |s| ==> r == []
  {
    if n >= |s| then [] else s[n..]
  }

  /** The client: the shared cache, the replies the upstream still has to give, and every request sent so far. */
  class TetrioClient {
    var store: CacheState
    var upstream: seq<UpstreamReply>
    var sent: seq<ApiRequest>

    constructor(store: CacheState, upstream: seq<UpstreamReply>)
      ensures this.store == store && this.upstream == upstream && sent == []
    {
      this.store := store;
      this.upstream := upstream;
      sent := [];
    }

    method GetLeaderboardFromCache(key: CacheKey) returns (r: Result<Option<Packet<seq<Entry>>>, string>)
      ensures r == ReadLeaderboard(store, key)
    {
      r := ReadLeaderboard(store, key);
    }

    /** One request: it is logged, and answered by the next scripted reply, or fails once the script is used up. */
    method MakeRequest(request: ApiRequest) returns (reply: UpstreamReply)
      modifies this`upstream, this`sent
      ensures sent == old(sent) + [request]
      ensures old(upstream) == [] ==> reply == Failure(NoResponse) && upstream == []
      ensures old(upstream) != [] ==> reply == old(upstream)[0] && upstream == old(upstream)[1..]
    {
      sent := sent + [request];
      if upstream == [] {
        reply := Failure(NoResponse);
      } else {
        reply := upstream[0];
        upstream := upstream[1..];
      }
    }

    method CacheIfNotPresent(key: CacheKey, v: Stored) returns (r: Result<Stored, string>)
      modifies this`store
      ensures var w := WriteIfAbsent(old(store), key, v);
        && (w.Failure? ==> r == Failure(w.error) && store == old(store))
        && (w.Success? ==> r == Success(w.value.0) && store == w.value.1)
    {
      var w := WriteIfAbsent(store, key, v);
      if w.Failure? {
        r := Failure(w.error);
      } else {
        r := Success(w.value.0);
        store := w.value.1;
      }
    }
  }
}
