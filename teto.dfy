/**
 * The `teto` handler (src/api/v1/mod.rs): a cache-aside rendering of a
 * user's TETR.IO profile card. A cached image is answered as it is;
 * otherwise the user is fetched, the card is rendered, and the image is
 * stored under the user's key unless that key already holds a value, whose
 * value is then the answer.
 */
module Teto {
  import opened Prelude
  import opened TetrioCache

  /** The packet `fetch_user_info` returns, as far as `teto` reads it: the user's record and the cache metadata. */
  datatype UserInfoPacket = UserInfoPacket(data: Option<string>, cache: Option<CacheMeta>)

  /** The external calls, in the order they happen. */
  datatype TetoCall = FetchUser(name: string) | TakeScreenshot(name: string) | WriteCache(key: CacheKey)

  /** The answer, the cache afterwards, and the calls made. */
  datatype TetoRun = TetoRun(response: Stored, store: CacheState, calls: seq<TetoCall>)

  const FetchUserError := "Couldn't fetch user from tetrio API! "
  const UserNotFound := "Couldn't find user"
  const ScreenshotError := "Couldn't take teto screenshot "
  const JsonError := "Couldn't parse to json!"
  const CacheWriteError := "Couldn't cache value!"

  function ImageKey(user: string): CacheKey {
    CacheKey("teto_image_cache/" + user, None)
  }

  /** The `TetoResponse` of a failure. */
  function Failed(message: string): Stored {
    ImageValue(Packet(false, Some(message), None, None))
  }

  /**
   * `teto` for user `user` against cache `store`. `fetchUser` is
   * `fetch_user_info`, `shoot` is `take_teto_screenshot` (the browser), and
   * `encodes` says whether `serde_json::to_value` accepts the entry.
   */
  function Teto(user: string, store: CacheState,
                fetchUser: string -> Result<UserInfoPacket, string>,
                shoot: string -> Result<seq<byte>, string>,
                encodes: bool): TetoRun
  {
    var key := ImageKey(user);
    match ReadImage(store, key)
    case Success(Some(entry)) => TetoRun(ImageValue(entry), store, [])
    case _ =>
      var fetched := [FetchUser(user)];
      match fetchUser(user)
      case Failure(err) => TetoRun(Failed(FetchUserError + err), store, fetched)
      case Success(info) =>
        if info.data.None? then TetoRun(Failed(UserNotFound), store, fetched)
        else
          var shot := fetched + [TakeScreenshot(user)];
          match shoot(user)
          case Failure(err) => TetoRun(Failed(ScreenshotError + err), store, shot)
          case Success(buffer) =>
            match info.cache
            case None => TetoRun(Failed(UserNotFound), store, shot)
            case Some(cache) =>
              var entry := ImageValue(Packet(true, None, Some(buffer), Some(cache)));
              if !encodes then TetoRun(Failed(JsonError), store, shot)
              else match WriteIfAbsent(store, key, entry)
                case Failure(_) => TetoRun(Failed(CacheWriteError), store, shot + [WriteCache(key)])
                case Success(written) => TetoRun(written.0, written.1, shot + [WriteCache(key)])
  }

  /** A cached image is the answer: no call is made and the cache stays as it is. */
  lemma TetoCacheHit(user: string, store: CacheState,
                     fetchUser: string -> Result<UserInfoPacket, string>, shoot: string -> Result<seq<byte>, string>, encodes: bool)
    requires ReadImage(store, ImageKey(user)).Success? && ReadImage(store, ImageKey(user)).value.Some?
    ensures Teto(user, store, fetchUser, shoot, encodes) == TetoRun(ImageValue(ReadImage(store, ImageKey(user)).value.value), store, [])
  {
  }

  /** A failed cache read is treated like a miss: the user is fetched first. */
  lemma TetoReadErrorFallsThrough(user: string, store: CacheState,
                                  fetchUser: string -> Result<UserInfoPacket, string>, shoot: string -> Result<seq<byte>, string>, encodes: bool)
    requires ReadImage(store, ImageKey(user)).Failure?
    ensures var run := Teto(user, store, fetchUser, shoot, encodes);
      |run.calls| >= 1 && run.calls[0] == FetchUser(user)
  {
  }

  /**
   * Every failure answers `success: false` with its own message, in the
   * order the steps run, and writes nothing; the browser only runs for a user
   * the API knows.
   */
  lemma TetoFailures(user: string, store: CacheState,
                     fetchUser: string -> Result<UserInfoPacket, string>, shoot: string -> Result<seq<byte>, string>, encodes: bool)
    requires !(ReadImage(store, ImageKey(user)).Success? && ReadImage(store, ImageKey(user)).value.Some?)
    ensures var run := Teto(user, store, fetchUser, shoot, encodes);
      && (fetchUser(user).Failure? ==>
            run == TetoRun(Failed(FetchUserError + fetchUser(user).error), store, [FetchUser(user)]))
      && (fetchUser(user).Success? && fetchUser(user).value.data.None? ==>
            run == TetoRun(Failed(UserNotFound), store, [FetchUser(user)]))
      && (fetchUser(user).Success? && fetchUser(user).value.data.Some? && shoot(user).Failure? ==>
            run == TetoRun(Failed(ScreenshotError + shoot(user).error), store, [FetchUser(user), TakeScreenshot(user)]))
      && (fetchUser(user).Success? && fetchUser(user).value.data.Some? && shoot(user).Success? && fetchUser(user).value.cache.None? ==>
            run == TetoRun(Failed(UserNotFound), store, [FetchUser(user), TakeScreenshot(user)]))
      && (fetchUser(user).Success? && fetchUser(user).value.data.Some? && shoot(user).Success?
          && fetchUser(user).value.cache.Some? && !encodes ==>
            run == TetoRun(Failed(JsonError), store, [FetchUser(user), TakeScreenshot(user)]))
  {
  }

  /**
   * Once every step succeeds the image is written: the entry carries the
   * screenshot and the user packet's cache metadata; a free key receives it and
   * it is the answer; a taken key keeps its value, which is the answer; a
   * failed write answers "Couldn't cache value!" and changes nothing.
   */
  lemma TetoWritesRenderedImage(user: string, store: CacheState,
                                fetchUser: string -> Result<UserInfoPacket, string>, shoot: string -> Result<seq<byte>, string>)
    requires !(ReadImage(store, ImageKey(user)).Success? && ReadImage(store, ImageKey(user)).value.Some?)
    requires fetchUser(user).Success? && fetchUser(user).value.data.Some? && fetchUser(user).value.cache.Some?
    requires shoot(user).Success?
    ensures var run := Teto(user, store, fetchUser, shoot, true); var key := ImageKey(user);
      var entry := ImageValue(Packet(true, None, Some(shoot(user).value), Some(fetchUser(user).value.cache.value)));
      && run.calls == [FetchUser(user), TakeScreenshot(user), WriteCache(key)]
      && (key in store.unwritable ==> run.response == Failed(CacheWriteError) && run.store == store)
      && (key !in store.unwritable && key !in store.entries ==>
            run.response == entry && run.store == store.(entries := store.entries[key := entry]))
      && (key !in store.unwritable && key in store.entries ==>
            run.response == store.entries[key] && run.store == store)
  {
  }

  /** Only the user's own key can change. */
  lemma TetoTouchesOnlyItsKey(user: string, store: CacheState,
                              fetchUser: string -> Result<UserInfoPacket, string>, shoot: string -> Result<seq<byte>, string>, encodes: bool,
                              other: CacheKey)
    requires other != ImageKey(user)
    ensures var after := Teto(user, store, fetchUser, shoot, encodes).store;
      && (other in store.entries <==> other in after.entries)
      && (other in store.entries ==> after.entries[other] == store.entries[other])
      && after.unreadable == store.unreadable && after.unwritable == store.unwritable
  {
  }
}
