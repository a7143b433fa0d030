/**
 * The input rules of the Tetra League screenshot handlers
 * (src/api/v1/mod.rs): the browser height computed from the round count,
 * the game selection of `take_tetra_screenshot`, the round limit of
 * `take_tetra_replay_screenshot`, the score defaults of
 * `take_tetra_league_test_screenshot`, and the response envelopes of
 * `tetra`, `tetra_replay` and `league_recent_test`.
 *
 * The browser is an oracle `render(width, height, url)` that returns the
 * screenshot bytes or the error message the browser steps produced.
 */
module Tetra {
  import opened Prelude
  import opened TetrioCache

  /** The outcome of a step that may also panic (an arithmetic overflow under overflow checks). */
  datatype Attempt<+T> = Done(value: T) | Error(message: string) | Panicked

  type Render = (u32, u32, string) -> Result<seq<byte>, string>

  const BrowserWidth := 1185
  const MaxReplayRounds := 14
  const DefaultScore := 5

  /**
   * `350 + 60 * (rounds - 1) as u32`: the subtraction is on `u64`, the cast
   * keeps the low 32 bits, and the product and the sum are on `u32`; every
   * overflow panics.
   */
  function BrowserHeight(rounds: u64): (h: Attempt<u32>)
    ensures !h.Error?
    ensures h.Done? <==> 1 <= rounds && (rounds - 1) % 0x1_0000_0000 <= 71582782
    ensures h.Done? ==> h.value == 350 + 60 * ((rounds - 1) % 0x1_0000_0000)
  {
    if rounds == 0 then Panicked
    else
      var cast := (rounds - 1) % 0x1_0000_0000;
      if 60 * cast >= 0x1_0000_0000 then Panicked
      else if 350 + 60 * cast >= 0x1_0000_0000 then Panicked
      else Done(350 + 60 * cast)
  }

  /** Below 2^32 rounds the cast changes nothing: the height grows by 60 per round from 350. */
  lemma BrowserHeightOfSmallCounts(rounds: u64)
    requires 1 <= rounds <= 71582783
    ensures BrowserHeight(rounds) == Done(350 + 60 * (rounds - 1))
  {
  }

  /** A record without rounds makes the height computation panic. */
  lemma ZeroRoundsPanics()
    ensures BrowserHeight(0) == Panicked
  {
  }

  /** `take_tetra_league_screenshot_of_url`: the browser window is 1185 wide and as high as the rounds need. */
  function ScreenshotOfUrl(rounds: u64, url: string, render: Render): (r: Attempt<seq<byte>>)
    ensures BrowserHeight(rounds).Panicked? <==> r.Panicked?
    ensures BrowserHeight(rounds).Done? ==>
      var shot := render(BrowserWidth, BrowserHeight(rounds).value, url);
      (shot.Success? ==> r == Done(shot.value)) && (shot.Failure? ==> r == Error(shot.error))
  {
    match BrowserHeight(rounds)
    case Panicked => Panicked
    case Error(m) => Error(m)
    case Done(height) =>
      match render(BrowserWidth, height, url)
      case Success(buffer) => Done(buffer)
      case Failure(e) => Error(e)
  }

  /** `TetraData`. */
  datatype TetraData = TetraData(replayId: Option<string>, buffer: seq<byte>)

  function Shot(a: Attempt<seq<byte>>): Attempt<TetraData> {
    match a
    case Done(buffer) => Done(TetraData(None, buffer))
    case Error(m) => Error(m)
    case Panicked => Panicked
  }

  /** One Tetra League record: its replay id and its number of rounds. */
  datatype LeagueRecord = LeagueRecord(replayId: string, roundCount: u64)

  const FetchGameError := "Couldn't fetch tetra league game: "
  const NoRecordsError := "User does not have tetra league records"
  const GameNotFound := "Tetra league game not found"

  /** `game_num <= 0` is read as 1: the game number, counted from 1. */
  function GameNumber(gameNum: u32): (g: nat)
    ensures gameNum == 0 ==> g == 1
    ensures gameNum >= 1 ==> g == gameNum
  {
    if gameNum <= 0 then 1 else gameNum
  }

  /**
   * `take_tetra_screenshot`: `fetchRecords` is the personal recent-league
   * lookup (a packet whose `data` may be absent).
   */
  function TetraScreenshot(htmlServer: string, user: string, gameNum: u32,
                           fetchRecords: string -> Result<Option<seq<LeagueRecord>>, string>,
                           render: Render): Attempt<TetraData>
  {
    match fetchRecords(user)
    case Failure(e) => Error(FetchGameError + e)
    case Success(None) => Error(NoRecordsError)
    case Success(Some(entries)) =>
      var index := GameNumber(gameNum) - 1;
      if index >= |entries| then Error(GameNotFound)
      else
        var record := entries[index];
        Shot(ScreenshotOfUrl(record.roundCount,
          htmlServer + "/league_replay?user_id=" + user + "&replay_id=" + record.replayId, render))
  }

  /**
   * Game `g` (0 read as 1) is entry `g - 1` of the recent records: a number
   * past the end is "Tetra league game not found"; otherwise the screenshot
   * is of that entry's replay, sized by its rounds.
   */
  lemma TetraSelectsGame(htmlServer: string, user: string, gameNum: u32,
                         fetchRecords: string -> Result<Option<seq<LeagueRecord>>, string>, render: Render)
    ensures fetchRecords(user).Failure? ==>
      TetraScreenshot(htmlServer, user, gameNum, fetchRecords, render) == Error(FetchGameError + fetchRecords(user).error)
    ensures fetchRecords(user) == Success(None) ==>
      TetraScreenshot(htmlServer, user, gameNum, fetchRecords, render) == Error(NoRecordsError)
    ensures fetchRecords(user).Success? && fetchRecords(user).value.Some? ==>
      var entries := fetchRecords(user).value.value;
      var g := if gameNum == 0 then 1 else gameNum;
      && (g > |entries| ==> TetraScreenshot(htmlServer, user, gameNum, fetchRecords, render) == Error(GameNotFound))
      && (g <= |entries| ==>
            TetraScreenshot(htmlServer, user, gameNum, fetchRecords, render) ==
            Shot(ScreenshotOfUrl(entries[g - 1].roundCount,
              htmlServer + "/league_replay?user_id=" + user + "&replay_id=" + entries[g - 1].replayId, render)))
  {
  }

  /** Game numbers 0 and 1 select the same (most recent) game. */
  lemma GameZeroIsGameOne(htmlServer: string, user: string,
                          fetchRecords: string -> Result<Option<seq<LeagueRecord>>, string>, render: Render)
    ensures TetraScreenshot(htmlServer, user, 0, fetchRecords, render) == TetraScreenshot(htmlServer, user, 1, fetchRecords, render)
  {
  }

  /** What `take_tetra_replay_screenshot` reads of the posted record: its round count and its JSON text, if it serialises. */
  datatype ReplayRequest = ReplayRequest(roundCount: u64, serialized: Option<string>)

  const TooManyRounds := "Replay has more than 14 rounds"
  const SerializeError := "Couldn't serialize data"

  /** `take_tetra_replay_screenshot`; `urlEncode` is `urlencoding::encode`. */
  function ReplayScreenshot(htmlServer: string, data: ReplayRequest, urlEncode: string -> string, render: Render): (r: Attempt<TetraData>)
    ensures data.roundCount > MaxReplayRounds ==> r == Error(TooManyRounds)
    ensures data.roundCount <= MaxReplayRounds && data.serialized.None? ==> r == Error(SerializeError)
    ensures data.roundCount <= MaxReplayRounds && data.serialized.Some? ==>
      r == Shot(ScreenshotOfUrl(data.roundCount, htmlServer + "/league_replay_from_data?data=" + urlEncode(data.serialized.value), render))
  {
    if data.roundCount > MaxReplayRounds then Error(TooManyRounds)
    else match data.serialized
      case None => Error(SerializeError)
      case Some(text) =>
        Shot(ScreenshotOfUrl(data.roundCount, htmlServer + "/league_replay_from_data?data=" + urlEncode(text), render))
  }

  /**
   * A replay the limit lets through never reaches the browser with a height
   * above 350 + 60 * 13; only an empty replay panics.
   */
  lemma ReplayHeightIsBounded(data: ReplayRequest)
    requires data.roundCount <= MaxReplayRounds
    ensures data.roundCount == 0 ==> BrowserHeight(data.roundCount) == Panicked
    ensures data.roundCount >= 1 ==>
      BrowserHeight(data.roundCount).Done? && 350 <= BrowserHeight(data.roundCount).value <= 350 + 60 * 13
  {
  }

  /** `take_tetra_league_test_screenshot`: absent scores are 5, and the rounds are the larger score. */
  function TestScreenshot(htmlServer: string, leftScore: Option<u32>, rightScore: Option<u32>, render: Render): Attempt<TetraData> {
    var left := leftScore.GetOr(DefaultScore);
    var right := rightScore.GetOr(DefaultScore);
    Shot(ScreenshotOfUrl(Max(left, right),
      htmlServer + "/league_recent_test?left_score=" + Decimal(left) + "&right_score=" + Decimal(right), render))
  }

  lemma TestScreenshotDefaults(htmlServer: string, leftScore: Option<u32>, rightScore: Option<u32>, render: Render)
    ensures var left := if leftScore.Some? then leftScore.value else 5;
      var right := if rightScore.Some? then rightScore.value else 5;
      var rounds := if left >= right then left else right;
      TestScreenshot(htmlServer, leftScore, rightScore, render) ==
      Shot(ScreenshotOfUrl(rounds, htmlServer + "/league_recent_test?left_score=" + Decimal(left) + "&right_score=" + Decimal(right), render))
    ensures leftScore == Some(0) && rightScore == Some(0) ==> TestScreenshot(htmlServer, leftScore, rightScore, render) == Panicked
  {
  }

  /**
   * The `TetraResponse` of a handler: a success carries the data, an error its
   * message with no data; `successOnError` is set for `league_recent_test`,
   * which marks its errors successful. A panic produces no response.
   */
  function Envelope(a: Attempt<TetraData>, successOnError: bool): (r: Option<Packet<TetraData>>)
    ensures a.Panicked? <==> r.None?
    ensures a.Done? ==> r == Some(Packet(true, None, Some(a.value), None))
    ensures a.Error? ==> r == Some(Packet(successOnError, Some(a.message), None, None))
  {
    match a
    case Done(data) => Some(Packet(true, None, Some(data), None))
    case Error(m) => Some(Packet(successOnError, Some(m), None, None))
    case Panicked => None
  }

  /** `tetra`: the game screenshot in an envelope that reports errors as unsuccessful. */
  function TetraHandler(htmlServer: string, user: string, gameNum: u32,
                        fetchRecords: string -> Result<Option<seq<LeagueRecord>>, string>, render: Render): Option<Packet<TetraData>>
  {
    Envelope(TetraScreenshot(htmlServer, user, gameNum, fetchRecords, render), false)
  }

  /** `tetra_replay`: the replay screenshot in an envelope that reports errors as unsuccessful. */
  function TetraReplayHandler(htmlServer: string, data: ReplayRequest, urlEncode: string -> string, render: Render): Option<Packet<TetraData>> {
    Envelope(ReplayScreenshot(htmlServer, data, urlEncode, render), false)
  }

  /** `league_recent_test`: the test screenshot in an envelope that reports errors as successful. */
  function LeagueRecentTestHandler(htmlServer: string, leftScore: Option<u32>, rightScore: Option<u32>, render: Render): Option<Packet<TetraData>> {
    Envelope(TestScreenshot(htmlServer, leftScore, rightScore, render), true)
  }

  /**
   * Every answer of `tetra` and `tetra_replay` is successful exactly when it
   * carries data; every answer of `league_recent_test` is successful, its
   * errors included. An error answer carries the step's message and no data,
   * and no answer of the three carries cache metadata.
   */
  lemma ErrorEnvelopes(htmlServer: string, user: string, gameNum: u32,
                       fetchRecords: string -> Result<Option<seq<LeagueRecord>>, string>,
                       data: ReplayRequest, urlEncode: string -> string,
                       leftScore: Option<u32>, rightScore: Option<u32>, render: Render)
    ensures var r := TetraHandler(htmlServer, user, gameNum, fetchRecords, render);
      var a := TetraScreenshot(htmlServer, user, gameNum, fetchRecords, render);
      && (r.Some? ==> (r.value.success <==> r.value.data.Some?) && r.value.cache.None?)
      && (a.Error? ==> r == Some(Packet(false, Some(a.message), None, None)))
    ensures var r := TetraReplayHandler(htmlServer, data, urlEncode, render);
      var a := ReplayScreenshot(htmlServer, data, urlEncode, render);
      && (r.Some? ==> (r.value.success <==> r.value.data.Some?) && r.value.cache.None?)
      && (a.Error? ==> r == Some(Packet(false, Some(a.message), None, None)))
    ensures var r := LeagueRecentTestHandler(htmlServer, leftScore, rightScore, render);
      var a := TestScreenshot(htmlServer, leftScore, rightScore, render);
      && (r.Some? ==> r.value.success && r.value.cache.None?)
      && (a.Error? ==> r == Some(Packet(true, Some(a.message), None, None)))
  {
  }
}
