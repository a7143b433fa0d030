/**
 * `get_full_leaderboard` and `full_leaderboard` (src/api/v1/mod.rs): a
 * cache-aside read of the whole league leaderboard, fetched page by page with
 * keyset pagination and written back as one packet.
 *
 * The walk is specified by `FullWalk` (which requests go out and which pages
 * come back, for a given script of upstream replies) and `FullLeaderboard`
 * (the whole call: result, new cache, requests); `GetFullLeaderboard` is the
 * imperative loop, proved to behave as `FullLeaderboard` says.
 */
module Leaderboard {
  import opened Prelude
  import opened TetrioCache

  const PageLimit := 100
  const CacheSeconds := 3600
  const LeaderboardError := "Couldn't fetch leaderboard!"
  const LeaguePath := "users/by/league"
  /** The session of the cache lookup, the first request and the write-back. */
  const FirstSession := "X_TEST_BEAN_BLASTER"
  /** The session of every request made inside the loop. */
  const LoopSession := "X_BEANBLASTER"
  /** The cursor of an entry without `p`. */
  const DefaultCursor := Prisecter(0.0, 0.0, 0.0)

  /** One character as `str`'s `Debug` formatting writes it. */
  function EscapeDebugChar(c: char): string {
    if c == '"' then "\\\""
    else if c == '\\' then "\\\\"
    else if c == '\n' then "\\n"
    else if c == '\r' then "\\r"
    else if c == '\t' then "\\t"
    else if c == '\0' then "\\0"
    else [c]
  }

  function EscapeDebug(s: string): string {
    if s == [] then [] else EscapeDebugChar(s[0]) + EscapeDebug(s[1..])
  }

  /** The character a backslash escape stands for. */
  function UnescapeDebugChar(c: char): Option<char> {
    if c == '"' then Some('"')
    else if c == '\\' then Some('\\')
    else if c == 'n' then Some('\n')
    else if c == 'r' then Some('\r')
    else if c == 't' then Some('\t')
    else if c == '0' then Some('\0')
    else None
  }

  /** A character `Debug` writes as an escape, never as itself. */
  predicate Escaped(c: char) {
    c == '"' || c == '\\' || c == '\n' || c == '\r' || c == '\t' || c == '\0'
  }

  /** Reading escaped text back: the inverse of `EscapeDebug`, failing on text it cannot produce. */
  function UnescapeDebug(t: string): Option<string>
    decreases |t|
  {
    if t == [] then Some([])
    else if t[0] == '\\' then
      if |t| < 2 || UnescapeDebugChar(t[1]).None? then None
      else match UnescapeDebug(t[2..])
        case None => None
        case Some(rest) => Some([UnescapeDebugChar(t[1]).value] + rest)
    else if Escaped(t[0]) then None
    else match UnescapeDebug(t[1..])
      case None => None
      case Some(rest) => Some([t[0]] + rest)
  }

  /** Escaping loses nothing: reading the escaped text back gives the original. */
  lemma {:induction false} UnescapeEscape(s: string)
    ensures UnescapeDebug(EscapeDebug(s)) == Some(s)
  {
    if s != [] {
      var code := EscapeDebugChar(s[0]);
      var t := code + EscapeDebug(s[1..]);
      UnescapeEscape(s[1..]);
      assert t[0] == code[0];
      if Escaped(s[0]) {
        assert |code| == 2 && t[1] == code[1] && t[2..] == EscapeDebug(s[1..]);
      } else {
        assert code == [s[0]] && t[1..] == EscapeDebug(s[1..]);
      }
      assert [s[0]] + s[1..] == s;
    }
  }

  /** Different texts escape differently. */
  lemma EscapeDebugInjective(a: string, b: string)
    ensures EscapeDebug(a) == EscapeDebug(b) <==> a == b
  {
    UnescapeEscape(a);
    UnescapeEscape(b);
  }

  /** `format!("{:?}", country)` for an `Option<String>`. */
  function DebugOption(country: Option<string>): (r: string)
    ensures country.None? ==> r == "None"
    ensures country.Some? ==>
      && |r| >= 8 && r[..6] == "Some(\"" && r[|r| - 2..] == "\")"
      && UnescapeDebug(r[6..|r| - 2]) == Some(country.value)
  {
    match country
    case None => "None"
    case Some(s) =>
      UnescapeEscape(s);
      var r := "Some(\"" + EscapeDebug(s) + "\")";
      assert r[6..|r| - 2] == EscapeDebug(s);
      r
  }

  /** Different countries are written differently, so each country has a lookup key of its own. */
  lemma DebugOptionInjective(a: Option<string>, b: Option<string>)
    ensures DebugOption(a) == DebugOption(b) <==> a == b
    ensures ReadKey(a) == ReadKey(b) <==> a == b
  {
    var prefix := "/BEAN_BLASTER_SERVER?country=";
    if ReadKey(a) == ReadKey(b) {
      assert ReadKey(a).url[|prefix|..] == DebugOption(a);
      assert ReadKey(b).url[|prefix|..] == DebugOption(b);
    }
    if DebugOption(a) == DebugOption(b) && a.Some? && b.Some? {
      var r := DebugOption(a);
      assert Some(a.value) == UnescapeDebug(r[6..|r| - 2]) == Some(b.value);
    }
  }

  /** The key the cached leaderboard is looked up under. */
  function ReadKey(country: Option<string>): CacheKey {
    CacheKey("/BEAN_BLASTER_SERVER?country=" + DebugOption(country), Some(FirstSession))
  }

  /** The key the fetched leaderboard is written under: the path of the page requests. */
  function WriteKey(): CacheKey {
    CacheKey(LeaguePath, Some(FirstSession))
  }

  function FirstRequest(country: Option<string>): ApiRequest {
    ApiRequest(LeaguePath, NotBound(Some(PageLimit), country), Some(FirstSession))
  }

  function NextRequest(country: Option<string>, after: Prisecter): ApiRequest {
    ApiRequest(LeaguePath, After(after, Some(PageLimit), country), Some(LoopSession))
  }

  /** `serde_json::from_value::<Prisecter>(entry.get("p").unwrap_or(&default_p))`. */
  function CursorOf(e: Entry): (r: Result<Prisecter, string>)
    ensures e.p.NoCursor? ==> r == Success(DefaultCursor)
    ensures e.p.CursorValue? ==> r == Success(e.p.cursor)
    ensures e.p.MalformedCursor? ==> r == Failure(e.p.reason)
  {
    match e.p
    case NoCursor => Success(DefaultCursor)
    case CursorValue(c) => Success(c)
    case MalformedCursor(m) => Failure(m)
  }

  /** The `entries` array of a reply; an absent `data` stands for `{"entries": []}`. */
  function PageEntries(reply: UpstreamReply): (r: Result<seq<Entry>, string>)
    ensures reply.Failure? ==> r == Failure(reply.error)
    ensures reply == Success(None) ==> r == Success([])
    ensures reply.Success? && reply.value.Some? && !reply.value.value.WithEntries? ==> r == Failure(LeaderboardError)
    ensures reply.Success? && reply.value.Some? && reply.value.value.WithEntries? ==> r == Success(reply.value.value.entries)
  {
    match reply
    case Failure(e) => Failure(e)
    case Success(None) => Success([])
    case Success(Some(WithEntries(es))) => Success(es)
    case Success(Some(_)) => Failure(LeaderboardError)
  }

  /** What the walk takes from one reply: the page and the cursor after its last entry. */
  function ReadPage(reply: UpstreamReply): (r: Result<(seq<Entry>, Prisecter), string>)
    ensures r.Success? <==>
      && PageEntries(reply).Success? && |PageEntries(reply).value| > 0
      && CursorOf(PageEntries(reply).value[|PageEntries(reply).value| - 1]).Success?
    ensures r.Success? ==>
      var es := PageEntries(reply).value;
      r.value == (es, CursorOf(es[|es| - 1]).value)
    ensures PageEntries(reply) == Success([]) ==> r == Failure(LeaderboardError)
    ensures PageEntries(reply).Failure? ==> r == Failure(PageEntries(reply).error)
    ensures PageEntries(reply).Success? && |PageEntries(reply).value| > 0 ==>
      var es := PageEntries(reply).value;
      CursorOf(es[|es| - 1]).Failure? ==> r == Failure(CursorOf(es[|es| - 1]).error)
  {
    match PageEntries(reply)
    case Failure(e) => Failure(e)
    case Success(es) =>
      if |es| == 0 then Failure(LeaderboardError)
      else match CursorOf(es[|es| - 1])
        case Failure(e) => Failure(e)
        case Success(p) => Success((es, p))
  }

  /** The pages a walk collected (or why it stopped) and the requests it sent, in order. */
  datatype Walk = Walk(pages: Result<seq<seq<Entry>>, string>, requests: seq<ApiRequest>)

  /** A walk that first collected `pages` with `requests` and then went on as `w`. */
  function Prepend(pages: seq<seq<Entry>>, requests: seq<ApiRequest>, w: Walk): Walk {
    Walk(
      match w.pages
      case Success(more) => Success(pages + more)
      case Failure(e) => Failure(e),
      requests + w.requests)
  }

  /** The reply to the request with index `k`: the script's, or none once it is used up. */
  function Reply(script: seq<UpstreamReply>, k: nat): UpstreamReply {
    if k < |script| then script[k] else Failure(NoResponse)
  }

  /** The `loop` from the request with index `k` on, whose cursor is `after`. */
  function LoopWalk(country: Option<string>, after: Prisecter, script: seq<UpstreamReply>, k: nat): Walk
    decreases |script| - k
  {
    var request := NextRequest(country, after);
    if k >= |script| then Walk(Failure(NoResponse), [request])
    else match ReadPage(script[k])
      case Failure(e) => Walk(Failure(e), [request])
      case Success(page) =>
        if |page.0| != PageLimit then Walk(Success([page.0]), [request])
        else Prepend([page.0], [request], LoopWalk(country, page.1, script, k + 1))
  }

  /** The whole walk: the unbounded first request, then the loop. */
  function FullWalk(country: Option<string>, script: seq<UpstreamReply>): Walk {
    var request := FirstRequest(country);
    if |script| == 0 then Walk(Failure(NoResponse), [request])
    else match ReadPage(script[0])
      case Failure(e) => Walk(Failure(e), [request])
      case Success(page) => Prepend([page.0], [request], LoopWalk(country, page.1, script, 1))
  }

  /** `results.into_iter().flatten()`. */
  function Flatten(pages: seq<seq<Entry>>): (r: seq<Entry>)
    ensures pages == [] ==> r == []
  {
    if pages == [] then [] else pages[0] + Flatten(pages[1..])
  }

  /** The packet built from the fetched pages. */
  function AggregatePacket(pages: seq<seq<Entry>>): Packet<seq<Entry>> {
    Packet(true, None, Some(Flatten(pages)), Some(CachedFor(CacheSeconds)))
  }

  /** The outcome of one call: what it returns, the cache afterwards, and the requests it sent. */
  datatype Run = Run(result: Result<Packet<seq<Entry>>, string>, store: CacheState, requests: seq<ApiRequest>)

  /**
   * `get_full_leaderboard` against cache `store` and upstream `script`;
   * `encodeError` is what `serde_json::to_value` reports on the packet, if anything.
   */
  function FullLeaderboard(country: Option<string>, store: CacheState, script: seq<UpstreamReply>, encodeError: Option<string>): Run {
    match ReadLeaderboard(store, ReadKey(country))
    case Failure(e) => Run(Failure(e), store, [])
    case Success(Some(packet)) => Run(Success(packet), store, [])
    case Success(None) =>
      var walk := FullWalk(country, script);
      match walk.pages
      case Failure(e) => Run(Failure(e), store, walk.requests)
      case Success(pages) =>
        var packet := AggregatePacket(pages);
        if encodeError.Some? then Run(Failure(encodeError.value), store, walk.requests)
        else match WriteIfAbsent(store, WriteKey(), LeaderboardValue(packet))
          case Failure(e) => Run(Failure(e), store, walk.requests)
          case Success(written) => Run(Success(packet), written.1, walk.requests)
  }

  /** `full_leaderboard`: an error becomes a failed packet carrying its message. */
  function LeaderboardResponse(r: Result<Packet<seq<Entry>>, string>): (p: Packet<seq<Entry>>)
    ensures r.Failure? ==> !p.success && p.error == Some(r.error) && p.data.None? && p.cache.None?
    ensures r.Success? ==> p == r.value
  {
    match r
    case Failure(e) => Packet(false, Some(e), None, None)
    case Success(packet) => packet
  }

  lemma PrependPrepend(a: seq<seq<Entry>>, ra: seq<ApiRequest>, b: seq<seq<Entry>>, rb: seq<ApiRequest>, w: Walk)
    ensures Prepend(a, ra, Prepend(b, rb, w)) == Prepend(a + b, ra + rb, w)
  {
    assert ra + (rb + w.requests) == (ra + rb) + w.requests;
    if w.pages.Success? {
      assert a + (b + w.pages.value) == (a + b) + w.pages.value;
    }
  }

  /** One step of the loop, read off the reply to request `k`. */
  lemma LoopWalkUnfold(country: Option<string>, after: Prisecter, script: seq<UpstreamReply>, k: nat)
    ensures var page := ReadPage(Reply(script, k));
      && (page.Failure? ==> LoopWalk(country, after, script, k) == Walk(Failure(page.error), [NextRequest(country, after)]))
      && (page.Success? && |page.value.0| != PageLimit ==>
            LoopWalk(country, after, script, k) == Walk(Success([page.value.0]), [NextRequest(country, after)]))
      && (page.Success? && |page.value.0| == PageLimit ==>
            LoopWalk(country, after, script, k) ==
            Prepend([page.value.0], [NextRequest(country, after)], LoopWalk(country, page.value.1, script, k + 1)))
  {
  }

  lemma DropStep<T>(s: seq<T>, n: nat)
    ensures Drop(s, n) == [] <==> n >= |s|
    ensures n < |s| ==> Drop(s, n)[0] == s[n] && Drop(s, n)[1..] == Drop(s, n + 1)
    ensures n >= |s| ==> Drop(s, n + 1) == []
  {
    if n < |s| {
      assert |Drop(s, n)| == |s| - n;
    }
  }

  /** The loop sends at least one request, the first with cursor `after`, and no more than the script answers plus one. */
  lemma {:induction false} LoopWalkLength(country: Option<string>, after: Prisecter, script: seq<UpstreamReply>, k: nat)
    requires k <= |script|
    ensures var w := LoopWalk(country, after, script, k);
      1 <= |w.requests| && k + |w.requests| <= |script| + 1 && w.requests[0] == NextRequest(country, after)
    decreases |script| - k
  {
    if k < |script| && ReadPage(script[k]).Success? && |ReadPage(script[k]).value.0| == PageLimit {
      var page := ReadPage(script[k]).value;
      LoopWalkLength(country, page.1, script, k + 1);
      assert LoopWalk(country, after, script, k) == Prepend([page.0], [NextRequest(country, after)], LoopWalk(country, page.1, script, k + 1));
    }
  }

  /** Request `i > 0` of the loop carries the cursor of the page that reply `k + i - 1` held. */
  lemma {:induction false} LoopWalkRequestAt(country: Option<string>, after: Prisecter, script: seq<UpstreamReply>, k: nat, i: nat)
    requires k <= |script| && 1 <= i < |LoopWalk(country, after, script, k).requests|
    ensures k + i - 1 < |script| && ReadPage(script[k + i - 1]).Success?
    ensures LoopWalk(country, after, script, k).requests[i] == NextRequest(country, ReadPage(script[k + i - 1]).value.1)
    decreases i
  {
    if k < |script| && ReadPage(script[k]).Success? && |ReadPage(script[k]).value.0| == PageLimit {
      var page := ReadPage(script[k]).value;
      var rest := LoopWalk(country, page.1, script, k + 1);
      var w := LoopWalk(country, after, script, k);
      assert w == Prepend([page.0], [NextRequest(country, after)], rest);
      assert w.requests[i] == rest.requests[i - 1];
      if i == 1 {
        LoopWalkLength(country, page.1, script, k + 1);
      } else {
        LoopWalkRequestAt(country, page.1, script, k + 1, i - 1);
        assert k + i - 1 == (k + 1) + (i - 1) - 1;
      }
    } else {
      assert false;
    }
  }

  /** Page `j` of the loop is full when a later request follows it. */
  lemma {:induction false} LoopWalkFullAt(country: Option<string>, after: Prisecter, script: seq<UpstreamReply>, k: nat, j: nat)
    requires k <= |script| && k <= j < k + |LoopWalk(country, after, script, k).requests| - 1
    ensures j < |script| && ReadPage(script[j]).Success? && |ReadPage(script[j]).value.0| == PageLimit
    decreases j - k
  {
    if k < |script| && ReadPage(script[k]).Success? && |ReadPage(script[k]).value.0| == PageLimit {
      if j > k {
        var page := ReadPage(script[k]).value;
        var rest := LoopWalk(country, page.1, script, k + 1);
        assert LoopWalk(country, after, script, k) == Prepend([page.0], [NextRequest(country, after)], rest);
        LoopWalkFullAt(country, page.1, script, k + 1, j);
      }
    } else {
      assert false;
    }
  }

  /**
   * The loop ends on the first reply that fails or holds a page that is not
   * full; a successful loop holds one page per request.
   */
  lemma {:induction false} LoopWalkEnd(country: Option<string>, after: Prisecter, script: seq<UpstreamReply>, k: nat)
    requires k <= |script|
    ensures var w := LoopWalk(country, after, script, k); var last := k + |w.requests| - 1;
      w.pages.Failure? ==> ReadPage(Reply(script, last)).Failure? && w.pages.error == ReadPage(Reply(script, last)).error
    ensures var w := LoopWalk(country, after, script, k); var last := k + |w.requests| - 1;
      w.pages.Success? ==>
        && last < |script|
        && ReadPage(script[last]).Success? && |ReadPage(script[last]).value.0| != PageLimit
        && |w.pages.value| == |w.requests|
    decreases |script| - k
  {
    if k < |script| && ReadPage(script[k]).Success? && |ReadPage(script[k]).value.0| == PageLimit {
      var page := ReadPage(script[k]).value;
      var rest := LoopWalk(country, page.1, script, k + 1);
      LoopWalkEnd(country, page.1, script, k + 1);
      var w := LoopWalk(country, after, script, k);
      assert w == Prepend([page.0], [NextRequest(country, after)], rest);
      assert k + |w.requests| - 1 == (k + 1) + |rest.requests| - 1;
    } else if k < |script| {
      assert Reply(script, k) == script[k];
    }
  }

  /** Page `i` of a successful loop is the page reply `k + i` held. */
  lemma {:induction false} LoopWalkPageAt(country: Option<string>, after: Prisecter, script: seq<UpstreamReply>, k: nat, i: nat)
    requires k <= |script| && LoopWalk(country, after, script, k).pages.Success? && i < |LoopWalk(country, after, script, k).requests|
    ensures k + i < |script| && ReadPage(script[k + i]).Success?
    ensures |LoopWalk(country, after, script, k).pages.value| == |LoopWalk(country, after, script, k).requests|
    ensures LoopWalk(country, after, script, k).pages.value[i] == ReadPage(script[k + i]).value.0
    decreases i
  {
    LoopWalkEnd(country, after, script, k);
    if k < |script| && ReadPage(script[k]).Success? && |ReadPage(script[k]).value.0| == PageLimit {
      var page := ReadPage(script[k]).value;
      var rest := LoopWalk(country, page.1, script, k + 1);
      var w := LoopWalk(country, after, script, k);
      assert w == Prepend([page.0], [NextRequest(country, after)], rest);
      if i > 0 {
        assert w.pages.value[i] == rest.pages.value[i - 1];
        LoopWalkPageAt(country, page.1, script, k + 1, i - 1);
        assert k + i == (k + 1) + (i - 1);
      }
    } else if k < |script| && ReadPage(script[k]).Success? {
      assert i == 0;
    } else {
      assert false;
    }
  }

  /**
   * The loop from request `k` on: request `k + i` carries the cursor of the
   * page `k + i - 1` answered; every page before the last one is full; the
   * loop ends on the first reply that fails or holds a page that is not full,
   * and a successful loop holds the pages the replies held, in order.
   */
  lemma LoopWalkShape(country: Option<string>, after: Prisecter, script: seq<UpstreamReply>, k: nat)
    requires k <= |script|
    ensures var w := LoopWalk(country, after, script, k);
      1 <= |w.requests| && k + |w.requests| <= |script| + 1 && w.requests[0] == NextRequest(country, after)
    ensures var w := LoopWalk(country, after, script, k);
      forall i :: 1 <= i < |w.requests| ==>
        ReadPage(script[k + i - 1]).Success? && w.requests[i] == NextRequest(country, ReadPage(script[k + i - 1]).value.1)
    ensures var w := LoopWalk(country, after, script, k);
      forall j :: k <= j < k + |w.requests| - 1 ==> ReadPage(script[j]).Success? && |ReadPage(script[j]).value.0| == PageLimit
    ensures var w := LoopWalk(country, after, script, k); var last := k + |w.requests| - 1;
      w.pages.Failure? ==> ReadPage(Reply(script, last)).Failure? && w.pages.error == ReadPage(Reply(script, last)).error
    ensures var w := LoopWalk(country, after, script, k); var last := k + |w.requests| - 1;
      w.pages.Success? ==>
        && last < |script|
        && ReadPage(script[last]).Success? && |ReadPage(script[last]).value.0| != PageLimit
        && |w.pages.value| == |w.requests|
        && forall i :: 0 <= i < |w.requests| ==> ReadPage(script[k + i]).Success? && w.pages.value[i] == ReadPage(script[k + i]).value.0
  {
    var w := LoopWalk(country, after, script, k);
    LoopWalkLength(country, after, script, k);
    LoopWalkEnd(country, after, script, k);
    forall i | 1 <= i < |w.requests|
      ensures ReadPage(script[k + i - 1]).Success? && w.requests[i] == NextRequest(country, ReadPage(script[k + i - 1]).value.1)
    {
      LoopWalkRequestAt(country, after, script, k, i);
    }
    forall j | k <= j < k + |w.requests| - 1
      ensures ReadPage(script[j]).Success? && |ReadPage(script[j]).value.0| == PageLimit
    {
      LoopWalkFullAt(country, after, script, k, j);
    }
    if w.pages.Success? {
      forall i | 0 <= i < |w.requests|
        ensures ReadPage(script[k + i]).Success? && w.pages.value[i] == ReadPage(script[k + i]).value.0
      {
        LoopWalkPageAt(country, after, script, k, i);
      }
    }
  }

  /** Request `i > 0` of the whole walk carries the cursor of page `i - 1`. */
  lemma FullWalkRequestAt(country: Option<string>, script: seq<UpstreamReply>, i: nat)
    requires 1 <= i < |FullWalk(country, script).requests|
    ensures i - 1 < |script| && ReadPage(script[i - 1]).Success?
    ensures FullWalk(country, script).requests[i] == NextRequest(country, ReadPage(script[i - 1]).value.1)
  {
    if |script| > 0 && ReadPage(script[0]).Success? {
      var page := ReadPage(script[0]).value;
      var rest := LoopWalk(country, page.1, script, 1);
      assert FullWalk(country, script) == Prepend([page.0], [FirstRequest(country)], rest);
      assert FullWalk(country, script).requests[i] == rest.requests[i - 1];
      if i == 1 {
        LoopWalkLength(country, page.1, script, 1);
      } else {
        LoopWalkRequestAt(country, page.1, script, 1, i - 1);
      }
    } else {
      assert false;
    }
  }

  /** Page `i` of a successful whole walk is the page reply `i` held. */
  lemma FullWalkPageAt(country: Option<string>, script: seq<UpstreamReply>, i: nat)
    requires FullWalk(country, script).pages.Success? && i < |FullWalk(country, script).requests|
    ensures i < |script| && ReadPage(script[i]).Success?
    ensures |FullWalk(country, script).pages.value| == |FullWalk(country, script).requests|
    ensures FullWalk(country, script).pages.value[i] == ReadPage(script[i]).value.0
  {
    if |script| > 0 && ReadPage(script[0]).Success? {
      var page := ReadPage(script[0]).value;
      var rest := LoopWalk(country, page.1, script, 1);
      var w := FullWalk(country, script);
      assert w == Prepend([page.0], [FirstRequest(country)], rest);
      LoopWalkEnd(country, page.1, script, 1);
      if i > 0 {
        assert w.pages.value[i] == rest.pages.value[i - 1];
        LoopWalkPageAt(country, page.1, script, 1, i - 1);
      }
    } else {
      assert false;
    }
  }

  /** How the whole walk starts and how it ends. */
  lemma FullWalkEnds(country: Option<string>, script: seq<UpstreamReply>)
    ensures var w := FullWalk(country, script); var n := |w.requests|;
      1 <= n <= |script| + 1 && w.requests[0] == FirstRequest(country)
    ensures var w := FullWalk(country, script); var n := |w.requests|;
      w.pages.Failure? ==> ReadPage(Reply(script, n - 1)).Failure? && w.pages.error == ReadPage(Reply(script, n - 1)).error
    ensures var w := FullWalk(country, script); var n := |w.requests|;
      w.pages.Success? ==>
        && 2 <= n <= |script|
        && ReadPage(script[n - 1]).Success? && |ReadPage(script[n - 1]).value.0| != PageLimit
        && |w.pages.value| == n
  {
    if |script| > 0 && ReadPage(script[0]).Success? {
      var page := ReadPage(script[0]).value;
      var rest := LoopWalk(country, page.1, script, 1);
      assert FullWalk(country, script) == Prepend([page.0], [FirstRequest(country)], rest);
      LoopWalkLength(country, page.1, script, 1);
      LoopWalkEnd(country, page.1, script, 1);
    } else if |script| > 0 {
      assert Reply(script, 0) == script[0];
    }
  }

  /**
   * The whole walk: the first request is unbounded, request `i > 0` carries
   * the cursor of page `i - 1`; the first page's length is never compared with the limit, every
   * later page but the last is full; a successful walk has at least two pages,
   * the pages the replies held, in order, and ends on a page that is not full.
   */
  lemma FullWalkShape(country: Option<string>, script: seq<UpstreamReply>)
    ensures var w := FullWalk(country, script); var n := |w.requests|;
      && 1 <= n <= |script| + 1
      && w.requests[0] == FirstRequest(country)
      && (forall i :: 1 <= i < n ==>
            ReadPage(script[i - 1]).Success? && w.requests[i] == NextRequest(country, ReadPage(script[i - 1]).value.1))
      && (forall j :: 1 <= j < n - 1 ==> ReadPage(script[j]).Success? && |ReadPage(script[j]).value.0| == PageLimit)
      && (w.pages.Failure? ==>
            ReadPage(Reply(script, n - 1)).Failure? && w.pages.error == ReadPage(Reply(script, n - 1)).error)
      && (w.pages.Success? ==>
            && 2 <= n <= |script|
            && ReadPage(script[n - 1]).Success? && |ReadPage(script[n - 1]).value.0| != PageLimit
            && |w.pages.value| == n
            && forall i :: 0 <= i < n ==> ReadPage(script[i]).Success? && w.pages.value[i] == ReadPage(script[i]).value.0)
  {
    var w := FullWalk(country, script);
    var n := |w.requests|;
    FullWalkEnds(country, script);
    forall i | 1 <= i < n
      ensures ReadPage(script[i - 1]).Success? && w.requests[i] == NextRequest(country, ReadPage(script[i - 1]).value.1)
    {
      FullWalkRequestAt(country, script, i);
    }
    forall j | 1 <= j < n - 1
      ensures ReadPage(script[j]).Success? && |ReadPage(script[j]).value.0| == PageLimit
    {
      var page := ReadPage(script[0]).value;
      assert w == Prepend([page.0], [FirstRequest(country)], LoopWalk(country, page.1, script, 1));
      LoopWalkFullAt(country, page.1, script, 1, j);
    }
    if w.pages.Success? {
      forall i | 0 <= i < n
        ensures ReadPage(script[i]).Success? && w.pages.value[i] == ReadPage(script[i]).value.0
      {
        FullWalkPageAt(country, script, i);
      }
    }
  }

  /**
   * A page with no entries after the first (a missing `data` included) fails
   * the walk with "Couldn't fetch leaderboard!" once the pages between are
   * full, whatever the first page held: a total that is an exact multiple of
   * the page size, or a short first page followed by an empty one, fails.
   */
  lemma EmptyPageFailsWalk(country: Option<string>, script: seq<UpstreamReply>, m: nat)
    requires 1 <= m < |script|
    requires ReadPage(script[0]).Success?
    requires forall j :: 1 <= j < m ==> ReadPage(script[j]).Success? && |ReadPage(script[j]).value.0| == PageLimit
    requires PageEntries(script[m]) == Success([])
    ensures FullWalk(country, script).pages == Failure(LeaderboardError)
    ensures |FullWalk(country, script).requests| == m + 1
  {
    FullWalkShape(country, script);
    var w := FullWalk(country, script);
    var n := |w.requests|;
    if n - 1 < m {
      assert false;
    }
    if n - 1 > m {
      assert false;
    }
    assert Reply(script, m) == script[m];
  }

  /** `Flatten` of a concatenation: the pages' entries stay in fetch order. */
  lemma {:induction false} FlattenAppend(a: seq<seq<Entry>>, b: seq<seq<Entry>>)
    ensures Flatten(a + b) == Flatten(a) + Flatten(b)
  {
    if a == [] {
      assert a + b == b;
    } else {
      assert (a + b)[1..] == a[1..] + b;
      FlattenAppend(a[1..], b);
    }
  }

  /**
   * Three replies, the second one full and the third one short: three
   * requests go out (the second and third with the cursors of the pages
   * before them) and the result holds the three pages' entries in order.
   */
  lemma ThreePageWalk(country: Option<string>, a: seq<Entry>, b: seq<Entry>, c: seq<Entry>)
    requires |a| > 0 && |b| == PageLimit && 0 < |c| < PageLimit
    requires CursorOf(a[|a| - 1]).Success? && CursorOf(b[|b| - 1]).Success? && CursorOf(c[|c| - 1]).Success?
    ensures var script := [Success(Some(WithEntries(a))), Success(Some(WithEntries(b))), Success(Some(WithEntries(c)))];
      var w := FullWalk(country, script);
      && w.pages == Success([a, b, c])
      && w.requests == [FirstRequest(country),
                        NextRequest(country, CursorOf(a[|a| - 1]).value),
                        NextRequest(country, CursorOf(b[|b| - 1]).value)]
      && Flatten(w.pages.value) == a + b + c
  {
    var script: seq<UpstreamReply> := [Success(Some(WithEntries(a))), Success(Some(WithEntries(b))), Success(Some(WithEntries(c)))];
    var pa := CursorOf(a[|a| - 1]).value;
    var pb := CursorOf(b[|b| - 1]).value;
    assert ReadPage(script[2]) == Success((c, CursorOf(c[|c| - 1]).value));
    assert LoopWalk(country, pb, script, 2) == Walk(Success([c]), [NextRequest(country, pb)]);
    assert ReadPage(script[1]) == Success((b, pb));
    assert LoopWalk(country, pa, script, 1) == Prepend([b], [NextRequest(country, pa)], LoopWalk(country, pb, script, 2));
    assert [b] + [c] == [b, c];
    assert [NextRequest(country, pa)] + [NextRequest(country, pb)] == [NextRequest(country, pa), NextRequest(country, pb)];
    assert LoopWalk(country, pa, script, 1) == Walk(Success([b, c]), [NextRequest(country, pa), NextRequest(country, pb)]);
    assert ReadPage(script[0]) == Success((a, pa));
    assert FullWalk(country, script) == Prepend([a], [FirstRequest(country)], LoopWalk(country, pa, script, 1));
    assert [a] + [b, c] == [a, b, c];
    assert Flatten([c]) == c by {
      assert [c][1..] == [];
    }
    assert Flatten([b, c]) == b + c by {
      assert [b, c][1..] == [c];
    }
    assert Flatten([a, b, c]) == a + b + c by {
      assert [a, b, c][1..] == [b, c];
      assert a + (b + c) == a + b + c;
    }
  }

  /** A cached packet (or a failed cache read) decides the call: nothing is requested and nothing is written. */
  lemma CacheLookupComesFirst(country: Option<string>, store: CacheState, script: seq<UpstreamReply>, encodeError: Option<string>)
    ensures var lookup := ReadLeaderboard(store, ReadKey(country)); var run := FullLeaderboard(country, store, script, encodeError);
      && (lookup.Failure? ==> run == Run(Failure(lookup.error), store, []))
      && (lookup.Success? && lookup.value.Some? ==> run == Run(Success(lookup.value.value), store, []))
  {
  }

  /**
   * On a cache miss the call sends exactly the walk's requests; it succeeds
   * exactly when the walk, the encoding and the write-back all do; a success
   * returns the pages' entries in fetch order with success set, no error and a
   * lifetime of 3600 s, stored under the write-back key if that one was free;
   * a failure leaves the cache as it was.
   */
  lemma CacheMissWalksAndWritesBack(country: Option<string>, store: CacheState, script: seq<UpstreamReply>, encodeError: Option<string>)
    requires ReadLeaderboard(store, ReadKey(country)) == Success(None)
    ensures var run := FullLeaderboard(country, store, script, encodeError); var walk := FullWalk(country, script);
      && run.requests == walk.requests
      && (run.result.Success? <==> walk.pages.Success? && encodeError.None? && WriteKey() !in store.unwritable)
      && (walk.pages.Failure? ==> run.result == Failure(walk.pages.error))
      && (run.result.Failure? ==> run.store == store)
      && (run.result.Success? ==>
            && run.result.value == Packet(true, None, Some(Flatten(walk.pages.value)), Some(CachedFor(3600)))
            && WriteKey() in run.store.entries
            && (WriteKey() !in store.entries ==> run.store.entries == store.entries[WriteKey() := LeaderboardValue(run.result.value)])
            && (WriteKey() in store.entries ==> run.store == store))
  {
  }

  /** The lookup key never equals the write-back key, whatever the country. */
  lemma ReadKeyIsNotWriteKey(country: Option<string>)
    ensures ReadKey(country) != WriteKey()
  {
    assert ReadKey(country).url[0] == '/';
    assert WriteKey().url[0] == 'u';
  }

  /**
   * Because of that, a successful call does not make the next call hit: a
   * call after a successful miss walks the upstream again.
   */
  lemma WriteBackDoesNotServeNextCall(country: Option<string>, store: CacheState, script: seq<UpstreamReply>, next: seq<UpstreamReply>, encodeError: Option<string>)
    requires ReadLeaderboard(store, ReadKey(country)) == Success(None)
    requires FullLeaderboard(country, store, script, encodeError).result.Success?
    ensures var after := FullLeaderboard(country, store, script, encodeError).store;
      && ReadLeaderboard(after, ReadKey(country)) == Success(None)
      && FullLeaderboard(country, after, next, encodeError).requests == FullWalk(country, next).requests
  {
    ReadKeyIsNotWriteKey(country);
    CacheMissWalksAndWritesBack(country, store, script, encodeError);
  }

  /** What the whole walk is after the first reply. */
  lemma FullWalkStart(country: Option<string>, script: seq<UpstreamReply>)
    ensures var page := ReadPage(Reply(script, 0));
      && (page.Failure? ==> FullWalk(country, script) == Walk(Failure(page.error), [FirstRequest(country)]))
      && (page.Success? ==> FullWalk(country, script) == Prepend([page.value.0], [FirstRequest(country)], LoopWalk(country, page.value.1, script, 1)))
  {
    if |script| == 0 {
      assert ReadPage(Reply(script, 0)) == Failure(NoResponse);
    }
  }

  /** What the whole walk is once the loop has collected `results` with `issued` and reads the next reply. */
  lemma LoopWalkStep(country: Option<string>, script: seq<UpstreamReply>, results: seq<seq<Entry>>, issued: seq<ApiRequest>, cursor: Prisecter)
    requires FullWalk(country, script) == Prepend(results, issued, LoopWalk(country, cursor, script, |issued|))
    ensures var page := ReadPage(Reply(script, |issued|)); var sent := issued + [NextRequest(country, cursor)];
      && (page.Failure? ==> FullWalk(country, script) == Walk(Failure(page.error), sent))
      && (page.Success? && |page.value.0| != PageLimit ==> FullWalk(country, script) == Walk(Success(results + [page.value.0]), sent))
      && (page.Success? && |page.value.0| == PageLimit ==>
            FullWalk(country, script) == Prepend(results + [page.value.0], sent, LoopWalk(country, page.value.1, script, |issued| + 1)))
  {
    LoopWalkUnfold(country, cursor, script, |issued|);
    var page := ReadPage(Reply(script, |issued|));
    if page.Success? && |page.value.0| == PageLimit {
      PrependPrepend(results, issued, [page.value.0], [NextRequest(country, cursor)], LoopWalk(country, page.value.1, script, |issued| + 1));
    }
  }

  /**
   * The paging part of `get_full_leaderboard`: the first request, then the
   * `loop` of cursor requests until a page is not full. It sends the requests
   * `FullWalk` lists and returns the pages it collects.
   */
  method FetchPages(client: TetrioClient, country: Option<string>) returns (pages: Result<seq<seq<Entry>>, string>)
    modifies client`upstream, client`sent
    ensures var walk := FullWalk(country, old(client.upstream));
      && pages == walk.pages
      && client.sent == old(client.sent) + walk.requests
      && client.upstream == Drop(old(client.upstream), |walk.requests|)
  {
    ghost var script := client.upstream;
    ghost var sent0 := client.sent;
    var query := NotBound(Some(PageLimit), country);
    var reply := client.MakeRequest(ApiRequest(LeaguePath, query, Some(FirstSession)));
    DropStep(script, 0);
    assert reply == Reply(script, 0);
    FullWalkStart(country, script);
    var page := ReadPage(reply);
    if page.Failure? {
      return Failure(page.error);
    }
    var entries := page.value.0;
    ghost var cursor := page.value.1;
    var results := [entries];
    ghost var issued := [FirstRequest(country)];
    query := After(page.value.1, Some(PageLimit), country);

    while true
      invariant client.sent == sent0 + issued
      invariant client.upstream == Drop(script, |issued|)
      invariant query == After(cursor, Some(PageLimit), country)
      invariant FullWalk(country, script) == Prepend(results, issued, LoopWalk(country, cursor, script, |issued|))
      decreases |client.upstream|
    {
      var request := ApiRequest(LeaguePath, query, Some(LoopSession));
      DropStep(script, |issued|);
      reply := client.MakeRequest(request);
      assert reply == Reply(script, |issued|);
      LoopWalkStep(country, script, results, issued, cursor);
      page := ReadPage(reply);
      if page.Failure? {
        issued := issued + [request];
        return Failure(page.error);
      }
      entries := page.value.0;
      query := After(page.value.1, Some(PageLimit), country);
      results := results + [entries];
      issued := issued + [request];
      cursor := page.value.1;
      if |entries| != PageLimit {
        break;
      }
    }
    return Success(results);
  }

  /**
   * `get_full_leaderboard`. `encodeError` stands for the outcome of
   * `serde_json::to_value(&result)`.
   */
  method GetFullLeaderboard(client: TetrioClient, country: Option<string>, encodeError: Option<string>)
    returns (r: Result<Packet<seq<Entry>>, string>)
    modifies client
    ensures var run := FullLeaderboard(country, old(client.store), old(client.upstream), encodeError);
      && r == run.result
      && client.store == run.store
      && client.sent == old(client.sent) + run.requests
      && client.upstream == Drop(old(client.upstream), |run.requests|)
  {
    var cached := client.GetLeaderboardFromCache(ReadKey(country));
    if cached.Failure? {
      return Failure(cached.error);
    }
    if cached.value.Some? {
      return Success(cached.value.value);
    }
    var pages := FetchPages(client, country);
    if pages.Failure? {
      return Failure(pages.error);
    }
    var result := Packet(true, None, Some(Flatten(pages.value)), Some(CachedFor(CacheSeconds)));
    if encodeError.Some? {
      return Failure(encodeError.value);
    }
    var written := client.CacheIfNotPresent(WriteKey(), LeaderboardValue(result));
    if written.Failure? {
      return Failure(written.error);
    }
    return Success(result);
  }
}
