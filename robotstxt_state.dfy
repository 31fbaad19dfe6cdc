/**
 * The state of the robots.txt downloader middleware, as values.
 *
 * The middleware keeps three dictionaries: the per-netloc parser cache
 * (`_parsers`), the netlocs whose robots.txt fetch each open spider caused
 * (`_spider_netlocs`) and the user agent of each open spider (`_useragents`).
 * Here they are the fields of `MwState`, together with the log of robots.txt
 * requests handed to the engine. Each public operation of the middleware is a
 * transition function on `MwState`; the class in module Middleware is proved to
 * perform exactly these transitions, and the lemmas below state what the
 * transitions promise.
 */
module RobotsTxtState {

  /** Scheduling priority of every robots.txt request, above ordinary page requests. */
  const DOWNLOAD_PRIORITY: int := 1000

  /** Reason given with a request that robots.txt forbids, followed by the URL. */
  const FORBIDDEN_PREFIX: string := "URL forbidden by robots.txt: "

  datatype Option<+T> = None | Some(value: T)

  /** A request URL: its full text, and the scheme and netloc parsed out of it. */
  datatype Url = Url(text: string, scheme: string, netloc: string)

  /**
   * A parsed robots.txt document. The parser is an outside library; all the
   * middleware uses of it is its `can_fetch(useragent, url)` query.
   */
  datatype Rules = Rules(canFetch: (string, string) -> bool)

  /**
   * A cache entry: `Pending` is the `None` stored while the robots.txt fetch
   * is in flight (and forever if it fails); `Parsed` holds the parser.
   * A netloc that is not a key of the cache has never been requested, or was purged.
   */
  datatype Entry = Pending | Parsed(rules: Rules)

  /** A robots.txt request handed to the engine: its URL and its priority. */
  datatype Fetch = Fetch(url: string, priority: int)

  /** Outcome of process_request: let the request through, or drop it (IgnoreRequest). */
  datatype Verdict = Proceed | IgnoreRequest(reason: string)

  /** A spider. Sessions are keyed by spider object identity, as Python dictionaries key them. */
  class Spider {
    /** The spider's `user_agent` attribute, None when it has none. */
    const userAgent: Option<string>

    constructor (userAgent: Option<string>)
      ensures this.userAgent == userAgent
    {
      this.userAgent := userAgent;
    }
  }

  datatype MwState = MwState(
    parsers: map<string, Entry>,
    spiderNetlocs: map<Spider, set<string>>,
    useragents: map<Spider, string>,
    issued: seq<Fetch>)

  /** The state right after construction: every dictionary empty, nothing fetched. */
  const Empty: MwState := MwState(map[], map[], map[], [])

  /**
   * The invariant the operations keep: the open spiders are the same in both
   * session dictionaries, every netloc a spider owns is a key of the cache,
   * and no netloc is owned by two spiders.
   */
  ghost predicate Inv(c: MwState) {
    && c.spiderNetlocs.Keys == c.useragents.Keys
    && (forall s, n :: s in c.spiderNetlocs && n in c.spiderNetlocs[s] ==> n in c.parsers)
    && (forall s, t :: s in c.spiderNetlocs && t in c.spiderNetlocs && s != t ==> c.spiderNetlocs[s] !! c.spiderNetlocs[t])
  }

  /** The URL of a site's robots.txt. */
  function RobotsUrl(scheme: string, netloc: string): string {
    scheme + "://" + netloc + "/robots.txt"
  }

  /** The agent a spider's rules are evaluated for: its own user agent if non-empty, else the default. */
  function AgentFor(spider: Spider, defaultAgent: string): string {
    if spider.userAgent.Some? && spider.userAgent.value != "" then spider.userAgent.value else defaultAgent
  }

  /** robot_parser: the first touch of a netloc makes it pending, fetches its robots.txt and charges it to the spider. */
  function Touch(c: MwState, url: Url, spider: Spider): MwState
    requires spider in c.spiderNetlocs
  {
    if url.netloc in c.parsers then c
    else c.(parsers := c.parsers[url.netloc := Pending],
            spiderNetlocs := c.spiderNetlocs[spider := c.spiderNetlocs[spider] + {url.netloc}],
            issued := c.issued + [Fetch(RobotsUrl(url.scheme, url.netloc), DOWNLOAD_PRIORITY)])
  }

  /** The decision rule of process_request for the entry robot_parser returned. */
  function Decide(e: Entry, agent: string, url: string): Verdict {
    if e.Parsed? && !e.rules.canFetch(agent, url) then IgnoreRequest(FORBIDDEN_PREFIX + url) else Proceed
  }

  /** process_request: touch the netloc, then decide with the spider's agent. */
  function Process(c: MwState, url: Url, spider: Spider): (MwState, Verdict)
    requires spider in c.spiderNetlocs && spider in c.useragents
  {
    var next := Touch(c, url, spider);
    (next, Decide(next.parsers[url.netloc], c.useragents[spider], url.text))
  }

  /** _parse_robots: store the parser under the response's netloc, unconditionally. */
  function Complete(c: MwState, netloc: string, rules: Rules): MwState {
    c.(parsers := c.parsers[netloc := Parsed(rules)])
  }

  /** domain_open: the spider starts with no netlocs and its agent. */
  function Open(c: MwState, spider: Spider, defaultAgent: string): MwState {
    c.(spiderNetlocs := c.spiderNetlocs[spider := {}], useragents := c.useragents[spider := AgentFor(spider, defaultAgent)])
  }

  /** domain_closed (keyed by spider throughout): purge the spider's netlocs, then its session entries. */
  function Close(c: MwState, spider: Spider): MwState
    requires spider in c.spiderNetlocs
  {
    c.(parsers := c.parsers - c.spiderNetlocs[spider], spiderNetlocs := c.spiderNetlocs - {spider}, useragents := c.useragents - {spider})
  }

  /** One call from the outside: a request, a fetch completion, a session opening or closing. */
  datatype Event =
    | Request(url: Url, spider: Spider)
    | Completion(netloc: string, rules: Rules)
    | SessionOpen(spider: Spider, defaultAgent: string)
    | SessionClose(spider: Spider)

  /** Whether the call gets past the source's dictionary lookups without a KeyError. */
  predicate Enabled(c: MwState, e: Event) {
    match e
    case Request(_, s) => s in c.spiderNetlocs && s in c.useragents
    case SessionClose(s) => s in c.spiderNetlocs && s in c.useragents && c.spiderNetlocs[s] <= c.parsers.Keys
    case _ => true
  }

  /** The state after one call, or None when the call raises KeyError. */
  function Step(c: MwState, e: Event): Option<MwState> {
    if !Enabled(c, e) then None
    else match e
      case Request(url, s) => Some(Process(c, url, s).0)
      case Completion(n, r) => Some(Complete(c, n, r))
      case SessionOpen(s, d) => Some(Open(c, s, d))
      case SessionClose(s) => Some(Close(c, s))
  }

  /** The state after a sequence of calls, or None when one of them raises. */
  function Run(c: MwState, evs: seq<Event>): Option<MwState>
    decreases |evs|
  {
    if evs == [] then Some(c)
    else match Step(c, evs[0])
      case None => None
      case Some(next) => Run(next, evs[1..])
  }

  predicate NoClose(evs: seq<Event>) {
    forall i :: 0 <= i < |evs| ==> !evs[i].SessionClose?
  }

  /** The netlocs of the requests among the calls. */
  function RequestedNetlocs(evs: seq<Event>): set<string>
    decreases |evs|
  {
    if evs == [] then {}
    else (if evs[0].Request? then {evs[0].url.netloc} else {}) + RequestedNetlocs(evs[1..])
  }

  // ---------------------------------------------------------------------
  // One call at a time

  lemma EmptyInv()
    ensures Inv(Empty)
  {
  }

  /**
   * First touch: for a netloc not in the cache the entry becomes pending,
   * exactly one robots.txt request is issued, at DOWNLOAD_PRIORITY, the
   * netloc is charged to the calling spider, and the request proceeds.
   */
  lemma FirstTouch(c: MwState, url: Url, spider: Spider)
    requires spider in c.spiderNetlocs && spider in c.useragents
    requires url.netloc !in c.parsers
    ensures var (next, v) := Process(c, url, spider);
      && next.parsers == c.parsers[url.netloc := Pending]
      && next.issued == c.issued + [Fetch(url.scheme + "://" + url.netloc + "/robots.txt", 1000)]
      && next.spiderNetlocs == c.spiderNetlocs[spider := c.spiderNetlocs[spider] + {url.netloc}]
      && next.useragents == c.useragents
      && v == Proceed
  {
  }

  /** No re-fetch: a netloc already cached, pending or parsed, changes nothing (so robot_parser returns the stored entry). */
  lemma NoRefetch(c: MwState, url: Url, spider: Spider)
    requires spider in c.spiderNetlocs
    requires url.netloc in c.parsers
    ensures Touch(c, url, spider) == c
  {
  }

  /**
   * The decision rule: a request is dropped exactly when its netloc's entry
   * is a parser that denies the spider's agent this URL, and the reason names
   * the URL. An absent or pending entry always lets the request through.
   */
  lemma DecisionRule(c: MwState, url: Url, spider: Spider)
    requires spider in c.spiderNetlocs && spider in c.useragents
    ensures var v := Process(c, url, spider).1;
      && (v.IgnoreRequest? <==>
            url.netloc in c.parsers && c.parsers[url.netloc].Parsed?
            && !c.parsers[url.netloc].rules.canFetch(c.useragents[spider], url.text))
      && (v.IgnoreRequest? ==> v.reason == "URL forbidden by robots.txt: " + url.text)
  {
  }

  /** Pending allows: while the entry is pending, no rules, whatever they say, can reject the request. */
  lemma PendingAllows(c: MwState, url: Url, spider: Spider, later: Rules)
    requires spider in c.spiderNetlocs && spider in c.useragents
    requires url.netloc in c.parsers && c.parsers[url.netloc] == Pending
    requires !later.canFetch(c.useragents[spider], url.text)
    ensures Process(c, url, spider).1 == Proceed
    ensures Process(Complete(c, url.netloc, later), url, spider).1.IgnoreRequest?
  {
  }

  /** Completion overwrites only the one entry, also when the netloc was never there or was purged. */
  lemma CompletionOverwrites(c: MwState, netloc: string, rules: Rules)
    ensures var next := Complete(c, netloc, rules);
      && next.parsers.Keys == c.parsers.Keys + {netloc}
      && next.parsers[netloc] == Parsed(rules)
      && (forall n :: n in c.parsers && n != netloc ==> next.parsers[n] == c.parsers[n])
      && next.spiderNetlocs == c.spiderNetlocs && next.useragents == c.useragents && next.issued == c.issued
  {
  }

  /** Session open: an empty netloc set, and the spider's own agent when it is non-empty, else the default. */
  lemma SessionOpens(c: MwState, spider: Spider, defaultAgent: string)
    ensures var next := Open(c, spider, defaultAgent);
      && next.spiderNetlocs[spider] == {}
      && (spider.userAgent.Some? && spider.userAgent.value != "" ==> next.useragents[spider] == spider.userAgent.value)
      && (spider.userAgent.None? || spider.userAgent.value == "" ==> next.useragents[spider] == defaultAgent)
      && next.parsers == c.parsers && next.issued == c.issued
      && next.spiderNetlocs.Keys == c.spiderNetlocs.Keys + {spider}
      && next.useragents.Keys == c.useragents.Keys + {spider}
      && (forall s :: s in c.spiderNetlocs && s != spider ==> next.spiderNetlocs[s] == c.spiderNetlocs[s])
      && (forall s :: s in c.useragents && s != spider ==> next.useragents[s] == c.useragents[s])
  {
  }

  /**
   * Session close: the cache loses exactly the netlocs the spider owned, the
   * spider's session entries go, and every other entry and session stays.
   */
  lemma CloseRemovesOwned(c: MwState, spider: Spider)
    requires Inv(c) && spider in c.spiderNetlocs
    ensures var next := Close(c, spider);
      && next.parsers.Keys == c.parsers.Keys - c.spiderNetlocs[spider]
      && (forall n :: n in next.parsers ==> next.parsers[n] == c.parsers[n])
      && next.spiderNetlocs.Keys == c.spiderNetlocs.Keys - {spider}
      && (forall s :: s in next.spiderNetlocs ==> next.spiderNetlocs[s] == c.spiderNetlocs[s])
      && next.useragents.Keys == c.useragents.Keys - {spider}
      && (forall s :: s in next.useragents ==> next.useragents[s] == c.useragents[s])
      && next.issued == c.issued
      && Inv(next)
  {
  }

  /** After a close, a request for a purged netloc from another open spider fetches robots.txt afresh. */
  lemma PurgeThenRefetch(c: MwState, spider: Spider, url: Url, other: Spider)
    requires Inv(c) && spider in c.spiderNetlocs
    requires url.netloc in c.spiderNetlocs[spider]
    requires other in c.spiderNetlocs && other != spider
    ensures var purged := Close(c, spider);
      && url.netloc !in purged.parsers
      && Touch(purged, url, other).issued
         == purged.issued + [Fetch(RobotsUrl(url.scheme, url.netloc), DOWNLOAD_PRIORITY)]
  {
  }

  /**
   * A completion that arrives after the close re-creates the entry, unowned,
   * and from then on the rules decide for that netloc without a new fetch.
   */
  lemma LateCompletionRecreates(c: MwState, spider: Spider, url: Url, rules: Rules, other: Spider)
    requires Inv(c) && spider in c.spiderNetlocs
    requires url.netloc in c.spiderNetlocs[spider]
    requires other in c.spiderNetlocs && other != spider
    ensures var late := Complete(Close(c, spider), url.netloc, rules);
      && late.parsers[url.netloc] == Parsed(rules)
      && (forall s :: s in late.spiderNetlocs ==> url.netloc !in late.spiderNetlocs[s])
      && Process(late, url, other).0 == late
      && (Process(late, url, other).1 == Proceed <==> rules.canFetch(c.useragents[other], url.text))
  {
  }

  /** Every call keeps the invariant, and under it only a call for a spider that is not open raises. */
  lemma StepKeepsInv(c: MwState, e: Event)
    requires Inv(c)
    ensures Step(c, e).None? <==> (e.Request? || e.SessionClose?) && e.spider !in c.spiderNetlocs
    ensures Step(c, e).Some? ==> Inv(Step(c, e).value)
  {
  }

  // ---------------------------------------------------------------------
  // Sequences of calls

  /** Every interleaving of calls that does not raise keeps the invariant. */
  lemma {:induction false} RunKeepsInv(c: MwState, evs: seq<Event>)
    requires Inv(c)
    requires Run(c, evs).Some?
    ensures Inv(Run(c, evs).value)
    decreases |evs|
  {
    if evs != [] {
      StepKeepsInv(c, evs[0]);
      RunKeepsInv(Step(c, evs[0]).value, evs[1..]);
    }
  }

  lemma NoCloseTail(evs: seq<Event>)
    requires evs != [] && NoClose(evs)
    ensures !evs[0].SessionClose? && NoClose(evs[1..])
  {
    forall i | 0 <= i < |evs[1..]| ensures !evs[1..][i].SessionClose? {
      assert evs[1..][i] == evs[i + 1];
    }
  }

  /** Without a close, no cache key is ever lost and the request log only grows. */
  lemma {:induction false} KeysGrowWithoutClose(c: MwState, evs: seq<Event>)
    requires NoClose(evs) && Run(c, evs).Some?
    ensures c.parsers.Keys <= Run(c, evs).value.parsers.Keys
    ensures c.issued <= Run(c, evs).value.issued
    decreases |evs|
  {
    if evs != [] {
      var next := Step(c, evs[0]).value;
      NoCloseTail(evs);
      KeysGrowWithoutClose(next, evs[1..]);
    }
  }

  /** One call other than a close: the cache keys only grow, and the log grows by one fetch exactly for a request to an uncached netloc. */
  lemma StepWithoutClose(c: MwState, e: Event)
    requires !e.SessionClose? && Step(c, e).Some?
    ensures c.parsers.Keys <= Step(c, e).value.parsers.Keys
    ensures e.Request? ==> e.url.netloc in Step(c, e).value.parsers
    ensures Step(c, e).value.issued
            == c.issued + (if e.Request? && e.url.netloc !in c.parsers
                           then [Fetch(RobotsUrl(e.url.scheme, e.url.netloc), DOWNLOAD_PRIORITY)] else [])
  {
  }

  lemma {:induction false} SubsetCard(a: set<string>, b: set<string>)
    requires a <= b
    ensures |a| <= |b|
    decreases |a|
  {
    if a != {} {
      var x :| x in a;
      SubsetCard(a - {x}, b - {x});
    }
  }

  /**
   * At most one fetch per netloc: without a close, the robots.txt requests
   * issued are no more than the distinct requested netlocs that were not
   * already cached.
   */
  lemma {:induction false} FetchesBounded(c: MwState, evs: seq<Event>)
    requires NoClose(evs) && Run(c, evs).Some?
    ensures c.issued <= Run(c, evs).value.issued
    ensures |Run(c, evs).value.issued| <= |c.issued| + |RequestedNetlocs(evs) - c.parsers.Keys|
    decreases |evs|
  {
    if evs != [] {
      var e := evs[0];
      StepWithoutClose(c, e);
      var next := Step(c, e).value;
      NoCloseTail(evs);
      assert Run(c, evs) == Run(next, evs[1..]);
      FetchesBounded(next, evs[1..]);
      var rest := RequestedNetlocs(evs[1..]);
      var uncached := RequestedNetlocs(evs) - c.parsers.Keys;
      assert RequestedNetlocs(evs) == (if e.Request? then {e.url.netloc} else {}) + rest;
      if e.Request? && e.url.netloc !in c.parsers {
        var n := e.url.netloc;
        SubsetCard(rest - next.parsers.Keys, uncached - {n});
        assert |uncached - {n}| == |uncached| - 1;
      } else {
        SubsetCard(rest - next.parsers.Keys, uncached);
      }
    }
  }

  /**
   * No second fetch: once a netloc has been requested, any later request for
   * it, after any interleaving of calls without a close, changes nothing.
   */
  lemma NoSecondFetch(c: MwState, url: Url, spider: Spider, evs: seq<Event>, d: MwState, url2: Url, spider2: Spider)
    requires spider in c.spiderNetlocs && spider in c.useragents
    requires NoClose(evs) && Run(Process(c, url, spider).0, evs) == Some(d)
    requires url2.netloc == url.netloc && spider2 in d.spiderNetlocs && spider2 in d.useragents
    ensures Process(d, url2, spider2).0 == d
  {
    KeysGrowWithoutClose(Process(c, url, spider).0, evs);
  }

  /** The text of a URL up to its first colon. */
  function UpToColon(u: string): string
    decreases |u|
  {
    if u == [] || u[0] == ':' then [] else [u[0]] + UpToColon(u[1..])
  }

  lemma {:induction false} UpToColonOf(s: string, rest: string)
    requires ':' !in s
    ensures UpToColon(s + ":" + rest) == s
    decreases |s|
  {
    if s != [] {
      assert (s + ":" + rest)[1..] == s[1..] + ":" + rest;
      UpToColonOf(s[1..], rest);
    }
  }

  /**
   * The robots.txt URL names its site: distinct (scheme, netloc) pairs never
   * share a request. The fetch log records URLs only; with this lemma each
   * logged fetch belongs to exactly one site, so the per-netloc bounds of
   * FetchesBounded and NoSecondFetch are bounds per robots.txt URL too.
   */
  lemma RobotsUrlDeterminesSite(s1: string, n1: string, s2: string, n2: string)
    requires ':' !in s1 && ':' !in s2
    requires RobotsUrl(s1, n1) == RobotsUrl(s2, n2)
    ensures s1 == s2 && n1 == n2
  {
    var u := RobotsUrl(s1, n1);
    assert u == s1 + ":" + ("//" + n1 + "/robots.txt");
    assert u == s2 + ":" + ("//" + n2 + "/robots.txt");
    UpToColonOf(s1, "//" + n1 + "/robots.txt");
    UpToColonOf(s2, "//" + n2 + "/robots.txt");
    assert n1 == u[|s1| + 3 .. |u| - 11] == n2;
  }

  /** The two texts of the walk-through, spelt out. */
  lemma WalkthroughText()
    ensures RobotsUrl("http", "a.example") == "http://a.example/robots.txt"
    ensures FORBIDDEN_PREFIX + "http://a.example/page" == "URL forbidden by robots.txt: http://a.example/page"
  {
  }

  /**
   * The walk-through of a session: the first request to a new site proceeds
   * and fetches robots.txt; once the rules arrive and forbid the page, the
   * same request is dropped with a reason naming the URL; the close purges
   * the entry.
   */
  lemma SessionWalkthrough(bot: Spider, defaultAgent: string, rules: Rules)
    requires bot.userAgent == Some("Bot")
    requires !rules.canFetch("Bot", "http://a.example/page")
    ensures
      var page := Url("http://a.example/page", "http", "a.example");
      var session := Open(Empty, bot, defaultAgent);
      var first := Process(session, page, bot);
      var ready := Complete(first.0, "a.example", rules);
      var second := Process(ready, page, bot);
      && first.1 == Proceed
      && first.0.parsers["a.example"] == Pending
      && first.0.issued == [Fetch("http://a.example/robots.txt", 1000)]
      && second.1 == IgnoreRequest("URL forbidden by robots.txt: http://a.example/page")
      && second.0.issued == first.0.issued
      && "a.example" !in Close(second.0, bot).parsers
  {
    var page := Url("http://a.example/page", "http", "a.example");
    var session := Open(Empty, bot, defaultAgent);
    WalkthroughText();
    FirstTouch(session, page, bot);
    var first := Process(session, page, bot);
    var ready := Complete(first.0, "a.example", rules);
    NoRefetch(ready, page, bot);
    DecisionRule(ready, page, bot);
  }
}
