/**
 * The robots.txt downloader middleware as an object whose methods update its
 * dictionaries in place. Each method is proved to perform the transition of
 * the same name in module RobotsTxtState and to keep its invariant.
 *
 * The engine download and its deferred callback become two separate steps:
 * a robots.txt request is appended to `issued`, and the environment may call
 * `ParseRobots` for any netloc at any later point.
 */
module Middleware {
  import opened RobotsTxtState

  class RobotsTxtMiddleware {
    /** netloc -> Pending (the source's None) or a parser */
    var parsers: map<string, Entry>
    /** open spider -> the netlocs whose robots.txt it caused to be fetched */
    var spiderNetlocs: map<Spider, set<string>>
    /** open spider -> the agent its rules are evaluated for */
    var useragents: map<Spider, string>
    /** the robots.txt requests handed to the engine, oldest first */
    var issued: seq<Fetch>

    ghost function State(): MwState
      reads this
    {
      MwState(parsers, spiderNetlocs, useragents, issued)
    }

    ghost predicate Valid()
      reads this
    {
      Inv(State())
    }

    constructor ()
      ensures Valid() && State() == Empty
    {
      parsers, spiderNetlocs, useragents, issued := map[], map[], map[], [];
    }

    /**
     * Building the middleware: with the ROBOTSTXT_OBEY setting off it refuses
     * to exist (NotConfigured, here None); otherwise it starts empty.
     */
    static method Create(obey: bool) returns (m: Option<RobotsTxtMiddleware>)
      ensures m.None? <==> !obey
      ensures m.Some? ==> fresh(m.value) && m.value.Valid() && m.value.State() == Empty
    {
      if !obey {
        return None;
      }
      var mw := new RobotsTxtMiddleware();
      m := Some(mw);
    }

    /**
     * process_request: the request proceeds, or is dropped with the reason.
     * The spider's session must be open (otherwise the source raises KeyError).
     */
    method ProcessRequest(url: Url, spider: Spider) returns (v: Verdict)
      requires Valid() && spider in spiderNetlocs
      modifies this
      ensures Valid()
      ensures (State(), v) == Process(old(State()), url, spider)
    {
      var useragent := useragents[spider];
      var rp := RobotParser(url, spider);
      if rp.Parsed? && !rp.rules.canFetch(useragent, url.text) {
        v := IgnoreRequest(FORBIDDEN_PREFIX + url.text);
      } else {
        v := Proceed;
      }
    }

    /**
     * robot_parser: the cache entry for the URL's netloc; on first touch the
     * entry is made pending, robots.txt is requested and the spider is charged.
     */
    method RobotParser(url: Url, spider: Spider) returns (e: Entry)
      requires Valid() && spider in spiderNetlocs
      modifies this
      ensures Valid()
      ensures State() == Touch(old(State()), url, spider)
      ensures url.netloc in parsers && e == parsers[url.netloc]
      ensures url.netloc in old(parsers) ==> e == old(parsers[url.netloc])
      ensures url.netloc !in old(parsers) ==> e == Pending
    {
      var netloc := url.netloc;
      if netloc !in parsers {
        StepKeepsInv(State(), Request(url, spider));
        parsers := parsers[netloc := Pending];
        var robotsUrl := url.scheme + "://" + netloc + "/robots.txt";
        issued := issued + [Fetch(robotsUrl, DOWNLOAD_PRIORITY)];
        spiderNetlocs := spiderNetlocs[spider := spiderNetlocs[spider] + {netloc}];
      }
      e := parsers[netloc];
    }

    /** _parse_robots: the fetch for some netloc completed; its parser replaces whatever is cached. */
    method ParseRobots(netloc: string, rules: Rules)
      requires Valid()
      modifies this
      ensures Valid()
      ensures State() == Complete(old(State()), netloc, rules)
    {
      StepKeepsInv(State(), Completion(netloc, rules));
      parsers := parsers[netloc := Parsed(rules)];
    }

    /** domain_open: a fresh session with no netlocs; `defaultAgent` is the USER_AGENT setting. */
    method DomainOpen(spider: Spider, defaultAgent: string)
      requires Valid()
      modifies this
      ensures Valid()
      ensures State() == Open(old(State()), spider, defaultAgent)
    {
      StepKeepsInv(State(), SessionOpen(spider, defaultAgent));
      spiderNetlocs := spiderNetlocs[spider := {}];
      var agent := defaultAgent;
      if spider.userAgent.Some? && spider.userAgent.value != "" {
        agent := spider.userAgent.value;
      }
      useragents := useragents[spider := agent];
    }

    /**
     * domain_closed: delete every netloc the spider owns from the cache, one
     * at a time, then the spider's session entries. The source looks up the
     * netloc set by the domain name but the agent by the spider; both are
     * keyed by the spider here (see session_key.dfy). Under the invariant no
     * deletion meets a missing key.
     */
    method DomainClosed(spider: Spider)
      requires Valid() && spider in spiderNetlocs
      modifies this
      ensures Valid()
      ensures State() == Close(old(State()), spider)
    {
      ghost var before := State();
      StepKeepsInv(before, SessionClose(spider));
      var todo := spiderNetlocs[spider];
      while todo != {}
        invariant todo <= before.spiderNetlocs[spider]
        invariant todo <= parsers.Keys
        invariant parsers == before.parsers - (before.spiderNetlocs[spider] - todo)
        invariant spiderNetlocs == before.spiderNetlocs && useragents == before.useragents && issued == before.issued
        decreases todo
      {
        var netloc :| netloc in todo;
        assert netloc in parsers;
        parsers := parsers - {netloc};
        todo := todo - {netloc};
      }
      spiderNetlocs := spiderNetlocs - {spider};
      useragents := useragents - {spider};
    }
  }
}
