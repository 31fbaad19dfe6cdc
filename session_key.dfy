/**
 * domain_closed as the source writes it.
 *
 * domain_open stores a spider's netloc set and agent under the spider object,
 * but domain_closed looks the netloc set up under the domain name it is
 * handed, and the agent under the spider. A domain name is a string and never
 * equal to a spider object, so the lookup of the netloc set fails with
 * KeyError and nothing is purged. The rest of the model keys both session
 * dictionaries by the spider (RobotsTxtState.Close, Middleware.DomainClosed).
 */
module SessionKey {
  import opened RobotsTxtState

  /** A key of the session dictionaries as the source uses them: a spider object or a domain name. */
  datatype Key = SpiderKey(spider: Spider) | DomainKey(domain: string)

  /** The two session dictionaries with keys of either kind. */
  datatype Sessions = Sessions(spiderNetlocs: map<Key, set<string>>, useragents: map<Key, string>)

  /** Every session key is a spider, as domain_open makes them. */
  ghost predicate KeyedBySpider(st: Sessions) {
    && (forall k :: k in st.spiderNetlocs ==> k.SpiderKey?)
    && (forall k :: k in st.useragents ==> k.SpiderKey?)
  }

  /** domain_open as written: both dictionaries keyed by the spider. */
  function OpenAsWritten(st: Sessions, spider: Spider, defaultAgent: string): Sessions {
    Sessions(st.spiderNetlocs[SpiderKey(spider) := {}], st.useragents[SpiderKey(spider) := AgentFor(spider, defaultAgent)])
  }

  /**
   * domain_closed as written: the netloc set under the domain name, the agent
   * under the spider. None is a KeyError at one of the three lookups.
   */
  function ClosedAsWritten(parsers: map<string, Entry>, st: Sessions, domain: string, spider: Spider)
    : Option<(map<string, Entry>, Sessions)>
  {
    if DomainKey(domain) !in st.spiderNetlocs then None
    else if !(st.spiderNetlocs[DomainKey(domain)] <= parsers.Keys) then None
    else if SpiderKey(spider) !in st.useragents then None
    else Some((parsers - st.spiderNetlocs[DomainKey(domain)],
               Sessions(st.spiderNetlocs - {DomainKey(domain)}, st.useragents - {SpiderKey(spider)})))
  }

  lemma OpenAsWrittenKeyedBySpider(st: Sessions, spider: Spider, defaultAgent: string)
    requires KeyedBySpider(st)
    ensures KeyedBySpider(OpenAsWritten(st, spider, defaultAgent))
    ensures SpiderKey(spider) in OpenAsWritten(st, spider, defaultAgent).spiderNetlocs
  {
  }

  /** As written, closing raises on every state domain_open can build, whatever the domain. */
  lemma ClosedAsWrittenRaises(parsers: map<string, Entry>, st: Sessions, domain: string, spider: Spider)
    requires KeyedBySpider(st)
    ensures ClosedAsWritten(parsers, st, domain, spider) == None
  {
  }

  /**
   * The concrete case: a spider opens a session and requests a page of a new
   * site; the session dictionaries then hold that netloc under the spider.
   * Closing as written raises, so the cache entry is never purged, while the
   * corrected close removes it.
   */
  lemma OpenTouchCloseAsWritten(spider: Spider, defaultAgent: string, url: Url, domain: string)
    ensures
      var c := Process(Open(Empty, spider, defaultAgent), url, spider).0;
      var st := Sessions(map[SpiderKey(spider) := c.spiderNetlocs[spider]], map[SpiderKey(spider) := c.useragents[spider]]);
      && ClosedAsWritten(c.parsers, st, domain, spider) == None
      && url.netloc in c.parsers
      && url.netloc !in Close(c, spider).parsers
  {
  }
}
