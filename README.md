# robots.txt downloader middleware, modelled in Dafny

Scrapy's `RobotsTxtMiddleware` decides, before a page is downloaded, whether
the site's robots.txt lets the spider's user agent fetch it. It keeps a
per-netloc cache of robots.txt parsers that fills asynchronously:

- The first request for a netloc stores a pending entry (`None` in the source).
- That first request also asks the engine for `<scheme>://<netloc>/robots.txt` at priority 1000.
- It charges the netloc to the spider that caused the fetch.
- When the download completes, the parser replaces the pending entry.
- While an entry is pending, every request proceeds.
- Once a parser is cached, a request is dropped (IgnoreRequest) when `can_fetch(agent, url)` is false.
- Opening a spider's session gives it an empty netloc set and a user agent.
- Closing a session, with the session key corrected (see Findings), deletes from the cache every netloc the spider owns.

The project has three files:

- `robotstxt_state.dfy`, module `RobotsTxtState`:
  - the middleware's state as a value `MwState` (the dictionaries `parsers`, `spiderNetlocs` and `useragents` plus the log of robots.txt requests handed to the engine);
  - one transition function per operation (`Touch`, `Process`, `Complete`, `Open`, `Close`);
  - the invariant `Inv`;
  - event traces (`Step`, `Run`);
  - the lemmas that state what the operations promise.
- `robotstxt_middleware.dfy`, module `Middleware`:
  - the class `RobotsTxtMiddleware`, whose methods update its dictionaries in place;
  - each method is proved to perform the matching transition of `RobotsTxtState` and to keep `Inv`;
  - `DomainClosed` keeps the source's loop that deletes one cache key at a time.
- `session_key.dfy`, module `SessionKey`: `domain_closed` as written, with its key mismatch (see Findings).

Abstractions:

- Spiders are objects (class `Spider`), so sessions are keyed by object identity, as Python dictionaries key them.
- A spider's `user_agent` attribute is an `Option<string>`.
- A parser is opaque: `Rules` carries only its `can_fetch(agent, url)` query, as an uninterpreted function.
- A request URL is its text plus its scheme and netloc.
- The engine download becomes an appended `Fetch(url, priority)` in the field `issued`.
- Its completion is the method `ParseRobots(netloc, rules)`, which the environment may call at any later point.
- Concurrent behaviour is explored as sequential interleavings of calls (`Event` sequences run by `Run`).
- A call the source would abort with KeyError yields `None` in `Step`.

With the session key corrected (see Findings), closing deletes every netloc the spider owns, whether or not another spider also used it.

Two behaviours of the code that the model keeps as written:

- There is no Failed state. No errback is attached to the download, so a failed fetch leaves the entry pending forever, which is permissive.
- A completion that arrives after the netloc was purged re-creates the entry, unowned. It is not dropped.

## Model

| member | source | states |
|---|---|---|
| `Middleware.RobotsTxtMiddleware.Create` | scrapy/contrib/downloadermiddleware/robotstxt.py:21-28 | Construction fails (NotConfigured) exactly when ROBOTSTXT_OBEY is off; otherwise the middleware starts with empty dictionaries and satisfies the invariant |
| `Middleware.RobotsTxtMiddleware.constructor` | scrapy/contrib/downloadermiddleware/robotstxt.py:25-27 | The three dictionaries start empty, nothing has been fetched, and the invariant holds |
| `Middleware.RobotsTxtMiddleware.ProcessRequest` | scrapy/contrib/downloadermiddleware/robotstxt.py:32-36 | For an open spider, the new state and verdict are those of `Process`: touch the netloc, then drop the request exactly when a cached parser denies the spider's agent; keeps the invariant |
| `Middleware.RobotsTxtMiddleware.RobotParser` | scrapy/contrib/downloadermiddleware/robotstxt.py:38-47 | Performs `Touch` and returns the netloc's entry: the stored one if the netloc was cached, otherwise Pending; keeps the invariant |
| `Middleware.RobotsTxtMiddleware.ParseRobots` | scrapy/contrib/downloadermiddleware/robotstxt.py:49-52 | Stores the parser under the netloc whatever was there (`Complete`); keeps the invariant |
| `Middleware.RobotsTxtMiddleware.DomainOpen` | scrapy/contrib/downloadermiddleware/robotstxt.py:54-57 | Performs `Open`: empty netloc set, agent from the spider or the default; keeps the invariant |
| `Middleware.RobotsTxtMiddleware.DomainClosed` | scrapy/contrib/downloadermiddleware/robotstxt.py:59-63 | Its deletion loop never meets a missing cache key; it ends in the state `Close` describes; keeps the invariant |
| `RobotsTxtState.EmptyInv` | scrapy/contrib/downloadermiddleware/robotstxt.py:25-27 | The empty initial state satisfies the invariant |
| `RobotsTxtState.FirstTouch` | scrapy/contrib/downloadermiddleware/robotstxt.py:38-46 | For an uncached netloc, one request does four things: the entry becomes Pending, exactly one fetch of `<scheme>://<netloc>/robots.txt` at priority 1000 is logged, the netloc joins the spider's set, and the request proceeds |
| `RobotsTxtState.NoRefetch` | scrapy/contrib/downloadermiddleware/robotstxt.py:40-47 | For a cached netloc, pending or parsed, the state is left entirely unchanged, so `RobotParser` returns the stored entry |
| `RobotsTxtState.DecisionRule` | scrapy/contrib/downloadermiddleware/robotstxt.py:32-36 | A request is dropped if and only if its netloc holds a parser whose `can_fetch(agent of the spider, url)` is false; the reason is "URL forbidden by robots.txt: " followed by the URL |
| `RobotsTxtState.PendingAllows` | scrapy/contrib/downloadermiddleware/robotstxt.py:34-35 | While the entry is pending the request proceeds, even when the rules that later arrive reject it |
| `RobotsTxtState.CompletionOverwrites` | scrapy/contrib/downloadermiddleware/robotstxt.py:49-52 | Completion sets the one entry to the parser, including a key never present or purged; every other entry, session and the fetch log are unchanged |
| `RobotsTxtState.SessionOpens` | scrapy/contrib/downloadermiddleware/robotstxt.py:54-57 | An opened spider has an empty netloc set and its own user agent when that is non-empty, else the default; the session key sets gain exactly that spider; the cache, the fetch log and every other spider's netloc set and agent are unchanged |
| `RobotsTxtState.CloseRemovesOwned` | scrapy/contrib/downloadermiddleware/robotstxt.py:59-63 | Close removes exactly the spider's netlocs from the cache and the spider's two session entries; every other cache entry, netloc set and agent keeps its value; the invariant is kept |
| `RobotsTxtState.PurgeThenRefetch` | scrapy/contrib/downloadermiddleware/robotstxt.py:40-61 | After a close, a purged netloc is not cached, and the next request for it from another open spider issues a fresh robots.txt fetch |
| `RobotsTxtState.LateCompletionRecreates` | scrapy/contrib/downloadermiddleware/robotstxt.py:49-52 | A completion after the purge re-creates the entry, owned by nobody; later requests for it fetch nothing and are decided by its rules |
| `RobotsTxtState.StepKeepsInv` | scrapy/contrib/downloadermiddleware/robotstxt.py:32-63 | Every operation keeps the invariant: sessions agree, owned netlocs are cached, ownership is disjoint. Under it, only a request or close for a spider that is not open raises KeyError |
| `RobotsTxtState.RunKeepsInv` | scrapy/contrib/downloadermiddleware/robotstxt.py:32-63 | Every interleaving of requests, completions, opens and closes that does not raise keeps the invariant |
| `RobotsTxtState.StepWithoutClose` | scrapy/contrib/downloadermiddleware/robotstxt.py:38-57 | A call other than a close never removes a cache key. It logs one fetch exactly when it is a request for an uncached netloc |
| `RobotsTxtState.KeysGrowWithoutClose` | scrapy/contrib/downloadermiddleware/robotstxt.py:38-57 | Over any interleaving without a close, cache keys are never lost and the fetch log only grows |
| `RobotsTxtState.FetchesBounded` | scrapy/contrib/downloadermiddleware/robotstxt.py:38-46 | Over any interleaving without a close, the robots.txt fetches issued number at most the distinct requested netlocs that were not already cached |
| `RobotsTxtState.NoSecondFetch` | scrapy/contrib/downloadermiddleware/robotstxt.py:40-47 | Once a netloc has been requested, any later request for it changes nothing (no fetch, no ownership), after any interleaving without a close |
| `RobotsTxtState.RobotsUrlDeterminesSite` | scrapy/contrib/downloadermiddleware/robotstxt.py:42 | For schemes without a colon, the robots.txt URL determines both scheme and netloc, so distinct sites never share a fetch |
| `RobotsTxtState.SessionWalkthrough` | scrapy/contrib/downloadermiddleware/robotstxt.py:32-63 | A worked session with agent "Bot": the first request to http://a.example/page proceeds and fetches http://a.example/robots.txt. After rules forbidding the page arrive, the same request is dropped with the URL in the reason and fetches nothing. The close purges the entry |
| `SessionKey.OpenAsWrittenKeyedBySpider` | scrapy/contrib/downloadermiddleware/robotstxt.py:54-57 | domain_open as written keys both session dictionaries by the spider object |
| `SessionKey.ClosedAsWrittenRaises` | scrapy/contrib/downloadermiddleware/robotstxt.py:59-63 | domain_closed as written raises KeyError on every state that domain_open can build, whatever the domain name |
| `SessionKey.OpenTouchCloseAsWritten` | scrapy/contrib/downloadermiddleware/robotstxt.py:54-63 | After open and one request, the close as written raises and leaves the entry cached, while the corrected close removes it |

## Findings

| source | as written | input that shows it | evidently intended | confidence | as-written member | corrected member |
|---|---|---|---|---|---|---|
| scrapy/contrib/downloadermiddleware/robotstxt.py:59-63 | `domain_closed` looks up the netloc set as `_spider_netlocs[domain]`, a domain-name string; `domain_open` stored it under the spider object | open any spider, request one page, then close it with its domain name: the lookup raises KeyError and the cache entry is never purged | look up the netloc set under the spider, as `domain_open` stores it and as line 63 already does for the agent | medium, not executed | `SessionKey.ClosedAsWrittenRaises` | `RobotsTxtState.CloseRemovesOwned` |

## Left out

- Signal wiring (`dispatcher.connect`): `DomainOpen` and `DomainClosed` are called directly.
- `scrapyengine.download` and the deferred callback are network I/O and asynchrony. They become the `issued` log plus the separately called `ParseRobots`.
- The robots.txt parser (`robotparser.RobotFileParser`) is a foreign library. It is the opaque `Rules` with an uninterpreted `canFetch`.
- `urlparse_cached` and URL parsing are not modelled. The scheme, netloc and full URL are given as strings.
- The completion's netloc is taken from the response URL. If a redirect moves it, the model lets `ParseRobots` receive any netloc; the original entry then stays pending.
- Settings lookups are parameters: ROBOTSTXT_OBEY is the argument of `Create`; USER_AGENT is the `defaultAgent` argument of `DomainOpen`.
- The `_pending` dictionary is created and never used, so it is not modelled.
- Python truthiness of `user_agent` is modelled for strings only: absent or empty means "use the default".
- A request for a spider whose session is not open raises KeyError in the source. `ProcessRequest`, `RobotParser` and `DomainClosed` require an open session; in traces `Step` yields `None`.
- The source's `robot_parser` mutates the cache before that KeyError. This partial mutation is not modelled.
- Thread-level concurrency is not modelled: Twisted runs the callbacks on one thread. Interleavings of whole calls are modelled instead.
- `SessionKey.ClosedAsWritten` yields `None` for a KeyError at any of the lookups in `domain_closed`. It does not keep the cache deletions made before a KeyError at line 61 or 63; no state built by `domain_open` reaches them, since line 60 raises first.
