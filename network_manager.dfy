/**
 * `NetworkManager.fetchImage`: a cache of decoded images keyed by the URL
 * string, in front of one or two network attempts whose shape depends on
 * substrings of that URL string.
 *
 * The network is an oracle (`Env`): whether a string parses as a URL, what
 * an attempt brings back (an error or some bytes), and whether bytes decode
 * as an image. A request is an `Attempt`: the URL string, the header fields
 * set on it, and whether its session carries the trust-overriding delegate.
 */
module Networking {
  import opened Wrappers
  import opened Strings
  import opened Trust

  type Bytes = seq<bv8>

  /** A decoded image, identified by the bytes it was decoded from. */
  datatype Image = Image(data: Bytes)

  datatype Attempt = Attempt(url: string, headers: map<string, string>, sslDelegate: bool)

  /** What `session.data(for:)` does: throw, or return a body (of any status). */
  datatype Response = Throw | Data(bytes: Bytes)

  /**
   * The world outside the model: `URL(string:)`, the network, `UIImage(data:)`,
   * and the order in which the cookie dictionary is enumerated.
   */
  datatype Env = Env(
    parses: string -> bool,
    respond: Attempt -> Response,
    decodes: Bytes -> bool,
    cookieEntries: seq<(string, string)>)

  /** One call's outcome: the image returned, the requests sent, the cache afterwards. */
  datatype FetchResult = FetchResult(image: Option<Image>, attempts: seq<Attempt>, cache: map<string, Image>)

  const HtMarker: string := "hindustantimes.com"
  const ToiMarker: string := "static.toiimg.com"
  const DesktopUserAgent: string :=
    "Mozilla/5.0 (Windows NT 10.0; Win64; x64) AppleWebKit/537.36 (KHTML, like Gecko) Chrome/120.0.0.0 Safari/537.36"
  const ShortUserAgent: string := "Mozilla/5.0"
  const HtAccept: string := "text/html,application/xhtml+xml,application/xml;q=0.9,image/webp,*/*;q=0.8"
  const GeoCookie: (string, string) := ("Meta-Geo", "IN--DL--NEWDELHI")
  const LocationCookie: (string, string) := ("ht-location", "IN")
  const HtCookies: map<string, string> := map[GeoCookie.0 := GeoCookie.1, LocationCookie.0 := LocationCookie.1]
  const Http: string := "http://"
  const Https: string := "https://"

  // ---------------------------------------------------------------- cookies

  /** `entries` lists every entry of `dict` exactly once, in some order. */
  predicate Enumerates(entries: seq<(string, string)>, dict: map<string, string>) {
    && |entries| == |dict|
    && (forall i | 0 <= i < |entries| :: entries[i].0 in dict && dict[entries[i].0] == entries[i].1)
    && (forall k | k in dict :: exists i | 0 <= i < |entries| :: entries[i].0 == k)
  }

  /** One cookie as `name=value`. */
  function CookiePair(entry: (string, string)): string {
    entry.0 + "=" + entry.1
  }

  /** The `name=value` pairs, in enumeration order. */
  function CookiePairs(entries: seq<(string, string)>): seq<string>
    decreases |entries|
  {
    if |entries| == 0 then [] else [CookiePair(entries[0])] + CookiePairs(entries[1..])
  }

  /** The value of the `Cookie` header: the pairs joined by "; ". */
  function CookieString(entries: seq<(string, string)>): (r: string)
    ensures |entries| >= 1 ==> StartsWith(r, CookiePair(entries[0]))
  {
    Join(CookiePairs(entries), "; ")
  }

  /** The cookie string of two entries. */
  lemma CookieStringOfTwo(a: (string, string), b: (string, string))
    ensures CookieString([a, b]) == CookiePair(a) + "; " + CookiePair(b)
  {
    var p0 := CookiePair(a);
    var p1 := CookiePair(b);
    assert [a, b][1..][1..] == [];
    assert CookiePairs([a, b][1..]) == [p1];
    assert CookiePairs([a, b]) == [p0, p1];
    assert [p0, p1][1..] == [p1];
    assert Join([p0, p1], "; ") == p0 + "; " + Join([p1], "; ");
  }

  /** The two cookie entries, enumerated in one order or the other. */
  lemma HtCookieEntries(entries: seq<(string, string)>)
    requires Enumerates(entries, HtCookies)
    ensures entries == [GeoCookie, LocationCookie] || entries == [LocationCookie, GeoCookie]
  {
    assert |HtCookies| == 2;
    assert GeoCookie.0 in HtCookies && LocationCookie.0 in HtCookies;
    var i :| 0 <= i < |entries| && entries[i].0 == GeoCookie.0;
    var j :| 0 <= j < |entries| && entries[j].0 == LocationCookie.0;
    assert entries[i] == GeoCookie && entries[j] == LocationCookie;
    assert GeoCookie.0[0] != LocationCookie.0[0];
    assert entries == [entries[0], entries[1]];
  }

  /**
   * Whatever order the dictionary yields, the header holds exactly the two
   * pairs "Meta-Geo=IN--DL--NEWDELHI" and "ht-location=IN", joined by "; ".
   */
  lemma HtCookieHeader(entries: seq<(string, string)>)
    requires Enumerates(entries, HtCookies)
    ensures CookieString(entries) == CookiePair(GeoCookie) + "; " + CookiePair(LocationCookie)
         || CookieString(entries) == CookiePair(LocationCookie) + "; " + CookiePair(GeoCookie)
  {
    HtCookieEntries(entries);
    CookieStringOfTwo(GeoCookie, LocationCookie);
    CookieStringOfTwo(LocationCookie, GeoCookie);
  }

  // ------------------------------------------------------------- attempts

  /** The only request of the Hindustan Times path, through the delegate. */
  function HtAttempt(url: string, cookieEntries: seq<(string, string)>): Attempt {
    Attempt(url,
            map["User-Agent" := DesktopUserAgent,
                "Accept" := HtAccept,
                "Connection" := "keep-alive",
                "Upgrade-Insecure-Requests" := "1",
                "Cookie" := CookieString(cookieEntries)],
            true)
  }

  /** The first request of the default path, on the shared session. */
  function PrimaryAttempt(url: string): Attempt {
    Attempt(url, map["User-Agent" := DesktopUserAgent], false)
  }

  /** Every "http://" in the string becomes "https://". */
  function UpgradeScheme(s: string): string {
    ReplaceAll(s, Http, Https)
  }

  /** A plain-HTTP URL is rewritten to the same URL under the secure scheme. */
  lemma UpgradeHttpUrl(t: string)
    requires !Contains(t, Http)
    ensures UpgradeScheme(Http + t) == Https + t
  {
    ReplaceLeading(t, Http, Https);
  }

  /** The Times of India retry, through the delegate. */
  function FallbackAttempt(url: string): Attempt {
    Attempt(UpgradeScheme(url), map["User-Agent" := ShortUserAgent], true)
  }

  /** How a challenge met by `a`'s session is answered. */
  function ChallengeDecision(a: Attempt, space: ProtectionSpace): Decision {
    if a.sslDelegate then HandleChallenge(space).decision else DefaultHandling
  }

  // ------------------------------------------------------- scheme upgrade

  /** A prefix of an upgraded string without any 'h' is a prefix of the original. */
  lemma {:induction false} UpgradedPrefix(t: string, w: string)
    ensures StartsWith(UpgradeScheme(t), w) && 'h' !in w ==> StartsWith(t, w)
    decreases |t|
  {
    if StartsWith(UpgradeScheme(t), w) && 'h' !in w && |w| > 0 {
      assert |t| > 0;
      assert UpgradeScheme(t)[0] == w[0];
      assert StartsWith(t, Http) ==> StartsWith(UpgradeScheme(t), "h");
      assert UpgradeScheme(t) == [t[0]] + UpgradeScheme(t[1..]);
      assert StartsWith(UpgradeScheme(t[1..]), w[1..]);
      UpgradedPrefix(t[1..], w[1..]);
      assert t[..|w|] == [t[0]] + t[1..][..|w| - 1];
    }
  }

  /** "http://" does not start inside a leading "https://". */
  lemma HttpNotInsideHttps(r: string, i: int)
    requires StartsWith(r, Https) && 0 <= i < |Https|
    ensures !OccursAt(r, Http, i)
  {
    assert r[i] == Https[i];
    assert r[4] == 's';
  }

  /** An upgraded string whose first character was kept does not start with "http://". */
  lemma NoHttpAtStart(s: string)
    requires |s| > 0 && !StartsWith(s, Http)
    ensures !OccursAt(UpgradeScheme(s), Http, 0)
  {
    var r := UpgradeScheme(s);
    var rest := UpgradeScheme(s[1..]);
    assert r == [s[0]] + rest;
    assert OccursAt(r, Http, 0) ==> rest[..|Http| - 1] == r[1..|Http|] == Http[1..];
    assert Http[1..] == "ttp://";
    UpgradedPrefix(s[1..], "ttp://");
    assert StartsWith(s[1..], "ttp://") ==> s[..|Http|] == [s[0]] + s[1..][..6];
  }

  /** "http://" occurs nowhere in an upgraded string. */
  lemma {:induction false} NoHttpAt(s: string, i: int)
    ensures !OccursAt(UpgradeScheme(s), Http, i)
    decreases |s|
  {
    if |s| > 0 && 0 <= i {
      if StartsWith(s, Http) {
        var rest := UpgradeScheme(s[|Http|..]);
        assert UpgradeScheme(s) == Https + rest;
        if i >= |Https| {
          NoHttpAt(s[|Http|..], i - |Https|);
          OccursInSuffix(Https, rest, Http, i);
        } else {
          HttpNotInsideHttps(Https + rest, i);
        }
      } else {
        var rest := UpgradeScheme(s[1..]);
        assert UpgradeScheme(s) == [s[0]] + rest;
        if i >= 1 {
          NoHttpAt(s[1..], i - 1);
          OccursInSuffix([s[0]], rest, Http, i);
        } else {
          NoHttpAtStart(s);
        }
      }
    }
  }

  /**
   * The fallback URL contains no "http://", and a URL string without one is
   * not changed.
   */
  lemma UpgradeSchemeProperties(s: string)
    ensures !Contains(UpgradeScheme(s), Http)
    ensures !Contains(s, Http) ==> UpgradeScheme(s) == s
  {
    forall i | 0 <= i <= |UpgradeScheme(s)| - |Http| ensures !OccursAt(UpgradeScheme(s), Http, i) {
      NoHttpAt(s, i);
    }
    if !Contains(s, Http) { ReplaceAllAbsent(s, Http, Https); }
  }

  // --------------------------------------------------------- fetch logic

  /** After one attempt came back with `bytes`: cache and return the image if they decode. */
  function Decoded(cache: map<string, Image>, key: string, attempts: seq<Attempt>, bytes: Bytes, env: Env): FetchResult {
    if env.decodes(bytes) then FetchResult(Some(Image(bytes)), attempts, cache[key := Image(bytes)])
    else FetchResult(None, attempts, cache)
  }

  /** `fetchHindustanTimesImage(from:)`. */
  function FetchHindustanTimes(cache: map<string, Image>, urlString: string, env: Env): (r: FetchResult)
    ensures |r.attempts| <= 1
    ensures r.image.None? ==> r.cache == cache
    ensures r.image.Some? ==> r.cache == cache[urlString := r.image.value]
  {
    if !env.parses(urlString) then FetchResult(None, [], cache)
    else
      var request := HtAttempt(urlString, env.cookieEntries);
      match env.respond(request)
      case Throw => FetchResult(None, [request], cache)
      case Data(bytes) => Decoded(cache, urlString, [request], bytes, env)
  }

  /** `fetchImage(from:)`, given the cache it starts from. */
  function Fetch(cache: map<string, Image>, urlString: string, env: Env): (r: FetchResult)
    ensures |r.attempts| <= 2
    ensures urlString in cache ==> r.attempts == [] && r.image == Some(cache[urlString])
    ensures r.image.None? ==> r.cache == cache
    ensures r.image.Some? ==> r.cache == cache[urlString := r.image.value]
  {
    if urlString in cache then FetchResult(Some(cache[urlString]), [], cache)
    else if !env.parses(urlString) then FetchResult(None, [], cache)
    else if Contains(urlString, HtMarker) then FetchHindustanTimes(cache, urlString, env)
    else
      var primary := PrimaryAttempt(urlString);
      match env.respond(primary)
      case Data(bytes) => Decoded(cache, urlString, [primary], bytes, env)
      case Throw =>
        if Contains(urlString, ToiMarker) then
          var fallback := FallbackAttempt(urlString);
          match env.respond(fallback)
          case Data(bytes) => Decoded(cache, urlString, [primary, fallback], bytes, env)
          case Throw => FetchResult(None, [primary, fallback], cache)
        else FetchResult(None, [primary], cache)
  }

  /** A cache hit returns the cached image and sends nothing. */
  lemma FetchCacheHit(cache: map<string, Image>, urlString: string, env: Env)
    requires urlString in cache
    ensures Fetch(cache, urlString, env) == FetchResult(Some(cache[urlString]), [], cache)
  {
  }

  /** On a miss, a string that is not a URL gives nil, sends nothing and leaves the cache alone. */
  lemma FetchUnparsable(cache: map<string, Image>, urlString: string, env: Env)
    requires urlString !in cache && !env.parses(urlString)
    ensures Fetch(cache, urlString, env) == FetchResult(None, [], cache)
  {
  }

  /**
   * The Hindustan Times path: exactly one request, through the delegate, with
   * the five header fields; no fallback whatever the outcome.
   */
  lemma FetchHindustanTimesPath(cache: map<string, Image>, urlString: string, env: Env)
    requires urlString !in cache && env.parses(urlString) && Contains(urlString, HtMarker)
    ensures var r := Fetch(cache, urlString, env);
      && r.attempts == [HtAttempt(urlString, env.cookieEntries)]
      && r.attempts[0].url == urlString
      && r.attempts[0].sslDelegate
      && r.attempts[0].headers.Keys == {"User-Agent", "Accept", "Connection", "Upgrade-Insecure-Requests", "Cookie"}
      && r.attempts[0].headers["User-Agent"] == DesktopUserAgent
      && r.attempts[0].headers["Accept"] == HtAccept
      && r.attempts[0].headers["Connection"] == "keep-alive"
      && r.attempts[0].headers["Upgrade-Insecure-Requests"] == "1"
      && r.attempts[0].headers["Cookie"] == CookieString(env.cookieEntries)
      && (r.image.Some? <==>
          env.respond(r.attempts[0]).Data? && env.decodes(env.respond(r.attempts[0]).bytes))
  {
  }

  /**
   * "hindustantimes.com" anywhere in the string selects that path, in the
   * host or not (a query parameter will do).
   */
  lemma HindustanTimesAnywhere(cache: map<string, Image>, prefix: string, suffix: string, env: Env)
    requires prefix + HtMarker + suffix !in cache && env.parses(prefix + HtMarker + suffix)
    ensures Fetch(cache, prefix + HtMarker + suffix, env).attempts
         == [HtAttempt(prefix + HtMarker + suffix, env.cookieEntries)]
  {
    ContainsInfix(prefix, HtMarker, suffix);
  }

  /** When the dictionary enumeration is well formed, the HT request carries exactly the two cookies. */
  lemma HindustanTimesCookies(cache: map<string, Image>, urlString: string, env: Env)
    requires urlString !in cache && env.parses(urlString) && Contains(urlString, HtMarker)
    requires Enumerates(env.cookieEntries, HtCookies)
    ensures var cookie := Fetch(cache, urlString, env).attempts[0].headers["Cookie"];
      || cookie == CookiePair(GeoCookie) + "; " + CookiePair(LocationCookie)
      || cookie == CookiePair(LocationCookie) + "; " + CookiePair(GeoCookie)
  {
    HtCookieHeader(env.cookieEntries);
  }

  /**
   * The default path: the first request carries only the desktop User-Agent
   * and no delegate; a second request is sent exactly when the first throws
   * and the string names "static.toiimg.com", and it goes to the upgraded
   * URL with the short User-Agent through the delegate.
   */
  lemma FetchDefaultPath(cache: map<string, Image>, urlString: string, env: Env)
    requires urlString !in cache && env.parses(urlString) && !Contains(urlString, HtMarker)
    ensures var r := Fetch(cache, urlString, env);
      && 1 <= |r.attempts| <= 2
      && r.attempts[0] == Attempt(urlString, map["User-Agent" := DesktopUserAgent], false)
      && (|r.attempts| == 2 <==> env.respond(r.attempts[0]) == Throw && Contains(urlString, ToiMarker))
      && (|r.attempts| == 2 ==>
            r.attempts[1] == Attempt(UpgradeScheme(urlString), map["User-Agent" := ShortUserAgent], true))
      && (r.image.Some? <==>
          env.respond(r.attempts[|r.attempts| - 1]).Data?
          && env.decodes(env.respond(r.attempts[|r.attempts| - 1]).bytes))
  {
  }

  /** A first response that decodes is returned and cached under the requested string. */
  lemma FetchPrimarySuccess(cache: map<string, Image>, urlString: string, env: Env, bytes: Bytes)
    requires urlString !in cache && env.parses(urlString) && !Contains(urlString, HtMarker)
    requires env.respond(PrimaryAttempt(urlString)) == Data(bytes) && env.decodes(bytes)
    ensures Fetch(cache, urlString, env)
         == FetchResult(Some(Image(bytes)), [PrimaryAttempt(urlString)], cache[urlString := Image(bytes)])
  {
  }

  /** A first response that does not decode gives nil, with no fallback and no cache write. */
  lemma FetchUndecodable(cache: map<string, Image>, urlString: string, env: Env)
    requires urlString !in cache && env.parses(urlString) && !Contains(urlString, HtMarker)
    requires env.respond(PrimaryAttempt(urlString)).Data?
    requires !env.decodes(env.respond(PrimaryAttempt(urlString)).bytes)
    ensures Fetch(cache, urlString, env) == FetchResult(None, [PrimaryAttempt(urlString)], cache)
  {
  }

  /**
   * The Times of India retry that succeeds: the fallback's image is returned
   * and cached under the original string, not the upgraded one.
   */
  lemma FetchToiFallback(cache: map<string, Image>, urlString: string, env: Env, bytes: Bytes)
    requires urlString !in cache && env.parses(urlString) && !Contains(urlString, HtMarker)
    requires Contains(urlString, ToiMarker)
    requires env.respond(PrimaryAttempt(urlString)) == Throw
    requires env.respond(FallbackAttempt(urlString)) == Data(bytes) && env.decodes(bytes)
    ensures var r := Fetch(cache, urlString, env);
      && r.image == Some(Image(bytes))
      && r.attempts == [PrimaryAttempt(urlString), FallbackAttempt(urlString)]
      && r.attempts[1].url == UpgradeScheme(urlString)
      && !Contains(r.attempts[1].url, Http)
      && r.cache == cache[urlString := Image(bytes)]
  {
    UpgradeSchemeProperties(urlString);
  }

  /**
   * The cache changes only by storing the returned image under the requested
   * string, and only when an image is returned; a nil result leaves it as it
   * was. A new entry holds the bytes of the last request sent.
   */
  lemma FetchCacheWrite(cache: map<string, Image>, urlString: string, env: Env)
    ensures var r := Fetch(cache, urlString, env);
      && (r.image.None? ==> r.cache == cache && urlString !in cache)
      && (r.image.Some? ==> r.cache == cache[urlString := r.image.value])
      && (urlString !in cache && r.image.Some? ==>
            |r.attempts| >= 1 && env.respond(r.attempts[|r.attempts| - 1]) == Data(r.image.value.data)
            && env.decodes(r.image.value.data))
  {
  }

  /** Fetching again after a successful fetch is a cache hit with no request. */
  lemma FetchTwice(cache: map<string, Image>, urlString: string, env: Env, env': Env)
    ensures var r := Fetch(cache, urlString, env);
      r.image.Some? ==> Fetch(r.cache, urlString, env') == FetchResult(r.image, [], r.cache)
  {
    FetchCacheWrite(cache, urlString, env);
  }

  /** The default path's first request leaves every challenge to default handling. */
  lemma PrimaryAttemptDefaultTrust(urlString: string, space: ProtectionSpace)
    ensures ChallengeDecision(PrimaryAttempt(urlString), space) == Decision(PerformDefaultHandling, None)
  {
  }

  /**
   * The requests through the delegate override validation for a server
   * trust offered by a Hindustan Times host.
   */
  lemma HtAttemptTrustsHtHosts(urlString: string, entries: seq<(string, string)>, host: string, trust: SecTrust)
    requires Contains(host, HtMarker)
    ensures ChallengeDecision(HtAttempt(urlString, entries), ProtectionSpace(host, ServerTrust, Some(trust)))
         == Decision(UseCredential, Some(TrustCredential(trust)))
  {
  }

  // ---------------------------------------------------------------- state

  /** `NetworkManager.shared`: the image cache, and (for the proofs) the requests it sent. */
  class NetworkManager {
    var imageCache: map<string, Image>
    ghost var requests: seq<Attempt>

    constructor ()
      ensures imageCache == map[] && requests == []
    {
      imageCache := map[];
      requests := [];
    }

    /** `session.data(for:)`: send one request. */
    method Send(request: Attempt, env: Env) returns (response: Response)
      modifies this
      ensures response == env.respond(request)
      ensures requests == old(requests) + [request]
      ensures imageCache == old(imageCache)
    {
      response := env.respond(request);
      requests := requests + [request];
    }

    /** `NSCache` dropping entries on its own, under memory pressure. */
    method Evict(keys: set<string>)
      modifies this
      ensures imageCache == old(imageCache) - keys
      ensures requests == old(requests)
    {
      imageCache := imageCache - keys;
    }

    /** `fetchImage(from:)`. */
    method FetchImage(urlString: string, env: Env) returns (image: Option<Image>)
      requires urlString !in imageCache && env.parses(urlString) && !Contains(urlString, HtMarker)
               && env.respond(PrimaryAttempt(urlString)) == Throw && Contains(urlString, ToiMarker)
               ==> env.parses(UpgradeScheme(urlString))
      modifies this
      ensures var r := Fetch(old(imageCache), urlString, env);
        image == r.image && imageCache == r.cache && requests == old(requests) + r.attempts
    {
      if urlString in imageCache {
        return Some(imageCache[urlString]);
      }
      if !env.parses(urlString) {
        return None;
      }
      if Contains(urlString, HtMarker) {
        image := FetchHindustanTimesImage(urlString, env);
        return;
      }
      var headers: map<string, string> := map[];
      headers := headers["User-Agent" := DesktopUserAgent];
      var response := Send(Attempt(urlString, headers, false), env);
      match response {
        case Data(bytes) =>
          if env.decodes(bytes) {
            imageCache := imageCache[urlString := Image(bytes)];
            return Some(Image(bytes));
          }
        case Throw =>
          if Contains(urlString, ToiMarker) {
            var modifiedUrl := ReplaceAll(urlString, Http, Https);
            assert env.parses(modifiedUrl);  // the force unwrap of URL(string:)
            var fallbackHeaders: map<string, string> := map[];
            fallbackHeaders := fallbackHeaders["User-Agent" := ShortUserAgent];
            var fallbackResponse := Send(Attempt(modifiedUrl, fallbackHeaders, true), env);
            if fallbackResponse.Data? && env.decodes(fallbackResponse.bytes) {
              imageCache := imageCache[urlString := Image(fallbackResponse.bytes)];
              return Some(Image(fallbackResponse.bytes));
            }
          }
      }
      return None;
    }

    /** `fetchHindustanTimesImage(from:)`. */
    method FetchHindustanTimesImage(urlString: string, env: Env) returns (image: Option<Image>)
      modifies this
      ensures var r := FetchHindustanTimes(old(imageCache), urlString, env);
        image == r.image && imageCache == r.cache && requests == old(requests) + r.attempts
    {
      if !env.parses(urlString) {
        return None;
      }
      var headers: map<string, string> := map[];
      headers := headers["User-Agent" := DesktopUserAgent];
      headers := headers["Accept" := HtAccept];
      headers := headers["Connection" := "keep-alive"];
      headers := headers["Upgrade-Insecure-Requests" := "1"];
      var cookieString := Join(CookiePairs(env.cookieEntries), "; ");
      headers := headers["Cookie" := cookieString];
      var response := Send(Attempt(urlString, headers, true), env);
      if response.Data? && env.decodes(response.bytes) {
        imageCache := imageCache[urlString := Image(response.bytes)];
        return Some(Image(response.bytes));
      }
      return None;
    }
  }
}
