# NewsSnacks core, modelled in Dafny

NewsSnacks is a news-reading app. Most of it is SwiftUI views over a feed that ships
inside the app. Three pieces of logic sit under those views, and this project models them:

- **Image fetching** (`NetworkManager`). `fetchImage(from:)` first looks the URL string
  up in an image cache. On a miss it decides which requests to send from substrings of
  that URL string:
  - strings containing "hindustantimes.com" get one request with extra headers and two
    geo cookies, on a session whose delegate overrides TLS validation;
  - all other strings get one request carrying a desktop User-Agent;
  - when that request throws and the string contains "static.toiimg.com", a second
    request goes to the string with every "http://" upgraded to "https://".

  A decoded image is cached under the original string. `ImprovedSSLDelegate` accepts any
  server trust offered by hosts whose name contains one of three provider names.
  `isSelfSigned` is computed for a log line only.
- **Paging** (`NewsViewModel`). The feed is shuffled once. It is then shown five stories
  at a time (`loadMoreNews`), and it can be reshuffled and restarted (`refreshNews`).
- **Read modes** (`ReadMode`). Four display modes. Each has a raw value and a
  description, and each selects a story's text: a field as it is, or a list of points
  joined by "\n• ".

Files and modules:

- `wrappers.dfy` (`Wrappers`): `Option`, Swift's optional.
- `strings.dfy` (`Strings`): substring search, `replacingOccurrences`, `joined`, and
  `components(separatedBy:)` as the inverse of `joined`.
- `news.dfy` (`NewsModel`): the `News` and `NewsContent` records.
- `read_mode.dfy` (`ReadModes`): `ReadMode`, pure functions and lemmas.
- `news_view_model.dfy` (`Feed`): the class `NewsViewModel`. Its `seq` fields are updated
  in place. `Shown(all, page)` specifies them, and the invariant `Valid()` says that
  `news` is the first `currentPage` pages of `allNews`.
- `trust.dfy` (`Trust`): the delegate's decision and `isSelfSigned`, as pure functions
  over abstract challenges, trusts and certificates.
- `network_manager.dfy` (`Networking`): what a request looks like (`Attempt`), and the
  function `Fetch`, which gives the image returned, the requests sent and the new cache
  for one call. The class `NetworkManager` has a map-valued `imageCache` field. Its
  `FetchImage` method builds each request header by header. It is proved to return what
  `Fetch` says, to leave the cache as `Fetch` says, and to send exactly the requests
  `Fetch` lists. Those requests are recorded in the ghost field `requests`.

The network is an oracle `Env` with four parts:

- `parses`: whether `URL(string:)` accepts a string;
- `respond`: what a request brings back, `Throw` or `Data(bytes)`; the HTTP status is
  never inspected, as in the app;
- `decodes`: whether `UIImage(data:)` accepts some bytes;
- `cookieEntries`: the order in which the cookie dictionary is enumerated.

What the code does, which a reader might not expect (the model follows the code):

- A response that fails to decode is not retried. Only a request that throws leads to
  the Times of India fallback.
- Both provider tests are substring tests. For URLs, "hindustantimes.com" anywhere in
  the string selects the Hindustan Times path, in a query parameter as well. For hosts,
  "toiimg.com.example.org" is trusted by the delegate.
- The session configuration with a 30-second timeout at
  NewsSnacks/Networking/NetworkManager.swift:27-29 is never used. The first request goes
  through the shared session.
- Joining no points gives "", and splitting "" gives one empty piece. Splitting
  therefore recovers the points only for one or more points.

## Model

| member | source | states |
|---|---|---|
| Strings.ReplaceAll | NewsSnacks/Networking/NetworkManager.swift:49 | `replacingOccurrences(of:with:)`: an occurrence of the pattern at the front of the string becomes the replacement; `ReplaceFirst` (every occurrence, in turn, from the left), `ReplaceLeading`, `ReplaceAllAbsent`, `Networking.UpgradeHttpUrl` and `Networking.UpgradeSchemeProperties` state the rest |
| Strings.ReplaceFirst | NewsSnacks/Networking/NetworkManager.swift:49 | the first occurrence of the pattern, at any position, becomes the replacement; the text before it is kept as it is, and the text after it is rewritten in the same way, so every non-overlapping occurrence from the left is replaced |
| Strings.ReplaceLeading | NewsSnacks/Networking/NetworkManager.swift:49 | a leading occurrence of the pattern followed by a pattern-free rest becomes the replacement followed by that rest, unchanged |
| Strings.Contains | NewsSnacks/Networking/NetworkManager.swift:22 | `contains(_:)`: a string contains its own prefixes, and nothing longer than itself; `ContainsInfix` (any infix, wherever it sits) and `Networking.HindustanTimesAnywhere` state the rest |
| Strings.ContainsInfix | NewsSnacks/Networking/NetworkManager.swift:22 | whatever surrounds it, a string contains each of its infixes |
| Strings.ReplaceAllAbsent | NewsSnacks/Networking/NetworkManager.swift:49 | replacing a substring that does not occur leaves the string unchanged |
| Strings.Join | NewsSnacks/Models/ReadMode.swift:25-27 | `joined(separator:)`: the result starts with the first item; `JoinShort`, `JoinLength` and `ReadModes.SplitJoin` state the rest |
| Strings.JoinShort | NewsSnacks/Models/ReadMode.swift:24-27 | joining no items gives "", and joining one item gives that item: the separator goes only between items |
| Strings.JoinLength | NewsSnacks/Models/ReadMode.swift:24-27 | for n >= 1 items, the joined length is the sum of the item lengths plus n - 1 separator lengths |
| ReadModes.RawValue | NewsSnacks/Models/ReadMode.swift:1-5 | `rawValue`: `init(rawValue:)` maps the raw value back to the same case; `RawValueRoundTrip` and `DistinctStrings` state the rest |
| ReadModes.Description | NewsSnacks/Models/ReadMode.swift:7-18 | `description`: never empty; `DistinctStrings` states that the four descriptions differ |
| ReadModes.GetContent | NewsSnacks/Models/ReadMode.swift:20-31 | `getContent(from:)`: Snack and Dinner give "" for no points and start with the first point otherwise; `PlainModes`, `BulletModesShort`, `BulletModesLength` and `BulletModesRoundTrip` state the rest |
| ReadModes.FromRawValue | NewsSnacks/Models/ReadMode.swift:1-5 | `init(rawValue:)`: a case comes back exactly for the four raw values "Paragraph", "Snack", "Dinner" and "GenZ"; `RawValueRoundTrip` states which case each gives |
| ReadModes.AllCasesComplete | NewsSnacks/Models/ReadMode.swift:1-5 | `allCases` lists each of the four modes exactly once |
| ReadModes.RawValueRoundTrip | NewsSnacks/Models/ReadMode.swift:1-5 | looking a case up by its raw value inverts `rawValue`, in both directions |
| ReadModes.DistinctStrings | NewsSnacks/Models/ReadMode.swift:1-18 | two different modes have different raw values and different descriptions |
| ReadModes.PlainModes | NewsSnacks/Models/ReadMode.swift:20-30 | Paragraph returns `paragraph` unchanged, and GenZ returns `genz_version` unchanged |
| ReadModes.BulletModesShort | NewsSnacks/Models/ReadMode.swift:24-27 | Snack and Dinner show "" for no points and the point itself for one point |
| ReadModes.BulletModesLength | NewsSnacks/Models/ReadMode.swift:24-27 | the Snack and Dinner text of n >= 1 points is their total length plus 3(n - 1) |
| ReadModes.SplitJoin | NewsSnacks/Models/ReadMode.swift:25-27 | splitting the joined text of one or more points on "\n• " recovers the points, when no point contains the separator |
| ReadModes.BulletModesRoundTrip | NewsSnacks/Models/ReadMode.swift:24-27 | the Snack text splits back into `key_points`, and the Dinner text splits back into `detailed_points` |
| Feed.PageCountBound | NewsSnacks/ViewModels/NewsViewModel.swift:35 | another page exists exactly when the page number is below ceil(count / 5) |
| Feed.ShownNextPage | NewsSnacks/ViewModels/NewsViewModel.swift:31-39 | loading one more page extends the shown prefix by exactly the slice `[page*5, min(page*5+5, count))`, which is at most 5 stories |
| Feed.ShownComplete | NewsSnacks/ViewModels/NewsViewModel.swift:35 | once page*5 reaches the count, the whole feed is shown |
| Feed.NewsViewModel.constructor | NewsSnacks/ViewModels/NewsViewModel.swift:3-29 | the language is "English", and the five languages start with "English"; a decoded feed is taken in its shuffled order with its first page shown; without one, everything is empty; the invariant holds |
| Feed.NewsViewModel.LoadMoreNews | NewsSnacks/ViewModels/NewsViewModel.swift:31-40 | when page*5 < count, appends exactly that page's slice and increments the page; otherwise changes nothing; never changes `allNews` or the language, adds at most 5 stories, keeps the invariant |
| Feed.NewsViewModel.RefreshNews | NewsSnacks/ViewModels/NewsViewModel.swift:42-47 | the feed becomes the given permutation of itself; the shown stories are its first min(5, count); the page is 1, or 0 when the feed is empty; the language is unchanged; the invariant holds |
| Trust.HandleChallenge | NewsSnacks/Networking/NetworkManager.swift:117-142 | the delegate's reply: a credential is given, and the log line printed, exactly when the disposition is `.useCredential`, and the credential wraps the trust the challenge offered; `HandleChallengeDecision` and `SelfSignedIsOnlyLogged` state when that happens |
| Trust.TrustIsSelfSigned | NewsSnacks/Networking/NetworkManager.swift:146-155 | `SecTrust.isSelfSigned`: nil only for a one-certificate chain, and true only for a one-certificate chain whose certificate has subject == issuer; `IsSelfSignedCases` states every case |
| Trust.CertificateIsSelfSigned | NewsSnacks/Networking/NetworkManager.swift:158-167 | `SecCertificate.isSelfSigned`: non-nil exactly when subject and issuer can both be read, and then it is whether they are equal |
| Trust.HandleChallengeDecision | NewsSnacks/Networking/NetworkManager.swift:117-142 | the delegate answers `.useCredential` with the offered trust exactly for a server-trust challenge that offers a trust and whose host contains one of the three provider names; otherwise it answers `.performDefaultHandling` with no credential |
| Trust.SelfSignedIsOnlyLogged | NewsSnacks/Networking/NetworkManager.swift:128-136 | the disposition does not depend on the certificates; `isSelfSigned ?? false` appears only in the log line |
| Trust.IsSelfSignedCases | NewsSnacks/Networking/NetworkManager.swift:146-167 | false unless the chain has exactly one certificate; nil if that certificate, its subject or its issuer is unavailable; otherwise subject == issuer |
| Trust.TrustedHostBySubstring | NewsSnacks/Networking/NetworkManager.swift:128 | any host with "toiimg.com" inside it, not only as its domain suffix, gets the override |
| Networking.CookieString | NewsSnacks/Networking/NetworkManager.swift:99 | the Cookie value starts with the first enumerated `name=value` pair; `CookieStringOfTwo` and `HtCookieHeader` give it exactly |
| Networking.HtCookieHeader | NewsSnacks/Networking/NetworkManager.swift:93-100 | in either dictionary order, the Cookie value is exactly the two pairs `Meta-Geo=IN--DL--NEWDELHI` and `ht-location=IN` joined by "; " |
| Networking.HtCookieEntries | NewsSnacks/Networking/NetworkManager.swift:93-96 | enumerating the two-entry cookie dictionary yields its two entries in one order or the other |
| Networking.UpgradeSchemeProperties | NewsSnacks/Networking/NetworkManager.swift:49 | the fallback URL string contains no "http://", and a string without "http://" is not changed |
| Networking.Fetch | NewsSnacks/Networking/NetworkManager.swift:10-70 | `fetchImage(from:)`: at most two requests, none on a cache hit, which returns the cached image; the cache changes only by storing a returned image under the requested string; the `Fetch*` lemmas below state each path |
| Networking.FetchHindustanTimes | NewsSnacks/Networking/NetworkManager.swift:73-112 | `fetchHindustanTimesImage(from:)`: at most one request; the cache changes only by storing a returned image under the requested string; `FetchHindustanTimesPath` states the request and when an image comes back |
| Networking.UpgradeHttpUrl | NewsSnacks/Networking/NetworkManager.swift:49 | a plain-HTTP URL `http://t`, where `t` has no further "http://", is rewritten to `https://t`: the same URL under the secure scheme |
| Networking.FetchCacheHit | NewsSnacks/Networking/NetworkManager.swift:12-14 | a cache hit returns the cached image, sends no request and leaves the cache as it was |
| Networking.FetchUnparsable | NewsSnacks/Networking/NetworkManager.swift:17-19 | on a miss, a string that is not a URL gives nil, sends nothing and leaves the cache as it was |
| Networking.FetchHindustanTimesPath | NewsSnacks/Networking/NetworkManager.swift:73-111 | the Hindustan Times path sends exactly one request, through the delegate, with exactly the User-Agent, Accept, Connection, Upgrade-Insecure-Requests and Cookie headers and their values; it never falls back; it returns an image exactly when the response is data that decodes |
| Networking.HindustanTimesAnywhere | NewsSnacks/Networking/NetworkManager.swift:22-23 | "hindustantimes.com" anywhere in the URL string selects the Hindustan Times path |
| Networking.HindustanTimesCookies | NewsSnacks/Networking/NetworkManager.swift:93-100 | the Hindustan Times request carries exactly the two cookies, in either order |
| Networking.FetchDefaultPath | NewsSnacks/Networking/NetworkManager.swift:31-67 | the first request has only the desktop User-Agent and no delegate; a second request is sent exactly when the first throws and the string contains "static.toiimg.com"; it goes to the upgraded URL with User-Agent "Mozilla/5.0" through the delegate; an image comes back exactly when the last response is data that decodes |
| Networking.FetchPrimarySuccess | NewsSnacks/Networking/NetworkManager.swift:36-40 | a first response that decodes is returned and cached under the requested string, after that one request |
| Networking.FetchUndecodable | NewsSnacks/Networking/NetworkManager.swift:36-42 | a first response that does not decode gives nil, with no fallback and no cache write |
| Networking.FetchToiFallback | NewsSnacks/Networking/NetworkManager.swift:45-62 | a successful fallback returns its image and caches it under the original string, not the upgraded one |
| Networking.FetchCacheWrite | NewsSnacks/Networking/NetworkManager.swift:37-61 | the cache changes only by storing the returned image under the requested string; a nil result leaves it unchanged and without that key; a new image is the decoded data of the last request sent |
| Networking.FetchTwice | NewsSnacks/Networking/NetworkManager.swift:12-14 | after a successful fetch, fetching the same string again is a cache hit with no request |
| Networking.PrimaryAttemptDefaultTrust | NewsSnacks/Networking/NetworkManager.swift:35 | the first default-path request is on the shared session, so every challenge gets default handling |
| Networking.HtAttemptTrustsHtHosts | NewsSnacks/Networking/NetworkManager.swift:81 | the Hindustan Times request's session overrides validation for a server trust offered by a host containing "hindustantimes.com" |
| Networking.NetworkManager.constructor | NewsSnacks/Networking/NetworkManager.swift:5-8 | the shared manager starts with an empty cache and no requests sent |
| Networking.NetworkManager.Send | NewsSnacks/Networking/NetworkManager.swift:36 | sending a request records it and returns the network's response; the cache is untouched |
| Networking.NetworkManager.Evict | NewsSnacks/Networking/NetworkManager.swift:6 | the cache may drop any entries on its own; callers cannot rely on an entry persisting |
| Networking.NetworkManager.FetchImage | NewsSnacks/Networking/NetworkManager.swift:10-70 | returns the image `Fetch` gives, leaves the cache as `Fetch` gives, and sends exactly the requests `Fetch` lists, in order |
| Networking.NetworkManager.FetchHindustanTimesImage | NewsSnacks/Networking/NetworkManager.swift:73-112 | builds the request header by header, sends it once, and caches and returns the image only when the data decodes |

## Left out

- Real networking is not modelled: `URLSession`, async suspension, `waitsForConnectivity`
  and request timeouts. This includes the 30-second timeout the Hindustan Times session
  does use (NewsSnacks/Networking/NetworkManager.swift:78). Requests go to the `respond`
  oracle, and a timeout is one way for it to answer `Throw`.
- `UIImage(data:)` is the `decodes` oracle. A decoded image is identified by its bytes.
- `URL(string:)` is the `parses` oracle. The force unwrap at
  NewsSnacks/Networking/NetworkManager.swift:49 traps when the upgraded string does not
  parse. `NetworkManager.FetchImage` therefore requires that a string that reaches that
  line parses after the upgrade. Such a string parses and misses the cache. It does not
  name "hindustantimes.com", it does name "static.toiimg.com", and its first request
  throws.
- NSCache eviction has no capacity or cost policy here. `Evict` may drop any entries at
  any time.
- Concurrent fetches are not modelled. Each call is one sequential step on the cache.
- `print` logging is left out. The delegate's log line is kept as a value so that
  `SelfSignedIsOnlyLogged` can state that it does not affect the decision.
- The Security framework is abstract. A trust is a chain of optional certificates, and a
  certificate is an optional subject and an optional issuer.
- Swift's per-process dictionary order is the `cookieEntries` parameter. The cookie
  lemmas assume it enumerates the dictionary.
- The bundle file, `JSONDecoder` and the randomness of `shuffled()`/`shuffle()` are not
  modelled. The decoded feed (or its absence) and the order the shuffle picks are
  parameters, and the order must be a permutation.
- Feed.NewsViewModel.LoadMoreNews: does not model Swift `Int` overflow of
  `currentPage * itemsPerPage`, because the page count is bounded by the feed length.
- The views change `currentLanguage` through a binding. This is not modelled; paging
  leaves it unchanged.
- Strings are sequences of characters compared one by one. Swift compares
  grapheme clusters, and Foundation can use canonical equivalence. This affects
  `contains` (NewsSnacks/Networking/NetworkManager.swift:22, 46, 128),
  `replacingOccurrences` (:49) and grapheme merging across a `joined(separator:)`
  boundary. `Strings.Contains`, `Strings.ReplaceAll`, `Strings.Join` and `Strings.Split`
  can differ from Swift only on strings whose grapheme clusters straddle a match or join
  boundary. Examples are combining marks, zero-width-joiner sequences, and a point ending
  in "\r" next to the separator's leading "\n", which Swift reads as one CR LF character.
- All SwiftUI views are not part of this model: layout, snapshots, scroll offsets and
  the index checks in `ContentView`.
