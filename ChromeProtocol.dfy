/**
 * The pure decisions of the Chrome DevTools Protocol session manager
 * (smartux-connect-patch-exports-fix2/chrome.js): the target pool's
 * bookkeeping, the interception request built for authentication, the
 * user-agent choice, the browser flags, the auth-challenge step, the
 * origin rule for new execution contexts, and the ordered protocol commands
 * that set up and tear down a client.  The stateful manager that uses them
 * is in ChromeManager.dfy.
 */
module ChromeProtocol {
  import opened Wrappers
  import opened JsonValue
  import Text

  type TargetId = string
  type AppId = string
  type ClientId = nat
  type TimerHandle = nat

  /** A string property in JavaScript is truthy when it is present and not empty. */
  predicate NonEmpty(s: Option<string>)
  {
    s.Some? && s.value != ""
  }

  // ---------------------------------------------------------------------
  // Configuration

  datatype Viewport = Viewport(width: int, height: int)

  /** The per-application configuration keys the session manager reads. */
  datatype AppConfig = AppConfig(
    startURL: Option<string>,
    viewportSize: Option<Viewport>,
    userAgentSuffix: Option<string>,
    userAgentReplacement: Option<string>,
    useCookies: bool,
    debug: bool,
    debounceTime: int)

  /** Credentials and the URL patterns whose responses are intercepted. */
  datatype AuthConfig = AuthConfig(
    username: Option<string>,
    password: Option<string>,
    urlPatterns: Option<seq<string>>)

  /** The `chrome` section of the main configuration. */
  datatype ChromeSection = ChromeSection(proxyConfigured: bool, authServerWhiteList: Option<string>)

  // ---------------------------------------------------------------------
  // Browser flags

  const ChromeFlags: seq<string> := [
    "--headless", "--disable-gpu", "--no-sandbox", "--disable-web-security",
    "--user-data-dir", "--ignore-certificate-errors", "--allow-insecure-localhost",
    "--disable-popup-blocking", "--no-sandbox", "--incognito", "--utility"]

  datatype LaunchError = ProxyReferenceError

  /**
   * The flags the browser is launched with.  A configured proxy makes the
   * launch fail, because the proxy branch reads an undeclared `config`.
   */
  function LaunchFlags(chrome: Option<ChromeSection>): (r: Result<seq<string>, LaunchError>)
    ensures r.Err? <==> chrome.Some? && chrome.value.proxyConfigured
    ensures r.Ok? ==> ChromeFlags <= r.value
    ensures r.Ok? && chrome.Some? && chrome.value.authServerWhiteList.Some? ==>
      r.value == ChromeFlags + ["--auth-server-whitelist=" + chrome.value.authServerWhiteList.value]
    ensures r.Ok? && (chrome.None? || chrome.value.authServerWhiteList.None?) ==> r.value == ChromeFlags
  {
    match chrome
    case None => Ok(ChromeFlags)
    case Some(section) =>
      if section.proxyConfigured then Err(ProxyReferenceError)
      else if section.authServerWhiteList.Some? then
        Ok(ChromeFlags + ["--auth-server-whitelist=" + section.authServerWhiteList.value])
      else Ok(ChromeFlags)
  }

  // ---------------------------------------------------------------------
  // Target pool: `mapTargets`, in key (insertion) order

  datatype TargetEntry = TargetEntry(id: TargetId, free: bool)

  predicate DistinctIds(ts: seq<TargetEntry>)
  {
    forall i, j :: 0 <= i < j < |ts| ==> ts[i].id != ts[j].id
  }

  function Ids(ts: seq<TargetEntry>): set<TargetId>
  {
    set i | 0 <= i < |ts| :: ts[i].id
  }

  /** The position of the entry for `id`, or -1. */
  function Find(ts: seq<TargetEntry>, id: TargetId): (r: int)
    ensures -1 <= r < |ts|
    ensures r >= 0 ==> ts[r].id == id
    ensures r < 0 <==> id !in Ids(ts)
    ensures r >= 0 && DistinctIds(ts) ==> forall j :: 0 <= j < |ts| && ts[j].id == id ==> j == r
  {
    if ts == [] then -1
    else if ts[|ts| - 1].id == id then |ts| - 1
    else
      var r := Find(ts[..|ts| - 1], id);
      assert Ids(ts) == Ids(ts[..|ts| - 1]) + {ts[|ts| - 1].id};
      r
  }

  /**
   * `mapTargets[id] = {…, free}`: an existing key keeps its position and gets
   * the new entry, a new key goes at the end.
   */
  function Put(ts: seq<TargetEntry>, id: TargetId, free: bool): (r: seq<TargetEntry>)
    ensures id in Ids(r) && Ids(r) == Ids(ts) + {id}
    ensures |r| == if id in Ids(ts) then |ts| else |ts| + 1
    ensures forall i :: 0 <= i < |ts| && ts[i].id != id ==> r[i] == ts[i]
    ensures DistinctIds(ts) ==> DistinctIds(r) && r[Find(r, id)] == TargetEntry(id, free)
  {
    var k := Find(ts, id);
    if k >= 0 then
      var r := ts[k := TargetEntry(id, free)];
      assert forall i :: 0 <= i < |r| ==> r[i].id == ts[i].id;
      assert Ids(r) == Ids(ts);
      r
    else
      var r := ts + [TargetEntry(id, free)];
      assert Ids(r) == Ids(ts) + {id} by {
        forall x | x in Ids(r) ensures x in Ids(ts) + {id} {
          var i :| 0 <= i < |r| && r[i].id == x;
          if i < |ts| { assert ts[i].id == x; }
        }
        forall x | x in Ids(ts) ensures x in Ids(r) {
          var i :| 0 <= i < |ts| && ts[i].id == x;
          assert r[i].id == x;
        }
        assert r[|ts|].id == id;
      }
      r
  }

  /** The launch listing: every listed target is put into the pool as free. */
  function ListTargets(ts: seq<TargetEntry>, listed: seq<TargetId>): seq<TargetEntry>
    decreases |listed|
  {
    if listed == [] then ts else ListTargets(Put(ts, listed[0], true), listed[1..])
  }

  /** Entries whose id is not listed again keep their value and position. */
  lemma {:induction false} ListTargetsKeepsOthers(ts: seq<TargetEntry>, listed: seq<TargetId>, i: int)
    requires 0 <= i < |ts| && ts[i].id !in listed
    ensures |ListTargets(ts, listed)| >= |ts| && ListTargets(ts, listed)[i] == ts[i]
    decreases |listed|
  {
    if listed != [] {
      var next := Put(ts, listed[0], true);
      assert ts[i].id != listed[0];
      assert next[i] == ts[i];
      assert ts[i].id !in listed[1..] by {
        forall k | 0 <= k < |listed[1..]| ensures listed[1..][k] != ts[i].id {
          assert listed[1..][k] == listed[k + 1];
        }
      }
      ListTargetsKeepsOthers(next, listed[1..], i);
    }
  }

  /** Every target listed at launch is in the pool and free afterwards. */
  lemma {:induction false} ListedTargetsStartFree(ts: seq<TargetEntry>, listed: seq<TargetId>)
    requires DistinctIds(ts)
    ensures DistinctIds(ListTargets(ts, listed))
    ensures forall id :: id in listed ==>
      var r := ListTargets(ts, listed); id in Ids(r) && r[Find(r, id)] == TargetEntry(id, true)
    decreases |listed|
  {
    if listed != [] {
      var next := Put(ts, listed[0], true);
      ListedTargetsStartFree(next, listed[1..]);
      var r := ListTargets(next, listed[1..]);
      assert r == ListTargets(ts, listed);
      forall id | id in listed
        ensures id in Ids(r) && r[Find(r, id)] == TargetEntry(id, true)
      {
        if id !in listed[1..] {
          assert id == listed[0];
          var k := Find(next, id);
          assert next[k] == TargetEntry(id, true);
          ListTargetsKeepsOthers(next, listed[1..], k);
          assert r[k] == TargetEntry(id, true);
          assert id in Ids(r);
        }
      }
    }
  }

  /** The first free target in key order, or -1. */
  function FirstFree(ts: seq<TargetEntry>): (r: int)
    ensures -1 <= r < |ts|
    ensures r >= 0 ==> ts[r].free && forall j :: 0 <= j < r ==> !ts[j].free
    ensures r < 0 <==> forall j :: 0 <= j < |ts| ==> !ts[j].free
  {
    if ts == [] then -1
    else if ts[0].free then 0
    else
      var r := FirstFree(ts[1..]);
      assert forall j :: 1 <= j < |ts| ==> ts[j] == ts[1..][j - 1];
      if r < 0 then -1 else r + 1
  }

  /**
   * `newClient`'s choice of target: the first free target in key order loses
   * its `free` flag and nothing else changes; with no free target, a new
   * target from the browser joins the pool as not free, and the flag in the
   * result says so.
   */
  function Acquire(ts: seq<TargetEntry>, created: TargetId): (r: (seq<TargetEntry>, TargetId, bool))
    ensures r.2 <==> FirstFree(ts) < 0
    ensures !r.2 ==>
      var i := FirstFree(ts);
      r.1 == ts[i].id && |r.0| == |ts| && r.0[i] == TargetEntry(ts[i].id, false)
      && forall j :: 0 <= j < |ts| && j != i ==> r.0[j] == ts[j]
    ensures r.2 ==> r.1 == created && Ids(r.0) == Ids(ts) + {created}
    ensures r.2 && created !in Ids(ts) ==> r.0 == ts + [TargetEntry(created, false)]
    ensures DistinctIds(ts) ==> DistinctIds(r.0) && r.1 in Ids(r.0) && !r.0[Find(r.0, r.1)].free
  {
    var i := FirstFree(ts);
    if i >= 0 then
      var r := ts[i := TargetEntry(ts[i].id, false)];
      assert forall j :: 0 <= j < |r| ==> r[j].id == ts[j].id;
      assert Ids(r) == Ids(ts);
      (r, ts[i].id, false)
    else
      (Put(ts, created, false), created, true)
  }

  /**
   * `releaseClient`'s last step, `mapTargets[client.target].free = true`:
   * only that entry changes; an unknown target makes the property write throw.
   */
  function ReleaseTarget(ts: seq<TargetEntry>, id: TargetId): (r: Option<seq<TargetEntry>>)
    ensures r.Some? <==> id in Ids(ts)
    ensures r.Some? ==>
      var k := Find(ts, id);
      |r.value| == |ts| && r.value[k] == TargetEntry(id, true)
      && forall j :: 0 <= j < |ts| && j != k ==> r.value[j] == ts[j]
    ensures r.Some? && DistinctIds(ts) ==> DistinctIds(r.value) && Ids(r.value) == Ids(ts)
  {
    var k := Find(ts, id);
    if k < 0 then None
    else
      var r := ts[k := TargetEntry(id, true)];
      assert forall j :: 0 <= j < |r| ==> r[j].id == ts[j].id;
      assert Ids(r) == Ids(ts);
      Some(r)
  }

  /**
   * A released target can be handed out again at once: when it is the only
   * free entry, the next acquisition takes it.
   */
  lemma ReleaseThenAcquire(ts: seq<TargetEntry>, id: TargetId, created: TargetId)
    requires DistinctIds(ts) && id in Ids(ts)
    requires forall j :: 0 <= j < |ts| ==> !ts[j].free
    ensures Acquire(ReleaseTarget(ts, id).value, created).1 == id
  {
    var r := ReleaseTarget(ts, id).value;
    var k := Find(ts, id);
    assert r[k].free;
    var i := FirstFree(r);
    assert i >= 0;
    assert i == k;
  }

  // ---------------------------------------------------------------------
  // Authentication: the interception request

  datatype UrlPattern = UrlPattern(interceptionStage: string, urlPattern: Option<string>)

  /** `setRequestInterceptionEnabled` (Chrome 62) or `setRequestInterception` (later versions). */
  datatype InterceptionRequest =
    | LegacyInterception(enabled: bool, urlPatterns: Option<seq<string>>)
    | Interception(patterns: seq<UrlPattern>)

  /** What the client keeps as `authenticationConfig`, and the request sent. */
  datatype AuthSetup = AuthSetup(stored: Option<AuthConfig>, request: InterceptionRequest)

  /** The browser version string names Chrome 62. */
  predicate IsChrome62(version: string)
  {
    Text.IndexOf(version, "/62") >= 0
  }

  /** The request makes the browser intercept at least some responses. */
  predicate InterceptsSomething(req: InterceptionRequest)
  {
    match req
    case LegacyInterception(enabled, _) => enabled
    case Interception(patterns) => patterns != []
  }

  function ResponsePatterns(urls: seq<string>): (r: seq<UrlPattern>)
    ensures |r| == |urls|
    ensures forall i :: 0 <= i < |urls| ==> r[i] == UrlPattern("Response", Some(urls[i]))
  {
    seq(|urls|, i requires 0 <= i < |urls| => UrlPattern("Response", Some(urls[i])))
  }

  /**
   * `setupAuthentication`: without a username the stored configuration is
   * dropped and interception is switched off; with one, the configuration is
   * stored and responses are intercepted, on Chrome 62 with the pattern array
   * as given, later with one `Response`-stage pattern per URL pattern in
   * order, or a single stage-only pattern when no pattern array is given.
   */
  function SetupAuthentication(version: string, config: AuthConfig): (r: AuthSetup)
    ensures r.stored.Some? <==> NonEmpty(config.username)
    ensures r.stored.Some? ==> r.stored.value == config
    ensures r.request.LegacyInterception? <==> IsChrome62(version)
    ensures !NonEmpty(config.username) ==>
      r.request == if IsChrome62(version) then LegacyInterception(false, None) else Interception([])
    ensures NonEmpty(config.username) && IsChrome62(version) ==>
      r.request == LegacyInterception(true, config.urlPatterns)
    ensures NonEmpty(config.username) && !IsChrome62(version) && config.urlPatterns.Some? ==>
      var urls := config.urlPatterns.value;
      |r.request.patterns| == |urls|
      && forall i :: 0 <= i < |urls| ==> r.request.patterns[i] == UrlPattern("Response", Some(urls[i]))
    ensures NonEmpty(config.username) && !IsChrome62(version) && config.urlPatterns.None? ==>
      r.request.patterns == [UrlPattern("Response", None)]
    ensures InterceptsSomething(r.request) <==>
      NonEmpty(config.username)
      && (IsChrome62(version) || config.urlPatterns.None? || config.urlPatterns.value != [])
  {
    if !NonEmpty(config.username) then
      AuthSetup(None, if IsChrome62(version) then LegacyInterception(false, None) else Interception([]))
    else if IsChrome62(version) then
      AuthSetup(Some(config), LegacyInterception(true, config.urlPatterns))
    else if config.urlPatterns.Some? then
      AuthSetup(Some(config), Interception(ResponsePatterns(config.urlPatterns.value)))
    else
      AuthSetup(Some(config), Interception([UrlPattern("Response", None)]))
  }

  /** The configuration `unsetupClient` passes: `{ username: null }`. */
  const NoAuth: AuthConfig := AuthConfig(None, None, None)

  /** Teardown always switches interception off and forgets the credentials. */
  lemma TeardownDisablesInterception(version: string)
    ensures SetupAuthentication(version, NoAuth).stored.None?
    ensures !InterceptsSomething(SetupAuthentication(version, NoAuth).request)
  {
  }

  /**
   * The configuration a popup inherits.  The stored copy keeps the patterns
   * under `arrUrlPatterns`, while `setupAuthentication` reads
   * `arrURLPatterns`, so the patterns are lost on the way.
   */
  function Forwarded(stored: Option<AuthConfig>): (r: Option<AuthConfig>)
    ensures r.Some? <==> stored.Some?
    ensures r.Some? ==> (r.value.username == stored.value.username
                         && r.value.password == stored.value.password && r.value.urlPatterns.None?)
  {
    if stored.Some? then Some(AuthConfig(stored.value.username, stored.value.password, None)) else None
  }

  /**
   * A popup of a client with credentials intercepts every response on later
   * browser versions, whatever patterns the client itself was given.
   */
  lemma PopupInterceptsEverything(version: string, config: AuthConfig)
    requires NonEmpty(config.username) && !IsChrome62(version)
    ensures var stored := SetupAuthentication(version, config).stored;
      SetupAuthentication(version, Forwarded(stored).value).request == Interception([UrlPattern("Response", None)])
  {
  }

  // ---------------------------------------------------------------------
  // User agent

  /**
   * The user-agent override: a suffix is appended to the browser's own user
   * agent and wins over a replacement; with neither, no override is sent.
   */
  function UserAgentOverride(browserUserAgent: string, config: AppConfig): (r: Option<string>)
    ensures r.Some? <==> NonEmpty(config.userAgentSuffix) || NonEmpty(config.userAgentReplacement)
    ensures NonEmpty(config.userAgentSuffix) ==>
      r == Some(browserUserAgent + " " + config.userAgentSuffix.value)
    ensures !NonEmpty(config.userAgentSuffix) && NonEmpty(config.userAgentReplacement) ==>
      r == config.userAgentReplacement
  {
    if NonEmpty(config.userAgentSuffix) then Some(browserUserAgent + " " + config.userAgentSuffix.value)
    else if NonEmpty(config.userAgentReplacement) then config.userAgentReplacement
    else None
  }

  // ---------------------------------------------------------------------
  // Auth challenges

  datatype ChallengeAnswer = ProvideCredentials(username: Option<string>, password: Option<string>) | CancelAuth

  /** The interception id was answered with credentials and not yet cancelled. */
  predicate Marked(markers: map<string, bool>, id: string)
  {
    id in markers && markers[id]
  }

  /**
   * One auth challenge for interception `id`: an unmarked id is marked and
   * answered with credentials; a marked id is unmarked and cancelled.  No
   * other id's marker changes.
   */
  function ChallengeStep(markers: map<string, bool>, id: string): (r: (map<string, bool>, bool))
    ensures r.1 <==> !Marked(markers, id)
    ensures Marked(r.0, id) <==> !Marked(markers, id)
    ensures forall k :: k != id ==> (k in r.0 <==> k in markers) && (k in markers ==> r.0[k] == markers[k])
  {
    if Marked(markers, id) then (markers - {id}, false) else (markers[id := true], true)
  }

  /**
   * The same interception id is answered with credentials, then cancelled,
   * and the marker is gone afterwards, so the markers are back as before.
   */
  lemma ChallengeRetriedOnce(markers: map<string, bool>, id: string)
    requires id !in markers
    ensures ChallengeStep(markers, id).1
    ensures !ChallengeStep(ChallengeStep(markers, id).0, id).1
    ensures ChallengeStep(ChallengeStep(markers, id).0, id).0 == markers
  {
    var m1 := ChallengeStep(markers, id).0;
    assert m1 == markers[id := true];
    assert m1 - {id} == markers;
  }

  // ---------------------------------------------------------------------
  // Execution contexts and DOM events

  /**
   * A created execution context is taken up unless its origin is `://`;
   * such a context is still taken up when the start URL begins with `about`.
   */
  predicate ContextAccepted(origin: string, startURL: Option<string>)
  {
    origin != "://" || (startURL.Some? && Text.IndexOf(startURL.value, "about") == 0)
  }

  lemma ContextAcceptedMeaning(origin: string, startURL: Option<string>)
    ensures ContextAccepted(origin, startURL) <==>
      origin != "://" || (startURL.Some? && "about" <= startURL.value)
  {
    if startURL.Some? {
      var s := startURL.value;
      if "about" <= s {
        assert Text.OccursAt(s, "about", 0);
      }
      if Text.IndexOf(s, "about") == 0 {
        assert Text.OccursAt(s, "about", 0);
      }
    }
  }

  datatype DomEvent =
    | AttributeModified
    | AttributeRemoved
    | CharacterDataModified
    | ChildNodeInserted(nodeName: string)
    | ChildNodeRemoved
    | ChildNodeCountUpdated
    | DistributedNodesUpdated
    | SetChildNodes
    | DocumentUpdated
    | FrameStoppedLoading

  /**
   * The event makes the client fetch the whole document before the state
   * check.  For an inserted node the guard is `name != '#text' || name != '#comment'`.
   */
  predicate RefetchesDocument(ev: DomEvent)
  {
    match ev
    case ChildNodeInserted(name) => name != "#text" || name != "#comment"
    case DocumentUpdated => true
    case FrameStoppedLoading => true
    case _ => false
  }

  /** The insertion guard holds for every node name, text and comment nodes included. */
  lemma InsertedNodeAlwaysRefetches(name: string)
    ensures RefetchesDocument(ChildNodeInserted(name))
  {
  }

  // ---------------------------------------------------------------------
  // The app's client stack

  /** The first position whose websocket URL contains `targetId`, or -1. */
  function FirstContaining(urls: seq<string>, targetId: TargetId): (r: int)
    ensures -1 <= r < |urls|
    ensures r >= 0 ==> Text.Contains(urls[r], targetId)
    ensures forall j :: 0 <= j < |urls| && (r < 0 || j < r) ==> !Text.Contains(urls[j], targetId)
  {
    if urls == [] then -1
    else if Text.IndexOf(urls[0], targetId) >= 0 then 0
    else
      var r := FirstContaining(urls[1..], targetId);
      assert forall j :: 1 <= j < |urls| ==> urls[j] == urls[1..][j - 1];
      if r < 0 then -1 else r + 1
  }

  /** `stack.splice(i, 1)`. */
  function RemoveAt<T>(s: seq<T>, i: int): (r: seq<T>)
    requires 0 <= i < |s|
    ensures |r| == |s| - 1
    ensures forall j :: 0 <= j < i ==> r[j] == s[j]
    ensures forall j :: i <= j < |r| ==> r[j] == s[j + 1]
    ensures multiset(r) + multiset{s[i]} == multiset(s)
  {
    assert s == s[..i] + [s[i]] + s[i + 1..];
    s[..i] + s[i + 1..]
  }

  // ---------------------------------------------------------------------
  // Protocol commands

  datatype Domain = NetworkDomain | SecurityDomain | PageDomain | DomDomain | RuntimeDomain

  /**
   * What the manager does to the outside world, in order: protocol
   * commands, calls into the state detector, listener changes and
   * exceptions that escape a handler.
   */
  datatype Effect =
    | LaunchBrowser(flags: seq<string>)
    | CreateTarget(target: TargetId)
    | Connect(client: ClientId, target: TargetId)
    | Evaluate(client: ClientId, expression: Option<string>, contextId: Option<int>)
    | SetDeviceMetrics(client: ClientId, width: int, height: int)
    | SetUserAgent(client: ClientId, userAgent: string)
    | AttachListeners(client: ClientId)
    | RemoveListeners(client: ClientId)
    | Enable(client: ClientId, domain: Domain)
    | Disable(client: ClientId, domain: Domain)
    | OverrideCertificateErrors(client: ClientId)
    | DiscoverTargets(client: ClientId, on: bool)
    | AttachToFrames(client: ClientId, on: bool)
    | SetDownloadBehavior(client: ClientId, folderOf: AppId)
    | SetInterception(client: ClientId, request: InterceptionRequest)
    | Navigate(client: ClientId, url: string)
    | ContinueIntercepted(client: ClientId, interceptionId: string, answer: Option<ChallengeAnswer>)
    | GetDocument(client: ClientId)
    | ClosePage(client: ClientId)
    | DetectState(app: Option<AppId>, force: bool)
    | DialogOpening(app: Option<AppId>)
    | Uncaught(error: JsError)

  const SizeProbe := "window.innerWidth + 'x' + window.innerHeight"
  const TopLevelProbe := "window === window.top"
  const BlankPage := "about:blank"

  /** Resize (read the current size, then override it) unless suppressed. */
  function ResizeEffects(c: ClientId, config: AppConfig, noResize: bool): seq<Effect>
  {
    if config.viewportSize.Some? && !noResize then
      [Evaluate(c, Some(SizeProbe), None),
       SetDeviceMetrics(c, config.viewportSize.value.width, config.viewportSize.value.height)]
    else []
  }

  function UserAgentEffects(c: ClientId, ua: Option<string>): seq<Effect>
  {
    if ua.Some? then [SetUserAgent(c, ua.value)] else []
  }

  function AuthEffects(c: ClientId, auth: Option<InterceptionRequest>): seq<Effect>
  {
    if auth.Some? then [SetInterception(c, auth.value)] else []
  }

  /** `setupClient`'s commands in order. */
  function SetupEffects(c: ClientId, appId: AppId, config: AppConfig, noResize: bool,
                        ua: Option<string>, auth: Option<InterceptionRequest>): seq<Effect>
  {
    ResizeEffects(c, config, noResize) + UserAgentEffects(c, ua)
    + [AttachListeners(c), Enable(c, NetworkDomain)]
    + AuthEffects(c, auth)
    + [Enable(c, SecurityDomain), OverrideCertificateErrors(c),
       Enable(c, PageDomain), Enable(c, DomDomain), Enable(c, RuntimeDomain),
       DiscoverTargets(c, true), AttachToFrames(c, true), SetDownloadBehavior(c, appId)]
    + (if config.useCookies then [Uncaught(ReferenceError)] else [])
  }

  /**
   * Setup attaches the listeners before any protocol domain is enabled, and
   * enables network, security, page, DOM and runtime.
   */
  lemma SetupListensBeforeEnabling(c: ClientId, appId: AppId, config: AppConfig, noResize: bool,
                                   ua: Option<string>, auth: Option<InterceptionRequest>)
    ensures var r := SetupEffects(c, appId, config, noResize, ua, auth);
      exists a :: 0 <= a < |r| && r[a] == AttachListeners(c) &&
                  forall j :: 0 <= j < |r| && r[j].Enable? ==> a < j
    ensures var r := SetupEffects(c, appId, config, noResize, ua, auth);
      Enable(c, NetworkDomain) in r && Enable(c, PageDomain) in r && Enable(c, DomDomain) in r
      && Enable(c, RuntimeDomain) in r && Enable(c, SecurityDomain) in r
  {
    var r := SetupEffects(c, appId, config, noResize, ua, auth);
    var before := ResizeEffects(c, config, noResize) + UserAgentEffects(c, ua);
    assert r[|before|] == AttachListeners(c);
    assert forall j :: 0 <= j < |before| ==> !r[j].Enable?;
  }

  /**
   * Setup ends by pointing downloads at the app's folder, or with the
   * ReferenceError of cookie injection, which reads an undeclared
   * `launchparams`.
   */
  lemma SetupEndsWith(before: seq<Effect>, c: ClientId, appId: AppId, config: AppConfig, noResize: bool,
                      ua: Option<string>, auth: Option<InterceptionRequest>)
    ensures var r := before + SetupEffects(c, appId, config, noResize, ua, auth);
      |r| > 0 && r[|r| - 1] == if config.useCookies then Uncaught(ReferenceError) else SetDownloadBehavior(c, appId)
  {
  }

  /** `unsetupClient`'s commands in order. */
  function TeardownEffects(c: ClientId, version: string): seq<Effect>
  {
    [RemoveListeners(c), SetInterception(c, SetupAuthentication(version, NoAuth).request),
     Disable(c, NetworkDomain), Disable(c, PageDomain), Disable(c, DomDomain), Disable(c, RuntimeDomain),
     DiscoverTargets(c, false), AttachToFrames(c, false)]
  }

  /**
   * Teardown detaches the listeners first, switches interception off, and
   * disables network, page, DOM and runtime; it enables nothing.
   */
  lemma TeardownSwitchesOff(c: ClientId, version: string)
    ensures var r := TeardownEffects(c, version);
      |r| > 0 && r[0] == RemoveListeners(c)
    ensures var r := TeardownEffects(c, version);
      forall j :: 0 <= j < |r| ==> !r[j].Enable?
    ensures var r := TeardownEffects(c, version);
      exists j :: 0 <= j < |r| && r[j].SetInterception? && !InterceptsSomething(r[j].request)
    ensures var r := TeardownEffects(c, version);
      Disable(c, NetworkDomain) in r && Disable(c, PageDomain) in r
      && Disable(c, DomDomain) in r && Disable(c, RuntimeDomain) in r
  {
    var r := TeardownEffects(c, version);
    TeardownDisablesInterception(version);
    assert r[1].SetInterception?;
  }
}
