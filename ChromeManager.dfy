/**
 * The session manager of smartux-connect-patch-exports-fix2/chrome.js as one
 * object: the target pool, the app registry with its client stacks, and the
 * per-client state the event handlers update.  Every handler is one atomic
 * method.  Timers are handles in `timers`; protocol commands, calls into the
 * state detector and escaping exceptions are appended to `log`; an answer
 * the code waits for is registered in `awaiting` under the log position of
 * its request and delivered by a later method call.
 */
module ChromeManager {
  import opened Wrappers
  import opened ChromeProtocol
  import opened JsonValue

  /** What the module keeps on one `chrome-remote-interface` client object. */
  datatype ClientState = ClientState(
    target: TargetId,
    webSocketUrl: string,
    appId: Option<AppId>,
    appConfig: Option<AppConfig>,
    injectScript: Option<string>,
    chromeVersion: Option<string>,
    listening: bool,
    contextTimers: Option<map<int, TimerHandle>>,
    checkStateTimer: Option<TimerHandle>,
    injectedContext: Option<int>,
    forceNextCheck: bool,
    authChallenges: Option<map<string, bool>>,
    authConfig: Option<AuthConfig>)

  /** A client just connected to `target`. */
  function Connected(target: TargetId, webSocketUrl: string): ClientState
  {
    ClientState(target, webSocketUrl, None, None, None, None, false, None, None, None, false, None, None)
  }

  /** A pending timer: the zero-delay probe of a new context, or the debounced state check. */
  datatype TimerTask = ProbeContext(client: ClientId, context: int) | StateCheck(client: ClientId, delay: int)

  /** An answer the code waits for. */
  datatype Pending =
    | TopCheck(client: ClientId, context: int)
    | Injection(client: ClientId, contextId: Option<int>)
    | DocumentFetch(client: ClientId)

  /** What launching the browser, asking its version and listing its targets yields. */
  datatype LaunchOutcome = LaunchFailed | Launched(version: string, userAgent: string, listed: seq<TargetId>)

  /**
   * The answer to evaluating the inject script.  A protocol error reaches the
   * callback as an error object without `exceptionDetails`.
   */
  datatype InjectReply = Evaluated | ExceptionDetails | ProtocolError

  function ContextMap(cs: ClientState): map<int, TimerHandle>
  {
    if cs.contextTimers.Some? then cs.contextTimers.value else map[]
  }

  function HandlesOf(m: map<int, TimerHandle>): set<TimerHandle>
  {
    set k | k in m :: m[k]
  }

  /** `clearTimeout` on an optional handle. */
  function Cancel(timers: map<TimerHandle, TimerTask>, h: Option<TimerHandle>): map<TimerHandle, TimerTask>
  {
    if h.Some? then timers - {h.value} else timers
  }

  /** The client has an injected context id greater than zero. */
  predicate Armed(cs: ClientState)
  {
    cs.injectedContext.Some? && cs.injectedContext.value > 0
  }

  /** Distinct targets, and so distinct clients, in one app's stack. */
  predicate StackOk(stack: seq<ClientId>, clients: map<ClientId, ClientState>)
  {
    (forall i :: 0 <= i < |stack| ==> stack[i] in clients)
    && forall i, j :: 0 <= i < j < |stack| ==> clients[stack[i]].target != clients[stack[j]].target
  }

  predicate AppsOk(apps: map<AppId, seq<ClientId>>, clients: map<ClientId, ClientState>)
  {
    forall a :: a in apps ==> StackOk(apps[a], clients)
  }

  /** Client ids are below the next one; a listening client is fully set up. */
  predicate ClientsOk(clients: map<ClientId, ClientState>, nextClient: ClientId)
  {
    forall c :: c in clients ==>
      c < nextClient
      && (clients[c].listening ==>
            clients[c].appId.Some? && clients[c].appConfig.Some? && clients[c].chromeVersion.Some?)
  }

  /**
   * Handles are below the next one and belong to known clients; a pending
   * state check is the one its client keeps.
   */
  predicate TimersOk(timers: map<TimerHandle, TimerTask>, nextTimer: TimerHandle, clients: map<ClientId, ClientState>)
  {
    forall h :: h in timers ==>
      h < nextTimer && timers[h].client in clients
      && (timers[h].StateCheck? ==> clients[timers[h].client].checkStateTimer == Some(h))
  }

  /** Every awaited answer belongs to a request already issued by a known client. */
  predicate AwaitingOk(awaiting: map<nat, Pending>, issued: nat, clients: map<ClientId, ClientState>)
  {
    forall r :: r in awaiting ==> r < issued && awaiting[r].client in clients
  }

  /** Replacing a client's state keeps the stacks when its target stays. */
  lemma StacksKeepTargets(apps: map<AppId, seq<ClientId>>, clients: map<ClientId, ClientState>, c: ClientId, cs: ClientState)
    requires AppsOk(apps, clients) && c in clients && cs.target == clients[c].target
    ensures AppsOk(apps, clients[c := cs])
  {
    forall a | a in apps ensures StackOk(apps[a], clients[c := cs]) {
      var s := apps[a];
      forall i, j | 0 <= i < j < |s| ensures clients[c := cs][s[i]].target != clients[c := cs][s[j]].target {
        assert clients[c := cs][s[i]].target == clients[s[i]].target;
        assert clients[c := cs][s[j]].target == clients[s[j]].target;
      }
    }
  }

  /** A new client leaves every stack as it was. */
  lemma StacksKeepFresh(apps: map<AppId, seq<ClientId>>, clients: map<ClientId, ClientState>, c: ClientId, cs: ClientState)
    requires AppsOk(apps, clients) && c !in clients
    ensures AppsOk(apps, clients[c := cs])
  {
    forall a | a in apps ensures StackOk(apps[a], clients[c := cs]) {
      var s := apps[a];
      forall i, j | 0 <= i < j < |s| ensures clients[c := cs][s[i]].target != clients[c := cs][s[j]].target {
        assert s[i] != c && s[j] != c;
      }
    }
  }

  /**
   * Replacing one client's state keeps the registry invariants when the
   * target and the kept state-check handle stay and a listening client is
   * fully set up.
   */
  lemma ClientReplaced(apps: map<AppId, seq<ClientId>>, clients: map<ClientId, ClientState>,
                       timers: map<TimerHandle, TimerTask>, nextTimer: TimerHandle, nextClient: ClientId,
                       awaiting: map<nat, Pending>, issued: nat, c: ClientId, cs: ClientState)
    requires AppsOk(apps, clients) && ClientsOk(clients, nextClient)
    requires TimersOk(timers, nextTimer, clients) && AwaitingOk(awaiting, issued, clients)
    requires c in clients && cs.target == clients[c].target && cs.checkStateTimer == clients[c].checkStateTimer
    requires cs.listening ==> cs.appId.Some? && cs.appConfig.Some? && cs.chromeVersion.Some?
    ensures AppsOk(apps, clients[c := cs]) && ClientsOk(clients[c := cs], nextClient)
    ensures TimersOk(timers, nextTimer, clients[c := cs]) && AwaitingOk(awaiting, issued, clients[c := cs])
  {
    StacksKeepTargets(apps, clients, c, cs);
  }

  /** Registering a duplicate-free stack for an app keeps the registry invariant. */
  lemma StackRegistered(apps: map<AppId, seq<ClientId>>, clients: map<ClientId, ClientState>, a: AppId, s: seq<ClientId>)
    requires AppsOk(apps, clients) && StackOk(s, clients)
    ensures AppsOk(apps[a := s], clients)
  {
  }

  /** A client connected under a fresh id keeps the registry invariants. */
  lemma ClientAdded(apps: map<AppId, seq<ClientId>>, clients: map<ClientId, ClientState>,
                    timers: map<TimerHandle, TimerTask>, nextTimer: TimerHandle, nextClient: ClientId,
                    awaiting: map<nat, Pending>, issued: nat, cs: ClientState)
    requires AppsOk(apps, clients) && ClientsOk(clients, nextClient)
    requires TimersOk(timers, nextTimer, clients) && AwaitingOk(awaiting, issued, clients)
    requires !cs.listening
    ensures nextClient !in clients
    ensures AppsOk(apps, clients[nextClient := cs]) && ClientsOk(clients[nextClient := cs], nextClient + 1)
    ensures TimersOk(timers, nextTimer, clients[nextClient := cs]) && AwaitingOk(awaiting, issued, clients[nextClient := cs])
  {
    StacksKeepFresh(apps, clients, nextClient, cs);
  }

  /** Removing one client from a duplicate-free stack leaves it duplicate-free. */
  lemma StackShrunk(s: seq<ClientId>, i: int, clients: map<ClientId, ClientState>)
    requires StackOk(s, clients) && 0 <= i < |s|
    ensures StackOk(RemoveAt(s, i), clients)
  {
    var r := RemoveAt(s, i);
    forall j, k | 0 <= j < k < |r| ensures clients[r[j]].target != clients[r[k]].target {
      var j' := if j < i then j else j + 1;
      var k' := if k < i then k else k + 1;
      assert r[j] == s[j'] && r[k] == s[k'] && j' < k';
    }
  }

  /** Re-arming a client's state check with a fresh handle keeps the invariants. */
  lemma StateCheckRearmed(apps: map<AppId, seq<ClientId>>, clients: map<ClientId, ClientState>,
                          timers: map<TimerHandle, TimerTask>, nextTimer: TimerHandle, nextClient: ClientId,
                          awaiting: map<nat, Pending>, issued: nat, c: ClientId, delay: int)
    requires AppsOk(apps, clients) && ClientsOk(clients, nextClient)
    requires TimersOk(timers, nextTimer, clients) && AwaitingOk(awaiting, issued, clients)
    requires c in clients
    ensures var clients' := clients[c := clients[c].(checkStateTimer := Some(nextTimer))];
      var timers' := Cancel(timers, clients[c].checkStateTimer)[nextTimer := StateCheck(c, delay)];
      AppsOk(apps, clients') && ClientsOk(clients', nextClient)
      && TimersOk(timers', nextTimer + 1, clients') && AwaitingOk(awaiting, issued, clients')
  {
    var cs := clients[c];
    var clients' := clients[c := cs.(checkStateTimer := Some(nextTimer))];
    StacksKeepTargets(apps, clients, c, cs.(checkStateTimer := Some(nextTimer)));
    var timers' := Cancel(timers, cs.checkStateTimer)[nextTimer := StateCheck(c, delay)];
    forall h | h in timers' && timers'[h].StateCheck?
      ensures clients'[timers'[h].client].checkStateTimer == Some(h)
    {
      if h != nextTimer {
        assert h in timers && timers'[h] == timers[h];
        assert timers[h].client == c ==> cs.checkStateTimer == Some(h);
      }
    }
  }

  /** The handles stored under the given keys of a context map. */
  function HandlesUnder(m: map<int, TimerHandle>, keys: set<int>): set<TimerHandle>
  {
    set k | k in keys && k in m :: m[k]
  }

  lemma HandlesUnderNone(m: map<int, TimerHandle>)
    ensures HandlesUnder(m, {}) == {}
  {
  }

  lemma HandlesUnderAll(m: map<int, TimerHandle>)
    ensures HandlesUnder(m, m.Keys) == HandlesOf(m)
  {
  }

  lemma HandlesUnderAdd(m: map<int, TimerHandle>, keys: set<int>, k: int)
    requires k in m
    ensures HandlesUnder(m, keys + {k}) == HandlesUnder(m, keys) + {m[k]}
  {
  }

  /** Two fresh timers set and cleared again leave the pending timers as they were. */
  lemma ProbesCleared(timers: map<TimerHandle, TimerTask>, h: TimerHandle, task: TimerTask)
    requires forall k :: k in timers ==> k < h
    ensures timers[h := task][h + 1 := task] - {h + 1} - {h} == timers
  {
  }

  /**
   * Clear the timer of every key of a context map, one key at a time, as
   * the teardown and the clearing of all contexts do.
   */
  method ClearTimers(timers: map<TimerHandle, TimerTask>, m: map<int, TimerHandle>)
    returns (pending: map<TimerHandle, TimerTask>)
    ensures pending == timers - HandlesOf(m)
  {
    pending := timers;
    var remaining := m.Keys;
    ghost var cleared: set<int> := {};
    HandlesUnderNone(m);
    while exists k :: k in remaining
      invariant cleared !! remaining && cleared + remaining == m.Keys
      invariant pending == timers - HandlesUnder(m, cleared)
      decreases |remaining|
    {
      var k :| k in remaining;
      pending := pending - {m[k]};
      HandlesUnderAdd(m, cleared, k);
      cleared := cleared + {k};
      remaining := remaining - {k};
    }
    NoKeyLeft(remaining);
    HandlesUnderAll(m);
  }

  /** `connectedApps[client.appId].clients[0] == client`. */
  predicate Front(apps: map<AppId, seq<ClientId>>, clients: map<ClientId, ClientState>, c: ClientId)
    requires c in clients
  {
    var app := clients[c].appId;
    app.Some? && app.value in apps && |apps[app.value]| > 0 && apps[app.value][0] == c
  }

  /** What one `checkState` leaves: whether it threw, and the clients, timers, next handle and log after it. */
  datatype Checked = Checked(threw: bool, clients: map<ClientId, ClientState>, timers: map<TimerHandle, TimerTask>,
                             nextTimer: TimerHandle, log: seq<Effect>)

  /**
   * `checkState` on the state before it.  An unregistered app throws a
   * TypeError and changes nothing else; a client that is not the armed
   * front client of its app changes nothing; the armed front client clears
   * its pending state check and, with a configuration, arms a new one under
   * the next handle, and without one throws a TypeError.
   */
  function CheckOutcome(apps: map<AppId, seq<ClientId>>, clients: map<ClientId, ClientState>,
                        timers: map<TimerHandle, TimerTask>, nextTimer: TimerHandle, log: seq<Effect>,
                        c: ClientId): (r: Checked)
    requires c in clients
    ensures var cs := clients[c];
      r.threw <==> cs.appId.None? || cs.appId.value !in apps || (Front(apps, clients, c) && Armed(cs) && cs.appConfig.None?)
    ensures r.log == log + (if r.threw then [Uncaught(TypeError)] else [])
    ensures r.clients.Keys == clients.Keys
    ensures var cs := clients[c];
      var rearmed := Front(apps, clients, c) && Armed(cs) && cs.appConfig.Some?;
      r.nextTimer == (if rearmed then nextTimer + 1 else nextTimer)
      && (rearmed ==> nextTimer in r.timers && r.timers[nextTimer] == StateCheck(c, cs.appConfig.value.debounceTime)
                      && r.clients[c].checkStateTimer == Some(nextTimer))
    ensures forall d :: d in clients && d != c ==> r.clients[d] == clients[d]
    ensures forall h :: h in r.timers && h != nextTimer ==> h in timers && r.timers[h] == timers[h]
    ensures !Front(apps, clients, c) || !Armed(clients[c]) ==> r.clients == clients && r.timers == timers
  {
    var cs := clients[c];
    if cs.appId.None? || cs.appId.value !in apps then Checked(true, clients, timers, nextTimer, log + [Uncaught(TypeError)])
    else if !(Front(apps, clients, c) && Armed(cs)) then Checked(false, clients, timers, nextTimer, log)
    else if cs.appConfig.None? then Checked(true, clients, Cancel(timers, cs.checkStateTimer), nextTimer, log + [Uncaught(TypeError)])
    else
      Checked(false, clients[c := cs.(checkStateTimer := Some(nextTimer))],
              Cancel(timers, cs.checkStateTimer)[nextTimer := StateCheck(c, cs.appConfig.value.debounceTime)],
              nextTimer + 1, log)
  }

  /** What one `releaseClient` leaves: whether it threw, and the pool, clients, timers and log after it. */
  datatype Release = Release(threw: bool, targets: seq<TargetEntry>, clients: map<ClientId, ClientState>,
                             timers: map<TimerHandle, TimerTask>, log: seq<Effect>)

  /**
   * `releaseClient` on the state before it: the client is torn down (see
   * `Unset` and `TeardownEffects`), its context timers and state check are
   * cleared, then it navigates to the blank page and its target is marked
   * free and its app forgotten.  A client never set up throws at the
   * interception step; a target outside the pool throws after the
   * navigation.
   */
  function ReleaseOutcome(targets: seq<TargetEntry>, clients: map<ClientId, ClientState>,
                          timers: map<TimerHandle, TimerTask>, log: seq<Effect>, c: ClientId): (r: Release)
    requires c in clients
    ensures var cs := clients[c];
      r.threw <==> cs.chromeVersion.None? || ReleaseTarget(targets, cs.target).None?
    ensures r.targets == if r.threw then targets else ReleaseTarget(targets, clients[c].target).value
    ensures r.clients.Keys == clients.Keys && (!r.threw ==> r.clients[c].appId.None?)
    ensures !r.clients[c].listening && r.clients[c].contextTimers.None? && r.clients[c].checkStateTimer.None?
    ensures forall d :: d in clients && d != c ==> r.clients[d] == clients[d]
    ensures forall h :: h in r.timers ==> h in timers && r.timers[h] == timers[h]
    ensures forall h :: h in HandlesOf(ContextMap(clients[c])) ==> h !in r.timers
    ensures clients[c].checkStateTimer.Some? ==> clients[c].checkStateTimer.value !in r.timers
    ensures !r.threw ==> r.log == log + TeardownEffects(c, clients[c].chromeVersion.value) + [Navigate(c, BlankPage)]
    ensures r.threw ==> |r.log| > |log| && r.log[..|log|] == log && r.log[|r.log| - 1] == Uncaught(TypeError)
  {
    var cs := clients[c];
    var cleared := Cancel(timers - HandlesOf(ContextMap(cs)), cs.checkStateTimer);
    if cs.chromeVersion.None? then
      Release(true, targets, clients[c := Unset(cs)], cleared, log + [RemoveListeners(c), Uncaught(TypeError)])
    else
      var navigated := log + TeardownEffects(c, cs.chromeVersion.value) + [Navigate(c, BlankPage)];
      var released := ReleaseTarget(targets, cs.target);
      if released.None? then Release(true, targets, clients[c := Unset(cs)], cleared, navigated + [Uncaught(TypeError)])
      else Release(false, released.value, clients[c := Unset(cs).(appId := None)], cleared, navigated)
  }

  /** The app's main client right after `setupClient`, on a fresh connection and without credentials. */
  function MainClientState(target: TargetId, webSocketUrl: string, appId: AppId, config: AppConfig, script: string,
                           version: string): ClientState
  {
    Connected(target, webSocketUrl).(appId := Some(appId), appConfig := Some(config), injectScript := Some(script),
                                     listening := true, chromeVersion := Some(version))
  }

  /** Connecting a client and then setting it up as an app's main client yields `MainClientState`. */
  lemma MainClientSetUp(before: map<ClientId, ClientState>, connected: map<ClientId, ClientState>,
                        after: map<ClientId, ClientState>, c: ClientId, target: TargetId, webSocketUrl: string,
                        appId: AppId, config: AppConfig, script: string, version: string)
    requires connected == before[c := Connected(target, webSocketUrl)]
    requires after == connected[c := connected[c].(appId := Some(appId), appConfig := Some(config),
                                                   injectScript := Some(script), listening := true,
                                                   chromeVersion := Some(version), authConfig := connected[c].authConfig)]
    ensures after == before[c := MainClientState(target, webSocketUrl, appId, config, script, version)]
  {
  }

  /**
   * The log after registering an app's main client: the browser creates a
   * target when none is free, the client connects to the acquired one, then
   * it is set up without resizing and without credentials.
   */
  function RegisterLog(log: seq<Effect>, c: ClientId, created: TargetId, acquired: (seq<TargetEntry>, TargetId, bool),
                       appId: AppId, config: AppConfig, ua: Option<string>): seq<Effect>
  {
    log + (if acquired.2 then [CreateTarget(created)] else []) + [Connect(c, acquired.1)]
    + SetupEffects(c, appId, config, false, ua, None)
  }

  /** The navigation to the start URL once setup returned. */
  function StartNavigation(c: ClientId, config: AppConfig): seq<Effect>
  {
    if !config.useCookies && NonEmpty(config.startURL) then [Navigate(c, config.startURL.value)] else []
  }

  /**
   * The app's main client is set up with the app's configuration and
   * script and no credentials, and its last command is the navigation to
   * the start URL, or the last setup command when there is none or setup
   * threw.
   */
  predicate MainClientOpened(clients: map<ClientId, ClientState>, log: seq<Effect>,
                             c: ClientId, appId: AppId, config: AppConfig, script: string)
  {
    c in clients && clients[c].listening && clients[c].appId == Some(appId) && clients[c].appConfig == Some(config)
    && clients[c].injectScript == Some(script) && clients[c].authConfig.None?
    && |log| > 0
    && log[|log| - 1] == (if config.useCookies then Uncaught(ReferenceError)
                          else if NonEmpty(config.startURL) then Navigate(c, config.startURL.value)
                          else SetDownloadBehavior(c, appId))
  }

  /** What `unsetupClient` deletes from a client, listeners included. */
  function Unset(cs: ClientState): ClientState
  {
    cs.(listening := false, contextTimers := None, checkStateTimer := None, injectedContext := None,
        injectScript := None, appConfig := None, forceNextCheck := false, authChallenges := None, authConfig := None)
  }

  function Markers(cs: ClientState): map<string, bool>
  {
    if cs.authChallenges.Some? then cs.authChallenges.value else map[]
  }

  /**
   * The client's state and the commands after one intercepted request.  An
   * auth challenge is answered by the marker state of its interception id
   * and forces the next state check; answering with credentials the client
   * does not have throws after marking the id.  Other requests continue
   * unchanged.
   */
  function Intercept(cs: ClientState, c: ClientId, interceptionId: string, authChallenge: bool)
    : (r: (ClientState, seq<Effect>))
    ensures !authChallenge ==> r == (cs, [ContinueIntercepted(c, interceptionId, None)])
    ensures authChallenge ==>
      r.0 == cs.(authChallenges := Some(ChallengeStep(Markers(cs), interceptionId).0),
                 forceNextCheck := r.0.forceNextCheck)
      && Marked(r.0.authChallenges.value, interceptionId) != Marked(Markers(cs), interceptionId)
      && |r.1| == 1
    ensures authChallenge && Marked(Markers(cs), interceptionId) ==>
      r.1[0] == ContinueIntercepted(c, interceptionId, Some(CancelAuth)) && r.0.forceNextCheck
    ensures authChallenge && !Marked(Markers(cs), interceptionId) && cs.authConfig.Some? ==>
      r.1[0] == ContinueIntercepted(c, interceptionId,
                  Some(ProvideCredentials(cs.authConfig.value.username, cs.authConfig.value.password)))
      && r.0.forceNextCheck
    ensures authChallenge && !Marked(Markers(cs), interceptionId) && cs.authConfig.None? ==>
      r.1[0] == Uncaught(TypeError) && r.0.forceNextCheck == cs.forceNextCheck
  {
    if !authChallenge then (cs, [ContinueIntercepted(c, interceptionId, None)])
    else
      var step := ChallengeStep(Markers(cs), interceptionId);
      var marked := cs.(authChallenges := Some(step.0));
      if !step.1 then
        (marked.(forceNextCheck := true), [ContinueIntercepted(c, interceptionId, Some(CancelAuth))])
      else if cs.authConfig.None? then
        (marked, [Uncaught(TypeError)])
      else
        (marked.(forceNextCheck := true),
         [ContinueIntercepted(c, interceptionId,
            Some(ProvideCredentials(cs.authConfig.value.username, cs.authConfig.value.password)))])
  }

  class Manager {
    var targets: seq<TargetEntry>
    var apps: map<AppId, seq<ClientId>>
    var clients: map<ClientId, ClientState>
    var timers: map<TimerHandle, TimerTask>
    var nextTimer: TimerHandle
    var nextClient: ClientId
    var awaiting: map<nat, Pending>
    var log: seq<Effect>
    var startingApp: bool
    var launched: bool
    var browserVersion: string
    var userAgent: string

    ghost predicate Valid()
      reads this
    {
      DistinctIds(targets)
      && AppsOk(apps, clients)
      && ClientsOk(clients, nextClient)
      && TimersOk(timers, nextTimer, clients)
      && AwaitingOk(awaiting, |log|, clients)
    }

    constructor()
      ensures Valid()
      ensures targets == [] && apps == map[] && clients == map[] && timers == map[]
      ensures awaiting == map[] && log == [] && !startingApp && !launched
    {
      targets := [];
      apps := map[];
      clients := map[];
      timers := map[];
      nextTimer := 0;
      nextClient := 0;
      awaiting := map[];
      log := [];
      startingApp := false;
      launched := false;
      browserVersion := "";
      userAgent := "";
    }

    /** At most one state check is pending per client: the one it keeps. */
    lemma AtMostOneStateCheck(h1: TimerHandle, h2: TimerHandle)
      requires Valid()
      requires h1 in timers && h2 in timers && timers[h1].StateCheck? && timers[h2].StateCheck?
      requires timers[h1].client == timers[h2].client
      ensures h1 == h2
    {
    }

    /** The app registered for the client, as handed to the state detector. */
    function AppEntry(c: ClientId): Option<AppId>
      reads this
      requires c in clients
    {
      var app := clients[c].appId;
      if app.Some? && app.value in apps then app else None
    }

    /** The client is the active client of its app. */
    predicate IsFront(c: ClientId)
      reads this
      requires c in clients
    {
      Front(apps, clients, c)
    }

    function StackUrls(stack: seq<ClientId>): (r: seq<string>)
      reads this
      requires forall i :: 0 <= i < |stack| ==> stack[i] in clients
      ensures |r| == |stack| && forall i :: 0 <= i < |stack| ==> r[i] == clients[stack[i]].webSocketUrl
    {
      if stack == [] then [] else [clients[stack[0]].webSocketUrl] + StackUrls(stack[1..])
    }

    /** `getClient`: the active client of an app; an unknown app throws. */
    function GetClient(appId: AppId): (r: Result<Option<ClientId>, JsError>)
      reads this
      ensures r.Err? <==> appId !in apps
      ensures r.Ok? ==> (r.value.Some? <==> |apps[appId]| > 0)
      ensures r.Ok? && r.value.Some? ==> r.value.value == apps[appId][0]
    {
      if appId !in apps then Err(TypeError)
      else if |apps[appId]| == 0 then Ok(None)
      else Ok(Some(apps[appId][0]))
    }

    predicate IsAppStarted(appId: AppId)
      reads this
    {
      appId in apps
    }

    // -------------------------------------------------------------------
    // Browser and targets

    /**
     * `launchChrome`: flag assembly, then the browser's version, user agent
     * and target listing; every listed target enters the pool as free.
     */
    method LaunchChrome(chrome: Option<ChromeSection>, outcome: LaunchOutcome) returns (ok: bool)
      requires Valid()
      modifies this
      ensures Valid()
      ensures ok <==> LaunchFlags(chrome).Ok? && outcome.Launched?
      ensures log == old(log) + (if LaunchFlags(chrome).Ok? then [LaunchBrowser(LaunchFlags(chrome).value)] else [])
      ensures ok ==> (targets == ListTargets(old(targets), outcome.listed)
                      && browserVersion == outcome.version && userAgent == outcome.userAgent)
      ensures !ok ==> targets == old(targets) && browserVersion == old(browserVersion) && userAgent == old(userAgent)
      ensures apps == old(apps) && clients == old(clients) && timers == old(timers) && awaiting == old(awaiting)
      ensures nextTimer == old(nextTimer) && nextClient == old(nextClient)
      ensures startingApp == old(startingApp) && launched == old(launched)
    {
      var flags := LaunchFlags(chrome);
      if flags.Err? {
        return false;
      }
      log := log + [LaunchBrowser(flags.value)];
      if outcome.LaunchFailed? {
        return false;
      }
      browserVersion := outcome.version;
      userAgent := outcome.userAgent;
      ListInitialTargets(outcome.listed);
      ok := true;
    }

    /** Register the targets the launched browser lists, all free. */
    method ListInitialTargets(listed: seq<TargetId>)
      requires Valid()
      modifies this
      ensures Valid()
      ensures targets == ListTargets(old(targets), listed)
      ensures apps == old(apps) && clients == old(clients) && timers == old(timers) && awaiting == old(awaiting)
      ensures log == old(log) && nextTimer == old(nextTimer) && nextClient == old(nextClient)
      ensures startingApp == old(startingApp) && launched == old(launched)
      ensures browserVersion == old(browserVersion) && userAgent == old(userAgent)
    {
      ListedTargetsStartFree(targets, listed);
      targets := ListTargets(targets, listed);
    }

    /**
     * `newClient`: take the first free target in key order, or have the
     * browser create one, and connect a new client to it.
     */
    method NewClient(created: TargetId, webSocketUrl: string) returns (c: ClientId)
      requires Valid()
      modifies this
      ensures Valid()
      ensures c == old(nextClient) && c !in old(clients) && nextClient == c + 1
      ensures var acquired := Acquire(old(targets), created);
        targets == acquired.0
        && clients == old(clients)[c := Connected(acquired.1, webSocketUrl)]
        && log == old(log) + (if acquired.2 then [CreateTarget(created)] else []) + [Connect(c, acquired.1)]
      ensures apps == old(apps) && timers == old(timers) && awaiting == old(awaiting) && nextTimer == old(nextTimer)
      ensures startingApp == old(startingApp) && launched == old(launched)
      ensures browserVersion == old(browserVersion) && userAgent == old(userAgent)
    {
      var acquired := Acquire(targets, created);
      if acquired.2 {
        log := log + [CreateTarget(created)];
      }
      targets := acquired.0;
      c := OpenConnection(acquired.1, webSocketUrl);
    }

    /** Issue one protocol command; nothing else changes. */
    method Issue(e: Effect)
      requires Valid()
      modifies this
      ensures Valid() && log == old(log) + [e]
      ensures targets == old(targets) && apps == old(apps) && clients == old(clients) && timers == old(timers)
      ensures awaiting == old(awaiting) && nextTimer == old(nextTimer) && nextClient == old(nextClient)
      ensures startingApp == old(startingApp) && launched == old(launched)
      ensures browserVersion == old(browserVersion) && userAgent == old(userAgent)
    {
      log := log + [e];
    }

    /** Open a protocol connection to a target as a new client with nothing set up. */
    method OpenConnection(target: TargetId, webSocketUrl: string) returns (c: ClientId)
      requires Valid()
      modifies this
      ensures Valid()
      ensures c == old(nextClient) && c !in old(clients) && nextClient == c + 1
      ensures clients == old(clients)[c := Connected(target, webSocketUrl)]
      ensures log == old(log) + [Connect(c, target)]
      ensures targets == old(targets) && apps == old(apps) && timers == old(timers) && awaiting == old(awaiting)
      ensures nextTimer == old(nextTimer) && startingApp == old(startingApp) && launched == old(launched)
      ensures browserVersion == old(browserVersion) && userAgent == old(userAgent)
    {
      c := nextClient;
      ClientAdded(apps, clients, timers, nextTimer, nextClient, awaiting, |log|, Connected(target, webSocketUrl));
      nextClient := nextClient + 1;
      clients := clients[c := Connected(target, webSocketUrl)];
      log := log + [Connect(c, target)];
    }

    /**
     * `setupClient`: record the app, its configuration and inject script on
     * the client, then issue the commands of `SetupEffects` in order.
     */
    method SetupClient(c: ClientId, appId: AppId, config: AppConfig, noResize: bool,
                       auth: Option<AuthConfig>, script: string) returns (threw: bool)
      requires Valid() && c in clients
      modifies this
      ensures Valid()
      ensures threw == config.useCookies
      ensures var setup := if auth.Some? then Some(SetupAuthentication(browserVersion, auth.value)) else None;
        log == old(log) + SetupEffects(c, appId, config, noResize, UserAgentOverride(userAgent, config),
                                       if setup.Some? then Some(setup.value.request) else None)
        && clients == old(clients)[c := old(clients[c]).(
             appId := Some(appId), appConfig := Some(config), injectScript := Some(script),
             listening := true, chromeVersion := Some(browserVersion),
             authConfig := if setup.Some? then setup.value.stored else old(clients[c]).authConfig)]
      ensures targets == old(targets) && apps == old(apps) && timers == old(timers) && awaiting == old(awaiting)
      ensures nextTimer == old(nextTimer) && nextClient == old(nextClient)
      ensures startingApp == old(startingApp) && launched == old(launched)
      ensures browserVersion == old(browserVersion) && userAgent == old(userAgent)
    {
      var cs := clients[c];
      var request: Option<InterceptionRequest> := None;
      var stored := cs.authConfig;
      if auth.Some? {
        var setup := SetupAuthentication(browserVersion, auth.value);
        request := Some(setup.request);
        stored := setup.stored;
      }
      ClientReplaced(apps, clients, timers, nextTimer, nextClient, awaiting, |log|, c, cs.(appId := Some(appId), appConfig := Some(config), injectScript := Some(script),
                                  listening := true, chromeVersion := Some(browserVersion), authConfig := stored));
      clients := clients[c := cs.(appId := Some(appId), appConfig := Some(config), injectScript := Some(script),
                                  listening := true, chromeVersion := Some(browserVersion), authConfig := stored)];
      log := log + SetupEffects(c, appId, config, noResize, UserAgentOverride(userAgent, config), request);
      threw := config.useCookies;
    }

    // -------------------------------------------------------------------
    // State checks and injection

    /**
     * `checkState`: only the front client of its app with an injected
     * context id above zero re-arms the debounced state check, replacing the
     * pending one.  An unregistered app throws before anything changes; a
     * missing configuration throws after the old timer is cleared.
     */
    method CheckState(c: ClientId) returns (threw: bool)
      requires Valid() && c in clients
      modifies this
      ensures Valid()
      ensures var cs := old(clients[c]);
        threw <==> cs.appId.None? || cs.appId.value !in old(apps)
                   || (old(IsFront(c)) && Armed(cs) && cs.appConfig.None?)
      ensures var cs := old(clients[c]);
        old(IsFront(c)) && Armed(cs) && cs.appConfig.Some? ==>
          var h := old(nextTimer);
          nextTimer == h + 1
          && timers == Cancel(old(timers), cs.checkStateTimer)[h := StateCheck(c, cs.appConfig.value.debounceTime)]
          && clients == old(clients)[c := cs.(checkStateTimer := Some(h))]
          && log == old(log)
      ensures var cs := old(clients[c]);
        old(IsFront(c)) && Armed(cs) && cs.appConfig.None? ==>
          timers == Cancel(old(timers), cs.checkStateTimer) && clients == old(clients)
          && nextTimer == old(nextTimer) && log == old(log) + [Uncaught(TypeError)]
      ensures !(old(IsFront(c)) && Armed(old(clients[c]))) ==>
        timers == old(timers) && clients == old(clients) && nextTimer == old(nextTimer)
        && log == old(log) + (if threw then [Uncaught(TypeError)] else [])
      ensures targets == old(targets) && apps == old(apps) && awaiting == old(awaiting)
      ensures nextClient == old(nextClient) && startingApp == old(startingApp) && launched == old(launched)
      ensures browserVersion == old(browserVersion) && userAgent == old(userAgent)
      ensures Checked(threw, clients, timers, nextTimer, log)
              == CheckOutcome(old(apps), old(clients), old(timers), old(nextTimer), old(log), c)
    {
      var cs := clients[c];
      if cs.appId.None? || cs.appId.value !in apps {
        log := log + [Uncaught(TypeError)];
        return true;
      }
      if !(IsFront(c) && Armed(cs)) {
        return false;
      }
      if cs.appConfig.None? {
        timers := Cancel(timers, cs.checkStateTimer);
        Issue(Uncaught(TypeError));
        return true;
      }
      RearmStateCheck(c, cs.appConfig.value.debounceTime);
      threw := false;
    }

    /** Replace the client's pending state check by a fresh one after `delay`. */
    method RearmStateCheck(c: ClientId, delay: int)
      requires Valid() && c in clients
      modifies this
      ensures Valid()
      ensures var cs := old(clients[c]);
        var h := old(nextTimer);
        nextTimer == h + 1
        && timers == Cancel(old(timers), cs.checkStateTimer)[h := StateCheck(c, delay)]
        && clients == old(clients)[c := cs.(checkStateTimer := Some(h))]
      ensures targets == old(targets) && apps == old(apps) && awaiting == old(awaiting) && log == old(log)
      ensures nextClient == old(nextClient) && startingApp == old(startingApp) && launched == old(launched)
      ensures browserVersion == old(browserVersion) && userAgent == old(userAgent)
    {
      var cs := clients[c];
      StateCheckRearmed(apps, clients, timers, nextTimer, nextClient, awaiting, |log|, c, delay);
      var h := nextTimer;
      nextTimer := nextTimer + 1;
      timers := Cancel(timers, cs.checkStateTimer)[h := StateCheck(c, delay)];
      clients := clients[c := cs.(checkStateTimer := Some(h))];
    }

    /** `injectJS`: evaluate the client's inject script in a context and wait for the answer. */
    method InjectJS(c: ClientId, context: Option<int>)
      requires Valid() && c in clients
      modifies this
      ensures Valid()
      ensures log == old(log) + [Evaluate(c, old(clients[c]).injectScript, context)]
      ensures awaiting == old(awaiting)[|old(log)| := Injection(c, context)]
      ensures targets == old(targets) && apps == old(apps) && clients == old(clients) && timers == old(timers)
      ensures nextTimer == old(nextTimer) && nextClient == old(nextClient)
      ensures startingApp == old(startingApp) && launched == old(launched)
      ensures browserVersion == old(browserVersion) && userAgent == old(userAgent)
    {
      awaiting := awaiting[|log| := Injection(c, context)];
      log := log + [Evaluate(c, clients[c].injectScript, context)];
    }

    /**
     * The answer to an injection: without `exceptionDetails` the context id
     * becomes the client's injected context and the state is checked; with
     * them nothing changes.
     */
    method InjectionAnswered(request: nat, reply: InjectReply) returns (threw: bool)
      requires Valid() && request in awaiting && awaiting[request].Injection?
      modifies this
      ensures Valid()
      ensures awaiting == old(awaiting) - {request}
      ensures var p := old(awaiting[request]);
        reply.ExceptionDetails? ==> !threw && clients == old(clients) && timers == old(timers) && log == old(log)
      ensures var p := old(awaiting[request]);
        !reply.ExceptionDetails? ==> p.client in clients && clients[p.client].injectedContext == p.contextId
      ensures var p := old(awaiting[request]);
        !reply.ExceptionDetails? ==>
          Checked(threw, clients, timers, nextTimer, log)
          == CheckOutcome(old(apps), old(clients)[p.client := old(clients[p.client]).(injectedContext := p.contextId)],
                          old(timers), old(nextTimer), old(log), p.client)
      ensures targets == old(targets) && apps == old(apps) && nextClient == old(nextClient)
      ensures startingApp == old(startingApp) && launched == old(launched)
    {
      var p := awaiting[request];
      awaiting := awaiting - {request};
      if reply.ExceptionDetails? {
        return false;
      }
      ClientReplaced(apps, clients, timers, nextTimer, nextClient, awaiting, |log|, p.client, clients[p.client].(injectedContext := p.contextId));
      clients := clients[p.client := clients[p.client].(injectedContext := p.contextId)];
      threw := CheckState(p.client);
    }

    /** `updateInjectedJS`: re-inject into the context recorded as injected. */
    method UpdateInjectedJS(c: ClientId)
      requires Valid() && c in clients
      modifies this
      ensures Valid()
      ensures log == old(log) + [Evaluate(c, old(clients[c]).injectScript, old(clients[c]).injectedContext)]
      ensures awaiting == old(awaiting)[|old(log)| := Injection(c, old(clients[c]).injectedContext)]
      ensures targets == old(targets) && apps == old(apps) && clients == old(clients) && timers == old(timers)
      ensures nextTimer == old(nextTimer) && nextClient == old(nextClient)
      ensures startingApp == old(startingApp) && launched == old(launched)
    {
      InjectJS(c, clients[c].injectedContext);
    }

    /** `refreshAppDescriptors`: a new inject script for the app's active client, injected again. */
    method RefreshAppDescriptors(appId: AppId, script: string) returns (threw: bool)
      requires Valid()
      modifies this
      ensures Valid()
      ensures threw <==> appId !in old(apps) || |old(apps)[appId]| == 0
      ensures threw ==> log == old(log) + [Uncaught(TypeError)] && clients == old(clients) && awaiting == old(awaiting)
      ensures !threw ==> var c := old(apps)[appId][0];
        clients == old(clients)[c := old(clients)[c].(injectScript := Some(script))]
        && log == old(log) + [Evaluate(c, Some(script), old(clients)[c].injectedContext)]
        && awaiting == old(awaiting)[|old(log)| := Injection(c, old(clients)[c].injectedContext)]
      ensures targets == old(targets) && apps == old(apps) && timers == old(timers)
      ensures nextTimer == old(nextTimer) && nextClient == old(nextClient)
    {
      if appId !in apps || |apps[appId]| == 0 {
        log := log + [Uncaught(TypeError)];
        return true;
      }
      var c := apps[appId][0];
      ClientReplaced(apps, clients, timers, nextTimer, nextClient, awaiting, |log|, c, clients[c].(injectScript := Some(script)));
      clients := clients[c := clients[c].(injectScript := Some(script))];
      UpdateInjectedJS(c);
      threw := false;
    }

    // -------------------------------------------------------------------
    // Timers and answers

    /**
     * A pending timer fires.  A context probe asks whether the context is the
     * top window, leaving its map entry in place; a state check hands the
     * force flag to the detector and clears it.
     */
    method TimerFired(h: TimerHandle)
      requires Valid() && h in timers
      modifies this
      ensures Valid()
      ensures timers == old(timers) - {h}
      ensures old(timers[h]).ProbeContext? ==>
        var t := old(timers[h]);
        log == old(log) + [Evaluate(t.client, Some(TopLevelProbe), Some(t.context))]
        && awaiting == old(awaiting)[|old(log)| := TopCheck(t.client, t.context)]
        && clients == old(clients)
      ensures old(timers[h]).StateCheck? ==>
        var c := old(timers[h]).client;
        log == old(log) + [DetectState(old(AppEntry(c)), old(clients[c]).forceNextCheck)]
        && clients == old(clients)[c := old(clients[c]).(forceNextCheck := false)]
        && awaiting == old(awaiting)
      ensures targets == old(targets) && apps == old(apps)
      ensures nextTimer == old(nextTimer) && nextClient == old(nextClient)
      ensures startingApp == old(startingApp) && launched == old(launched)
    {
      var task := timers[h];
      timers := timers - {h};
      match task
      case ProbeContext(c, context) =>
        awaiting := awaiting[|log| := TopCheck(c, context)];
        log := log + [Evaluate(c, Some(TopLevelProbe), Some(context))];
      case StateCheck(c, _) =>
        log := log + [DetectState(AppEntry(c), clients[c].forceNextCheck)];
        ClientReplaced(apps, clients, timers, nextTimer, nextClient, awaiting, |log|, c, clients[c].(forceNextCheck := false));
        clients := clients[c := clients[c].(forceNextCheck := false)];
    }

    /** The answer to the top-window probe: only a top-level context gets the inject script. */
    method TopCheckAnswered(request: nat, isTop: bool)
      requires Valid() && request in awaiting && awaiting[request].TopCheck?
      modifies this
      ensures Valid()
      ensures var p := old(awaiting[request]);
        if isTop then
          log == old(log) + [Evaluate(p.client, old(clients[p.client]).injectScript, Some(p.context))]
          && awaiting == (old(awaiting) - {request})[|old(log)| := Injection(p.client, Some(p.context))]
        else log == old(log) && awaiting == old(awaiting) - {request}
      ensures targets == old(targets) && apps == old(apps) && clients == old(clients) && timers == old(timers)
      ensures nextTimer == old(nextTimer) && nextClient == old(nextClient)
    {
      var p := awaiting[request];
      awaiting := awaiting - {request};
      if isTop {
        InjectJS(p.client, Some(p.context));
      }
    }

    /** The document fetched after a DOM change arrived: check the state. */
    method DocumentFetched(request: nat, succeeded: bool) returns (threw: bool)
      requires Valid() && request in awaiting && awaiting[request].DocumentFetch?
      modifies this
      ensures Valid()
      ensures awaiting == old(awaiting) - {request}
      ensures !succeeded ==>
        !threw && clients == old(clients) && timers == old(timers) && log == old(log) && nextTimer == old(nextTimer)
      ensures succeeded ==>
        Checked(threw, clients, timers, nextTimer, log)
        == CheckOutcome(old(apps), old(clients), old(timers), old(nextTimer), old(log), old(awaiting[request]).client)
      ensures targets == old(targets) && apps == old(apps) && nextClient == old(nextClient)
    {
      var c := awaiting[request].client;
      awaiting := awaiting - {request};
      if succeeded {
        threw := CheckState(c);
      } else {
        threw := false;
      }
    }

    // -------------------------------------------------------------------
    // Runtime events

    /**
     * `executionContextCreated`: unless the origin rule rejects the context,
     * its id gets a fresh zero-delay probe timer.  A timer already stored for
     * the same id is dropped from the map but not cleared.
     */
    method ContextCreated(c: ClientId, context: int, origin: string)
      requires Valid() && c in clients
      modifies this
      ensures Valid()
      ensures var cs := old(clients[c]);
        if cs.listening && ContextAccepted(origin, cs.appConfig.value.startURL) then
          var h := old(nextTimer);
          nextTimer == h + 1
          && timers == old(timers)[h := ProbeContext(c, context)]
          && clients == old(clients)[c := cs.(contextTimers := Some(ContextMap(cs)[context := h]))]
        else
          nextTimer == old(nextTimer) && timers == old(timers) && clients == old(clients)
      ensures targets == old(targets) && apps == old(apps) && awaiting == old(awaiting) && log == old(log)
      ensures nextClient == old(nextClient) && startingApp == old(startingApp) && launched == old(launched)
    {
      var cs := clients[c];
      if !cs.listening || !ContextAccepted(origin, cs.appConfig.value.startURL) {
        return;
      }
      var h := nextTimer;
      nextTimer := nextTimer + 1;
      timers := timers[h := ProbeContext(c, context)];
      clients := clients[c := cs.(contextTimers := Some((ContextMap(cs) - {context})[context := h]))];
      assert (ContextMap(cs) - {context})[context := h] == ContextMap(cs)[context := h];
    }

    /**
     * `executionContextDestroyed`: a context with a map entry has its timer
     * cleared and its entry removed.  The injected context id stays.
     */
    method ContextDestroyed(c: ClientId, context: int)
      requires Valid() && c in clients
      modifies this
      ensures Valid()
      ensures var cs := old(clients[c]);
        if cs.listening && context in ContextMap(cs) then
          timers == old(timers) - {ContextMap(cs)[context]}
          && clients == old(clients)[c := cs.(contextTimers := Some(ContextMap(cs) - {context}))]
        else timers == old(timers) && clients == old(clients)
      ensures clients[c].injectedContext == old(clients[c]).injectedContext
      ensures targets == old(targets) && apps == old(apps) && awaiting == old(awaiting) && log == old(log)
      ensures nextTimer == old(nextTimer) && nextClient == old(nextClient)
    {
      var cs := clients[c];
      if cs.listening && context in ContextMap(cs) {
        var m := ContextMap(cs);
        timers := timers - {m[context]};
        ClientReplaced(apps, clients, timers, nextTimer, nextClient, awaiting, |log|, c, cs.(contextTimers := Some(m - {context})));
        clients := clients[c := cs.(contextTimers := Some(m - {context}))];
      }
    }

    /**
     * `executionContextsCleared`: every timer in the map is cleared, the map
     * is dropped and the injected context id is forgotten.
     */
    method ContextsCleared(c: ClientId)
      requires Valid() && c in clients
      modifies this
      ensures Valid()
      ensures var cs := old(clients[c]);
        if cs.listening then
          timers == old(timers) - HandlesOf(ContextMap(cs))
          && clients == old(clients)[c := cs.(contextTimers := None, injectedContext := None)]
        else timers == old(timers) && clients == old(clients)
      ensures targets == old(targets) && apps == old(apps) && awaiting == old(awaiting) && log == old(log)
      ensures nextTimer == old(nextTimer) && nextClient == old(nextClient)
    {
      var cs := clients[c];
      if !cs.listening {
        return;
      }
      ClientReplaced(apps, clients, timers, nextTimer, nextClient, awaiting, |log|, c,
                     cs.(contextTimers := None, injectedContext := None));
      timers := ClearTimers(timers, ContextMap(cs));
      clients := clients[c := cs.(contextTimers := None, injectedContext := None)];
    }

    /**
     * A context destroyed before its probe fires is never probed: its fresh
     * timer is cleared again, so the pending timers and the log end as they
     * began and only the context's map entry is gone.
     */
    method ContextCreatedThenDestroyed(c: ClientId, context: int, origin: string)
      requires Valid() && c in clients && clients[c].listening
      requires ContextAccepted(origin, clients[c].appConfig.value.startURL)
      modifies this
      ensures Valid()
      ensures timers == old(timers) && log == old(log) && awaiting == old(awaiting)
      ensures var cs := old(clients[c]);
        clients == old(clients)[c := cs.(contextTimers := Some(ContextMap(cs) - {context}))]
      ensures nextTimer == old(nextTimer) + 1
    {
      ContextCreated(c, context, origin);
      ContextDestroyed(c, context);
      assert ContextMap(old(clients[c]))[context := old(nextTimer)] - {context} == ContextMap(old(clients[c])) - {context};
    }

    /**
     * A context id created twice keeps the first probe timer pending but
     * unmapped: destroying the context clears only the second, and the
     * first still fires and probes the destroyed context.
     */
    method ContextRecreatedThenDestroyed(c: ClientId, context: int, origin: string) returns (first: TimerHandle)
      requires Valid() && c in clients && clients[c].listening
      requires ContextAccepted(origin, clients[c].appConfig.value.startURL)
      modifies this
      ensures Valid()
      ensures first == old(nextTimer) && nextTimer == first + 2 && timers == old(timers)
      ensures c in clients && context !in ContextMap(clients[c])
      ensures log == old(log) + [Evaluate(c, Some(TopLevelProbe), Some(context))]
      ensures awaiting == old(awaiting)[|old(log)| := TopCheck(c, context)]
    {
      first := nextTimer;
      ContextCreated(c, context, origin);
      ContextCreated(c, context, origin);
      ContextDestroyed(c, context);
      assert timers[first] == ProbeContext(c, context);
      TimerFired(first);
      ProbesCleared(old(timers), first, ProbeContext(c, context));
    }

    // -------------------------------------------------------------------
    // Network, page and DOM events

    /** `requestIntercepted`, on a listening client: see `Intercept`. */
    method RequestIntercepted(c: ClientId, interceptionId: string, authChallenge: bool)
      requires Valid() && c in clients
      modifies this
      ensures Valid()
      ensures var cs := old(clients[c]);
        if cs.listening then
          var r := Intercept(cs, c, interceptionId, authChallenge);
          clients == old(clients)[c := r.0] && log == old(log) + r.1
        else clients == old(clients) && log == old(log)
      ensures targets == old(targets) && apps == old(apps) && timers == old(timers) && awaiting == old(awaiting)
      ensures nextTimer == old(nextTimer) && nextClient == old(nextClient)
    {
      var cs := clients[c];
      if !cs.listening {
        return;
      }
      var r := Intercept(cs, c, interceptionId, authChallenge);
      ClientReplaced(apps, clients, timers, nextTimer, nextClient, awaiting, |log|, c, r.0);
      clients := clients[c := r.0];
      log := log + r.1;
    }

    /** `javascriptDialogOpening`: forwarded to the state detector. */
    method DialogOpened(c: ClientId)
      requires Valid() && c in clients
      modifies this
      ensures Valid()
      ensures log == old(log) + (if old(clients[c]).listening then [DialogOpening(old(AppEntry(c)))] else [])
      ensures targets == old(targets) && apps == old(apps) && clients == old(clients)
      ensures timers == old(timers) && awaiting == old(awaiting)
      ensures nextTimer == old(nextTimer) && nextClient == old(nextClient)
    {
      if clients[c].listening {
        log := log + [DialogOpening(AppEntry(c))];
      }
    }

    /** `javascriptDialogClosed`: force the next state check and check the state. */
    method DialogClosed(c: ClientId) returns (threw: bool)
      requires Valid() && c in clients
      modifies this
      ensures Valid()
      ensures old(clients[c]).listening ==> c in clients && clients[c].forceNextCheck
      ensures !old(clients[c]).listening ==>
        !threw && clients == old(clients) && log == old(log) && timers == old(timers) && nextTimer == old(nextTimer)
      ensures old(clients[c]).listening ==>
        Checked(threw, clients, timers, nextTimer, log)
        == CheckOutcome(old(apps), old(clients)[c := old(clients[c]).(forceNextCheck := true)],
                        old(timers), old(nextTimer), old(log), c)
      ensures targets == old(targets) && apps == old(apps) && awaiting == old(awaiting)
      ensures nextClient == old(nextClient)
    {
      if !clients[c].listening {
        return false;
      }
      ClientReplaced(apps, clients, timers, nextTimer, nextClient, awaiting, |log|, c, clients[c].(forceNextCheck := true));
      clients := clients[c := clients[c].(forceNextCheck := true)];
      threw := CheckState(c);
    }

    /**
     * A DOM or frame event: a document update, a stopped frame load or any
     * inserted node first fetches the whole document; every other event
     * checks the state at once.
     */
    method DomChanged(c: ClientId, ev: DomEvent) returns (threw: bool)
      requires Valid() && c in clients
      modifies this
      ensures Valid()
      ensures old(clients[c]).listening && RefetchesDocument(ev) ==>
        !threw && log == old(log) + [GetDocument(c)] && awaiting == old(awaiting)[|old(log)| := DocumentFetch(c)]
        && clients == old(clients) && timers == old(timers)
      ensures !old(clients[c]).listening ==> !threw && log == old(log) && clients == old(clients) && timers == old(timers)
      ensures !old(clients[c]).listening || RefetchesDocument(ev) ==> nextTimer == old(nextTimer)
      ensures old(clients[c]).listening && !RefetchesDocument(ev) ==>
        Checked(threw, clients, timers, nextTimer, log)
        == CheckOutcome(old(apps), old(clients), old(timers), old(nextTimer), old(log), c)
      ensures !RefetchesDocument(ev) ==> awaiting == old(awaiting)
      ensures targets == old(targets) && apps == old(apps) && nextClient == old(nextClient)
    {
      if !clients[c].listening {
        return false;
      }
      if RefetchesDocument(ev) {
        awaiting := awaiting[|log| := DocumentFetch(c)];
        log := log + [GetDocument(c)];
        threw := false;
      } else {
        threw := CheckState(c);
      }
    }

    // -------------------------------------------------------------------
    // Target events

    /**
     * The popup half of `targetCreated`: a fresh client for the new target
     * goes on top of the app's stack and is set up without resizing, with
     * the credentials the opener forwards.
     */
    method AttachPopup(app: AppId, targetId: TargetId, webSocketUrl: string, config: AppConfig,
                       auth: Option<AuthConfig>, script: string) returns (n: ClientId)
      requires Valid() && app in apps
      requires forall j :: 0 <= j < |apps[app]| ==> clients[apps[app][j]].target != targetId
      modifies this
      ensures Valid()
      ensures n == old(nextClient) && n !in old(clients)
      ensures apps == old(apps)[app := [n] + old(apps)[app]]
      ensures n in clients && clients[n].target == targetId && clients[n].listening
      ensures clients[n].appId == Some(app) && clients[n].appConfig == Some(config)
      ensures clients[n].authConfig == (if auth.Some? then SetupAuthentication(browserVersion, Forwarded(auth).value).stored else None)
      ensures forall x :: x in old(clients) ==> x in clients && clients[x] == old(clients)[x]
      ensures log == old(log) + [Connect(n, targetId)]
                 + SetupEffects(n, app, config, true, UserAgentOverride(userAgent, config),
                                if auth.Some? then Some(SetupAuthentication(browserVersion, Forwarded(auth).value).request) else None)
      ensures targets == old(targets) && timers == old(timers) && awaiting == old(awaiting)
      ensures nextTimer == old(nextTimer) && startingApp == old(startingApp)
    {
      var stack := apps[app];
      n := OpenConnection(targetId, webSocketUrl);
      assert StackOk([n] + stack, clients) by {
        assert forall j :: 0 <= j < |stack| ==> ([n] + stack)[j + 1] == stack[j];
      }
      StackRegistered(apps, clients, app, [n] + stack);
      apps := apps[app := [n] + stack];
      var _ := SetupClient(n, app, config, true, Forwarded(auth), script);
    }

    /**
     * `targetCreated`: a new page whose target is neither the client's own
     * nor in the app's stack gets a new client on top of the stack, set up
     * without resizing and with the credentials the client keeps.
     */
    method TargetCreated(c: ClientId, targetId: TargetId, targetType: string, webSocketUrl: string, script: string)
      returns (popup: Option<ClientId>)
      requires Valid() && c in clients
      modifies this
      ensures Valid()
      ensures var cs := old(clients[c]);
        popup.Some? <==>
          cs.listening && !old(startingApp) && targetType == "page" && cs.target != targetId
          && cs.appId.value in old(apps)
          && forall i :: 0 <= i < |old(apps)[cs.appId.value]| ==> old(clients)[old(apps)[cs.appId.value][i]].target != targetId
      ensures var cs := old(clients[c]);
        popup.Some? ==>
          popup.value == old(nextClient) && popup.value !in old(clients)
          && apps == old(apps)[cs.appId.value := [popup.value] + old(apps)[cs.appId.value]]
          && popup.value in clients && clients[popup.value].target == targetId && clients[popup.value].listening
          && clients[popup.value].appId == cs.appId && clients[popup.value].appConfig == cs.appConfig
          && clients[popup.value].authConfig ==
               (if cs.authConfig.Some? then SetupAuthentication(browserVersion, Forwarded(cs.authConfig).value).stored else None)
          && (forall x :: x in old(clients) ==> x in clients && clients[x] == old(clients)[x])
          && log == old(log) + [Connect(popup.value, targetId)]
                 + SetupEffects(popup.value, cs.appId.value, cs.appConfig.value, true,
                                UserAgentOverride(userAgent, cs.appConfig.value),
                                if cs.authConfig.Some? then Some(SetupAuthentication(browserVersion, Forwarded(cs.authConfig).value).request) else None)
      ensures var cs := old(clients[c]);
        popup.None? ==> (apps == old(apps) && clients == old(clients)
          && log == old(log) + (if cs.listening && !old(startingApp) && targetType == "page" && cs.target != targetId
                                   && cs.appId.value !in old(apps) then [Uncaught(TypeError)] else []))
      ensures targets == old(targets) && timers == old(timers) && awaiting == old(awaiting)
      ensures nextTimer == old(nextTimer) && startingApp == old(startingApp)
    {
      var cs := clients[c];
      if !(cs.listening && !startingApp && targetType == "page" && cs.target != targetId) {
        return None;
      }
      var app := cs.appId.value;
      if app !in apps {
        log := log + [Uncaught(TypeError)];
        return None;
      }
      var stack := apps[app];
      var i := 0;
      while i < |stack|
        invariant 0 <= i <= |stack|
        invariant forall j :: 0 <= j < i ==> clients[stack[j]].target != targetId
      {
        if clients[stack[i]].target == targetId {
          return None;
        }
        i := i + 1;
      }
      var n := AttachPopup(app, targetId, webSocketUrl, cs.appConfig.value, cs.authConfig, script);
      popup := Some(n);
    }

    /**
     * `targetDestroyed`: the first client of the app's stack whose websocket
     * URL contains the target id leaves the stack; when it was the active
     * client, the new front client checks the state.
     */
    method TargetDestroyed(c: ClientId, targetId: TargetId) returns (removed: int)
      requires Valid() && c in clients
      modifies this
      ensures Valid()
      ensures var cs := old(clients[c]);
        cs.listening && cs.appId.value in old(apps) ==>
          var stack := old(apps)[cs.appId.value];
          removed == FirstContaining(old(StackUrls(stack)), targetId)
          && apps == (if removed < 0 then old(apps) else old(apps)[cs.appId.value := RemoveAt(stack, removed)])
      ensures removed != 0 ==> clients == old(clients) && timers == old(timers)
      ensures var cs := old(clients[c]);
        !cs.listening || cs.appId.value !in old(apps) ==> (removed == -1 && apps == old(apps)
          && log == old(log) + (if cs.listening then [Uncaught(TypeError)] else []))
      ensures removed == 0 && |apps[old(clients[c]).appId.value]| == 0 ==>
        log == old(log) + [Uncaught(TypeError)] && clients == old(clients) && timers == old(timers)
        && nextTimer == old(nextTimer)
      ensures removed != 0 ==> nextTimer == old(nextTimer) && (removed > 0 ==> log == old(log))
      ensures var cs := old(clients[c]);
        cs.listening && cs.appId.value in old(apps) && removed == 0 && |apps[cs.appId.value]| > 0 ==>
          var app := cs.appId.value;
          var r := CheckOutcome(apps, old(clients), old(timers), old(nextTimer), old(log), apps[app][0]);
          clients == r.clients && timers == r.timers && nextTimer == r.nextTimer && log == r.log
      ensures targets == old(targets) && awaiting == old(awaiting) && nextClient == old(nextClient)
    {
      var cs := clients[c];
      if !cs.listening {
        return -1;
      }
      var app := cs.appId.value;
      if app !in apps {
        log := log + [Uncaught(TypeError)];
        return -1;
      }
      var stack := apps[app];
      removed := FirstContaining(StackUrls(stack), targetId);
      if removed < 0 {
        return;
      }
      var rest := RemoveAt(stack, removed);
      StackShrunk(stack, removed, clients);
      StackRegistered(apps, clients, app, rest);
      apps := apps[app := rest];
      if removed == 0 {
        if |rest| == 0 {
          log := log + [Uncaught(TypeError)];
        } else {
          var _ := CheckState(rest[0]);
        }
      }
    }

    // -------------------------------------------------------------------
    // Teardown, apps

    /**
     * `unsetupClient`: detach the listeners, clear every timer of the
     * client, forget its per-app state and credentials, switch interception
     * off and disable the protocol domains.  A client never set up has no
     * version string and throws at the interception step.
     */
    method UnsetupClient(c: ClientId) returns (threw: bool)
      requires Valid() && c in clients
      modifies this
      ensures Valid()
      ensures var cs := old(clients[c]);
        threw == cs.chromeVersion.None?
        && timers == Cancel(old(timers) - HandlesOf(ContextMap(cs)), cs.checkStateTimer)
        && clients == old(clients)[c := Unset(cs)]
        && log == old(log) + (if threw then [RemoveListeners(c), Uncaught(TypeError)]
                              else TeardownEffects(c, cs.chromeVersion.value))
      ensures targets == old(targets) && apps == old(apps) && awaiting == old(awaiting)
      ensures nextTimer == old(nextTimer) && nextClient == old(nextClient)
      ensures startingApp == old(startingApp) && launched == old(launched)
      ensures browserVersion == old(browserVersion) && userAgent == old(userAgent)
    {
      var cs := clients[c];
      var pending := ClearTimers(timers, ContextMap(cs));
      timers := Cancel(pending, cs.checkStateTimer);
      StacksKeepTargets(apps, clients, c, Unset(cs));
      clients := clients[c := Unset(cs)];
      if cs.chromeVersion.None? {
        log := log + [RemoveListeners(c), Uncaught(TypeError)];
        return true;
      }
      log := log + TeardownEffects(c, cs.chromeVersion.value);
      threw := false;
    }

    /**
     * `releaseClient`: teardown, navigate to the blank page, mark only the
     * client's own target free and forget the client's app.  A target outside
     * the pool throws.
     */
    method ReleaseClient(c: ClientId) returns (threw: bool)
      requires Valid() && c in clients
      modifies this
      ensures Valid()
      ensures Release(threw, targets, clients, timers, log)
              == ReleaseOutcome(old(targets), old(clients), old(timers), old(log), c)
      ensures var cs := old(clients[c]);
        var released := ReleaseTarget(old(targets), cs.target);
        threw <==> cs.chromeVersion.None? || released.None?
      ensures var cs := old(clients[c]);
        var released := ReleaseTarget(old(targets), cs.target);
        !threw ==>
          targets == released.value
          && log == old(log) + TeardownEffects(c, cs.chromeVersion.value) + [Navigate(c, BlankPage)]
      ensures threw ==> targets == old(targets)
      ensures c in clients && !clients[c].listening && (!threw ==> clients[c].appId.None?)
      ensures !clients[c].listening && clients[c].contextTimers.None? && clients[c].checkStateTimer.None?
      ensures forall h :: h in timers ==> h in old(timers)
      ensures apps == old(apps) && awaiting == old(awaiting) && nextClient == old(nextClient) && nextTimer == old(nextTimer)
      ensures startingApp == old(startingApp) && launched == old(launched)
      ensures browserVersion == old(browserVersion) && userAgent == old(userAgent)
    {
      threw := UnsetupClient(c);
      if threw {
        return;
      }
      threw := FreeTarget(c);
    }

    /**
     * The second half of `releaseClient`: navigate to the blank page, mark
     * the client's target free and forget its app; a target outside the
     * pool throws after the navigation.
     */
    method FreeTarget(c: ClientId) returns (threw: bool)
      requires Valid() && c in clients && !clients[c].listening
      modifies this
      ensures Valid()
      ensures var released := ReleaseTarget(old(targets), old(clients[c]).target);
        threw == released.None?
        && targets == (if threw then old(targets) else released.value)
        && clients == (if threw then old(clients) else old(clients)[c := old(clients[c]).(appId := None)])
        && log == old(log) + [Navigate(c, BlankPage)] + (if threw then [Uncaught(TypeError)] else [])
      ensures apps == old(apps) && timers == old(timers) && awaiting == old(awaiting)
      ensures nextTimer == old(nextTimer) && nextClient == old(nextClient)
      ensures startingApp == old(startingApp) && launched == old(launched)
      ensures browserVersion == old(browserVersion) && userAgent == old(userAgent)
    {
      Issue(Navigate(c, BlankPage));
      var released := ReleaseTarget(targets, clients[c].target);
      if released.None? {
        Issue(Uncaught(TypeError));
        return true;
      }
      targets := released.value;
      ClientReplaced(apps, clients, timers, nextTimer, nextClient, awaiting, |log|, c, clients[c].(appId := None));
      clients := clients[c := clients[c].(appId := None)];
      threw := false;
    }

    /**
     * `startApp` once the browser is up: take a client, register it as the
     * app's only client and set it up.
     */
    method RegisterMainClient(appId: AppId, config: AppConfig, created: TargetId, webSocketUrl: string, script: string)
      returns (c: ClientId, threw: bool)
      requires Valid()
      modifies this
      ensures Valid()
      ensures threw == config.useCookies
      ensures c == old(nextClient) && apps == old(apps)[appId := [c]]
      ensures var acquired := Acquire(old(targets), created);
        targets == acquired.0
        && clients == old(clients)[c := MainClientState(acquired.1, webSocketUrl, appId, config, script, browserVersion)]
        && log == RegisterLog(old(log), c, created, acquired, appId, config, UserAgentOverride(userAgent, config))
      ensures c in clients
      ensures clients[c].listening && clients[c].appId == Some(appId) && clients[c].appConfig == Some(config)
        && clients[c].injectScript == Some(script) && clients[c].authConfig.None?
      ensures |log| > 0 && log[|log| - 1] == (if config.useCookies then Uncaught(ReferenceError) else SetDownloadBehavior(c, appId))
      ensures timers == old(timers) && awaiting == old(awaiting) && nextTimer == old(nextTimer) && nextClient == c + 1
      ensures startingApp == old(startingApp) && launched == old(launched)
      ensures browserVersion == old(browserVersion) && userAgent == old(userAgent)
    {
      ghost var acquired := Acquire(targets, created);
      c := NewClient(created, webSocketUrl);
      StackRegistered(apps, clients, appId, [c]);
      apps := apps[appId := [c]];
      ghost var before := log;
      ghost var connected := clients;
      threw := SetupClient(c, appId, config, false, None, script);
      SetupEndsWith(before, c, appId, config, false, UserAgentOverride(userAgent, config), None);
      MainClientSetUp(old(clients), connected, clients, c, acquired.1, webSocketUrl, appId, config, script, browserVersion);
    }

    /** The main client, set up and sent to the start URL unless setup threw. */
    method OpenMainClient(appId: AppId, config: AppConfig, created: TargetId, webSocketUrl: string, script: string)
      returns (c: ClientId, threw: bool)
      requires Valid()
      modifies this
      ensures Valid()
      ensures threw == config.useCookies
      ensures c == old(nextClient) && apps == old(apps)[appId := [c]]
      ensures MainClientOpened(clients, log, c, appId, config, script)
      ensures var acquired := Acquire(old(targets), created);
        targets == acquired.0
        && clients == old(clients)[c := MainClientState(acquired.1, webSocketUrl, appId, config, script, browserVersion)]
        && log == RegisterLog(old(log), c, created, acquired, appId, config, UserAgentOverride(userAgent, config))
                  + StartNavigation(c, config)
      ensures timers == old(timers) && awaiting == old(awaiting) && nextTimer == old(nextTimer) && nextClient == c + 1
      ensures startingApp == old(startingApp) && launched == old(launched)
      ensures browserVersion == old(browserVersion) && userAgent == old(userAgent)
    {
      c, threw := RegisterMainClient(appId, config, created, webSocketUrl, script);
      if !threw && NonEmpty(config.startURL) {
        Issue(Navigate(c, config.startURL.value));
      }
    }

    /**
     * `startApp`: launch the browser if it is not up, then open the app's
     * client.  Cookie injection throws, which leaves `startingApp` set.
     */
    method StartApp(appId: AppId, config: AppConfig, chrome: Option<ChromeSection>, outcome: LaunchOutcome,
                    created: TargetId, webSocketUrl: string, script: string) returns (client: Option<ClientId>)
      requires Valid()
      modifies this
      ensures Valid()
      ensures launched <==> old(launched) || (LaunchFlags(chrome).Ok? && outcome.Launched?)
      ensures client.Some? <==> launched
      ensures client.Some? ==>
        var c := client.value;
        c == old(nextClient) && apps == old(apps)[appId := [c]] && MainClientOpened(clients, log, c, appId, config, script)
      ensures client.None? ==> apps == old(apps) && clients == old(clients)
      ensures client.Some? ==>
        var launching := !old(launched);
        var version := if launching then outcome.version else old(browserVersion);
        var agent := if launching then outcome.userAgent else old(userAgent);
        var acquired := Acquire(if launching then ListTargets(old(targets), outcome.listed) else old(targets), created);
        var c := client.value;
        targets == acquired.0 && browserVersion == version && userAgent == agent
        && clients == old(clients)[c := MainClientState(acquired.1, webSocketUrl, appId, config, script, version)]
        && log == RegisterLog(old(log) + (if launching then [LaunchBrowser(LaunchFlags(chrome).value)] else []),
                              c, created, acquired, appId, config, UserAgentOverride(agent, config))
                  + StartNavigation(c, config)
        && nextClient == c + 1
      ensures client.None? ==>
        targets == old(targets) && nextClient == old(nextClient)
        && browserVersion == old(browserVersion) && userAgent == old(userAgent)
        && log == old(log) + (if LaunchFlags(chrome).Ok? then [LaunchBrowser(LaunchFlags(chrome).value)] else [])
      ensures startingApp == (client.Some? && config.useCookies)
      ensures timers == old(timers) && awaiting == old(awaiting) && nextTimer == old(nextTimer)
    {
      startingApp := true;
      LaunchOnce(chrome, outcome);
      if !launched {
        startingApp := false;
        return None;
      }
      var c, threw := OpenMainClient(appId, config, created, webSocketUrl, script);
      client := Some(c);
      if !threw {
        startingApp := false;
      }
    }

    /** `startApp`'s first step: launch the browser unless it is already up. */
    method LaunchOnce(chrome: Option<ChromeSection>, outcome: LaunchOutcome)
      requires Valid()
      modifies this
      ensures Valid()
      ensures launched <==> old(launched) || (LaunchFlags(chrome).Ok? && outcome.Launched?)
      ensures var launching := !old(launched);
        log == old(log) + (if launching && LaunchFlags(chrome).Ok? then [LaunchBrowser(LaunchFlags(chrome).value)] else [])
        && (launched && launching ==>
              targets == ListTargets(old(targets), outcome.listed)
              && browserVersion == outcome.version && userAgent == outcome.userAgent)
        && (!launched || !launching ==>
              targets == old(targets) && browserVersion == old(browserVersion) && userAgent == old(userAgent))
      ensures apps == old(apps) && clients == old(clients) && timers == old(timers) && awaiting == old(awaiting)
      ensures nextTimer == old(nextTimer) && nextClient == old(nextClient) && startingApp == old(startingApp)
    {
      if !launched {
        launched := LaunchChrome(chrome, outcome);
      }
    }

    /**
     * `stopApp`.  The popup loop's first step shifts the top client off and
     * then throws, because the `Page` helper it constructs is not declared
     * in the module; with a single client the app is deleted and its client
     * released.
     */
    method StopApp(appId: AppId) returns (threw: bool)
      requires Valid()
      modifies this
      ensures Valid()
      ensures appId !in old(apps) ==> threw && apps == old(apps) && log == old(log) + [Uncaught(TypeError)]
      ensures appId in old(apps) && |old(apps)[appId]| > 1 ==>
        threw && apps == old(apps)[appId := old(apps)[appId][1..]] && log == old(log) + [Uncaught(ReferenceError)]
        && clients == old(clients) && targets == old(targets)
      ensures appId in old(apps) && |old(apps)[appId]| == 0 ==>
        threw && apps == old(apps) - {appId} && log == old(log) + [Uncaught(TypeError)]
      ensures appId !in old(apps) || |old(apps)[appId]| != 1 ==>
        targets == old(targets) && clients == old(clients) && timers == old(timers)
      ensures appId in old(apps) && |old(apps)[appId]| == 1 ==>
        Release(threw, targets, clients, timers, log)
        == ReleaseOutcome(old(targets), old(clients), old(timers), old(log), old(apps)[appId][0])
      ensures appId in old(apps) && |old(apps)[appId]| == 1 ==>
        var c := old(apps)[appId][0];
        var released := ReleaseTarget(old(targets), old(clients)[c].target);
        apps == old(apps) - {appId}
        && (threw <==> old(clients)[c].chromeVersion.None? || released.None?)
        && (!threw ==> (targets == released.value && c in clients && clients[c].appId.None?
              && log == old(log) + TeardownEffects(c, old(clients)[c].chromeVersion.value) + [Navigate(c, BlankPage)]))
      ensures awaiting == old(awaiting) && nextClient == old(nextClient) && nextTimer == old(nextTimer)
      ensures startingApp == old(startingApp) && launched == old(launched)
      ensures browserVersion == old(browserVersion) && userAgent == old(userAgent)
    {
      if appId !in apps {
        log := log + [Uncaught(TypeError)];
        return true;
      }
      var stack := apps[appId];
      if |stack| > 1 {
        apps := apps[appId := stack[1..]];
        assert StackOk(stack[1..], clients) by {
          assert forall j :: 0 <= j < |stack| - 1 ==> stack[1..][j] == stack[j + 1];
        }
        log := log + [Uncaught(ReferenceError)];
        return true;
      }
      apps := apps - {appId};
      if |stack| == 0 {
        log := log + [Uncaught(TypeError)];
        return true;
      }
      threw := ReleaseClient(stack[0]);
    }
  }
}
