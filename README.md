# smartux connectors: a verified model

This project models three pieces of sequential logic from the smartux
connector repository and proves properties about them in Dafny.

- **Chrome DevTools session manager** (`chrome.js`). It holds:
  - the pool of browser targets with their `free` flags;
  - the registry of running apps, each a stack of clients with the active
    window at the front;
  - each client's context timers, state-check timer, injected context id,
    force flag and authentication-challenge markers.

  `ChromeProtocol.dfy` holds the pure rules: the launch flags, the target
  pool functions, `setupAuthentication`, the user-agent choice, the
  challenge step, the origin rule and the order of the set-up and tear-down
  commands. `ChromeManager.dfy` holds one class, `Manager`. Each event
  handler of the source is one atomic method on it:
  - protocol calls are appended to a log of abstract effects;
  - timers are tracked handles that fire through an explicit method;
  - answers to evaluations and document fetches come back as parameters.

- **HPPPM REST connector** (`index.js`).
  - `RestProtocol.dfy`: token choice, the query-separator rule, the
    status classification of `_get`, and `cleanJson`'s first-occurrence
    replacements. `Text.dfy` provides the string search they use.
  - `TimeSheets.dfy`: the week table as the source builds it. `weeks`
    slots refer to day arrays by identity, so one array can be stored
    under two slots. It also gives the in-place effort accumulation as
    functions, and the per-line folds of `getTimeSheetLineItems`.
  - `RestConnector.dfy`: class `Connector`, whose methods update the
    saved token and user and the module-level `weeks`/`allDefaultDays`
    with the source's loops, proved against those functions.

- **Page-model walk** (`inject/postinject.js`), in `PageModels.dfy`:
  - `pageModelHasIdentifiersToRun` is a specification function plus the
    source's loop as a method;
  - `copyOverPageModelIdentifiersAndResolveSubModels` is a fuel-bounded
    function `Walk` over JSON values plus the recursive method `CopyOver`
    proved equal to it;
  - the top-level loop is class `Powwow`, whose `LoadModels` fills
    `stateModels` and deletes `_listModels`.

`JsonValue.dfy` gives JSON values with JavaScript truthiness, property
reads that throw on `null`/`undefined`, and `Number()` on digit strings and
on arrays.
`Wrappers.dfy` gives `Option` and `Result`.

Where the code does something other than what its comments or names
suggest, the model follows the code:
- a configured proxy makes launching fail, because the flag builder reads
  an undeclared `config`;
- `stopApp` with popups throws a ReferenceError (`Page` is undeclared)
  after the first shift;
- a popup's authentication setup loses its URL patterns (`arrUrlPatterns`
  is written, `arrURLPatterns` is read);
- an evaluation answer without `exceptionDetails`, a protocol error
  included, counts as a successful injection;
- the `childNodeInserted` guard is always true;
- the week table is never reset between calls, and a trailing partial week
  stays shared with the next period's buffer;
- an array stored under two week slots gets every matching effort added
  once per slot.

## Model

| member | source | states |
|---|---|---|
| ChromeProtocol.LaunchFlags | smartux-connect-patch-exports-fix2/chrome.js:110-131 | Launching fails exactly when a proxy is configured; otherwise the flags are the fixed Chrome flags, plus the auth-server whitelist flag when one is given |
| ChromeProtocol.Find | smartux-connect-patch-exports-fix2/chrome.js:149 | The index of the target with the given id, -1 exactly when the pool has none, unique when ids are distinct |
| ChromeProtocol.Put | smartux-connect-patch-exports-fix2/chrome.js:149 | Storing a target under its id adds the id (or keeps the count when present), leaves every other entry and keeps ids distinct |
| ChromeProtocol.ListTargetsKeepsOthers | smartux-connect-patch-exports-fix2/chrome.js:146-150 | Listing targets at launch leaves every unlisted entry unchanged in place |
| ChromeProtocol.ListedTargetsStartFree | smartux-connect-patch-exports-fix2/chrome.js:146-150 | Every listed target is in the pool afterwards and is free; ids stay distinct |
| ChromeProtocol.FirstFree | smartux-connect-patch-exports-fix2/chrome.js:160-167 | The first free target in key order, -1 exactly when none is free |
| ChromeProtocol.Acquire | smartux-connect-patch-exports-fix2/chrome.js:158-173 | Takes the first free target and clears only its flag; with none free, the pool grows by exactly the new non-free target |
| ChromeProtocol.ReleaseTarget | smartux-connect-patch-exports-fix2/chrome.js:345 | Sets only the given target's flag back to free; fails when the target is unknown; never removes targets |
| ChromeProtocol.ReleaseThenAcquire | smartux-connect-patch-exports-fix2/chrome.js:345 | In a fully taken pool, a released target is the one the next client acquires |
| ChromeProtocol.ResponsePatterns | smartux-connect-patch-exports-fix2/chrome.js:256-268 | One Response-stage pattern per given URL, in order |
| ChromeProtocol.SetupAuthentication | smartux-connect-patch-exports-fix2/chrome.js:223-273 | No username: config dropped and interception off (`enabled:false` on version 62, empty patterns otherwise); with one: config stored and per-URL or a single stage-only pattern, the legacy form on version 62 |
| ChromeProtocol.TeardownDisablesInterception | smartux-connect-patch-exports-fix2/chrome.js:303 | Tear-down's empty auth config stores nothing and intercepts nothing |
| ChromeProtocol.Forwarded | smartux-connect-patch-exports-fix2/chrome.js:238-242 | The config handed to a popup keeps username and password and loses the URL patterns |
| ChromeProtocol.PopupInterceptsEverything | smartux-connect-patch-exports-fix2/chrome.js:644 | A popup of a client with URL patterns intercepts every response with one stage-only pattern |
| ChromeProtocol.UserAgentOverride | smartux-connect-patch-exports-fix2/chrome.js:188-192 | An override exactly when a suffix or replacement is set; the suffix is appended to the browser agent and wins over the replacement |
| ChromeProtocol.ChallengeStep | smartux-connect-patch-exports-fix2/chrome.js:424-447 | Credentials are provided exactly for an unmarked id; the step flips the id's mark and leaves other marks |
| ChromeProtocol.ChallengeRetriedOnce | smartux-connect-patch-exports-fix2/chrome.js:426-437 | A fresh challenge is answered with credentials, its repeat is cancelled, and the markers are back as they were |
| ChromeProtocol.ContextAcceptedMeaning | smartux-connect-patch-exports-fix2/chrome.js:580-587 | A context is taken unless its origin is `://` and the start URL does not begin with `about` |
| ChromeProtocol.InsertedNodeAlwaysRefetches | smartux-connect-patch-exports-fix2/chrome.js:524 | Every inserted child node refetches the document, whatever its name |
| ChromeProtocol.FirstContaining | smartux-connect-patch-exports-fix2/chrome.js:649-650 | The first stack entry whose socket URL contains the target id, -1 when none does |
| ChromeProtocol.RemoveAt | smartux-connect-patch-exports-fix2/chrome.js:652 | Splicing one entry keeps the others in order and removes exactly that entry |
| ChromeProtocol.SetupListensBeforeEnabling | smartux-connect-patch-exports-fix2/chrome.js:194-215 | Set-up attaches the listeners before it enables any domain, and enables network, security, page, DOM and runtime |
| ChromeProtocol.SetupEndsWith | smartux-connect-patch-exports-fix2/chrome.js:216-219 | Set-up ends with the app's download behaviour, or with the ReferenceError of cookie injection when cookies are asked for |
| ChromeProtocol.TeardownSwitchesOff | smartux-connect-patch-exports-fix2/chrome.js:283-309 | Tear-down removes the listeners first, enables nothing, switches interception off and disables network, page, DOM and runtime |
| ChromeManager.StackShrunk | smartux-connect-patch-exports-fix2/chrome.js:652 | Splicing a client out of a duplicate-free stack keeps it duplicate-free |
| ChromeManager.StateCheckRearmed | smartux-connect-patch-exports-fix2/chrome.js:358-365 | Cancelling the pending state check and arming a fresh one keeps the registry and timer invariants |
| ChromeManager.ClearTimers | smartux-connect-patch-exports-fix2/chrome.js:602-608 | Clearing every timer of a context map leaves exactly the other pending timers |
| ChromeManager.Intercept | smartux-connect-patch-exports-fix2/chrome.js:420-455 | A non-challenge is continued with only its id; a challenge forces the next state check and is answered by its marker state |
| ChromeManager.CheckOutcome | smartux-connect-patch-exports-fix2/chrome.js:355-368 | A client of an unknown app throws a TypeError and changes nothing else; a client that is not the front client of its app with a positive injected context changes nothing; that front client clears its pending state check and then arms exactly one new one under the next handle, or throws a TypeError when it has no configuration; every other client and timer is kept |
| ChromeManager.ReleaseOutcome | smartux-connect-patch-exports-fix2/chrome.js:282-347 | Throws exactly when the client was never set up or its target is outside the pool; otherwise frees only its target and forgets its app; the client stops listening and loses its context timers and state check, other clients and timers are kept, and the log gains the tear-down commands and the blank-page navigation, or ends in the TypeError |
| ChromeManager.Manager.constructor | smartux-connect-patch-exports-fix2/chrome.js:25-28 | The manager starts with no targets, apps, clients, timers or pending answers |
| ChromeManager.Manager.AtMostOneStateCheck | smartux-connect-patch-exports-fix2/chrome.js:358-365 | At most one state check is pending per client |
| ChromeManager.Manager.StackUrls | smartux-connect-patch-exports-fix2/chrome.js:647-650 | The socket URLs of a stack, in stack order |
| ChromeManager.Manager.GetClient | smartux-connect-patch-exports-fix2/chrome.js:78-80 | The front client of the app; a TypeError for an unknown app |
| ChromeManager.Manager.LaunchChrome | smartux-connect-patch-exports-fix2/chrome.js:110-156 | Launch succeeds exactly when the flags build and the browser comes up, and then lists the existing targets as free |
| ChromeManager.Manager.ListInitialTargets | smartux-connect-patch-exports-fix2/chrome.js:146-150 | The pool becomes the listing applied to the old pool; nothing else changes |
| ChromeManager.Manager.NewClient | smartux-connect-patch-exports-fix2/chrome.js:158-177 | The new client is connected to the target `Acquire` picks and the pool is updated as `Acquire` says |
| ChromeManager.Manager.SetupClient | smartux-connect-patch-exports-fix2/chrome.js:179-221 | Issues the set-up commands in source order, stores the auth config and user agent, and throws exactly when cookies are asked for |
| ChromeManager.Manager.CheckState | smartux-connect-patch-exports-fix2/chrome.js:355-368 | Leaves the state `CheckOutcome` gives: an unknown app throws a TypeError; only the front client of its app with a positive injected context re-arms its state check with the app's debounce time, replacing any pending one |
| ChromeManager.Manager.RearmStateCheck | smartux-connect-patch-exports-fix2/chrome.js:358-365 | Cancels the pending state check and arms a fresh handle with the given delay |
| ChromeManager.Manager.InjectJS | smartux-connect-patch-exports-fix2/chrome.js:374-376 | Evaluates the inject script in the given context and awaits its answer |
| ChromeManager.Manager.InjectionAnswered | smartux-connect-patch-exports-fix2/chrome.js:376-384 | With exception details nothing but the pending answer changes; otherwise the injected context id is set and the state is what `CheckOutcome` gives for that client |
| ChromeManager.Manager.UpdateInjectedJS | smartux-connect-patch-exports-fix2/chrome.js:370-372 | Re-injects into the stored injected context |
| ChromeManager.Manager.RefreshAppDescriptors | smartux-connect-patch-exports-fix2/chrome.js:92-96 | Throws for an app without a front client; otherwise replaces its inject script and re-injects |
| ChromeManager.Manager.TimerFired | smartux-connect-patch-exports-fix2/chrome.js:361-365 | A probe asks whether the context is the top window and keeps its map entry; a state check passes the force flag to the detector, then clears it |
| ChromeManager.Manager.TopCheckAnswered | smartux-connect-patch-exports-fix2/chrome.js:565-570 | Only a top-level context gets the inject script |
| ChromeManager.Manager.DocumentFetched | smartux-connect-patch-exports-fix2/chrome.js:497-499 | A fetched document leaves the state `CheckOutcome` gives for the client; a failed fetch changes nothing but the pending answer |
| ChromeManager.Manager.ContextCreated | smartux-connect-patch-exports-fix2/chrome.js:557-588 | An accepted context maps to a fresh zero-delay probe timer; an older timer for the same id is dropped from the map but stays pending |
| ChromeManager.Manager.ContextDestroyed | smartux-connect-patch-exports-fix2/chrome.js:590-597 | A mapped context has its timer cancelled and its entry removed; the injected context id is kept |
| ChromeManager.Manager.ContextsCleared | smartux-connect-patch-exports-fix2/chrome.js:599-611 | Every mapped timer is cancelled, the map is dropped and the injected context id is cleared |
| ChromeManager.Manager.ContextCreatedThenDestroyed | smartux-connect-patch-exports-fix2/chrome.js:557-597 | A context destroyed before its probe fires is never probed: the timers and the log end as they began |
| ChromeManager.Manager.ContextRecreatedThenDestroyed | smartux-connect-patch-exports-fix2/chrome.js:557-597 | A context id created twice and then destroyed keeps its first probe pending, and that probe still fires and evaluates the destroyed context |
| ChromeManager.Manager.RequestIntercepted | smartux-connect-patch-exports-fix2/chrome.js:420-455 | The client's markers, force flag and the issued answer are those of `Intercept` |
| ChromeManager.Manager.DialogOpened | smartux-connect-patch-exports-fix2/chrome.js:465-468 | A listening client reports the dialog to the detector with its app |
| ChromeManager.Manager.DialogClosed | smartux-connect-patch-exports-fix2/chrome.js:469-473 | On a listening client the force flag is set and the state is then what `CheckOutcome` gives; otherwise nothing changes |
| ChromeManager.Manager.DomChanged | smartux-connect-patch-exports-fix2/chrome.js:495-553 | On a listening client an event that refetches issues one document request and changes nothing else, and any other event leaves the state `CheckOutcome` gives; a client not listening changes nothing |
| ChromeManager.Manager.AttachPopup | smartux-connect-patch-exports-fix2/chrome.js:641-644 | A fresh client is pushed on the front of the app's stack and set up with the forwarded auth config |
| ChromeManager.Manager.TargetCreated | smartux-connect-patch-exports-fix2/chrome.js:631-646 | A new page target that is not the client's own and not in the stack is attached as a popup, unless an app is starting |
| ChromeManager.Manager.TargetDestroyed | smartux-connect-patch-exports-fix2/chrome.js:647-661 | The first client whose URL contains the id is spliced out; when it was the front, the new front's check leaves the state `CheckOutcome` gives on the shrunk stack, or a TypeError when the stack is left empty; otherwise clients and timers are kept |
| ChromeManager.Manager.UnsetupClient | smartux-connect-patch-exports-fix2/chrome.js:282-312 | Tear-down stops listening, cancels the client's context timers and pending state check and issues the switch-off commands; a client never set up throws after removing its listeners |
| ChromeManager.Manager.ReleaseClient | smartux-connect-patch-exports-fix2/chrome.js:341-347 | Tears down, navigates to about:blank, frees only the client's own target and forgets its app; a client never set up throws before its target is freed; pool, clients, timers and log end as `ReleaseOutcome` says |
| ChromeManager.Manager.FreeTarget | smartux-connect-patch-exports-fix2/chrome.js:344-346 | Navigates to the blank page, then frees only the client's target and forgets its app, or throws a TypeError after the navigation when the target is outside the pool |
| ChromeManager.Manager.RegisterMainClient | smartux-connect-patch-exports-fix2/chrome.js:40-46 | The app's stack becomes the one new client on the target `Acquire` picks; it is set up and listening as `MainClientState`, the log gains the connection and set-up commands of `RegisterLog`, and other clients and timers are kept |
| ChromeManager.Manager.OpenMainClient | smartux-connect-patch-exports-fix2/chrome.js:40-53 | Registers and sets up the main client as `RegisterMainClient` does, then opens the start URL when there is one and set-up did not throw |
| ChromeManager.Manager.StartApp | smartux-connect-patch-exports-fix2/chrome.js:35-57 | Launches the browser only when it is not up yet; a main client is opened exactly when the browser is up, on the pool, version and user agent the launch left, with the launch, connection, set-up and navigation commands in order; a cookie failure during set-up leaves `startingApp` set |
| ChromeManager.Manager.LaunchOnce | smartux-connect-patch-exports-fix2/chrome.js:37-39 | Launches only a browser that is not up: the pool, version and user agent are the launch's when it succeeds and unchanged otherwise |
| ChromeManager.Manager.StopApp | smartux-connect-patch-exports-fix2/chrome.js:63-76 | An unknown app throws; with popups the first close throws a ReferenceError after one shift; an empty stack deletes the app and throws; a single client is released as `ReleaseOutcome` says and the app deleted; in the other cases pool, clients and timers are kept |
| Text.IndexOf | index.js:249-250 | The first occurrence of a pattern, -1 exactly when there is none |
| Text.ReplaceFirstSplits | index.js:249-250 | Replacing the first occurrence splices the replacement at the first match and keeps the rest |
| Text.ReplaceFirstKeepsLaterOccurrence | index.js:249-250 | Deleting the first of two occurrences leaves the second |
| JsonValue.Read | smartux-connect-patch-exports-fix2/inject/postinject.js:65-67 | Reading a property throws exactly on null or undefined, and on an object is the member lookup |
| JsonValue.StringToNumber | index.js:258-259 | `Number()` of a digit string is its decimal value |
| JsonValue.ArrayToNumber | index.js:258-259 | `Number()` of an empty array is 0 and of an array of two or more elements NaN |
| JsonValue.SingletonArrayNumber | index.js:258-259 | An array of one non-boolean element converts like that element |
| RestProtocol.ChooseToken | index.js:26-33 | The encoded `username:password` when either is given, else the given token, else the configured one |
| RestProtocol.RequestUrlExtends | index.js:207-213 | The request URL is the built URL followed by `&` or `?` and the JSON parameter |
| RestProtocol.RequestUrlHasSearch | index.js:207-213 | Without a fragment, the request URL always carries a query string |
| RestProtocol.FragmentSwallowsParameter | index.js:207-213 | A URL with a fragment and no query gets `?` appended inside the fragment, so no query string results |
| RestProtocol.ClassifyGet | index.js:227-244 | Status 200 returns the body; 401 fails with "Invalid username or password"; any other status fails with its message |
| RestProtocol.CleanJsonUnchanged | index.js:247-253 | Text without either prefix is unchanged |
| RestProtocol.CleanJsonShrinks | index.js:247-253 | At most the two 4-character prefixes are removed, and the text changes exactly when one was |
| RestProtocol.CleanJsonKeepsSecondPrefix | index.js:249 | On `ns2:a,ns2:b` only the first `ns2:` is removed, giving `a,ns2:b` |
| RestProtocol.CleanJsonRemovesBothForms | index.js:249-250 | A later `ns2:` right after a colon is also the first `:ns2`, so `ns2:a:ns2:b` becomes `a:b` |
| TimeSheets.Weeks | index.js:20-21 | The visible weeks are the arrays the slots refer to |
| TimeSheets.ChunkAppendsWeeks | index.js:74-92 | Chunking appends the buffer plus the new days, split into 7-day weeks, after the stored weeks |
| TimeSheets.FirstPeriodWeeks | index.js:74-92 | On a fresh table the weeks are the days split into 7-day weeks, the trailing partial week last |
| TimeSheets.ChunkKeepsOtherArrays | index.js:82-83 | Arrays other than the buffer are never changed by chunking |
| TimeSheets.ChunkKeepsOtherSlots | index.js:82-91 | Slots outside the ones a call writes keep their arrays |
| TimeSheets.ChunkFillsBuffer | index.js:76-84 | The first stored week of a call is the old buffer completed with the first days |
| TimeSheets.LeftoverOpensNextPeriod | index.js:90-91 | A trailing partial week is stored and stays the buffer the next call pushes into |
| TimeSheets.StaleSlotFollowsBuffer | index.js:20-21 | A later slot still holding the buffer sees the days of the new period |
| TimeSheets.StaleWeeksKept | index.js:20-21 | Weeks of a longer earlier period beyond the new ones are kept |
| TimeSheets.AddTimesValue | index.js:259 | Adding an amount once per reference adds it that many times |
| TimeSheets.AddTimesNaN | index.js:259 | A missing amount or a NaN effort gives NaN |
| TimeSheets.CountDistinct | index.js:82 | With distinct slots each array is referenced once |
| TimeSheets.CountShared | index.js:82 | An array stored under two slots is referenced at least twice |
| TimeSheets.AddEffortKeepsDays | index.js:255-262 | `addEffort` leaves every day's weekday and date, and the effort of every non-matching day |
| TimeSheets.AddEffortAdds | index.js:255-262 | A matching day's effort grows by the amount once per slot referring to its array |
| TimeSheets.AddEffortNaN | index.js:258-259 | A matching day with a non-numeric amount gets NaN |
| TimeSheets.AddEffortUnreferenced | index.js:256 | Arrays no slot refers to are untouched |
| TimeSheets.AddEffortShape | index.js:255-262 | The nested shape is kept |
| TimeSheets.AddEffortOnce | index.js:255-262 | With distinct slots a matching effort grows by exactly the amount |
| TimeSheets.AddEffortShared | index.js:255-262 | An array shared by two slots gets the amount at least twice |
| TimeSheets.ZeroedWeeks | index.js:116-126 | Every day a slot refers to starts the line with zero effort, weekday and date kept |
| TimeSheets.ZeroedShape | index.js:116-126 | Zeroing keeps the shape |
| TimeSheets.ZeroedForgets | index.js:116-126 | Zeroing forgets the previous line's efforts |
| TimeSheets.DayJsonRoundTrip | index.js:152 | The JSON copy of a day reads back as the same day, NaN as null |
| TimeSheets.TableJsonDays | index.js:152 | The stored copy holds each week's days in order |
| TimeSheets.NormaliseShape | index.js:128-144 | An array is kept; any other value becomes a one-element array of an object copy |
| TimeSheets.EffortsFoldStops | index.js:145-147 | After a throwing entry no further effort is added |
| TimeSheets.ActualFold | index.js:136-149 | Every processed actual keeps the shape and yields one entry per actual |
| TimeSheets.ActualFoldStops | index.js:136-149 | After a throwing actual nothing further happens |
| TimeSheets.LinesRunNext | index.js:116-152 | Each line runs on the zeroed table left by the previous one |
| TimeSheets.LinesRunStops | index.js:116-153 | After a throwing line nothing further happens |
| TimeSheets.LinesResult | index.js:116-153 | The lines fail exactly when one line throws; otherwise line i's result is that line's outcome |
| TimeSheets.LinesResultThrows | index.js:116-153 | One throwing line makes the whole call fail |
| RestConnector.Connector.constructor | index.js:16-21 | Saved token and user start empty, with no weeks and an empty buffer |
| RestConnector.Connector.Authenticate | index.js:24-53 | A successful request saves the chosen token and the user; a failed one returns the error object and keeps the saved state |
| RestConnector.Connector.Logout | index.js:177-180 | Both saved token and user become empty; nothing else changes |
| RestConnector.Connector.GetRequest | index.js:206-219 | The request goes to the separator-extended URL with the saved token's Basic header |
| RestConnector.Connector.FillWeeks | index.js:74-92 | The loop leaves the table `Chunk` describes |
| RestConnector.Connector.GetTimePeriods | index.js:60-97 | A response without a period throws before any day is pushed; otherwise the weeks are chunked and written onto an object period, and a primitive period throws afterwards |
| RestConnector.Connector.ZeroEfforts | index.js:116-126 | The nested loops leave every referenced day with zero effort |
| RestConnector.Connector.AddEffortToWeek | index.js:257-261 | The inner loop bumps one array's matching days once more |
| RestConnector.Connector.AddEffort | index.js:255-262 | The nested loops leave the arrays `AddEffortSpec` describes, or throw when the value is null and some week is non-empty |
| RestConnector.Connector.AddEfforts | index.js:145-147 | The loop applies every effort entry in order, stopping at a throw |
| RestConnector.Connector.ProcessEntry | index.js:137-147 | One actual: its efforts are normalised and added |
| RestConnector.Connector.ProcessActual | index.js:128-149 | The actuals are normalised and processed in order |
| RestConnector.Connector.ProcessLine | index.js:116-152 | One line runs on zeroed efforts and gets their copy |
| RestConnector.Connector.RunLines | index.js:116-153 | The line loop's result and final table are `LinesResult` and `LinesRun` |
| RestConnector.Connector.GetTimeSheetLineItems | index.js:112-156 | The whole call returns `LineItems` and leaves the table `LineItemsEfforts` describes |
| PageModels.PageModelHasIdentifiersToRun | smartux-connect-patch-exports-fix2/inject/postinject.js:64-73 | The loop returns what `HasIdentifiersToRun` says, throwing where the source throws |
| PageModels.FirstMatchOfObjects | smartux-connect-patch-exports-fix2/inject/postinject.js:66-70 | Over object entries the loop finds a match exactly when some entry has a `match` of positive length |
| PageModels.HasIdentifiersIff | smartux-connect-patch-exports-fix2/inject/postinject.js:64-73 | A model without a truthy `connect` has none; with an array of objects, it has one exactly when some entry matches |
| PageModels.FirstMatchThrows | smartux-connect-patch-exports-fix2/inject/postinject.js:66-67 | The predicate throws exactly when a null entry comes before any matching one |
| PageModels.Apply | smartux-connect-patch-exports-fix2/inject/postinject.js:20-21 | A copy is stored under its id and the rest of the destination is kept; no contribution changes nothing |
| PageModels.Walk | smartux-connect-patch-exports-fix2/inject/postinject.js:17-62 | Only a keyed identifier is removed from its parent; only an object walked with a falsy id merges into the destination |
| PageModels.CopyOver | smartux-connect-patch-exports-fix2/inject/postinject.js:17-62 | The recursive method computes exactly `Walk` |
| PageModels.CopyOverChildren | smartux-connect-patch-exports-fix2/inject/postinject.js:32-34 | The child loop yields every child's walk, or fails exactly where some child fails |
| PageModels.ObjectCopy | smartux-connect-patch-exports-fix2/inject/postinject.js:18-34 | An object's copy carries every field, with `properties` holding only the children's copies; nested under the id when it is non-empty |
| PageModels.PropertyCopiesHoldChildren | smartux-connect-patch-exports-fix2/inject/postinject.js:29-34 | Each key of the copied properties comes from a child that contributed under it |
| PageModels.IdentifierMoved | smartux-connect-patch-exports-fix2/inject/postinject.js:47-50 | An identifier is stored, as the same node, under its key and removed from its parent |
| PageModels.IdentifierChildMoved | smartux-connect-patch-exports-fix2/inject/postinject.js:47-50 | An identifier child of an object is copied under its key and dropped from the original's properties |
| PageModels.DescriptorResolved | smartux-connect-patch-exports-fix2/inject/postinject.js:51-60 | The sub-descriptor's fields overwrite the node's, `connect` and `descriptor` are deleted, and the resolved node is copied into a fresh object under its id |
| PageModels.DescriptorWithoutRegistry | smartux-connect-patch-exports-fix2/inject/postinject.js:53 | Without a registry a descriptor throws |
| PageModels.ArrayCopy | smartux-connect-patch-exports-fix2/inject/postinject.js:35-46 | An array's copy carries every field with `items` replaced by the walk of the original items; missing items throw |
| PageModels.OtherKindInert | smartux-connect-patch-exports-fix2/inject/postinject.js:17-61 | A node of any other type adds nothing to the copy and changes nothing |
| PageModels.NullNodeFails | smartux-connect-patch-exports-fix2/inject/postinject.js:18 | Walking null or undefined throws |
| PageModels.FuelSuffices | smartux-connect-patch-exports-fix2/inject/postinject.js:17-62 | A walk that finishes gives the same result with any larger stack |
| PageModels.UntypedDescriptorLoops | smartux-connect-patch-exports-fix2/inject/postinject.js:51-60 | A descriptor resolving to an untyped node recurses on itself and never finishes |
| PageModels.LoadPrefixStops | smartux-connect-patch-exports-fix2/inject/postinject.js:8-14 | Once a model throws, the loop stops |
| PageModels.LoadPrefixCopies | smartux-connect-patch-exports-fix2/inject/postinject.js:8-14 | Up to a throw, the loop pushes one copy per model that has identifiers to run, in list order |
| PageModels.LoadOneEffect | smartux-connect-patch-exports-fix2/inject/postinject.js:9-13 | One iteration throws exactly when that model's predicate or walk throws |
| PageModels.Powwow.constructor | smartux-connect-patch-exports-fix2/inject/postinject.js:1-3 | The page state starts unloaded with no state models |
| PageModels.Powwow.LoadModels | smartux-connect-patch-exports-fix2/inject/postinject.js:1-15 | Sets `models_loaded`, fills `stateModels` as the loop specification says and deletes `_listModels` unless a model threw; a missing list throws |
| PageModels.LoadedModels | smartux-connect-patch-exports-fix2/inject/postinject.js:2-15 | The loop throws exactly when some model throws; otherwise `stateModels` holds exactly one copy per model with identifiers to run, in order |

## Left out

- Chrome process launch, the `CDP` connections, `CDP.List`/`CDP.Version` and `fileDownloader`: I/O. The target listing, launch outcome and browser version are parameters.
- Debug-logging handlers, logger calls and the console log-line formatting: logging only.
- Real timers and `await` interleaving: each handler is atomic. The suspension between the duplicate check and the `unshift` in `targetCreated` is not modelled.
- Proxy URL assembly and cookie setting: both read undeclared globals, so they are modelled only as the failures they cause.
- The certificate-error auto-continue handler: a single foreign call with no state.
- `openURL`, `setInjectScript`'s script builder and the state detector: foreign code. They appear as effects in the log.
- externalApi.js and httpHandler.js are not part of this model.
- HTTP transport, cookie parsing and `approveTimeSheet`'s XML body: library calls. A reply is a parameter.
- The base64 step of the token is a function parameter `encode`.
- `Date` arithmetic: a period is given as its list of (weekday, day-of-month) pairs, and `data.date`'s default from the clock is not modelled.
- Effort sums use `real` with NaN as a separate value: double rounding is not modelled.
- JavaScript `Number()` of a string is modelled for the empty string and unsigned decimals (`ddd`, `ddd.ddd`); other numeric syntax (signs, exponents, whitespace, hex) is treated as NaN. An array converts through its comma-joined string form, which that rule then reads.
- `cleanJson`'s re-parse is not modelled: the replacements are stated on the serialised text, and the JSON-level functions take the parsed result.
- `Object.assign` of a string or array copies is simplified to an empty object copy.
- A `timeSheetLine` that is an object with a numeric `length` is treated as having no lines.
- The weeks of a period that is an array are not visible in the returned JSON.
- The returned `weeks` reference, shared with the caller, is a copy in the model.
- PageModels: aliasing between the registry and the walked tree (a sub-descriptor's `properties` shared with the registry, or a model reached twice) is not modelled. The walk works on values.
- PageModels: the enumeration order of `for…in` is abstracted. The `""` object child is merged first and the other children are independent.
- PageModels: a `properties` value that is an array is treated as having no members, and string or array registry entries are not merged into a descriptor.
- PageModels: numeric and array `descriptor` references are treated as absent, and loose-equality coercion of `type` is not modelled.
- PageModels.Walk: which error is thrown, and the partial copies and edits made before a throw, are not modelled. The walk has a single `Failed` outcome.
- PageModels.Walk: the call stack is a fuel bound. A stack overflow and endless recursion both show up as `Failed`.
- PageModels.ConnectEntries: a `connect` that is an object with a numeric `length` is treated as having no entries.
- PageModels.Powwow.LoadModels: a missing `window.powwow` is not modelled, and a model that throws keeps none of its partial edits.
