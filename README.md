# BrowserServicesKit core, modelled and proved in Dafny

This project models six pieces of DuckDuckGo's BrowserServicesKit and proves what each of them promises.

- **Navigation responder chain** (`navigation.dfy`, `navigation_properties.dfy`). The distributed navigation delegate puts each navigation action, and each navigation response, to an ordered list of responders. The first verdict other than `next` decides. When every responder says `next`, the load goes ahead. Navigations move through approved → started → response received → finished, and can leave that path as failed or redirected. Committing is a flag set between the response and the finish, beside the state. At most one navigation is current, and it is always the latest one. No event moves a navigation backwards or changes one that has finished or failed, and a redirect applies only to a navigation still in flight. The delegate keeps one pending decision at a time, and any new decision, a newer load's or a response's, supersedes it. When the web content process terminates, the current navigation fails. The delegate is a class whose methods update its state in place. Each method is tied to a pure step function, and the lemmas reproduce the event histories that the delegate's tests assert, for any number of responders.
- **Save loop with retry on merge conflict** (`persistence.dfy`). These are the two `applyChangesAndSave` overloads on a managed object context: the callback form and the throwing form. Each makes up to four attempts of changes-and-save, and resets the context after a merge conflict. What each attempt meets is an input.
- **Broken-site report** (`broken_site_report.dfy`). This covers the report's initialiser and its flat string-to-string parameter map, in regular and toggle mode.
- **OAuth request descriptors** (`oauth_request.dfy`). Each endpoint of the authentication API gives a path, an HTTP method, query items, headers, a success code and the codes that carry an error body.
- **Sync account lifecycle** (`ddg_sync.dfy`). The sync client keeps an account, possibly with a token, in its secure store, plus an `isAuthenticated` flag.
  - `SyncClient.DDGSync` is the object, with methods that update both in place.
  - `SyncLifecycle` holds the pure step functions those methods are proved against.
  - `SyncProperties` proves the guards, the 401 rule and the flag invariant.
- **App Store restore flow** (`app_store_restore.dfy`). Restoring an account from a past purchase runs a fixed chain of remote stages. The first stage that fails decides the error. The account is stored only when the subscription is active.

Remote calls, storage and the web engine are not modelled as I/O. Their outcomes are inputs:

- a `Result`/`Outcome` for each remote call;
- an `attempt(i)` function for the save loop;
- a list of replies for the responders;
- a `builds` flag for constructing the underlying request.

`wrappers.dfy` holds the `Option`, `Result` and `Outcome` datatypes.

Where the model departs from the code, the departure is listed under "## Findings" (a defect, modelled both as written and corrected) or under "## Left out" (a simplification, with its reason).

## Model

| member | source | states |
|---|---|---|
| Navigation.Initial | Tests/NavigationTests/DistributedNavigationDelegateTests.swift:84-88 | a delegate with n responders starts well formed, with n empty histories |
| Navigation.DistributedNavigationDelegate.constructor | Tests/NavigationTests/DistributedNavigationDelegateTests.swift:84-88 | `setResponders` gives the initial state: one empty history per responder, no navigation, nothing pending |
| Navigation.FailNav | Tests/NavigationTests/DistributedNavigationDelegateTests.swift:158-175 | failing a navigation keeps the state well formed (only the latest navigation can be current) and the responder count unchanged; failing one not yet ended only moves forward: no navigation is dropped and none moves back |
| Navigation.Approve | Tests/NavigationTests/DistributedNavigationDelegateTests.swift:73-80 | approving an action keeps the state well formed and only moves forward: navigations are kept, committed stays committed, and each navigation's state stays or advances from a non-ended one |
| Navigation.Resolve | Tests/NavigationTests/DistributedNavigationDelegateTests.swift:177-223 | applying a finished decision keeps the state well formed and only moves forward |
| Navigation.Begin | Tests/NavigationTests/DistributedNavigationDelegateTests.swift:894-947 | beginning a decision, which supersedes a pending one, keeps the state well formed and only moves forward |
| Navigation.LoadRequest | Tests/NavigationTests/DistributedNavigationDelegateTests.swift:98-108 | a new action gets the next action id; a decision left pending is about that action; a redirect is treated as one only while the current navigation is in flight, so an ended navigation is never redirected; the state only moves forward |
| Navigation.ServerRedirect | Tests/NavigationTests/DistributedNavigationDelegateTests.swift:949-1017 | requires the current navigation in flight; a server redirect keeps the state well formed, allocates no action id of its own and only moves forward |
| Navigation.ClientRedirect | Tests/NavigationTests/DistributedNavigationDelegateTests.swift:342-351 | requires the current navigation in flight; a client redirect keeps the state well formed, the action count unchanged and only moves forward |
| Navigation.StartWithoutPolicy | Tests/NavigationTests/DistributedNavigationDelegateTests.swift:521-538 | a load started without a policy decision allocates one action id, keeps the state well formed and only moves forward |
| Navigation.Reply | Tests/NavigationTests/DistributedNavigationDelegateTests.swift:83-109 | replies to a decision keep the state well formed and only move forward |
| Navigation.Start | Tests/NavigationTests/DistributedNavigationDelegateTests.swift:73-80 | `didStart` acts only on the latest navigation, and only when it is approved; an older approved navigation has been superseded and does not start; the state stays well formed and only moves forward |
| Navigation.ReceiveResponse | Tests/NavigationTests/DistributedNavigationDelegateTests.swift:111-156 | receiving a response keeps the state well formed and only moves forward; the response's decision supersedes any pending one (see `NavigationProperties.ResponseSupersedesPending`) |
| Navigation.Commit | Tests/NavigationTests/DistributedNavigationDelegateTests.swift:73-80 | `didCommit` keeps the state well formed and only moves forward |
| Navigation.Finish | Tests/NavigationTests/DistributedNavigationDelegateTests.swift:73-80 | `didFinish` keeps the state well formed and only moves forward |
| Navigation.FailLoad | Tests/NavigationTests/DistributedNavigationDelegateTests.swift:158-175 | `didFail` keeps the state well formed and only moves forward |
| Navigation.Terminate | Tests/NavigationTests/DistributedNavigationDelegateTests.swift:1071-1107 | termination keeps the state well formed and only moves forward |
| Navigation.ScanBounds | Tests/NavigationTests/DistributedNavigationDelegateTests.swift:83-109 | a run down the chain ends at an existing responder no earlier than where it started |
| Navigation.Scan | Tests/NavigationTests/DistributedNavigationDelegateTests.swift:83-109 | no contract; specified by `Navigation.ScanBounds`, `NavigationProperties.ScanAllNext` and `NavigationProperties.ScanFirstVerdict` |
| Navigation.DistributedNavigationDelegate.Notify | Tests/NavigationTests/DistributedNavigationDelegateTests.swift:142-155 | an event is appended to every responder's history and nothing else changes |
| Navigation.DistributedNavigationDelegate.FailNavigation | Tests/NavigationTests/DistributedNavigationDelegateTests.swift:142-155 | the new state is `FailNav` of the old one |
| Navigation.DistributedNavigationDelegate.StartNavigation | Tests/NavigationTests/DistributedNavigationDelegateTests.swift:142-155 | the new state is `Approve` of the old one |
| Navigation.DistributedNavigationDelegate.ApplyVerdict | Tests/NavigationTests/DistributedNavigationDelegateTests.swift:177-223 | the new state is `Resolve` of the old one |
| Navigation.DistributedNavigationDelegate.BeginDecision | Tests/NavigationTests/DistributedNavigationDelegateTests.swift:894-947 | the new state is `Begin` of the old one |
| Navigation.DistributedNavigationDelegate.DecidePolicyForNavigationAction | Tests/NavigationTests/DistributedNavigationDelegateTests.swift:98-108 | the new state is `LoadRequest` of the old one: a redirect of an ended navigation is a plain load, and the state only moves forward |
| Navigation.DistributedNavigationDelegate.RedirectOnServer | Tests/NavigationTests/DistributedNavigationDelegateTests.swift:949-1017 | requires the current navigation in flight; the new state is `ServerRedirect` of the old one, so it stays well formed and only moves forward |
| Navigation.DistributedNavigationDelegate.RedirectOnClient | Tests/NavigationTests/DistributedNavigationDelegateTests.swift:342-351 | requires the current navigation in flight; the new state is `ClientRedirect` of the old one, so it stays well formed and only moves forward |
| Navigation.DistributedNavigationDelegate.StartWithoutPolicyDecision | Tests/NavigationTests/DistributedNavigationDelegateTests.swift:521-538 | the new state is `StartWithoutPolicy` of the old one |
| Navigation.DistributedNavigationDelegate.RunChain | Tests/NavigationTests/DistributedNavigationDelegateTests.swift:83-109 | the loop over the responders returns `Scan` of the replies and appends the ask event to the histories of exactly the responders it asks |
| Navigation.DistributedNavigationDelegate.ResolvePolicy | Tests/NavigationTests/DistributedNavigationDelegateTests.swift:177-223 | the new state is `Reply` of the old one |
| Navigation.DistributedNavigationDelegate.DidStartProvisionalNavigation | Tests/NavigationTests/DistributedNavigationDelegateTests.swift:73-80 | the new state is `Start` of the old one: only the latest approved navigation starts and becomes current |
| Navigation.DistributedNavigationDelegate.DecidePolicyForNavigationResponse | Tests/NavigationTests/DistributedNavigationDelegateTests.swift:111-156 | the new state is `ReceiveResponse` of the old one, so its decision supersedes any pending one |
| Navigation.DistributedNavigationDelegate.DidCommitNavigation | Tests/NavigationTests/DistributedNavigationDelegateTests.swift:73-80 | the new state is `Commit` of the old one |
| Navigation.DistributedNavigationDelegate.DidFinishNavigation | Tests/NavigationTests/DistributedNavigationDelegateTests.swift:73-80 | the new state is `Finish` of the old one |
| Navigation.DistributedNavigationDelegate.DidFailNavigation | Tests/NavigationTests/DistributedNavigationDelegateTests.swift:158-175 | the new state is `FailLoad` of the old one |
| Navigation.DistributedNavigationDelegate.WebContentProcessDidTerminate | Tests/NavigationTests/DistributedNavigationDelegateTests.swift:1071-1107 | the new state is `Terminate` of the old one |
| NavigationProperties.ScanAllNext | Tests/NavigationTests/DistributedNavigationDelegateTests.swift:41-81 | when every responder from the cursor on says `next`, the chain is exhausted, which allows |
| NavigationProperties.ScanFirstVerdict | Tests/NavigationTests/DistributedNavigationDelegateTests.swift:83-109 | the first verdict other than `next` decides, and it is attributed to the responder that gave it |
| NavigationProperties.LoadAsksFirst | Tests/NavigationTests/DistributedNavigationDelegateTests.swift:98-106 | a plain load asks responder 0 first and no other responder yet; the new decision replaces any pending one |
| NavigationProperties.ReplyDecidedAt | Tests/NavigationTests/DistributedNavigationDelegateTests.swift:83-109 | with `next` from responders 0..k-1 and a verdict from k, exactly responders 0..k are asked and that verdict is applied |
| NavigationProperties.ReplyAllNext | Tests/NavigationTests/DistributedNavigationDelegateTests.swift:41-81 | when all say `next`, every responder is asked once and the decision resolves as allowed |
| NavigationProperties.StartAndRespond | Tests/NavigationTests/DistributedNavigationDelegateTests.swift:76-77 | an approved navigation that starts and gets a response allowed by all adds didStart(started) and response(responseReceived) to every history |
| NavigationProperties.CommitAndFinish | Tests/NavigationTests/DistributedNavigationDelegateTests.swift:78-79 | a navigation with a response then adds didCommit(committed) and didFinish(finished) to every history |
| NavigationProperties.FirstLoadApproved | Tests/NavigationTests/DistributedNavigationDelegateTests.swift:73-75 | the first load allowed by all adds navigationAction and willStart(approved, not current) to every history |
| NavigationProperties.AllNextLifecycle | Tests/NavigationTests/DistributedNavigationDelegateTests.swift:41-81 | when every responder says `next` to both the action and the response, every history is exactly navigationAction, willStart, didStart, response, didCommit, didFinish, in that order |
| NavigationProperties.CancelStopsChain | Tests/NavigationTests/DistributedNavigationDelegateTests.swift:83-109 | a `cancel` from responder k: responders 0..k saw only the action, later responders saw nothing, and no navigation starts |
| NavigationProperties.AllowSkipsRest | Tests/NavigationTests/DistributedNavigationDelegateTests.swift:177-223 | an `allow` from responder k: the responders after k are not asked, but every responder is told willStart |
| NavigationProperties.AllowLifecycle | Tests/NavigationTests/DistributedNavigationDelegateTests.swift:177-223 | after an `allow` from responder k, responders 0..k see the whole lifecycle and the later ones see it from willStart on, still including the response |
| NavigationProperties.StartExtends | Tests/NavigationTests/DistributedNavigationDelegateTests.swift:142-145 | starting a navigation extends every history by didStart(started) |
| NavigationProperties.ResponseAsksFirst | Tests/NavigationTests/DistributedNavigationDelegateTests.swift:118-125 | a response asks responder 0 first and replaces any pending decision |
| NavigationProperties.ResponseSupersedesPending | Tests/NavigationTests/DistributedNavigationDelegateTests.swift:118-125 | a response to a started navigation supersedes whatever decision is pending, a newer load's action decision included: the response's decision is the one pending, no navigation is added, and later replies to the superseded decision change nothing |
| NavigationProperties.ResponseCancelFails | Tests/NavigationTests/DistributedNavigationDelegateTests.swift:111-156 | a `cancel` on the response fails the navigation as frameLoadInterruptedByPolicyChange; later responders are not asked about the response but every responder gets didFail |
| NavigationProperties.ResponseCancelLifecycle | Tests/NavigationTests/DistributedNavigationDelegateTests.swift:142-155 | the full histories when responder k cancels the first load's response: responders 0..k include the response, later ones do not, and all end with didFail |
| NavigationProperties.NewerLoadSupersedes | Tests/NavigationTests/DistributedNavigationDelegateTests.swift:894-947 | after a newer load, any replies to the superseded decision change nothing |
| NavigationProperties.SupersededChainStops | Tests/NavigationTests/DistributedNavigationDelegateTests.swift:1019-1069 | a load waiting on responder 0 is superseded by a second load that responder 0 cancels; the late reply is ignored, responder 0 saw just the two actions, and the responders below it saw nothing |
| NavigationProperties.SupersededFailureReported | Tests/NavigationTests/DistributedNavigationDelegateTests.swift:689-717 | a failure of a navigation that a newer approved action superseded is reported with isCurrent false; the newer navigation and the pending decision are unaffected |
| NavigationProperties.ClientRedirectReported | Tests/NavigationTests/DistributedNavigationDelegateTests.swift:342-351 | on a client redirect the redirect action's chain is the prior chain with the prior action appended, and the prior navigation is reported redirected and no longer current |
| NavigationProperties.ServerRedirectReplaces | Tests/NavigationTests/DistributedNavigationDelegateTests.swift:949-1017 | a server redirect marks the current navigation redirected and makes the redirect action's navigation current; allowing it starts no further navigation |
| NavigationProperties.TerminationFailsCurrent | Tests/NavigationTests/DistributedNavigationDelegateTests.swift:1071-1107 | termination appends didTerminate and then didFail(webContentProcessTerminated) for the still-current navigation, reported as current, to every history |
| NavigationProperties.TerminationWithoutCurrent | Tests/NavigationTests/DistributedNavigationDelegateTests.swift:1071-1107 | without a current navigation in progress, termination only appends didTerminate |
| NavigationProperties.AboutLoadSkipsDecision | Tests/NavigationTests/DistributedNavigationDelegateTests.swift:521-538 | the initial `about:` load asks no responder: it is approved at once, and every responder gets willStart with isCurrent false |
| NavigationProperties.RedirectAfterEndIsPlainLoad | Tests/NavigationTests/DistributedNavigationDelegateTests.swift:342-351 | a redirect-typed action that arrives after the current navigation has ended redirects nothing: the navigations and the current one are unchanged, and responder 0 alone is asked about the action |
| NavigationProperties.OnlyLatestIsCurrent | Tests/NavigationTests/DistributedNavigationDelegateTests.swift:689-717 | a navigation reported as current is the latest one |
| NavigationProperties.SupersededApprovalDoesNotStart | Tests/NavigationTests/DistributedNavigationDelegateTests.swift:689-717 | after two approvals, starting the older one changes nothing, and starting the newer one makes it current |
| NavigationProperties.ProgressTransitive | Tests/NavigationTests/DistributedNavigationDelegateTests.swift:73-80 | moving forward in two steps is moving forward |
| NavigationProperties.Step | Tests/NavigationTests/DistributedNavigationDelegateTests.swift:41-1107 | every delegate event keeps the state well formed |
| NavigationProperties.Steps | Tests/NavigationTests/DistributedNavigationDelegateTests.swift:41-1107 | every sequence of delegate events keeps the state well formed |
| NavigationProperties.ProgressAlongRun | Tests/NavigationTests/DistributedNavigationDelegateTests.swift:73-80 | along any sequence of delegate events every navigation's state only moves forward in the order approved, started, response received, redirected, then finished or failed; no navigation is dropped or loses its commit. That a current navigation is always the latest follows from `Valid`, which `Steps` keeps |
| NavigationProperties.TerminalStaysTerminal | Tests/NavigationTests/DistributedNavigationDelegateTests.swift:158-175 | once a navigation has finished or failed, no later event changes its state |
| Persistence.RunShape | Sources/Persistence/NSManagedObjectContextExtension.swift:49-67 | the attempts made are the next ones in order; there are at most as many as iterations are left, and at least one; all but the last were merge conflicts; the context operations are exactly those of the attempts made |
| Persistence.Run | Sources/Persistence/NSManagedObjectContextExtension.swift:49-69 | no contract; specified by `Persistence.RunShape`, `Persistence.OutcomeOfLastAttempt` and `Persistence.FirstNonConflictDecides` |
| Persistence.SaveLoop | Sources/Persistence/NSManagedObjectContextExtension.swift:45-69 | no contract; specified by `Persistence.AtMostFourAttempts` and `Persistence.FourConflictsGiveSaveLoopError` |
| Persistence.AtMostFourAttempts | Sources/Persistence/NSManagedObjectContextExtension.swift:45-49 | the loop makes between one and four attempts, and `changes` runs once per attempt |
| Persistence.AttemptCounts | Sources/Persistence/NSManagedObjectContextExtension.swift:50-61 | in one attempt `changes` runs once; `save` runs unless `changes` threw; `reset` runs only on a merge conflict |
| Persistence.ChangesOncePerAttempt | Sources/Persistence/NSManagedObjectContextExtension.swift:51 | `changes` is called exactly as many times as attempts were made |
| Persistence.ResetPerMergeConflict | Sources/Persistence/NSManagedObjectContextExtension.swift:58-61 | `reset` is called exactly once per merge conflict met |
| Persistence.OutcomeOfLastAttempt | Sources/Persistence/NSManagedObjectContextExtension.swift:54-69 | the last attempt decides: success when it saved; its own error, unchanged, for any other error; for a merge conflict, `saveLoopError` carrying it, and only once no iteration is left |
| Persistence.FirstNonConflictEnds | Sources/Persistence/NSManagedObjectContextExtension.swift:58-64 | if attempt k is the first that is not a merge conflict, exactly k+1 attempts are made and the outcome is success or that attempt's error unchanged |
| Persistence.FirstNonConflictDecides | Sources/Persistence/NSManagedObjectContextExtension.swift:58-64 | the same, with the operations those of the first k+1 attempts |
| Persistence.FourConflictsGiveSaveLoopError | Sources/Persistence/NSManagedObjectContextExtension.swift:69 | four merge conflicts in a row end with `saveLoopError` carrying the fourth |
| Persistence.ManagedObjectContext.constructor | Sources/Persistence/NSManagedObjectContextExtension.swift:43 | a context starts without changes and with no operations recorded |
| Persistence.ManagedObjectContext.ChangesAndSave | Sources/Persistence/NSManagedObjectContextExtension.swift:50-53 | `changes` then `save`, with `save` skipped when `changes` threw; the context keeps changes exactly when one of them threw |
| Persistence.ManagedObjectContext.Reset | Sources/Persistence/NSManagedObjectContextExtension.swift:61 | `reset` is recorded and the context has no changes afterwards |
| Persistence.ManagedObjectContext.ApplyChangesAndSave | Sources/Persistence/NSManagedObjectContextExtension.swift:40-70 | requires no pending changes on entry; exactly one callback, `onDidSave` or `onError`, is made, for the loop's outcome; the operations are the loop's; changes remain only after an error that is not a merge conflict |
| Persistence.ManagedObjectContext.ApplyChangesAndSaveThrowing | Sources/Persistence/NSManagedObjectContextExtension.swift:84-109 | requires no pending changes on entry; returns normally after a save, or throws what the callback form hands to `onError`; same operations |
| BrokenSiteReporting.Init | Sources/PrivacyDashboard/BrokenSiteReporting/BrokenSiteReport.swift:82-120 | missing tracker and surrogate lists become empty lists and `lastSentDay` starts unset; siteUrl, category, description, osVersion, manufacturer, upgradedHttps, tdsETag, ampURL, urlParametersRemoved, protectionsState, reportFlow, the iOS details (siteType, atb, model), errors, httpStatusCodes, isGPCEnabled, didOpenReportInfo and toggleReportCounter are copied as given |
| BrokenSiteReporting.NatToString | Sources/PrivacyDashboard/BrokenSiteReporting/BrokenSiteReport.swift:196 | the decimal form is a non-empty string of digits |
| BrokenSiteReporting.Wire | Sources/PrivacyDashboard/BrokenSiteReporting/BrokenSiteReport.swift:175-187 | the map as sent has exactly the keys' names as keys, each with its key's value |
| BrokenSiteReporting.NamesInjective | Sources/PrivacyDashboard/BrokenSiteReporting/BrokenSiteReport.swift:175-221 | no two parameter keys share a name, so no insertion overwrites another |
| BrokenSiteReporting.KeyPresence | Sources/PrivacyDashboard/BrokenSiteReporting/BrokenSiteReport.swift:174-223 | a key is present exactly when it is a base key, one of the mode's keys, or the key of a present optional field (the iOS keys on iOS) |
| BrokenSiteReporting.ParameterKeys | Sources/PrivacyDashboard/BrokenSiteReporting/BrokenSiteReport.swift:175-187 | the same for all keys at once: the 11 base keys are present in every mode |
| BrokenSiteReporting.RegularParameters | Sources/PrivacyDashboard/BrokenSiteReporting/BrokenSiteReport.swift:189-192 | regular mode sends category, description (empty when absent) and protectionsState, and never didOpenReportInfo or toggleReportCounter |
| BrokenSiteReporting.ToggleParameters | Sources/PrivacyDashboard/BrokenSiteReporting/BrokenSiteReport.swift:193-198 | toggle mode sends didOpenReportInfo, and toggleReportCounter exactly when it is present, in decimal; never category, description or protectionsState |
| BrokenSiteReporting.BaseValues | Sources/PrivacyDashboard/BrokenSiteReporting/BrokenSiteReport.swift:176-180 | siteUrl is the URL without query and fragment; tds is the ETag with its quotes trimmed, or empty when absent; blockedTrackers and surrogates are comma-joined |
| BrokenSiteReporting.BaseFields | Sources/PrivacyDashboard/BrokenSiteReporting/BrokenSiteReport.swift:182-186 | ampUrl, os, manufacturer and reportFlow's raw value are sent as given |
| BrokenSiteReporting.BaseFlags | Sources/PrivacyDashboard/BrokenSiteReporting/BrokenSiteReport.swift:177-183 | upgradedHttps, gpc and urlParametersRemoved are sent as `true`/`false` |
| BrokenSiteReporting.OptionalValues | Sources/PrivacyDashboard/BrokenSiteReporting/BrokenSiteReport.swift:200-215 | lastSentDay and errorDescriptions are present exactly when their field is, with its value or the comma-joined error descriptions |
| BrokenSiteReporting.MobileValues | Sources/PrivacyDashboard/BrokenSiteReporting/BrokenSiteReport.swift:217-221 | siteType, atb and model are present exactly on iOS, with their values |
| BrokenSiteReporting.DigitsOfNat | Sources/PrivacyDashboard/BrokenSiteReporting/BrokenSiteReport.swift:205 | the digits of n read back as n |
| BrokenSiteReporting.ParseIntToString | Sources/PrivacyDashboard/BrokenSiteReporting/BrokenSiteReport.swift:205 | the decimal form of any integer, negative ones included, reads back as that integer |
| BrokenSiteReporting.SplitJoin | Sources/PrivacyDashboard/BrokenSiteReporting/BrokenSiteReport.swift:206 | splitting a join at its separator gives the parts back when no part holds the separator |
| BrokenSiteReporting.ParseAllToString | Sources/PrivacyDashboard/BrokenSiteReporting/BrokenSiteReport.swift:205 | the decimal texts of a list of codes read back as the list |
| BrokenSiteReporting.CodeTextsSpec | Sources/PrivacyDashboard/BrokenSiteReporting/BrokenSiteReport.swift:205 | code i's text is the decimal form of code i, and there is one text per code |
| BrokenSiteReporting.NoCommaInNumber | Sources/PrivacyDashboard/BrokenSiteReporting/BrokenSiteReport.swift:205-206 | a decimal form is non-empty and holds no comma |
| BrokenSiteReporting.HttpErrorCodesRoundTrip | Sources/PrivacyDashboard/BrokenSiteReporting/BrokenSiteReport.swift:204-207 | httpErrorCodes is present exactly when status codes are, and reading it back gives the codes in order |
| BrokenSiteReporting.BlockedTrackersRoundTrip | Sources/PrivacyDashboard/BrokenSiteReporting/BrokenSiteReport.swift:179 | a non-empty tracker list with no comma in a domain reads back from blockedTrackers |
| BrokenSiteReporting.WireParameters | Sources/PrivacyDashboard/BrokenSiteReporting/BrokenSiteReport.swift:174-223 | the map as sent holds a key's name exactly when the key is expected, with that key's value |
| BrokenSiteReporting.AssembleMatchesTable | Sources/PrivacyDashboard/BrokenSiteReporting/BrokenSiteReport.swift:174-223 | the map built as the source builds it, the base literal followed by each conditional insertion in source order, is the per-key table of `Parameters`, in both modes |
| BrokenSiteReporting.GetRequestParametersMatchesTable | Sources/PrivacyDashboard/BrokenSiteReporting/BrokenSiteReport.swift:174-223 | `getRequestParameters(forReportMode:)` is the per-key table sent under the keys' names, in both modes |
| BrokenSiteReporting.GetRequestParameters | Sources/PrivacyDashboard/BrokenSiteReporting/BrokenSiteReport.swift:174-223 | no contract; specified by `BrokenSiteReporting.GetRequestParametersMatchesTable` and, through it, by the per-key lemmas above |
| BrokenSiteReporting.RequestParameters | Sources/PrivacyDashboard/BrokenSiteReporting/BrokenSiteReport.swift:172 | no contract; it is `GetRequestParameters` in regular mode, specified by `BrokenSiteReporting.RegularParameters` |
| BrokenSiteReporting.Parameters | Sources/PrivacyDashboard/BrokenSiteReporting/BrokenSiteReport.swift:174-223 | no contract; specified by `BrokenSiteReporting.KeyPresence`, `BrokenSiteReporting.ParameterKeys` and the value lemmas above |
| BrokenSiteReporting.TrimQuotesSpec | Sources/PrivacyDashboard/BrokenSiteReporting/BrokenSiteReport.swift:178 | trimming gives the text between a leading and a trailing run of quotes, and the result neither starts nor ends with a quote |
| BrokenSiteReporting.TrimQuotesIdempotent | Sources/PrivacyDashboard/BrokenSiteReporting/BrokenSiteReport.swift:178 | trimming the quotes twice is trimming them once |
| BrokenSiteReporting.LeadingQuotesSpec | Sources/PrivacyDashboard/BrokenSiteReporting/BrokenSiteReport.swift:178 | the leading count covers only quotes and stops at a non-quote or the end |
| BrokenSiteReporting.TrailingQuotesSpec | Sources/PrivacyDashboard/BrokenSiteReporting/BrokenSiteReport.swift:178 | the trailing count covers only quotes and stops at a non-quote or the start |
| BrokenSiteReporting.TrimQueryAndFragmentSpec | Sources/PrivacyDashboard/BrokenSiteReporting/BrokenSiteReport.swift:176 | the trimmed URL is the longest prefix without `?` or `#` |
| OAuth.DefaultCodes | Sources/Networking/Auth/OAuthRequest.swift:52-58 | by default, success is 200 and the error codes are [400, 500] |
| OAuth.BuildsOrNil | Sources/Networking/Auth/OAuthRequest.swift:72-76 | a builder gives a descriptor exactly when the request can be built and, for a login, the method is supported; the descriptor keeps the base URL |
| OAuth.SuccessCodes | Sources/Networking/Auth/OAuthRequest.swift:77-90 | authorize, createAccount and login expect 302; every other endpoint expects 200 |
| OAuth.ErrorCodes | Sources/Networking/Auth/OAuthRequest.swift:186-224 | editAccount and confirmEditAccount expect [401, 500], the others [400, 500]; no endpoint lists its success code among its error codes |
| OAuth.AuthorizeQuery | Sources/Networking/Auth/OAuthRequest.swift:62-78 | authorize is a GET whose query holds exactly response_type=code, the given code_challenge, S256, client_id, redirect_uri and scope=privacypro |
| OAuth.LoginQueries | Sources/Networking/Auth/OAuthRequest.swift:110-145 | an OTP login sends {method, email, otp}; a signature login sends {method, email: the signature, source}; any other method gives no request; the session id goes in the cookie |
| OAuth.EditAccountQuery | Sources/Networking/Auth/OAuthRequest.swift:186-204 | the email query item is present exactly when an email is given, and the access token is sent as a bearer authorization |
| OAuth.TokenEndpoints | Sources/Networking/Auth/OAuthRequest.swift:151-182 | getAccessToken and refreshAccessToken share the token path and differ in grant_type (authorization_code against refresh_token) |
| OAuth.ApiPaths | Sources/Networking/Auth/OAuthRequest.swift:62-224 | every endpoint's path lies under `/api/auth/v2/` |
| OAuth.ConfirmEditAccountOutsideApi | Sources/Networking/Auth/OAuthRequest.swift:206-224 | confirmEditAccount as written asks for `/account/edit/confirm`, outside the API prefix, and differs from the corrected request only in the path |
| OAuth.Init | Sources/Networking/Auth/OAuthRequest.swift:52-58 | no contract; specified by `OAuth.DefaultCodes` |
| OAuth.Authorize | Sources/Networking/Auth/OAuthRequest.swift:62-78 | no contract; specified by `OAuth.AuthorizeQuery`, `OAuth.BuildsOrNil`, `OAuth.SuccessCodes` and `OAuth.ApiPaths` |
| OAuth.CreateAccount | Sources/Networking/Auth/OAuthRequest.swift:82-91 | no contract; specified by `OAuth.BuildsOrNil`, `OAuth.SuccessCodes` and `OAuth.ApiPaths` |
| OAuth.SendOtp | Sources/Networking/Auth/OAuthRequest.swift:95-106 | no contract; specified by `OAuth.BuildsOrNil`, `OAuth.SuccessCodes` and `OAuth.ApiPaths` |
| OAuth.Login | Sources/Networking/Auth/OAuthRequest.swift:110-145 | no contract; specified by `OAuth.LoginQueries` and `OAuth.BuildsOrNil` |
| OAuth.GetAccessToken | Sources/Networking/Auth/OAuthRequest.swift:151-167 | no contract; specified by `OAuth.TokenEndpoints` |
| OAuth.RefreshAccessToken | Sources/Networking/Auth/OAuthRequest.swift:169-182 | no contract; specified by `OAuth.TokenEndpoints` |
| OAuth.EditAccount | Sources/Networking/Auth/OAuthRequest.swift:186-204 | no contract; specified by `OAuth.EditAccountQuery` and `OAuth.ErrorCodes` |
| OAuth.ConfirmEditAccount | Sources/Networking/Auth/OAuthRequest.swift:206-224 | no contract; the corrected builder, specified by `OAuth.ApiPaths` and `OAuth.ErrorCodes` |
| OAuth.ConfirmEditAccountAsWritten | Sources/Networking/Auth/OAuthRequest.swift:206-224 | no contract; the builder as written, specified by `OAuth.ConfirmEditAccountOutsideApi` |
| OAuth.Build | Sources/Networking/Auth/OAuthRequest.swift:62-224 | no contract; dispatches to the builders, so that `OAuth.BuildsOrNil`, `OAuth.SuccessCodes`, `OAuth.ErrorCodes` and `OAuth.ApiPaths` speak of every endpoint |
| SyncClient.DDGSync.constructor | BrowserServicesKit/Sources/DDGSync/DDGSync.swift:174-178 | the flag starts as "the stored account has a token" |
| SyncClient.DDGSync.UpdateIsAuthenticatedFlag | BrowserServicesKit/Sources/DDGSync/DDGSync.swift:180-182 | the flag is set from the store, and the store is untouched |
| SyncClient.DDGSync.HandleUnauthenticatedError | BrowserServicesKit/Sources/DDGSync/DDGSync.swift:184-199 | the new state and outcome are `HandleUnauthenticated` of the old state and the error |
| SyncClient.DDGSync.CreateAccount | BrowserServicesKit/Sources/DDGSync/DDGSync.swift:48-56 | the new state and outcome are `SyncLifecycle.CreateAccount` of the old state and the remote outcome |
| SyncClient.DDGSync.Login | BrowserServicesKit/Sources/DDGSync/DDGSync.swift:58-66 | the same, for `SyncLifecycle.Login` |
| SyncClient.DDGSync.RemoteConnect | BrowserServicesKit/Sources/DDGSync/DDGSync.swift:68-74 | the result is `SyncLifecycle.RemoteConnect`, and the state is unchanged |
| SyncClient.DDGSync.TransmitRecoveryKey | BrowserServicesKit/Sources/DDGSync/DDGSync.swift:76-86 | the same, for `SyncLifecycle.TransmitRecoveryKey` |
| SyncClient.DDGSync.DisconnectDevice | BrowserServicesKit/Sources/DDGSync/DDGSync.swift:114-123 | the same, for `SyncLifecycle.DisconnectDevice` |
| SyncClient.DDGSync.Disconnect | BrowserServicesKit/Sources/DDGSync/DDGSync.swift:101-112 | the same, for `SyncLifecycle.Disconnect` |
| SyncClient.DDGSync.FetchDevices | BrowserServicesKit/Sources/DDGSync/DDGSync.swift:125-137 | the same, for `SyncLifecycle.FetchDevices` |
| SyncClient.DDGSync.UpdateDeviceName | BrowserServicesKit/Sources/DDGSync/DDGSync.swift:139-153 | the same, for the corrected `SyncLifecycle.UpdateDeviceName` (see Findings) |
| SyncClient.DDGSync.DeleteAccount | BrowserServicesKit/Sources/DDGSync/DDGSync.swift:155-167 | the same, for `SyncLifecycle.DeleteAccount` |
| SyncLifecycle.Initial | BrowserServicesKit/Sources/DDGSync/DDGSync.swift:174-178 | no contract; specified by `SyncProperties.ValidAlways` |
| SyncLifecycle.UpdateIsAuthenticated | BrowserServicesKit/Sources/DDGSync/DDGSync.swift:180-182 | no contract; specified by `SyncProperties.ValidPreserved` |
| SyncLifecycle.HandleUnauthenticated | BrowserServicesKit/Sources/DDGSync/DDGSync.swift:184-199 | no contract; specified by `SyncProperties.UnauthorizedRule` |
| SyncLifecycle.CreateAccount | BrowserServicesKit/Sources/DDGSync/DDGSync.swift:48-56 | no contract; specified by `SyncProperties.AccountAlreadyExistsGuard` and `SyncProperties.RegistrationStoresAccount` |
| SyncLifecycle.Login | BrowserServicesKit/Sources/DDGSync/DDGSync.swift:58-66 | no contract; specified by `SyncProperties.AccountAlreadyExistsGuard` and `SyncProperties.RegistrationStoresAccount` |
| SyncLifecycle.RemoteConnect | BrowserServicesKit/Sources/DDGSync/DDGSync.swift:68-74 | no contract; specified by `SyncProperties.AccountAlreadyExistsGuard` |
| SyncLifecycle.TransmitRecoveryKey | BrowserServicesKit/Sources/DDGSync/DDGSync.swift:76-86 | no contract; specified by `SyncProperties.AccountNotFoundGuard` and `SyncProperties.ValidPreserved` |
| SyncLifecycle.DisconnectDevice | BrowserServicesKit/Sources/DDGSync/DDGSync.swift:114-123 | no contract; specified by `SyncProperties.AccountNotFoundGuard`, `SyncProperties.NoTokenGuard` and `SyncProperties.AccountRemoval` |
| SyncLifecycle.Disconnect | BrowserServicesKit/Sources/DDGSync/DDGSync.swift:101-112 | no contract; specified by `SyncProperties.AccountNotFoundGuard`, `SyncProperties.NoTokenGuard` and `SyncProperties.AccountRemoval` |
| SyncLifecycle.FetchDevices | BrowserServicesKit/Sources/DDGSync/DDGSync.swift:125-137 | no contract; specified by `SyncProperties.AccountNotFoundGuard` and `SyncProperties.ListsAfterFailure` |
| SyncLifecycle.UpdateDeviceName | BrowserServicesKit/Sources/DDGSync/DDGSync.swift:139-153 | no contract; the corrected rename, specified by `SyncProperties.ListsAfterFailure`, `SyncProperties.ValidPreserved` and `SyncProperties.UpdateDeviceNameOnlyFlagDiffers` |
| SyncLifecycle.UpdateDeviceNameAsWritten | BrowserServicesKit/Sources/DDGSync/DDGSync.swift:139-153 | no contract; the rename as written, specified by `SyncProperties.UpdateDeviceNameLeavesFlagStale` |
| SyncLifecycle.DeleteAccount | BrowserServicesKit/Sources/DDGSync/DDGSync.swift:155-167 | no contract; specified by `SyncProperties.AccountNotFoundGuard` and `SyncProperties.AccountRemoval` |
| SyncProperties.AccountAlreadyExistsGuard | BrowserServicesKit/Sources/DDGSync/DDGSync.swift:49-51 | with an account stored, createAccount, login and remoteConnect fail with accountAlreadyExists and the state is unchanged |
| SyncProperties.AccountNotFoundGuard | BrowserServicesKit/Sources/DDGSync/DDGSync.swift:77-79 | with no account stored, transmitRecoveryKey, disconnect, fetchDevices, updateDeviceName and deleteAccount fail with accountNotFound and the state is unchanged |
| SyncProperties.NoTokenGuard | BrowserServicesKit/Sources/DDGSync/DDGSync.swift:115-117 | without a stored token, disconnect(deviceId:) fails with noToken and the state is unchanged; so does disconnect() when an account is stored |
| SyncProperties.UnauthorizedRule | BrowserServicesKit/Sources/DDGSync/DDGSync.swift:184-199 | only unexpectedStatusCode(401) is swallowed, and it removes the account and clears the flag; every other error is rethrown unchanged with the state untouched |
| SyncProperties.RegistrationStoresAccount | BrowserServicesKit/Sources/DDGSync/DDGSync.swift:53-55 | a successful createAccount or login stores the returned account, and the flag says whether that account has a token |
| SyncProperties.ListsAfterFailure | BrowserServicesKit/Sources/DDGSync/DDGSync.swift:130-136 | fetchDevices and updateDeviceName return [] after a swallowed 401, which removes the account; they rethrow any other failure with the state untouched |
| SyncProperties.AccountRemoval | BrowserServicesKit/Sources/DDGSync/DDGSync.swift:101-112 | a stored account disappears only through a successful disconnect or deletion, or a 401; with a token stored, each of those does remove it |
| SyncProperties.ValidPreserved | BrowserServicesKit/Sources/DDGSync/DDGSync.swift:180-182 | every operation keeps the flag equal to "a stored account with a token exists" |
| SyncProperties.ValidAlways | BrowserServicesKit/Sources/DDGSync/DDGSync.swift:177 | the flag agrees with the store at initialisation and after any sequence of operations |
| SyncProperties.ValidAlong | BrowserServicesKit/Sources/DDGSync/DDGSync.swift:180-182 | from an agreeing state, any sequence of operations keeps the flag in agreement |
| SyncProperties.UpdateDeviceNameLeavesFlagStale | BrowserServicesKit/Sources/DDGSync/DDGSync.swift:144-147 | as written, renaming the device can leave the flag false while the stored account has a token; the corrected rename does not |
| SyncProperties.UpdateDeviceNameOnlyFlagDiffers | BrowserServicesKit/Sources/DDGSync/DDGSync.swift:139-153 | the corrected rename stores the same account and returns the same result as the one written; only the flag differs |
| AppStoreRestore.FirstFailure | Sources/Subscription/Flows/AppStore/AppStoreRestoreFlow.swift:50-95 | the stage found fails and every earlier stage succeeds; when none is found, every stage succeeds |
| AppStoreRestore.Restore | Sources/Subscription/Flows/AppStore/AppStoreRestoreFlow.swift:47-106 | no contract; specified by `AppStoreRestore.FirstFailureDecides`, `AppStoreRestore.AllStagesCalled`, `AppStoreRestore.SubscriptionDecides` and `AppStoreRestore.StoredOnlyOnSuccess` |
| AppStoreRestore.FirstFailureDecides | Sources/Subscription/Flows/AppStore/AppStoreRestoreFlow.swift:58-95 | the first failing stage i fixes the error; the calls made are those of stages 1 to i, in order, the failing stage's own call included and no later stage's (stage 0, the transaction lookup, makes no remote call); nothing is stored |
| AppStoreRestore.AllStagesCalled | Sources/Subscription/Flows/AppStore/AppStoreRestoreFlow.swift:58-95 | when every stage succeeds, the four remote calls run in order, each with what the previous one returned |
| AppStoreRestore.StageErrorsDistinct | Sources/Subscription/Flows/AppStore/AppStoreRestoreFlow.swift:28-35 | each failing stage has its own error, and none is subscriptionExpired |
| AppStoreRestore.NoTransaction | Sources/Subscription/Flows/AppStore/AppStoreRestoreFlow.swift:50-53 | without a recent transaction the error is missingAccountOrTransactions, no remote call is made and nothing is stored |
| AppStoreRestore.SubscriptionDecides | Sources/Subscription/Flows/AppStore/AppStoreRestoreFlow.swift:97-105 | an active subscription stores the auth token and the account (access token, email, external id) and succeeds; an inactive one fails with subscriptionExpired carrying exactly those details and stores nothing |
| AppStoreRestore.StoredOnlyOnSuccess | Sources/Subscription/Flows/AppStore/AppStoreRestoreFlow.swift:97-100 | something is stored exactly when the restore succeeds, which is when every stage succeeds and the subscription is active |
| AppStoreRestore.AccountManager.constructor | Sources/Subscription/Flows/AppStore/AppStoreRestoreFlow.swift:37 | a manager starts with nothing stored |
| AppStoreRestore.AccountManager.StoreAuthToken | Sources/Subscription/Flows/AppStore/AppStoreRestoreFlow.swift:98 | the token is stored, and the account is unchanged |
| AppStoreRestore.AccountManager.StoreAccount | Sources/Subscription/Flows/AppStore/AppStoreRestoreFlow.swift:99 | the account is stored, and the token is unchanged |
| AppStoreRestore.AppStoreRestoreFlow.constructor | Sources/Subscription/Flows/AppStore/AppStoreRestoreFlow.swift:41-45 | the flow keeps the account manager it is given |
| AppStoreRestore.AppStoreRestoreFlow.RestoreAccountFromPastPurchase | Sources/Subscription/Flows/AppStore/AppStoreRestoreFlow.swift:47-106 | the outcome and the remote calls are those of `Restore`; the manager holds the token and the account exactly when `Restore` stores them, and is untouched otherwise |

## Left out

- The web engine, the local test server, test expectations and timeouts are not modelled. A navigation's URL request is its URL string, and a response is a small record.
- The tests patch up some event reorderings (Tests/NavigationTests/DistributedNavigationDelegateTests.swift:321-325 and 734-736). Those orderings come from timing, and the model delivers events in one fixed order.
- Navigations are not tracked per frame. The delegate keeps one current navigation, as the main-frame tests show. New windows, reloads, same-document navigations, custom schemes, simulated requests and stop-loading are not modelled as scenarios.
- Swift task cancellation is modelled as supersession: a reply to a decision that is no longer pending is ignored.
- Navigation.ReceiveResponse: the delegate keeps one pending decision at a time, and any new decision supersedes it, including a response of an older navigation arriving while a newer load's action decision is pending. That newer load then does not start unless it is requested again. Decisions are not kept per subject, because the tests decide one question at a time and pin no such interleaving.
- The navigation delegate's own implementation is not part of this model. The delegate is built to reproduce the histories the tests assert.
- Persistence.ManagedObjectContext.ChangesAndSave: the model takes the context to have changes after any attempt whose `changes` or `save` threw, and to have none after a save. CoreData's own bookkeeping of `hasChanges` is not modelled, so the third ensures of `ApplyChangesAndSave` and of `ApplyChangesAndSaveThrowing` (changes remain only after an error that is not a merge conflict) rest on that assumption.
- CoreData is not modelled. What `changes` and `save` do in each attempt is an input, and errors are reduced to their codes. The `assert(!hasChanges)` on entry becomes a precondition.
- `trimmingQueryItemsAndFragment` is a cut at the first `?` or `#`. `Bool.description` is "true"/"false". `localizedDescription` is a field of the error. `joined` has a one-character separator.
- `getRequestParameters` is modelled in source order as `Assemble`: the literal of the eleven base keys, then each conditional insertion in turn. `AssembleMatchesTable` proves it equal to the per-key table `Parameters` that the property lemmas use, and `NamesInjective` proves that no two keys share a name, so no insertion overwrites another.
- `OAuthRequest.errorDetails` and the error-body decoding are not modelled: they are a fixed lookup table with no behaviour.
- Building an `APIRequestV2` is a `builds` flag, because the request type is outside this code.
- `OAuth.ConfirmEditAccount` models the path corrected to lie under the API prefix. The builder as written is `OAuth.ConfirmEditAccountAsWritten`; see Findings.
- Failures of the sync client's secure store are not modelled: reading, persisting and removing the account always succeed. The crypter's preparation and the connector's creation are one input outcome.
- `sender`, `fetchLatest` and `fetchEverything` of the sync client are not modelled: they only hand over to the updates machinery.
- The Combine publishers, async/await and logging are not modelled. Only the resulting state is kept.
- `SyncClient.DDGSync.UpdateDeviceName` is proved against the corrected rename, which refreshes the flag. The rename as written is `SyncLifecycle.UpdateDeviceNameAsWritten`; see Findings.
- `PurchaseManager`, the auth service, the account manager's remote calls and the subscription service are one input outcome per stage. The subscription app group parameter is not used by the flow.

## Findings

| source | as written | input that shows it | evidently intended | confidence | as-written member | corrected member |
|---|---|---|---|---|---|---|
| BrowserServicesKit/Sources/DDGSync/DDGSync.swift:139-153 | `updateDeviceName` persists the refreshed account without calling `updateIsAuthenticated`, unlike every other operation that changes the store | a stored account without a token, refreshed into one with a token: `isAuthenticated` stays false | the flag is updated after the refreshed account is stored, so it always agrees with the store | low, not executed | SyncProperties.UpdateDeviceNameLeavesFlagStale | SyncProperties.ValidAlways |
| Sources/Networking/Auth/OAuthRequest.swift:206-207 | `confirmEditAccount` uses the path `/account/edit/confirm`, the only path without the `/api/auth/v2` prefix | any confirmation request: its URL is the base URL followed by `/account/edit/confirm` | `/api/auth/v2/account/edit/confirm`, next to `/api/auth/v2/account/edit` | medium, not executed | OAuth.ConfirmEditAccountOutsideApi | OAuth.ApiPaths |
