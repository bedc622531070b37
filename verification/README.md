# Moon Bridge, verified

A Dafny model of the parts of Moon Bridge where the order of effects, a crash, a second process or a
second run decides whether the user's setup survives, with proofs of what those parts keep. Nothing
here executes the program; `dafny verify dfyconfig.toml` checks everything.

| files | what they model |
|---|---|
| ConfigRedirect, RedirectSafety, RedirectRecovery | redirecting the Codex config to the Capture proxy and back, with a crash possible after any write and every write able to fail with the old or the new bytes in place |
| FrontDoor, FrontDoorSafety | the Codex config, the :38440 relay and the :38442 backend, moved one at a time by the desktop |
| ExitHandoff, ExitSafety, ExitProgress, ExitRuns | handing :38440 over to helper processes on exit, in every interleaving of the user, any number of confirmations, helpers and Codex app-servers |
| CachePrefix, CacheBreakpoints, CacheChoice, CacheReplay, CacheLaws, CacheExactness | the prompt-cache replay simulator |
| GatewayConfig, GatewayLoad, GatewayLaws, GatewayRoundTrip, GatewayAliases, GatewayMeaning, GatewayAcceptance | loading, validating, writing back and resolving the gateway configuration |
| DeepSeekGraph, DeepSeekLaws, DeepSeekSetup | reconciling and verifying the DeepSeek setup in the gateway's configuration graph |
| ObservationLog, ObservationLaws | the autosaved observation log under write and sync failures |
| LogBridge | splitting the gateway's log stream into lines |
| ConfigMigration, ConfigMigrationLaws, ConfigMigrationMeaning | migrating a config file to the current format |

Operations that work step by step are classes and loops with a ghost history, or contracts that give
the whole new state as a function of the old one; the laws are proved about those functions. Where a
property turned out not to hold of the code, the code is modelled as it is, the exact condition is
proved, and a concrete run or input shows the failure:

- A publication that reports an error after its rename, a startup verdict that cannot be written, or a
  foreign edit between publication and claim makes the next start take the capture URL for the user's own
  (`StartKeepsOwnership`, `StartupClaims` and `EditInTheGapExactly` say exactly when; `UnsyncedPublishOrphans`,
  `LostVerdictOrphans` and `EditInTheGapOrphans` show it).
- A handoff rolls back without looking whether it got the port back: a marker written too late, or a second
  confirmation after a failed quit, leaves the config at a port on which nobody listens once the helper goes
  (`HandoffServesExactly`, `AnchoredExactly`, `LateMarkerStrands`, `SecondConfirmationStrands`).
- Confirming an exit holds no lock while it works, so the gateway can be turned on in the middle of it, and two
  confirmations can run at once: the exit is then confirmed with an app-server at the gateway, or with the config
  back at the front door (`PromisedExactly`, `TurnedOnWhileConfirming`, `RestartedDuringHandoff`, `ConfirmedTwice`,
  `FailedStartTakesPort`).
- A helper whose marker cannot be written leaves the file behind if it was created, and the desktop only looks
  whether it exists: the exit is confirmed with nobody at the port (`TrustedExactly`, `FailedMarkerStrands`).
- The notice that a failed start has not changed the Codex config is true exactly outside `LeavesRedirect`
  (`StartChangesConfigExactly`).
- A maximum of 0 breakpoints is no cap (`SliceRespectsCap`, `ZeroMaximumIsNoCap`).
- Load, save, load loses a base URL's space before its last slashes, an unknown web-search mode of a provider
  (which the loader accepts), an override that switches off a flag, a blank description that hides the model's,
  and what hangs on an upstream name that is no slug. `LoadSaveLoadExactly` says which files lose nothing;
  `SpaceBeforeSlash` and `UpstreamNameLosesRoute` show losses.
- Prices that come back as whole JSON numbers verify, but every reconciliation patches them again
  (`VerifiedIsQuietExactly`, `WholePricesAreNeverQuiet`).
- A gateway that omits a zero priority on the wire, as the encoder of its offers does, serves no graph that
  verifies, and configuring against it never succeeds (`NoEncodedGraphVerifies`, `DeepSeekSetup.Configure`).
- Closing the observation log appends even after an error, and gaps counted before a failed write stay
  counted (`RunBalance`, `ClosingRepeatsRowsExactly`).

## Assumptions

- SHA-256 (section 6.2 of FIPS 180-4) is injective, and in the cache chain a base input is never a step input.
- The user's own base URL is not the capture URL. Rendering a TOML document is canonical in its keys and values.
- Services that are not modelled keep their contracts: enabling and disabling the integration move the
  config or fail leaving it as it was or, when enabling, at the front door; a failed switch of the front door
  keeps its target; leaving capture moves the door back before the listener stops; the backend does not die
  uncommanded. Gateway operations come one at a time; confirmations do not, and interleave with them.
- Starting, stopping and closing the front door and `beforeClose` are one step each, and a process identifier is
  not used again while a handoff for it lasts. The desktop's own removal of a marker succeeds; nobody reads that
  marker afterwards.
- The gateway stores a create or patch exactly, and refuses one whose base revision is old.
- Floating-point scaling in the replay is exact rational arithmetic, with rounding half to even.
- Sequence numbers, token counts and revisions do not overflow 64 bits.

## Model

| member | source | states |
|---|---|---|
| ConfigRedirect.Desktop.PublishFile | desktop/src-tauri/src/traffic_analysis.rs:2499-2525 | a publication leaves the old or the new file, never a mixture, and may report failure with the new one in place |
| ConfigRedirect.VerdictExactly | desktop/src-tauri/src/traffic_analysis.rs:303-354 | which of the four verdicts a startup reaches, what each makes of the record, and that it touches no more of it |
| ConfigRedirect.Desktop.ReconcileStartup | desktop/src-tauri/src/traffic_analysis.rs:359-398 | a startup makes at most one write, to the record, and none when the verdict is already recorded; which of the four verdicts it is, and what becomes of an unreadable config |
| ConfigRedirect.Desktop.CleanUp | desktop/src-tauri/src/traffic_analysis.rs:2764-2797 | a failed start leaves the config alone and, unless that write is lost, ends with an aborted, inactive record |
| ConfigRedirect.Desktop.Undo | desktop/src-tauri/src/traffic_analysis.rs:692-701 | the original file is back unless that write is lost, and the record is inactive unless the abort is |
| ConfigRedirect.Desktop.Apply | desktop/src-tauri/src/traffic_analysis.rs:678-719 | publish, verify, claim, in this order; it succeeds exactly if all three do, and leaves the candidate on disk and an active record, else an aborted one unless that write is lost |
| ConfigRedirect.Desktop.Start | desktop/src-tauri/src/traffic_analysis.rs:400-754 | a start is accepted, and succeeds, exactly under the conditions named; success leaves the user's document with the capture URL and an active record that remembers the old one, failure an aborted record unless that write is lost, refusal nothing |
| ConfigRedirect.Desktop.RestoreActive | desktop/src-tauri/src/traffic_analysis.rs:2149-2268 | a restore gets through exactly for a readable config and a caller who confirms, or over the applied or the previous URL, or an unchanged document; then the previous URL is on disk and the record inactive, otherwise nothing is touched |
| ConfigRedirect.Desktop.Stop | desktop/src-tauri/src/traffic_analysis.rs:982-1063 | a stop touches nothing unless the record is active and Capture is paused; it succeeds exactly if the record is inactive already or an unconfirmed restore gets through |
| ConfigRedirect.Desktop.RestoreConfig | desktop/src-tauri/src/traffic_analysis.rs:1197-1237 | a restore works from any record, active or not, exactly if Capture is paused and it may go ahead; a confirmation overrides a foreign URL |
| ConfigRedirect.Desktop.RestartCapture | desktop/src-tauri/src/traffic_analysis.rs:759-980 | a restart never writes the config, and is accepted exactly for the exact applied config, once; the record says how far it got |
| RedirectSafety.CleanupKeeps | desktop/src-tauri/src/traffic_analysis.rs:2764-2797 | a cleanup loses no redirect unless it gives up one that is still on disk |
| RedirectSafety.ApplyKeeps | desktop/src-tauri/src/traffic_analysis.rs:678-719 | from publishing on, every state is recoverable, and the last one is claimed, exactly when no orphaning write failure occurs |
| RedirectSafety.StartKeepsOwnership | desktop/src-tauri/src/traffic_analysis.rs:400-754 | every crash point of a start is recoverable; a start leaves an unclaimed redirect exactly under the write failures named by Orphans |
| RedirectSafety.NextStartRecordsCapture | desktop/src-tauri/src/traffic_analysis.rs:400-754 | a second start records the capture URL as the user's own exactly when the first one failed in one of those ways |
| RedirectSafety.StartupClaims | desktop/src-tauri/src/traffic_analysis.rs:303-398 | a startup claims every redirect it finds, exactly unless the write of its verdict is lost |
| RedirectSafety.RestoreKeeps | desktop/src-tauri/src/traffic_analysis.rs:2149-2268 | a restore keeps ownership at each write, whatever fails |
| RedirectSafety.RestartKeeps | desktop/src-tauri/src/traffic_analysis.rs:759-980 | a restart keeps ownership and never touches the config |
| RedirectSafety.EventKeeps | desktop/src-tauri/src/traffic_analysis.rs:303-1237 | each operation keeps ownership at every write |
| RedirectSafety.EditKeepsExactly | desktop/src-tauri/src/traffic_analysis.rs:303-354 | a foreign edit of the config keeps the redirect recoverable exactly when it leaves none in it, or one that the record claims or the next startup can claim |
| RedirectSafety.StepKeeps | desktop/src-tauri/src/traffic_analysis.rs:303-1237 | each operation cut off by a crash after any number of writes keeps ownership too |
| RedirectSafety.RunsAreSound | desktop/src-tauri/src/traffic_analysis.rs:303-1237 | so does every run of operations, crashes, startups and foreign edits |
| RedirectSafety.RedirectIsAlwaysRecoverable | desktop/src-tauri/src/traffic_analysis.rs:303-754 | over every run: a redirect on disk has a record that knows the user's own URL and claims it or is claimed by the next startup; no accepted start finds the capture URL |
| RedirectRecovery.RestoreUndoesRedirect | desktop/src-tauri/src/traffic_analysis.rs:2421-2445 | putting the previous URL back undoes the redirect key for key; an absent file becomes absent again |
| RedirectRecovery.RunsOnlySwap | desktop/src-tauri/src/traffic_analysis.rs:303-1237 | over every run without foreign edits the file is the user's own or that file with the capture URL, and every record remembers the user's own |
| RedirectRecovery.RestoreAlwaysGivesBack | desktop/src-tauri/src/traffic_analysis.rs:303-398 | after any such run and a crash, one startup and one unconfirmed restore give back the user's own file |
| RedirectRecovery.StartThenStop | desktop/src-tauri/src/traffic_analysis.rs:400-1063 | a start and a stop give back the same document and the same file existence |
| RedirectRecovery.StartChangesConfigExactly | desktop/src-tauri/src/traffic_analysis.rs:2764-2785 | a failed start has left the config unchanged, as its notice says, exactly unless nothing put the original back |
| RedirectRecovery.CrashVerdict | desktop/src-tauri/src/traffic_analysis.rs:303-354 | after a crash anywhere in a start the verdict is a pending restore exactly when the candidate is on disk and was not given up; else inactive, or already restored |
| RedirectRecovery.StartupsSettle | desktop/src-tauri/src/traffic_analysis.rs:359-398 | for a fixed readable config two startups reach a fixed point; the config is never written |
| RedirectRecovery.OneStartupSettlesExactly | desktop/src-tauri/src/traffic_analysis.rs:329-336 | one startup is enough exactly unless it finds the config already restored |
| RedirectRecovery.RestoreIsNarrow | desktop/src-tauri/src/traffic_analysis.rs:2917-2930 | a restore changes the URL key alone, and without confirmation only an exactly applied one |
| RedirectRecovery.UnsyncedPublishOrphans | desktop/src-tauri/src/traffic_analysis.rs:2944-2952 | a publication that fails after its rename orphans the redirect |
| RedirectRecovery.LostVerdictOrphans | desktop/src-tauri/src/lib.rs:1672-1674 | so does a startup whose verdict cannot be written, as its error is ignored |
| RedirectRecovery.EditInTheGapExactly | desktop/src-tauri/src/traffic_analysis.rs:313-328 | after a crash between publication and claim, an edit that leaves a redirect in the config keeps it recoverable exactly when the document is the published one again |
| RedirectRecovery.EditInTheGapOrphans | desktop/src-tauri/src/traffic_analysis.rs:313-328 | so any change of another key there orphans the redirect, whatever config the start began with |
| FrontDoor.App.SetUpstream | desktop-app/app.go:786-791 | a failed switch keeps the old target |
| FrontDoor.App.StartFrontDoor | desktop-app/app.go:756-771 | the door opens on the original upstream, and an open door is left alone |
| FrontDoor.App.LeaveCapture | desktop-app/app.go:661-677 | the door goes back to the backend before the capture listener may stop; where door, listener and outcome end up whatever fails |
| FrontDoor.App.Send | desktop-app/app.go:619-636 | redirect the config, then switch the door; it succeeds exactly if both do or the config is there already, and where everything ends up otherwise |
| FrontDoor.App.StartGateway | desktop-app/app.go:554-648 | exactly when a start succeeds, when it leaves the gateway running without, and what config, door and backend are after every failure |
| FrontDoor.App.Unhook | desktop-app/app.go:683-698 | a failed switch stops short with door and backend as they were; otherwise the door is closed or on the original upstream and the backend stops |
| FrontDoor.App.StopGateway | desktop-app/app.go:651-699 | capture, door and backend are taken down in this order; exactly when that succeeds, and where they end up when a step fails |
| FrontDoor.App.RestartGateway | desktop-app/app.go:529-539 | a restart starts only after a stop that succeeded; exactly when the two together succeed or leave the gateway running |
| FrontDoor.App.Startup | desktop-app/app.go:377-389 | the door reopens exactly for a config found still redirected, if it can be bound |
| FrontDoor.App.Shutdown | desktop-app/app.go:426-478 | shutdown parks, restores, stops and closes in this order, and always closes; what it leaves of config, backend and capture |
| FrontDoor.App.RollBack | desktop-app/handoff.go:69-80 | a rollback tries every step whatever the one before did: the config can move although the door does not open |
| FrontDoor.App.HandOff | desktop-app/handoff.go:24-63 | success means exactly that every step succeeded, with the config restored and the door released; where a rollback leaves config and door; the backend is untouched |
| FrontDoorSafety.StartIsSteady | desktop-app/app.go:554-648 | at every effect of a start, whatever fails, Codex is served |
| FrontDoorSafety.StopIsSteady | desktop-app/app.go:651-699 | at every effect of a stop Codex is served; a successful one leaves no target but the original upstream |
| FrontDoorSafety.RestartIsSteady | desktop-app/app.go:529-539 | the same across a restart |
| FrontDoorSafety.StartupServes | desktop-app/app.go:377-389 | after a crash Codex is served again exactly when the config is the user's or is recognised and the door binds |
| FrontDoorSafety.ShutdownServesExactly | desktop-app/app.go:397-479 | shutdown serves Codex at every effect exactly when the config ends up the user's |
| FrontDoorSafety.ShutdownParks | desktop-app/app.go:456-463 | it takes the door off the backend before the backend stops, unless the door cannot be switched |
| FrontDoorSafety.RollbackServesExactly | desktop-app/handoff.go:69-80 | a rollback serves Codex exactly when the door is open or binds, or the config is not sent to it |
| FrontDoorSafety.HandoffServesExactly | desktop-app/handoff.go:24-80 | a handoff serves Codex at every effect exactly unless a rollback cannot bind the released door and redirects all the same |
| FrontDoorSafety.RunsServe | desktop-app/app.go:507-699 | over every run of operations, at every effect, a config that names the door finds it open on a live target |
| FrontDoorSafety.LateMarkerStrandsCodex | desktop-app/handoff.go:52-57 | the excluded rollback ends with the config at a closed door |
| ExitHandoff.UserKeeps | desktop-app/traffic_bindings.go:104-183 | switching the gateway, with every way a start may end once it has the port, closing, declining, and confirming once more in the middle of a confirmation keep the protocol invariant |
| ExitHandoff.DesktopKeepsHelpers | desktop-app/handoff.go:24-63 | no desktop step breaks the agreement between helpers and port |
| ExitHandoff.DesktopKeepsCalls | desktop-app/traffic_bindings.go:188-226 | a step of one confirmation keeps what its own position and those of all others promise |
| ExitHandoff.HelperKeeps | desktop-app/handoff_windows.go:45-88 | the port is held by exactly the helper that is between binding it and closing its listener, and no helper step invalidates what the desktop relies on |
| ExitHandoff.CodexKeeps | desktop-app/handoff_windows.go:61-87 | nor does an app-server that starts or exits |
| ExitHandoff.RunsKeep | desktop-app/traffic_bindings.go:173-226 | the invariant holds in every interleaving of user, confirmations, helpers and app-servers |
| ExitSafety.TrustedExactly | desktop-app/handoff_windows.go:76-88 | the only step after which a marker on disk, or an exit that rests on one, counts on a helper that left a running app-server is the marker's write failing once its file is there |
| ExitSafety.RunsStayTrusted | desktop-app/handoff_windows.go:45-88 | so over every interleaving without that step such a helper holds the port, or its app-server is gone |
| ExitSafety.PromisedExactly | desktop-app/traffic_bindings.go:188-208 | what confirmations promise is broken exactly by a start of the gateway that takes the port, the config or a left-aside app-server back, and by the rollback of another confirmation that takes the port or the config back |
| ExitSafety.RunsKeepPromises | desktop-app/traffic_bindings.go:173-226 | so the promises hold in every interleaving without those steps |
| ExitSafety.ExitIsGrounded | desktop-app/traffic_bindings.go:173-208 | in every interleaving the desktop closes only on a confirmed exit or without a gateway; unless a marker's write fails half-way, a marker or an exit that rests on one means a helper that relays on the port or an app-server that is gone; unless somebody interferes, the config is restored and no app-server was left at the gateway |
| ExitSafety.CommitIsGrounded | desktop-app/handoff.go:47-63 | a handoff succeeds only by its own helper's marker, which then means that this helper relays on the port or has ended with its app-server |
| ExitSafety.AnchoredExactly | desktop-app/handoff.go:47-80 | outside rollbacks a config is left at a port the desktop does not hold exactly by the last rollback under way not having bound it, or by releasing the port after the config was redirected again |
| ExitSafety.RunsStayAnchored | desktop-app/handoff.go:24-80 | over every interleaving without those steps, a config that names the front door finds the desktop there |
| ExitRuns.MarkerOutlivesListener | desktop-app/handoff_windows.go:85-86 | a marker can be seen after its helper closed the listener, because closing and removing are two steps: a concrete run |
| ExitRuns.FailedMarkerStrands | desktop-app/handoff_windows.go:76-81 | a marker whose write fails after its file is there confirms the exit with the app-server alone: a concrete run |
| ExitRuns.LateMarkerStrands | desktop-app/handoff.go:98-106 | a marker written too late to be seen strands Codex: a concrete run |
| ExitRuns.SecondConfirmationStrands | desktop-app/traffic_bindings.go:217-222 | so does confirming again after a handoff whose quit failed: a concrete run |
| ExitRuns.ConfirmedTwice | desktop-app/traffic_bindings.go:181-208 | of two confirmations at once, one confirms the exit although the rollback of the other sent the config back to the front door: a concrete run |
| ExitRuns.TurnedOnWhileConfirming | desktop-app/traffic_bindings.go:191-208 | turning the gateway on between Confirm and the commit confirms an exit with an app-server left at the gateway: a concrete run |
| ExitRuns.RestartedDuringHandoff | desktop-app/traffic_bindings.go:197-208 | restarting the gateway during a handoff confirms an exit with the config back at the front door: a concrete run |
| ExitRuns.FailedStartTakesPort | desktop-app/app.go:616-626 | a start that fails to redirect the config has taken the port from under a waiting helper: a concrete run |
| ExitProgress.QuestionExactly | desktop-app/traffic_bindings.go:104-182 | the question is open exactly after a step that asks it and until it is declined or an exit is confirmed; and exactly when the desktop closes |
| ExitProgress.DeclineTakesBack | desktop-app/traffic_bindings.go:175-179 | after declining there is nothing to confirm, and the next attempt to close asks anew exactly if the gateway runs or something is busy, and closes otherwise |
| ExitProgress.StaysUnasked | desktop-app/traffic_bindings.go:173-184 | over every run what is not asked cannot be confirmed until a step that asks |
| ExitProgress.UserMayExactly | desktop-app/traffic_bindings.go:173-184 | until the desktop closes the user can do everything but start a gateway that runs or whose port a helper has, and confirm what was not asked |
| ExitProgress.GatewayExactly | desktop-app/app.go:507-527 | the gateway runs exactly from a start that leaves it running to a stop or the end |
| ExitProgress.DeathReleases | desktop-app/app.go:470-475 | a desktop that is gone holds no port and no gateway; what a helper holds stays |
| ExitProgress.ConfirmationStarts | desktop-app/traffic_bindings.go:187-191 | a confirmation looks for app-servers exactly if the gateway runs |
| ExitProgress.CallsEnd | desktop-app/traffic_bindings.go:173-226 | no run holds more than eleven steps of one confirmation |
| ExitProgress.CallsNeverStick | desktop-app/traffic_bindings.go:173-226 | and in every interleaving an unfinished one has a step to take, as long as the desktop does not close |
| ExitProgress.EndsExactly | desktop-app/handoff.go:31-63 | once the restoration has begun, a confirmation ends by confirming an exit or by a rollback |
| ExitProgress.DetectsExactly | desktop-app/traffic_bindings.go:191-199 | a detection can succeed with any app-server that runs, and with none exactly if there is none; then nothing is handed over |
| ExitProgress.HelpersServeDetected | desktop-app/handoff.go:24-47 | in every interleaving each helper is there for an app-server that a confirmation detected while it ran |
| ExitProgress.HelpersNeverStick | desktop-app/handoff_windows.go:45-88 | a helper always has a step to take, but while its app-server runs |
| ExitProgress.HelperAdvances | desktop-app/handoff_windows.go:45-88 | it never goes back, opens only a running app-server, leaves other helpers alone, and leaves no marker behind if it ends after its app-server |
| CachePrefix.BuildBlocks | scripts/dev/replay_anthropic_cache.py:412-472 | the blocks are the cacheable entries in order, numbered from 0 |
| CachePrefix.BlocksAreScopeOrdered | scripts/dev/replay_anthropic_cache.py:412-472 | tools come before system blocks, and these before messages |
| CachePrefix.KeepMeaning | scripts/dev/replay_anthropic_cache.py:600-610 | the blocks of a list are made of the entries that count, each once, in order, with their text, tokens and cache control |
| CachePrefix.PromptOrder | scripts/dev/replay_anthropic_cache.py:412-472 | the prompt is the tools, then the system entries, then message after message |
| CachePrefix.ComputeScale | scripts/dev/replay_anthropic_cache.py:481-483 | the scale is the observed total over the estimated one, and 1 where either is missing |
| CachePrefix.RoundExactly | scripts/dev/replay_anthropic_cache.py:501 | scaled sums are rounded to a nearest integer, and of two to the even one |
| CachePrefix.ScaleExactly | scripts/dev/replay_anthropic_cache.py:481-483 | the scale leaves the estimates alone, or makes them add up to what was observed |
| CachePrefix.AssignPrefixes | scripts/dev/replay_anthropic_cache.py:475-505 | every block gets the hash and the token count of its own prefix, in place |
| CachePrefix.DigestIsExact | scripts/dev/replay_anthropic_cache.py:485-499 | two prefixes share a hash exactly when model, salt and every block agree |
| CachePrefix.TokensGrow | scripts/dev/replay_anthropic_cache.py:500-505 | token counts grow strictly with the prefix |
| CachePrefix.TokensAreLeast | scripts/dev/replay_anthropic_cache.py:500-505 | they are the least positive strictly increasing sequence above the rounded scaled sums |
| CachePrefix.CalibratedTotalCoversObserved | scripts/dev/replay_anthropic_cache.py:481-505 | the calibrated total is at least the observed cacheable total |
| CacheBreakpoints.EvenlySpaced | scripts/dev/replay_anthropic_cache.py:772-791 | the loop selects exactly the evenly spaced positions, and the filler loop adds nothing |
| CacheBreakpoints.GapBetweenSlots | scripts/dev/replay_anthropic_cache.py:777-779 | neighbouring positions are at least floor and at most ceil of n over limit apart |
| CacheBreakpoints.PositionsGrow | scripts/dev/replay_anthropic_cache.py:777-783 | no position is met twice |
| CacheBreakpoints.SpacedIsExact | scripts/dev/replay_anthropic_cache.py:772-791 | for 0 < limit < n there are exactly limit of them, and the last is the last index |
| CacheBreakpoints.SpacedIsIncreasing | scripts/dev/replay_anthropic_cache.py:772-791 | they are increasing, at most limit, and all from the list |
| CacheBreakpoints.DedupeIndexes | scripts/dev/replay_anthropic_cache.py:748-756 | first occurrences, in order |
| CacheBreakpoints.SliceRespectsCap | scripts/dev/replay_anthropic_cache.py:560 | keeping the last m respects m exactly when m is at least 1, or it is so negative that nothing is kept |
| CacheBreakpoints.GeneratedStrategiesAreValid | scripts/dev/replay_anthropic_cache.py:548-583 | tail and spread return strictly increasing valid indexes, at most the maximum |
| CacheBreakpoints.ZeroMaximumIsNoCap | scripts/dev/replay_anthropic_cache.py:548-561 | for every request, a maximum of 0 makes the tail strategy keep a breakpoint in every scope that has a block, so it is respected by the empty prompt alone |
| CacheBreakpoints.DedupeBreakpoints | scripts/dev/replay_anthropic_cache.py:759-769 | one breakpoint per index, with its longest TTL, in index order |
| CacheBreakpoints.ByIndexMeaning | scripts/dev/replay_anthropic_cache.py:759-769 | the result has an entry exactly for the marked indexes, with the longest TTL |
| CacheBreakpoints.BestTtlMeaning | scripts/dev/replay_anthropic_cache.py:764-768 | that TTL is one of those marked, and none is longer |
| CacheChoice.UniqueExactly | scripts/dev/replay_anthropic_cache.py:748-756 | the same indexes, each once |
| CacheChoice.UniqueInOrder | scripts/dev/replay_anthropic_cache.py:748-756 | in the order they come first |
| CacheChoice.LastSliceExactly | scripts/dev/replay_anthropic_cache.py:560 | the last m of a list, or all of it if there are no more; for no positive m all but the first -m |
| CacheChoice.UserMessagesExactly | scripts/dev/replay_anthropic_cache.py:573-577 | the blocks of the user's messages, all of them |
| CacheChoice.TailExactly | scripts/dev/replay_anthropic_cache.py:548-561 | the tail strategy marks the last block of every scope that has one, with a smaller maximum the last of these |
| CacheChoice.SpreadExactly | scripts/dev/replay_anthropic_cache.py:564-583 | the spread strategy marks the last tool and the last system block, and spreads the rest of its maximum evenly over the user's messages |
| CacheChoice.MarkedExactly | scripts/dev/replay_anthropic_cache.py:529-545 | a request marks its own blocks, and the last one by its own control |
| CacheChoice.TtlExactly | scripts/dev/replay_anthropic_cache.py:709-717 | a control that names no time to live has the default one |
| CacheChoice.ChosenExactly | scripts/dev/replay_anthropic_cache.py:508-526 | which breakpoints each strategy chooses, with their time to live |
| CacheChoice.RecordScaleExactly | scripts/dev/replay_anthropic_cache.py:481-483 | the scale of a request makes its estimates add up to what was reported read and created |
| CacheReplay.ChooseBreakpoints | scripts/dev/replay_anthropic_cache.py:508-526 | each strategy places the breakpoints its specification says |
| CacheReplay.ObservedBreakpoints | scripts/dev/replay_anthropic_cache.py:529-545 | the breakpoints of the request itself |
| CacheReplay.TailBreakpoints | scripts/dev/replay_anthropic_cache.py:548-561 | the last block of every scope |
| CacheReplay.SpreadBreakpoints | scripts/dev/replay_anthropic_cache.py:564-583 | the last tool, the last system block, and evenly spaced user messages |
| CacheReplay.CheckIndexes | scripts/dev/replay_anthropic_cache.py:586-597 | the looked-up indexes are exactly the union of the lookback windows |
| CacheReplay.Lookup | scripts/dev/replay_anthropic_cache.py:313-324 | the loop finds the greatest looked-up index that is live, or none |
| CacheReplay.ValidBreakpoints | scripts/dev/replay_anthropic_cache.py:309-311 | the breakpoints with enough tokens before them |
| CacheReplay.Write | scripts/dev/replay_anthropic_cache.py:341-348 | every valid breakpoint becomes a cache entry |
| CacheReplay.ReplayRecord | scripts/dev/replay_anthropic_cache.py:292-361 | one request against a cache does what Step says |
| CacheReplay.Simulate | scripts/dev/replay_anthropic_cache.py:277-380 | the whole replay does what Run says |
| CacheLaws.TokensAreConserved | scripts/dev/replay_anthropic_cache.py:334-341 | read + create + input is the input floor plus the whole prompt, for every non-empty request |
| CacheLaws.WindowIsCovered | scripts/dev/replay_anthropic_cache.py:586-597 | nothing looked up lies behind the last valid breakpoint |
| CacheLaws.SameDigest | scripts/dev/replay_anthropic_cache.py:485-499 | the hash at an index stands for the model, the salt and the blocks up to it |
| CacheLaws.WriteAllMeaning | scripts/dev/replay_anthropic_cache.py:341-348 | an entry after the writes of a request is one of them or was there before |
| CacheLaws.LastWriteWins | scripts/dev/replay_anthropic_cache.py:341-348 | the last breakpoint of a prefix makes its entry, from its own tokens and TTL; other entries stay |
| CacheExactness.CacheIsExact | scripts/dev/replay_anthropic_cache.py:326-348 | after every request the cache holds exactly the prefixes that were written, each with the tokens and TTL of its last write and the expiry of its last write or hit |
| CacheExactness.HitExactly | scripts/dev/replay_anthropic_cache.py:313-324 | a request hits the longest prefix that was written before, is younger than its TTL and lies in a lookback window, and nothing exactly if there is none |
| CacheExactness.UsageIsExact | scripts/dev/replay_anthropic_cache.py:334-341 | over every trace: a hit is reported exactly if there is one, read is the tokens of the hit prefix, created is what the last valid breakpoint covers beyond it, input is the rest |
| CacheExactness.CoverageIsExact | scripts/dev/replay_anthropic_cache.py:330-332 | that breakpoint is the last one chosen whose prefix is long enough |
| CacheLaws.CacheIsJustified | scripts/dev/replay_anthropic_cache.py:313-350 | every entry of every reachable cache goes back to a successful request that put a breakpoint there |
| CacheLaws.HitIsSound | scripts/dev/replay_anthropic_cache.py:313-350 | a request that reports a hit has such evidence, its hit is live, and it is the longest live prefix in the windows |
| CacheLaws.MissIsSound | scripts/dev/replay_anthropic_cache.py:313-324 | one that reports none found nothing live in the windows |
| CacheLaws.ShortTraceCaches | scripts/dev/replay_anthropic_cache.py:313-350 | on a short trace the wide replay knows every prefix the narrow one knows |
| CacheLaws.WiderLookbackReadsMore | scripts/dev/replay_anthropic_cache.py:287-350 | on a trace shorter than its smallest TTL a wider lookback never reads less and never creates more, request by request |
| CacheLaws.FitLookback | scripts/dev/replay_anthropic_cache.py:383-409 | the fitted lookback is the smallest one with the least error |
| GatewayConfig.BuildProvider | internal/config/config_loader.go:545-656 | the loops over a provider's offers build the offers and the catalog of the specification |
| GatewayLoad.LoadEach | internal/config/config_loader.go:485-542 | the loops over named entries skip nameless ones, refuse exactly when one entry is refused, and of names that trim alike load any one |
| GatewayLaws.BaseUrlStableExactly | internal/config/config_loader.go:637 | reading a base URL twice reads it as once exactly when it has no space with nothing but slashes behind it |
| GatewayLaws.SpaceBeforeSlash | internal/config/config_loader.go:637 | a URL for which it does not |
| GatewayLaws.ModelRoundTrip | internal/config/convert.go:103-141 | a loaded model written back loads as itself |
| GatewayLaws.MergeRoundTripExactly | internal/config/config_loader.go:659-729 | merged overrides survive exactly when they switch off no flag of their base and hide no web search of it behind an unknown mode |
| GatewayLaws.OffersRoundTripExactly | internal/config/convert.go:167-198 | an offer list survives exactly when its overrides do |
| GatewayLaws.ProviderRoundTripExactly | internal/config/convert.go:143-177 | a provider survives, with its catalog, exactly when its web-search mode is known, its base URL is stable and its offers survive |
| GatewayRoundTrip.RouteRoundTripExactly | internal/config/convert.go:200-221 | a loaded route survives exactly when what its upstream name stands for as a slug says what it says, its own description, context window and web search aside where they are set |
| GatewayRoundTrip.LoadedRouteIsClean | internal/config/config_loader.go:766-876 | every loaded route is one that theorem speaks of |
| GatewayRoundTrip.SameNameStays | internal/config/config_loader.go:766-876 | an upstream name that is the slug, with no blank description or lone unknown mode, is enough |
| GatewayRoundTrip.UpstreamNameLosesRoute | internal/config/convert.go:201-203 | a loaded route whose upstream name is no slug, and that loses its prices and its model on the next load |
| GatewayRoundTrip.SettingsRoundTripExactly | internal/config/convert.go:11-60 | the settings survive, defaults included, exactly when the two proxy URLs are stable |
| GatewayRoundTrip.LoadAllBackExactly | internal/config/convert.go:58-84 | entries load back together exactly when they load back one by one |
| GatewayRoundTrip.ModelsBack | internal/config/convert.go:103-141 | every loaded model survives, an unknown web-search mode included |
| GatewayRoundTrip.ProvidersBackExactly | internal/config/convert.go:143-177 | the providers survive exactly when each of them does |
| GatewayRoundTrip.RoutesBackExactly | internal/config/convert.go:200-221 | so do the routes, whichever provider map order picks the second time |
| GatewayRoundTrip.LoadSaveLoadExactly | internal/config/config_loader.go:392-481 | for every accepted file, load, save, load gives the configuration of the first load exactly when settings, providers and routes survive |
| GatewayRoundTrip.LoadSaveLoad | internal/config/config_loader.go:392-481 | so it does for every accepted file whose upstream names are slugs and that is Kept otherwise |
| GatewayAliases.CatalogAt | internal/config/config_loader.go:594-634 | with unique upstream names a catalog entry is that of its offer |
| GatewayAliases.OverrideMeansReplace | internal/config/config_loader.go:732-763 | applying merged overrides to a catalog entry gives the merged model, but for the entry's own web search and extensions, and modalities overridden by an empty list |
| GatewayAliases.AliasMatchesDirect | internal/config/config.go:407-433 | an alias without description and context window of its own and the direct reference resolve alike |
| GatewayAliases.DirectReferenceExactly | internal/modelref/modelref.go:8-31 | "provider/model" refers to just those two exactly unless the whole of it ends in a parenthesised part |
| GatewayAliases.ParenReference | internal/modelref/modelref.go:17-24 | "model(provider)" refers to just those two as well |
| GatewayAliases.AliasesComeSecond | internal/config/config.go:407-439 | a name that refers to no configured provider is looked up among the routes, and is nothing else |
| GatewayAliases.AliasesResolveAlike | internal/config/config.go:407-439 | so they do through RouteFor for every such alias of every accepted file in transform mode, where a reference to a configured provider is resolved before aliases |
| GatewayAliases.LoadedProviderAgrees | internal/config/config_loader.go:545-634 | loading makes providers of the form that needs |
| GatewayAliases.ShortRouteMeaning | internal/config/config_loader.go:897-904 | "provider/model" names just those two; without a slash the provider is "default" |
| GatewayLaws.TrimMeaning | internal/config/config_loader.go:498-537 | trimming takes white space off both ends and nothing else |
| GatewayMeaning.ModelIsRead | internal/config/config_loader.go:498-540 | every field of a loaded model is that of the file, with its reasoning flag inferred exactly from how it says it reasons |
| GatewayMeaning.OverridesAreRead | internal/config/config_loader.go:659-730 | what an override sets is its own, the rest is the model's, field by field |
| GatewayMeaning.OffersAreRead | internal/config/config_loader.go:562-592 | the j-th offer that names a model loads as the j-th offer, with its names, priority, prices and overrides |
| GatewayMeaning.ProviderIsRead | internal/config/config_loader.go:634-654 | a provider has the file's credentials, protocol, web search and version, or its default |
| GatewayMeaning.SettingsAreRead | internal/config/config_loader.go:446-478 | the settings are the file's, with every default |
| GatewayMeaning.SettingsRefusedExactly | internal/config/config_loader.go:906-926 | settings are refused exactly for an unknown mode or an unknown web search mode |
| GatewayMeaning.FileIsRead | internal/config/config_loader.go:392-483 | in every accepted file every named model, provider and route is there under its trimmed name, and models, providers and settings say what the file says |
| GatewayMeaning.ReferenceMeansOffer | internal/config/config.go:407-439 | in every accepted file "provider/name" costs what the offer of that name costs, and is its model as the offer overrides it, if the names are unique |
| GatewayMeaning.ParseToExactly | internal/config/config_loader.go:897-904 | what a route's short form names, spaces aside |
| GatewayMeaning.RouteIsRead | internal/config/config_loader.go:766-876 | a route goes to the provider it names or to one that offers its model, has the name and prices of the offer there, and is the model as overridden with its own texts on top |
| GatewayMeaning.RoutesAreRead | internal/config/config_loader.go:766-876 | the same for every route of every accepted file, whichever provider map order picks |
| GatewayAcceptance.RouteRefusedExactly | internal/config/config_loader.go:766-876 | a route is refused exactly if it names no model or has an extension routes cannot have |
| GatewayAcceptance.EntriesRefusedExactly | internal/config/config_loader.go:494-497 | a model or provider is refused exactly for an extension it cannot have |
| GatewayAcceptance.RouteAccepted | internal/config/config.go:320-327 | a loaded route leads to a configured provider exactly if the file names one, or one offers its model |
| GatewayAcceptance.ValidExactly | internal/config/config.go:260-365 | what loads is valid exactly if the file is sound, which is said of its text alone |
| GatewayAcceptance.AcceptedExactly | internal/config/config_loader.go:392-483 | a file is accepted exactly if its parts load, it is sound, and the extensions' own checks accept it |
| DeepSeekLaws.ChangesMeaning | desktop/src-tauri/src/deepseek.rs:479-493 | a patch of one resource sets its fields in order and leaves the rest of the graph |
| DeepSeekLaws.ValidExactly | desktop/src-tauri/src/deepseek.rs:548-563 | which models, efforts and keys the setup accepts |
| DeepSeekLaws.CreatedModelSupports | desktop/src-tauri/src/deepseek.rs:526-546 | a model that is created supports just the efforts the setup accepts for it, and starts with the one asked for |
| DeepSeekLaws.PricesExactly | desktop/src-tauri/src/deepseek.rs:565-584 | prices are right exactly if all four are there and are the right numbers, integers or not |
| DeepSeekLaws.VerifiedPrices | desktop/src-tauri/src/deepseek.rs:610-640 | verification accepts no other prices than the four of each model |
| DeepSeekLaws.ProviderPatched | desktop/src-tauri/src/deepseek.rs:265-306 | the provider patch brings the provider to its wanted form, whatever it was |
| DeepSeekLaws.OfferPatched | desktop/src-tauri/src/deepseek.rs:323-357 | so does the offer patch |
| DeepSeekLaws.RoutePatched | desktop/src-tauri/src/deepseek.rs:358-384 | so does the route patch |
| DeepSeekLaws.AdvanceMeaning | desktop/src-tauri/src/deepseek.rs:248-387 | each step changes its own resource, as specified, and no other |
| DeepSeekLaws.AfterIsSettled | desktop/src-tauri/src/deepseek.rs:248-387 | a step leaves its resource with nothing more to change |
| DeepSeekLaws.AfterKeepsSettled | desktop/src-tauri/src/deepseek.rs:248-387 | and what another step settled |
| DeepSeekLaws.ReconcileFrame | desktop/src-tauri/src/deepseek.rs:248-387 | a reconciliation touches no resource but its own |
| DeepSeekLaws.ReconcileVerifies | desktop/src-tauri/src/deepseek.rs:586-665 | from any graph, for a valid input with a key stored or given, it ends in a graph that verification accepts |
| DeepSeekLaws.ReconcileSettles | desktop/src-tauri/src/deepseek.rs:248-387 | a second run without a key issues no mutation |
| DeepSeekLaws.VerifiedIsQuietExactly | desktop/src-tauri/src/deepseek.rs:569-665 | a verified graph is left alone exactly when its extension and its prices are the very values the setup writes |
| DeepSeekLaws.WholePricedVerifies | desktop/src-tauri/src/deepseek.rs:565-584 | a graph verifies exactly when it does with every whole price written as an integer |
| DeepSeekLaws.WholePricesAreNeverQuiet | desktop/src-tauri/src/deepseek.rs:352-354 | but then every run patches those prices again |
| DeepSeekLaws.NoEncodedGraphVerifies | internal/service/configgraph/graph.go:22-67 | no graph verifies with its offers as the gateway's encoder writes them, which omits a zero priority |
| DeepSeekLaws.PartIsNarrow | desktop/src-tauri/src/deepseek.rs:265-306 | of a resource that is there only the setup's own fields are rewritten; the stored key and other extensions stay |
| DeepSeekSetup.Gateway.Submit | desktop/src-tauri/src/deepseek.rs:461-493 | a change is applied, once, exactly if it is not refused, nobody came before and its revision is current; and exactly which answer it gets |
| DeepSeekSetup.Reconcile | desktop/src-tauri/src/deepseek.rs:248-387 | under interference success still means the specified graph and exactly its mutations, and failure a conflict unless a request was not delivered |
| DeepSeekSetup.Configure | desktop/src-tauri/src/deepseek.rs:125-148 | success means the final graph verifies, and is out of reach of a gateway that serves encoded offers; invalid input and a missing key change nothing; without interference the first attempt decides, and giving up takes three attempts none of which was undisturbed |
| ObservationLog.TrafficLogWriter.Append | desktop-app/traffic_autosave.go:150-184 | the loop appends the batch and counts its gaps before the write, and advances only if the write and the sync succeed |
| ObservationLog.TrafficLogWriter.FlushNew | desktop-app/traffic_autosave.go:137-145 | nothing is flushed once closed or failed; a flush neither closes nor takes back what was written |
| ObservationLog.TrafficLogWriter.CopyTo | desktop-app/traffic_autosave.go:233-244 | a copy that succeeds is the file as it is after the drain |
| ObservationLog.TrafficLogWriter.Close | desktop-app/traffic_autosave.go:203-228 | closing drains even after an error, writes a footer only without one, and happens once |
| ObservationLaws.FreshMeaning | desktop-app/traffic_autosave.go:160-170 | a batch is what the observer reports beyond the last row |
| ObservationLaws.GapsCover | desktop-app/traffic_autosave.go:162-170 | rows and gaps of a batch cover the distance it advances |
| ObservationLaws.RunBalance | desktop-app/traffic_autosave.go:150-184 | over every run rows plus gaps exceed the last sequence by exactly the gaps of the failed appends |
| ObservationLaws.LogIsHonest | desktop-app/traffic_autosave.go:137-228 | over every run: without error the rows are strictly increasing, end at the last sequence and account for it with the gaps; a footer is last, at most one, never after an error, and true |
| ObservationLaws.GapsAreTheMissing | desktop-app/traffic_autosave.go:162-166 | the gap counter is the number of sequences without a row |
| ObservationLaws.ClosingRepeatsRowsExactly | desktop-app/traffic_autosave.go:214-215 | after a failed flush, whatever the observer reports by the close, the rows stay increasing exactly when those of the close that land start behind those that had |
| ObservationLaws.FailedSyncRepeats | desktop-app/traffic_autosave.go:176-179 | a failed sync then repeats the row and its gap |
| ObservationLaws.FlushMeaning | desktop-app/traffic_autosave.go:150-184 | a flush that succeeds adds just the new rows and takes over the drop count with them; so does a copy |
| ObservationLaws.FooterExactly | desktop-app/traffic_autosave.go:203-228 | closing ends the log, with a footer as its last line exactly if one is asked for and written and no error came before |
| ObservationLaws.CutFooterTears | desktop-app/traffic_autosave.go:216-224 | a footer that is cut short leaves its torn line behind |
| ObservationLaws.ClosedStays | desktop-app/traffic_autosave.go:137-145 | what is closed stays as it is |
| LogBridge.SplitJoins | desktop-app/gateway_log_bridge.go:66-75 | splitting loses nothing |
| LogBridge.SplitIsUnique | desktop-app/gateway_log_bridge.go:66-75 | and is the only way to read a stream as unbroken lines and an unbroken rest |
| LogBridge.SplitOfSum | desktop-app/gateway_log_bridge.go:63-75 | reading on from the rest gives what reading everything at once gives |
| LogBridge.GatewayLogBridge.Extract | desktop-app/gateway_log_bridge.go:66-75 | the loop takes the complete lines off the buffer and leaves the unterminated tail |
| LogBridge.GatewayLogBridge.Write | desktop-app/gateway_log_bridge.go:63-82 | the emitted lines and the buffer depend on the bytes of the stream alone |
| LogBridge.ChunkingDoesNotMatter | desktop-app/gateway_log_bridge.go:63-82 | however a stream is cut into writes, the same lines come out and the same tail stays |
| LogBridge.EmittedMeaning | desktop-app/gateway_log_bridge.go:76-82 | of a line end only one carriage return goes, and a line that is blank then is not emitted |
| LogBridge.BlankLinesVanish | desktop-app/gateway_log_bridge.go:76-82 | blank lines vanish wherever they stand |
| LogBridge.LinesArrive | desktop-app/gateway_log_bridge.go:63-82 | what a writer ends as lines, with or without carriage returns, arrives as those lines, whole and in order, however the stream is cut |
| ConfigMigrationLaws.DeepSeekCleans | scripts/migrate_config.py:301-361 | no deepseek_v4 key is left at block, provider or model level |
| ConfigMigrationLaws.VisualCleans | scripts/migrate_config.py:364-412 | no visual key or flag is left at block, provider or model level |
| ConfigMigrationLaws.NewModelsAreClean | scripts/migrate_config.py:214-243 | no renamed model keeps a name |
| ConfigMigrationLaws.CurrentNeedsNothing | scripts/migrate_config.py:115-186 | a block needs no migration exactly when none of the obsolete shapes is in it |
| ConfigMigrationLaws.MigrationIsCurrent | scripts/migrate_config.py:189-256 | after a migration nothing obsolete is left; an absent or empty provider section stays as it is |
| ConfigMigrationLaws.MigrationSettles | scripts/migrate_config.py:189-256 | so a second migration changes nothing |
| ConfigMigrationLaws.AliasesLeadToTheirModels | scripts/migrate_config.py:214-251 | an alias of one provider alone still leads to its upstream model, and that model is there |
| ConfigMigrationMeaning.TruthyExactly | scripts/migrate_config.py:616-619 | what counts as false |
| ConfigMigrationMeaning.PluginsArrive | scripts/migrate_config.py:279-289 | each setting of a plugin becomes one of its extension unless that has it, no other appears or changes, and the plugins are gone |
| ConfigMigrationMeaning.SettingsStay | scripts/migrate_config.py:189-256 | whatever else the migration does, a setting that an extension or a plugin had is still there with its value |
| ConfigMigrationMeaning.DeepSeekSwitches | scripts/migrate_config.py:341-361 | a model is switched as its own key says, else on if its provider is; nothing else of it changes |
| ConfigMigrationMeaning.DeepSeekProviders | scripts/migrate_config.py:309-340 | a provider is on by its own key, or by the block's if it looks like DeepSeek |
| ConfigMigrationMeaning.VisualSwitches | scripts/migrate_config.py:374-397 | the same for Visual, the current flag before the legacy one |
| ConfigMigrationMeaning.VisualIsConfigured | scripts/migrate_config.py:364-412 | the extension is configured exactly if something asks for it, from the block's settings or what can be inferred; the plain switch alone marks other models |
| ConfigMigrationMeaning.VisualConfigMeaning | scripts/migrate_config.py:403-410 | four settings are taken over behind those that are there, and two have a default |
| ConfigMigrationMeaning.FilledMeaning | scripts/migrate_config.py:513-524 | the provider and the model are the block's, or else those that are found |
| ConfigMigrationMeaning.MarkedMeaning | scripts/migrate_config.py:487-504 | marking switches the models of its targets on and changes nothing else |
| ConfigMigrationMeaning.PutMeaning | scripts/migrate_config.py:217-242 | an entry goes under its name, else stays under its alias; a second entry of a name is laid over the first |
| ConfigMigrationMeaning.OnlyAliasKeeps | scripts/migrate_config.py:211-244 | a model that one alias alone leads to keeps everything but its name |
| ConfigMigrationMeaning.LastSettingWins | scripts/migrate_config.py:235-241 | of several entries of one name the last that sets something decides it |
| ConfigMigrationMeaning.RoutesAreKept | scripts/migrate_config.py:292-298 | a short route says where it leads, any other stays |
| ConfigMigrationMeaning.RenamingIsNarrow | scripts/migrate_config.py:246-252 | renaming makes a route for every alias, leaves those that are there, and touches nothing of a provider but its models |
| ConfigMigrationMeaning.MigrationIsWhole | scripts/migrate_config.py:189-256 | a block that needs it goes through all of the migration, any other is left alone |

## Left out

- Times: timestamps in records and logs, TTL and date parsing, and the poll ticker; a TTL is a number of seconds.
- Token estimates of a block's text, model-name tables of minimum cache tokens, and block paths and labels in the replay; each block carries its estimate, each record its minimum.
- TOML, YAML and JSON text: documents are maps of values. An array-of-tables or comment in the Codex config is part of the key it belongs to.
- The recovery record's auto-log fields, operation id, paths and schema migration, and the startup branch for an unsafe config path.
- sync_autosave in traffic_analysis.rs, the Rust twin of the observation log: its gap and sequence accounting is modelled for the Go writer only.
- The backup file itself and its retention: a record says whether there is one.
- ConfigRedirect.Desktop.Stop: leaves out draining the observations into the log, which the log model covers.
- FrontDoor.App.LeaveCapture: the traffic transaction is not part of this model; its order of effects is a contract.
- FrontDoor.App.StartGateway: leaves out loading the gateway config, identity tokens, sessions and status events.
- FrontDoor.App.Startup: the reconciliation result is a parameter.
- ExitSafety.CommitIsGrounded: parking the door before the handoff is in FrontDoor only, as it changes no state of the protocol; polling intervals and time limits are nondeterministic; desktop and helper are steps of one transition relation rather than methods, because they interleave.
- FrontDoorSafety.RunsServe: a handoff is one operation there; its interleavings with the others are in ExitHandoff and ExitSafety.
- ExitHandoff.UserKeeps: a gateway start or stop is one step here, with every outcome from the bound door on, and a start that fails before it binds the door is none; their single effects are in FrontDoor. What is left of a confirmation once the desktop closes is cut off.
- GatewayLoad.LoadEach: error texts and which of several bad entries is reported are left out.
- GatewayRoundTrip.LoadSaveLoadExactly: asks for names that stay distinct when trimmed, because Go's random map order picks among the others, and for overrides without extensions, because the loader writes those into the base model's own map, an aliasing the value model does not have; the checks extensions register are a parameter.
- GatewayMeaning.SettingsAreRead: leaves out the copies of the default model, prompt and token limit that the Go struct keeps beside the defaults.
- GatewayConfig.BuildProvider: the Go loop fills catalog entries in place; here an entry is a value.
- DeepSeekSetup.Configure: leaves out the connection test, the status shown afterwards and the texts of errors.
- ObservationLog.TrafficLogWriter.Append: a row is its sequence number; rendering and the file name are left out.
- LogBridge.GatewayLogBridge.Write: leaves out redaction, escape-sequence removal and a panicking emitter.
- ConfigMigrationLaws.MigrationIsCurrent: which providers look like DeepSeek or Kimi, what counts as true in text (a plain truth value counts as itself), and the order entries are met in are given by a parameter; nested mappings are values, not updated in place; an extension block is its configuration.
- Text is trimmed of Unicode white space everywhere; Python also trims the four separators from U+001C.
- The rest of the repository: HTTP clients, process spawning, PowerShell detection, DPAPI, SQLite, the user interface, protocol conversion, plugins, log retention, and image stripping, most of it single functions without state.
