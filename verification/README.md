# NetSonar: a verified model of the probing agent's core

NetSonar is an agent that probes network targets and exports the results as Prometheus series. This project models
the parts of it that keep invariants over unbounded runs, and proves them:

- **Scheduler and exporter as one concurrent system** (`Scheduler`, `SchedulerInvariants`, `SchedulerTheorems`,
  `SchedulerProgress`, `SchedulerStaleness`, `ProbeLoop`, `Exporter`, `Readings`). Start, Reload and Stop are serialised control steps; they interleave with the steps of one
  goroutine per target (jitter, entry check, probe, context check, Record, drain, select, exit). The exporter is a class
  over a mutable store of series. A run is any sequence of enabled steps.
- **The configuration and the reload gate** (`Configuration`, `Ordering`, `Agent`): defaults, validation, proxy
  resolution, tag keys, the canonical form that is hashed, and which reloads are accepted.
- **The MTU step-down search** (`MtuSearch`, `MtuDetails`, `Averages`) against any backend and any cancellation point.
- **The Happy Eyeballs dialer** (`HappyEyeballs`, `DialRuns`): two workers, a two-slot channel, a cancel, a WaitGroup and a cleanup
  goroutine, in the style of section 5 of RFC 8305.
- **The proxy path** (`ProxyPath`, `Redirects`, `Phases`): CONNECT setup (section 9.3.6 of RFC 9110), who owns which
  connection on every exit, the redirect machine (section 15.4 of RFC 9110) in its two copies, and phase timing.
- **ICMP statistics** (`IcmpStats`) in exact arithmetic.

`dafny verify dfyconfig.toml` checks everything. Durations are integers (nanoseconds), ratios are reals, a zero
`time.Time` is `None`.

## How it is modelled

- The concurrent protocols are step machines: `Enabled`/`Apply` over a state, runs as sequences of events, theorems
  about every reachable state. Where Go's `select` may choose between ready cases, both steps are enabled. Code that
  changes an object or loops over variables (the exporter, the loader, `diffTargets`, the MTU prober, the proxy path,
  the echo loop) is a class or a method with loops, proved against a specification function whose laws are lemmas.
- `startTarget` is one step of the scheduler: its map write, `EnsureTarget`, `wg.Add` and `go` run under the lock and no
  goroutine reads what they write in between. Start runs once and Stop ends the run, as in the signal loop of
  `cmd/agent/main.go:119-144`.
- `Record`, `DeleteTarget`, `EnsureTarget` and `IncrSkippedOverlap` are one step each in the concurrent system. In the
  source each is a series of vector writes with a lock per vector, so the statements about what a scrape shows are about
  scrapes between these operations, not about one that falls into the middle of one. The methods of
  `Exporter.MetricsExporter` do make the writes one by one and are proved to add up to the step.
- Runs start from tag keys that clash with none of the exporter's own labels (`Unclashing`), which is what a
  registration that did not panic guarantees (`Exporter.RegistersIff`).
- Each goroutine has an incarnation number, and `live`, `dirty` and the tick counters are bookkeeping for statements;
  no step consults them.
- The 48-bit hash of a target is taken to be injective on the serialised fields; credentials are not serialised, so two
  targets that differ only in credentials are equal.
- Library calls (label-name and address syntax, URL parsing and resolution, canonical header keys, credential files)
  are arbitrary functions. The network is arbitrary: a backend, a dial, a peer or a server may answer anything, by the
  whole history of requests where there is one. A clock is any function; where order matters it is non-decreasing.

## Where the code differs from its own comments

- `internal/scheduler/scheduler.go:121-123` and `273-277` say that stale results cannot recreate deleted series. They
  can: a goroutine passes its check, Reload cancels it and deletes its target, and then it records. The drain after a
  tick-driven probe has no context check at all. `StaleSeriesSurvives` and `StaleSeriesExample` give the run and
  `StaleSeriesIsPermanent` shows the series stay. The exact conditions, each known before the step it is about: a Reload
  may leave stale series if and only if it stops any target (`ReloadMayWriteStaleIff`, `ReloadMayReturnStaleIff`), and the
  goroutine of a deleted target is sure to write if and only if it is past its check or a tick waits for its drain
  (`StaleWriteIsForcedIff`, `CheckedGoroutineLeaks`). Run by run, the store is exact after the waits if and only if nobody
  wrote after its target's delete (`ReloadExactIffNoStaleWrite`). Deleting after the done-waits repairs it in every interleaving
  (`LateDeleteKeepsStoreExact`).
- `internal/probe/mtu.go:66-67` says any answered payload means success. `internal/probe/mtu.go:402-405` makes it a
  failure below the expected minimum: `AnsweredYetFailing` gives the case, and by `AnsweredMeansSuccessIff` the comment
  holds exactly for options whose expected minimum is not above the smallest size + 28.
- FixedLabels (`internal/config/config.go:100-106`) omits `phase`, `state`, `detail`, `cert_index` and `cert_role`, and
  the pattern at `internal/config/config.go:111` admits names that begin with `__`, which the Prometheus client library
  reserves. A tag key of either kind makes a configuration that validates and then panics at registration
  (`AcceptedMayNotRegister`); an accepted configuration registers if and only if it has no such key
  (`AcceptedRegistersIff`). That the client refuses reserved names is its documented behaviour; its code is not part of
  this model.
- With a `--listen-addr` override the file's own address is compared on reload: reloading the very file the agent
  started with is accepted if and only if there was no override or it said the same (`OverrideBlocksReload`,
  `StartAndReload`; `OverrideExample` is a rejected case).
- `internal/probe/http.go:142-144` speaks of a zero `tls_handshake` for plain HTTP; the code leaves the phase out
  (`PlainHTTPHasNoHandshake`) and reports a phase exactly if both its ends were observed (`ReportedIffObserved`). When
  redirects are followed, the tracer keeps what only an earlier hop observed: a handshake is reported if and only if any
  hop made one, even if the last is plain HTTP (`HandshakeIffAnyHop`).

## Model

| member | source | states |
|---|---|---|
| SchedulerTheorems.OneGoroutinePerTarget | internal/scheduler/scheduler.go:66-180 | In every reachable state of every interleaving at most one goroutine per target name runs, even during a restart; s.probes is exactly the uncancelled goroutines; the WaitGroup counts the live ones; after Stop none is left. |
| SchedulerTheorems.ReloadConverges | internal/scheduler/scheduler.go:95-155 | Whenever a Reload returns, whatever goroutines did meanwhile, exactly the new names run with equal configurations, and a target kept its goroutine if and only if its configuration did not change. |
| SchedulerTheorems.StartConverges | internal/scheduler/scheduler.go:66-75 | Whenever Start returns, exactly the names of its configuration run, each with the configured target. |
| SchedulerTheorems.NoWriteAfterReload | internal/scheduler/scheduler.go:137-147 | Once the done-waits are over, so before any replacement's EnsureTarget, no goroutine cancelled earlier writes again in any continuation. |
| SchedulerTheorems.ClosedNeverWrites | internal/scheduler/scheduler.go:166-180 | A goroutine whose done channel is closed stays closed and never writes, in every continuation. |
| SchedulerTheorems.WriteAfterCancelIff | internal/scheduler/scheduler.go:187-217 | Some continuation lets a cancelled goroutine write again if and only if, at that moment, it has not left its loop and is not at a zero jitter's context check. |
| SchedulerTheorems.LateDeleteKeepsStoreExact | internal/scheduler/scheduler.go:127-142 | If targets are deleted after the done-waits, then in every reachable state a scrape shows exactly the live targets with their last results. |
| SchedulerTheorems.StoreExactWithoutStaleWrite | internal/scheduler/scheduler.go:127-147 | As written the same holds of every run in which no goroutine writes after its target's delete. |
| SchedulerStaleness.ReloadMayWriteStaleIff | internal/scheduler/scheduler.go:127-142 | From any reachable idle state, some interleaving of a Reload lets a goroutine write series of a target deleted under it if and only if the Reload stops any target at all. |
| SchedulerStaleness.ReloadMayReturnStaleIff | internal/scheduler/scheduler.go:109-155 | From a store that shows exactly the live targets, some interleaving lets the Reload return with one that does not, if and only if the Reload stops any target at all, removed or changed. |
| SchedulerStaleness.CheckedGoroutineLeaks | internal/scheduler/scheduler.go:127-142 | If the goroutine of a target being deleted is past its check, or a tick waits for the drain it is bound for, then in every interleaving, when the waits are over, series of that name are on display although nothing is live under it. |
| SchedulerStaleness.StaleWriteIsForcedIff | internal/scheduler/scheduler.go:199-217 | That goroutine writes in every interleaving up to the end of the waits if and only if this is its position at the delete. |
| SchedulerTheorems.StaleSeriesSurvives | internal/scheduler/scheduler.go:261-284 | For any one-target configuration, an empty one with the same tag keys and any result of known phases, a run of the code as written that ends after a Reload with nothing running and a series of the removed target on display. |
| SchedulerTheorems.StaleSeriesExample | internal/scheduler/scheduler.go:261-284 | A concrete reachable state with no probes whose scrape differs from the live targets. |
| SchedulerTheorems.StaleSeriesIsPermanent | internal/scheduler/scheduler.go:109-155 | After a Reload, series under a name that does not run keep their values until that name is configured again. |
| SchedulerTheorems.NoTagDropped | internal/metrics/metrics.go:276-293 | In every reachable state the labels of every goroutine's target carry every one of its tags. |
| SchedulerProgress.ReloadCanReturn | internal/scheduler/scheduler.go:109-155 | Whatever a Start or Reload is at, some continuation lets it return: every goroutine it waits for can end. |
| SchedulerProgress.StopCanReturn | internal/scheduler/scheduler.go:83-95 | From every state of a Stop some continuation empties the WaitGroup. |
| SchedulerInvariants.EventKeepsAll | internal/scheduler/scheduler.go:66-219 | Every control step and every goroutine step keeps the whole invariant: bookkeeping, reload plan, pending deletes, tags, store contents, and what stale writes leave. |
| SchedulerInvariants.RunKeepsAll | internal/scheduler/scheduler.go:66-219 | So does every run. |
| Scheduler.DiffTargets | internal/scheduler/scheduler.go:363-396 | The lists hold, each name once, exactly the removed or changed old targets, the added or changed new targets, and the unchanged ones. |
| ProbeLoop.DoInv | internal/scheduler/scheduler.go:187-219 | Every step keeps tick conservation and tick freshness, and only Record and the skip counter change what the goroutine wrote. |
| ProbeLoop.TicksConserved | internal/scheduler/scheduler.go:199-217 | In every run ticks fired = ticks taken + ticks skipped (or about to be) + ticks dropped by the full slot + the buffered one. |
| ProbeLoop.TickIsFresh | internal/scheduler/scheduler.go:199-217 | A tick that starts executeProbe fired after the previous executeProbe returned. |
| ProbeLoop.EveryTickProbes | internal/scheduler/scheduler.go:194-204 | On every schedule without a cancel the first start and every tick taken lead to exactly one probe and exactly one recorded result, up to the one in progress; counted on the schedule. |
| ProbeLoop.EveryTickDrains | internal/scheduler/scheduler.go:203-217 | On every schedule each tick taken is followed by exactly one look for a stale tick, and the first probe by none. |
| ProbeLoop.RecordedIsReturned | internal/scheduler/scheduler.go:271-282 | What a goroutine last recorded is what the probe before that record returned. |
| ProbeLoop.RecordsAfterCancel | internal/scheduler/scheduler.go:261-284 | After its cancel a goroutine records at most once, exactly when it had passed its context check before and takes that step. |
| ProbeLoop.WritesAfterCancelIff | internal/scheduler/scheduler.go:199-217 | A cancelled goroutine has a run that still writes if and only if it had not left its loop and was not at a zero jitter's check. |
| Exporter.OnlyLastResultMatters | internal/metrics/metrics.go:296-474 | Any sequence of records of known phases leaves in every series what the last result alone would have left. |
| Exporter.NoResidue | internal/metrics/metrics.go:296-474 | Phases, certificates, MTU states and status codes on display all belong to the last result. |
| Exporter.EffectsAreFramed | internal/metrics/metrics.go:425-428 | Record, EnsureTarget, IncrSkippedOverlap and DeleteTarget change no series of a target with another name, partial matches included. |
| Exporter.DeleteShowsNothing | internal/metrics/metrics.go:485-516 | DeleteTarget on what Ensure, Record and Incr can have left of a target leaves none of its series in any vector. |
| Exporter.RecordShows | internal/metrics/metrics.go:296-405 | Record on the view of a live target gives the view with that result as the last one. |
| Exporter.MetricsExporter.BuildLabels | internal/metrics/metrics.go:276-293 | The labels are the base labels and every tag key, with exactly the label names the vectors were registered with. |
| Exporter.MetricsExporter.Record | internal/metrics/metrics.go:296-405 | The new value of every series of the store, as the pointwise effect of the result on its old value; what the values are is said by the Readings rows. |
| Readings.LabelsRead | internal/metrics/metrics.go:276-293 | The labels are address, name, type name, proxy name and every tag key, empty where the target has no such tag. |
| Readings.ConfiguredRead | internal/metrics/metrics.go:518-522 | A live target shows its timeout and interval (times 10^9 the nanoseconds configured) and its number of skips. |
| Readings.ProxyRead | internal/metrics/metrics.go:523-529 | Its proxy info series is 1 under its name, proxy and endpoint if it has a proxy, and there is no other. |
| Readings.NothingYet | internal/metrics/metrics.go:518-530 | Before its first result it shows nothing else. |
| Readings.CommonRead | internal/metrics/metrics.go:299-310 | Success and timed-out are 1 or 0 as in the result, and the duration times 10^9 is the result's nanoseconds. |
| Readings.StatusRead | internal/metrics/metrics.go:315-346 | The status code shows exactly if a response was received on http or http_body, the CONNECT code exactly if one was observed on the four types that can. |
| Readings.BodyRead | internal/metrics/metrics.go:352-393 | Truncation shows on http and the match on http_body, exactly if evaluated, as 1 or 0. |
| Readings.EchoRead | internal/metrics/metrics.go:362-370 | The loss on icmp, the average from one reply on, the deviation from two on, in the result's nanoseconds. |
| Readings.DnsRead | internal/metrics/metrics.go:372-382 | The resolve time on dns, and the match exactly if evaluated. |
| Readings.PhaseRead | internal/metrics/metrics.go:326-340 | One series per phase of the result with its nanoseconds, and none for any other phase. |
| Readings.MtuRead | internal/metrics/metrics.go:440-454 | The size exactly if positive, and of all states and details only the result's is shown, as 1. |
| Readings.ExpiryRead | internal/metrics/metrics.go:407-412 | The earliest expiry exactly if observed, where certificates are shown. |
| Readings.CertRead | internal/metrics/metrics.go:413-438 | Each certificate of the chain shows its own expiry at its index and in its role. |
| Exporter.MetricsExporter.RecordTLSResult | internal/metrics/metrics.go:407-423 | The expiry and the chain's series are exactly the result's, old chain series are gone. |
| Exporter.MetricsExporter.RecordMTUResult | internal/metrics/metrics.go:440-454 | One state series, the result's; the size series only for a positive MTU. |
| Exporter.MetricsExporter.DeleteTarget | internal/metrics/metrics.go:485-516 | The new value of every series of the store after the delete. |
| Exporter.MetricsExporter.DeleteTargetProxyInfo | internal/metrics/metrics.go:532-542 | Without a proxy every proxy info series of that target name goes, otherwise exactly the series of its proxy. |
| Exporter.MetricsExporter.EnsureTarget | internal/metrics/metrics.go:518-530 | Timeout, interval, the overlap counter and the proxy info of the target exist afterwards; nothing else changes. |
| Exporter.MetricsExporter.IncrSkippedOverlap | internal/metrics/metrics.go:547-551 | The target's counter grows by one, nothing else changes. |
| Configuration.DefaultsAreIdempotent | internal/config/config.go:287-339 | Applying the defaults twice is applying them once. |
| Configuration.DefaultsFillOnlyGaps | internal/config/config.go:287-339 | Every value that was given stays; the rest are :9275, /metrics, info, text, the agent's interval, timeout and resolver, and for MTU targets the agent's sizes or 1472 to 1072, three retries, two seconds and the largest size + 28. |
| Configuration.ConfigFile.Validate | internal/config/config.go:345-483 | Succeeds exactly on the acceptable configurations, and then leaves proxies and targets resolved. |
| Configuration.ConfigFile.ValidateProxies | internal/config/config.go:485-526 | Succeeds exactly if every entry is valid and no two share an endpoint, and then resolves them. |
| Configuration.ConfigFile.ValidateICMPPayloadSizes | internal/config/config.go:991-1023 | Succeeds exactly on strictly descending positive sizes with a reachable expected minimum, at least one retry and a per-attempt timeout within the timeout. |
| Configuration.AcceptedIsSound | internal/config/config.go:345-526 | A freshly loaded configuration that validates has unique names, 0 < timeout <= interval, jitter within every interval, distinct proxy endpoints, a resolved proxy if and only if a name is set and equal to the registry entry, and every tag within the tag keys. |
| Configuration.AcceptedWithinLimits | internal/config/config.go:345-483 | An accepted configuration has at most 64 proxies, 30 tag keys and 20 tags per target, a known log level and format, and no tag key among the five fixed labels. |
| Configuration.ResolvedProxyRead | internal/config/config.go:485-526 | A resolved proxy entry has the endpoint its URL parses to and the credentials its sources give; the rest stays. |
| Configuration.CollectTagKeys | internal/config/config.go:1111-1119 | A strictly sorted list of exactly the effective tag keys. |
| Configuration.CanonicalIgnoresOrder | internal/config/hash.go:21-55 | Configurations with unique names have the same canonical form if and only if they agree up to the order of targets and up to what is not serialised, raw proxy URLs and credentials. |
| Configuration.PermutationKeepsCanonical | internal/config/hash.go:38-55 | Any permutation of the targets leaves the canonical form as it is. |
| Targets.EqualMeans | internal/config/hash.go:60-80 | Two targets count as equal if and only if every field but the proxy credentials is. |
| Configuration.SerialisedAlike | internal/config/config.go:132-143 | Two proxy registries serialise alike if and only if they have the same names with the same identities. |
| Ordering.SortedListsDecideSets | cmd/agent/main.go:160-167 | Two strictly sorted lists are equal if and only if they hold the same strings. |
| Agent.Agent.HandleReload | cmd/agent/main.go:152-205 | A reload is accepted if and only if the file loads and keeps the startup-only values; a rejected one changes nothing; an accepted one hands on a sound configuration with the startup tag keys. |
| Agent.StartupValuesAreConstant | cmd/agent/main.go:152-205 | Over any sequence of reloads the tag key set and the other startup-only values never change. |
| Agent.StartupFieldsAreConstant | cmd/agent/main.go:152-205 | Field by field: tag keys, log format, address, metrics path and runtime metrics stay those of the start over any sequence of reloads. |
| Agent.OverrideBlocksReload | cmd/agent/main.go:70-72 | With the startup values of a start with a file and a flag, the same file passes the gate if and only if the flag was absent or said the file's address. |
| Agent.StartAndReload | cmd/agent/main.go:175-181 | Starting the agent and reloading the same file is accepted exactly then. |
| Agent.OverrideBlocksForever | cmd/agent/main.go:175-181 | With a flag that none of the files says, no sequence of reloads changes the running configuration. |
| Exporter.RegistersIff | internal/metrics/metrics.go:86-252 | Every vector registers (no label twice in its list and none with the reserved prefix) if and only if the tag keys are distinct, clear of every label the exporter adds itself, and none has that prefix. |
| Agent.AcceptedRegistersIff | internal/config/config.go:100-111 | The vectors of an accepted configuration register if and only if no tag key is one of the five labels single vectors add or has the reserved prefix. |
| Agent.AcceptedMayNotRegister | internal/config/config.go:657-702 | For each such key that is a well-formed name, a whole configuration that loads and whose vectors do not register. |
| MtuSearch.ProbeWithRetries | internal/probe/mtu.go:239-284 | The retry loops report the classification of exactly the attempts that end at a terminal answer, at cancellation, or when spent. |
| MtuSearch.LoopsProduceProducible | internal/probe/mtu.go:239-284 | Only the last attempt of a list the loops can produce is terminal, and an uncancelled list without a terminal one is full length. |
| MtuSearch.ClassifyProducible | internal/probe/mtu.go:286-317 | On such lists the classifier is: the terminal last attempt, else local-too-large over too-large over timeout. |
| MtuSearch.Probe | internal/probe/mtu.go:74-211 | The prober returns the search's outcome for every backend, cancellation point and options; what that outcome is, is said by the MtuDetails rows. |
| MtuDetails.ResultIsSettled | internal/probe/mtu.go:74-211 | For every echoing backend and cancellation point, state, detail, MTU, success and samples are settled by the answers to the attempts made and the cancellation seen: a confirmed size is the last tested + 28, with local_message_too_large, fragmentation_needed, larger_sizes_timed_out or largest_size_confirmed by what happened at the larger sizes; otherwise unreachable, permission or internal error by the last answer, inconclusive if cancelled, sanity_check_failed, or local, below-minimum or timed out by what was seen at all sizes. |
| MtuDetails.UnstartedIsSettled | internal/probe/mtu.go:78-116 | Without sizes an internal error, without an address a resolve error, cancelled from the start inconclusive. |
| MtuDetails.TestsAreOfSizes | internal/probe/mtu.go:145-152 | The sizes tested are the configured ones from the first on, and the attempts the backend's answers to successive calls. |
| MtuSearch.SanityFailureSettles | internal/probe/mtu.go:319-362 | An unanswered sanity echo settles the result: no answer to a DF probe can change it, nothing is confirmed, no sample is kept and at most the sanity retries were spent. |
| MtuSearch.ResultContract | internal/probe/mtu.go:74-211 | For every echoing backend and cancellation point: nothing confirmed (MTU -1, failure, error text), or a configured size that was really answered; state and detail stay in a closed set; at most two samples enter the average. |
| MtuSearch.SuccessIffLargeEnough | internal/probe/mtu.go:383-412 | The reported fields agree: success if and only if the MTU is positive and not below a positive expected minimum, and the error text is empty if and only if success. |
| MtuSearch.AnsweredMeansSuccessIff | internal/probe/mtu.go:402-405 | Against every echoing backend a confirmed size means success if and only if the expected minimum is not above the smallest configured size + 28. |
| MtuSearch.LargestConfirmed | internal/probe/mtu.go:414-425 | For validated targets the detail is largest_size_confirmed if and only if the MTU is sizes[0] + 28, and never with degraded. |
| MtuSearch.SearchIsExact | internal/probe/mtu.go:138-211 | If the attempts the search makes are those of a path of MTU M, answered or lost when they fit and refused or lost when not, and no fitting size is lost in all its retries, an uncancelled search whose sanity echo was answered reports the largest configured size + 28 not above M, or -1 if there is none. |
| MtuSearch.BackendCallsBounded | internal/probe/mtu.go:239-284 | At most retries * (1 + number of sizes) backend calls. |
| MtuSearch.AnsweredYetFailing | internal/probe/mtu.go:402-405 | On the path that answers exactly the payloads up to a configured size whose MTU is below the expected minimum, that MTU is reported and the probe fails. |
| MtuSearch.AvgRTT | internal/probe/mtu.go:228-237 | Zero without samples, otherwise the mean rounded down. |
| Averages.AverageBetween | internal/probe/mtu.go:228-237 | The rounded mean lies between any bounds on the samples. |
| HappyEyeballs.SplitDialFamilies | internal/probe/prober.go:424-455 | The parts interleave to the targets in order, the first target heads the primary part, and each part is one family. |
| HappyEyeballs.DialTCPAddresses | internal/probe/prober.go:406-422 | The first dial that succeeds wins; an error if and only if there were targets and all failed. |
| HappyEyeballs.DialTCPHappyEyeballs | internal/probe/prober.go:341-349 | No targets is refused; one family is dialled directly with a connection or an error; otherwise two non-empty parts are raced. |
| HappyEyeballs.StepKeepsInv | internal/probe/prober.go:351-404 | Every step keeps: each open connection has exactly one holder, the WaitGroup counts live workers, the channel closes only after both finished. |
| HappyEyeballs.RunKeepsInv | internal/probe/prober.go:351-404 | So does every interleaving. |
| HappyEyeballs.SendNeverBlocks | internal/probe/prober.go:359-377 | A worker with an outcome can always send at once: the channel has room and is not closed. |
| HappyEyeballs.ReturnsOneOrTheOther | internal/probe/prober.go:384-404 | The dialer returns a connection or an error, never both or neither; a returned connection is open and held by nobody else; on error nothing is open. |
| DialRuns.ErrorMeansAllFailed | internal/probe/prober.go:359-404 | Unless the caller cancelled, an error means that every target of both families was dialled and failed and no dial succeeded; counted on the run. |
| DialRuns.ConnectionWasDialled | internal/probe/prober.go:384-398 | A returned connection is the one that a successful dial of the run opened. |
| DialRuns.FallbackWaits | internal/probe/prober.go:363-382 | The fallback dials nothing before its timer, the primary has none, and the context is cancelled once the dialer returned. |
| HappyEyeballs.QuiescentOwnsWinnerOnly | internal/probe/prober.go:384-404 | When no step is left, the open connections are exactly the returned winner, or none on error. |
| HappyEyeballs.NeverStuck | internal/probe/prober.go:351-404 | While anything is unfinished some goroutine can step. |
| HappyEyeballs.RunsAreBounded | internal/probe/prober.go:351-404 | Every interleaving has at most one step per target and 21 more, so quiescence is reached. |
| HappyEyeballs.EmptyPartReturnsNeither | internal/probe/prober.go:406-422 | With an empty part there is a run that returns neither connection nor error. |
| ProxyPath.DialProxyTunnel | internal/probe/proxy_tunnel.go:46-134 | Returns a connection exactly if every step and the CONNECT status allow it; then it is the only new open connection, otherwise none is; the CONNECT status seen is reported; the timed steps are exactly those begun and fit in the time spent. |
| ProxyPath.SetupProxyTLSConn | internal/probe/http_proxy_path.go:75-117 | The same with the target's handshake, closing the tunnel if it fails. |
| ProxyPath.SetupProxyPlainConn | internal/probe/http_proxy_path.go:119-165 | The same without CONNECT. |
| ProxyPath.ExecuteProxyHTTPExchange | internal/probe/http_proxy_path.go:250-353 | A response comes with the one new open connection, owned by its body; on any failure nothing new is open; finalising the phases again changes nothing; the phases fit in the time to the first byte. |
| Redirects.FollowRedirects | internal/probe/http.go:299-353 | The http prober's loop walks exactly the specified chain and leaves open only the final response's connection. |
| Redirects.FollowBodyRedirects | internal/probe/http_body.go:250-299 | The http_body prober's own loop walks the chain without a body. |
| Redirects.ProbeViaProxy | internal/probe/http.go:269-398 | On every exit each opened connection is closed; the chain, status, success, certificates of an https target and truncation beyond the limit are reported; request_write, ttfb and transfer are what the last four looks at the clock say; the phases never sum to more than the duration. |
| Redirects.ProbeBodyViaProxy | internal/probe/http_body.go:239-342 | The same for the http_body prober, which succeeds exactly on a body within its limit that matches, with an expected status. |
| Redirects.ChainLaws | internal/probe/http.go:299-353 | Every chain sends at most ten requests, each but the first answering the redirect before it, stops for the reason it gives, and reports the first CONNECT status any exchange saw. |
| Redirects.VerbSticks | internal/probe/http.go:435-457 | Once GET or HEAD, the method never changes. |
| Redirects.RedirectRule | internal/probe/http.go:405-457 | After a redirect by one of the five codes, the url is the Location resolved against the one before, over http or https, and the method is kept by 307, 308 and HEAD and GET otherwise. |
| Redirects.HeaderRule | internal/probe/http.go:435-476 | A follow-up carries all initial headers, or for GET and HEAD exactly those whose canonical name is neither Content-Type nor Content-Length. |
| Redirects.StopRule | internal/probe/http.go:327-345 | A chain ends in a response that is not to be followed, in a Location that does not resolve to http or https, at the tenth redirect, or in a failed exchange. |
| Redirects.FirstRequestRead | internal/probe/http.go:280-297 | The first request has the configured method or GET, the configured headers, and with a body its size and a content type. |
| Redirects.BodyIffStillPost | internal/probe/http.go:435-457 | After the first request a body is sent if and only if one is configured, the chain began as POST and every redirect was 307 or 308. |
| Redirects.BodyIffPostKept | internal/config/config.go:924-932 | For a validated target this holds of every request of the chain. |
| Redirects.NoBodyHeaders | internal/probe/http.go:463-476 | After the first request GET and HEAD carry no Content-Type or Content-Length, in any spelling, and every other header. |
| Redirects.ProbersAgree | internal/probe/http_body.go:250-299 | Without a request body both probers send the same requests and stop for the same reason against any server. |
| Phases.PhasesAreDisjoint | internal/probe/http.go:486-506 | For any ordered stamps with any subset unobserved, the phases are lengths of disjoint stretches within the probe, non-negative, summing to at most the duration. |
| Phases.ShortfallIsTheGaps | internal/probe/http.go:486-506 | With everything observed, what is missing from the duration is exactly the three gaps before setup steps. |
| Phases.BuildProxyPhasesIdempotent | internal/probe/http_proxy_path.go:210-221 | Finalising twice is finalising once, and setup phases are never touched. |
| Phases.ProxyPhasesRead | internal/probe/http_proxy_path.go:210-221 | request_write, ttfb and transfer last from stamp to stamp, each exactly if both its ends were observed, and setup phases stay. |
| Phases.LabelsRead | internal/probe/prober.go:42-50 | The names the phases are exported under. |
| Phases.ReportedIffObserved | internal/probe/prober.go:216-221 | Each phase is reported if and only if both its ends were observed, with the anchors buildPhases gives it. |
| Phases.PlainHTTPHasNoHandshake | internal/probe/http.go:486-506 | A plain HTTP exchange reports no handshake phase, not a zero one. |
| Phases.HandshakeIffAnyHop | internal/probe/http_trace.go:32-49 | For a chain of hops on the direct path, whose stamps overwrite one another, a handshake is reported if and only if any hop made one. |
| Phases.RedirectedPhasesFit | internal/probe/http_trace.go:32-49 | Although such a chain leaves stamps of several hops out of order, its phases are non-negative and never sum to more than the whole chain took. |
| Phases.LaterOf | internal/probe/http.go:511-516 | The later of the observed stamps, unobserved only if both are. |
| IcmpStats.RunICMPEchoSequence | internal/probe/icmp.go:95-160 | The loss, success, reply count, rounded average and variance of exactly the echoes tried before cancellation; the clamp at zero never acts. |
| IcmpStats.TriedIff | internal/probe/icmp.go:108-120 | An echo is tried if and only if it is among those asked for and the context was not cancelled by then. |
| IcmpStats.LossIsSound | internal/probe/icmp.go:130-143 | If a reply implies a send, the loss is in [0,1] and below one if and only if success, which is if and only if there was a reply. |
| IcmpStats.AverageIsSound | internal/probe/icmp.go:145-148 | The reported average lies between any bounds on the round trips. |
| IcmpStats.RepliesWereSent | internal/probe/icmp.go:182-275 | If a reply implies a send, there are no more replies than requests. |
| IcmpStats.ComputedVariance | internal/probe/icmp.go:149-157 | The computed variance is non-negative and exceeds the population variance by less than 2 avg + 1 square nanoseconds. |
| IcmpStats.SumOfSquaresBound | internal/probe/icmp.go:149-157 | The count times the sum of squares is at least the square of the sum. |

## Left out

- Sockets, polling, the kernel error queue and the ICMP wire format: foreign calls; only the backend's result contract is used.
- YAML, JSON, SHA-256, regular expressions, URL and base64 code: taken as arbitrary or, for the hash, injective functions.
- `internal/doctor`, `tools/configmerge`, `lab/`, the HTTP server, flags and logging: plumbing; log and error texts are not modelled, only whether there is an error.
- The DNS, TCP, TLS-certificate and proxy_connect probers: each resolves, dials or opens a tunnel once and copies timings and status into a result; only the dialer and the tunnel they share are here.
- `dialTCPWithSplitPhases`, `probeTimedOut` and `logProbeResult`: straight-line code around the modelled parts; the result a probe hands to Record is arbitrary up to its phase names.
- TLS and certificate verification, resolver selection, Prometheus text format, float rounding and the square root of the variance.
- Option rejection per probe type in validateProbeOpts: one function of the target, since each branch reads off one line.
- IcmpStats.RunICMPEchoSequence: reports the variance in square nanoseconds in exact arithmetic, because the source's float seconds differ only by rounding.
- Scheduler.DiffTargets: the order of the lists is left open, because the source iterates over maps.
- HappyEyeballs.RunsAreBounded: a blocked dial is a step not yet taken, because how long a dial lasts is the network's choice.
- SchedulerTheorems.LateDeleteKeepsStoreExact: says nothing of a scrape taken in the middle of a Record, DeleteTarget or EnsureTarget, because these are single steps here.
- SchedulerTheorems.StoreExactWithoutStaleWrite: the same.
- SchedulerProgress.ReloadCanReturn: shows that a return stays possible, not that the Go scheduler is fair, because that is the runtime's promise.
- Phases.PhasesAreDisjoint: takes the stamps of one hop as ordered, because parallel connection attempts inside Go's own dialer, which may stamp connect twice, are the library's.
