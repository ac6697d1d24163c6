# A model of the gateway's stateful core, with proofs

The gateway terminates or relays TLS connections by server name. This project
models the parts of it that keep state over long runs or carry real arithmetic,
and proves what those parts are for:

- **Endpoint pools** (`hysteresis.dfy`, `selection.dfy`, `health.dfy`, `history.dfy`,
  `networks.dfy`, `resample.dfy`, `dead_gateways.dfy`): the ranking with a hysteresis margin, published
  views with a shared incumbent, probe backoff, history that survives DNS rotation,
  and the replacement of dead CIDR samples.
- **Estimators** (`kalman.dfy`, `throughput.dfy`): a scalar Kalman filter with a
  CUSUM alarm, and a discounted Normal-Inverse-Gamma posterior, over the reals.
- **Resolver dependencies** (`depth_first.dfy`, `build_order.dfy`, `dependencies.dfy`,
  `resolver_config.dfy`, `registry.dfy`, `lookup_recursion.dfy`, `rebuild_locks.dfy`): the
  build order or the reason there is none, the forward pass that builds every resolver,
  the termination of the lookups that rebuild one another at run time, and the absence
  of deadlock when many tasks do so at once.
- **Generation protocols** (`rebuild_protocol.dfy`, `ech_provider.dfy`): any number of
  tasks rebuilding and swapping a resolver, and the cache of ECH modes.
- **Certificate mirroring** (`router.dfy`, `clip.dfy`, `mirror.dfy`, `sidecar.dfy`): which
  names a certificate may carry, the cache and store of issued and mirrored ones, and
  the sidecar that says what a stored one mirrors.
- **Peeking** (`client_hello.dfy`, `http_host.dfy`, `peek.dfy`): the name to route by out of
  any bytes of a ClientHello or a request head, whole, cut, or arriving in pieces.

`text.dfy`, `net.dfy`, `collections.dfy`, `naturals.dfy` and `reals.dfy` hold shared
definitions.

## How it is modelled

Code that changes state in place is a class or a method with loops. Each such method
is proved against a specification function or predicate, and the properties are proved
about that specification: by induction over every run where the claim is about runs.
Concurrent code is a state machine whose steps are the sections the source runs under
one lock or as one atomic access; a run is any interleaving of them. Random draws, DNS
answers, probe outcomes, signatures, saves and the clock are inputs. `f64` is `real`,
durations are natural numbers.

## Where the code does not do what it is for

Each of these is proved, with the condition under which the property does hold.

- *A reference can miss a dependency it has, or reach another.* The build order strips
  the `@` of a reference as written, the forward pass trims the reference first. With two
  declared names that differ in trailing whitespace the pass asks the registry for a
  resolver that no build order has built yet (`Registry.TrailingSpaceMissesADependency`),
  or takes the other one. Over all build orders it never misses one exactly when every key
  asked for is a dependency in the build-order graph (`Registry.NeverMissedExactly`), and
  a plan reaches what the build order followed exactly when no reference of its definition
  carries trailing whitespace (`Registry.PlansFollowReferencesExactly`).
- *A sampled target can grow.* A NAT64 projection carries the index of the CIDR target
  it projects, so a projection that never answers makes `resample_dead` draw another
  address of that CIDR while nothing leaves the target's samples, and the retired
  projection is a candidate again in the next pass (`Resampling.RetiredProjectionsReturn`).
  Nothing but the network bounds the growth (`DeadGateways.DeadGatewaysGrowTheSample`).
  Hopeless samples are served before projections: in a network that no projection enters,
  or that has room, a pass leaves the number of samples unchanged if and only if every
  hopeless candidate of the target is one of its samples, or no more addresses are free
  than there are hopeless samples (`Resampling.UnchangedExactlyWhenSamplesDie`).
- *A sampled target can shrink.* An address that two targets share is retired for both
  when one of them replaces it, also for the one that has no address left
  (`DeadGateways.UsedUpTargetsLoseSamples`). Over every run gains and losses add up exactly
  (`Resampling.SampleSizes`).
- *`::/0` can look used up.* Its size saturates one short and the offset sum wraps at
  128 bits, so a draw can fail while addresses are free. Every other network is safe
  (`Networks.FreshUnlessExhausted`).
- *A name can be missed.* `NoSni` is answered for a buffer that ends in the extension
  length or in an extension header, so a ClientHello arriving in pieces can be
  classified as having no name although it has one (`Peek.EveryNameCanBeMissed`).
  Exactly when: `Peek.ClassifiedUnlessCut`. The parser's documentation
  (src/peek.rs:160-162) promises `NeedMore` or a refusal for truncated input.
- *A host can be mistaken.* A request head that arrives in pieces is answered from a Host
  line that has not ended: a peek that ends inside the value is classified under the part
  seen so far, which is another host (`Peek.HostsCanBeMistaken`), and one that ends inside
  the method is not taken for HTTP at all. Exactly when the host is the right one:
  `Peek.RequestsAreClassifiedUnlessCut`.
- *A wildcard can escape through a regex that declares no scope overlapping it*
  (`Routing.DishonestScopesEscape`). A verdict of confinement can be trusted beside a regex
  exactly when the regex is declared at the wildcard (`Routing.TrustedExactlyWhenDeclared`).
- *A publication can lose a pick.* The worker loads the holder of the place before it swaps
  the ranking. What a pick stores in the old snapshot in between is lost, although its
  address stays listed (`Selection.StoresCanBeLost`). The holder at the swap keeps its place
  exactly when it is the one that was loaded or, the loaded one being gone, if it is the
  new head (`Selection.PublishKeepsTheIncumbent`).
- *A skipped rebuild can retry on the resolver that failed.* A task that read the
  generation before a swap and took its snapshot after it finds the generation moved
  and retries on the same resolver (`RebuildProtocol.SkippingCanRetryOnTheSameResolver`).
  The comment at src/dns_resolvers.rs:514-516 holds for the generation read. At the check
  the task can tell: its retry runs on a newer resolver, whatever happens next, if and only
  if the generation found there is beyond the version of the resolver that failed
  (`RebuildProtocol.NewerExactlyWhenTheGenerationPassed`).
- *A sidecar can survive its certificate.* A save that gets no further than the certificate
  leaves the sidecar of an earlier observation beside it, which src/store.rs:196-200 says
  must not happen. After a restart the mirror is taken for current although it is not the
  clip of that observation (`Sidecar.MisfiledMirrorsLookCurrent`). Exactly when a sidecar
  describes its certificate: `Sidecar.SidecarsDescribeExactly`.

## Model

| member | source | states |
|---|---|---|
| DepthFirst.BuildOrderMeansAcyclic | src/config.rs:2583-2671 | a list with every node once and dependencies first exists only for an acyclic graph |
| DepthFirst.RepeatMeansCyclic | src/config.rs:2620-2630 | a walk that ends at a node it has passed proves a cycle |
| DepthFirst.PushEnters | src/config.rs:2644-2665 | pushing one Enter per dependency keeps every Enter's path equal to the open nodes below it |
| DepthFirst.ExitKeepsInvariant | src/config.rs:2613-2616 | finishing the node on top puts it after all it waited for |
| DepthFirst.SkipKeepsInvariant | src/config.rs:2618-2619 | a finished node on top is dropped without losing anything waited for |
| DepthFirst.OpenOnTopIsACycle | src/config.rs:2620-2630 | an open node on top is one of its own ancestors, so its path is a walk ending in a repeat |
| DepthFirst.EnterKeepsInvariant | src/config.rs:2631-2666 | opening a node keeps the search invariant: open nodes are exactly the ancestors of what is on top |
| BuildOrder.PushDependencies | src/config.rs:2636-2665 | all references of a node become steps, or the first that leads nowhere is reported |
| BuildOrder.TakeStep | src/config.rs:2611-2667 | one step keeps the invariant and makes progress, or yields an error that is justified |
| BuildOrder.Visit | src/config.rs:2606-2668 | a search from one root terminates with the root and all it needs finished, or with a justified error |
| BuildOrder.ResolverBuildOrder | src/config.rs:2583-2671 | Ok exactly for an acyclic graph whose references all resolve; the list holds every resolver once, each after its dependencies; an error names a real unresolved reference or a real walk ending in a repeat |
| ResolverConfig.SortDedupSorts | src/config.rs:2637-2643 | sorting and deduplicating a definition's references loses none, invents none, repeats none |
| Dependencies.AlwaysFirstExactly | src/main.rs:1085-1123 | a node stands before another in every build order if and only if the other depends on it, directly or not |
| Dependencies.NeededFirstIsABuildOrder | src/config.rs:2583-2671 | moving all a node needs to the front of a build order gives a build order |
| Registry.LookUp | src/main.rs:1113-1137 | a spec is plan-less, found under its trimmed key, or reported missing |
| Registry.PlanFor | src/main.rs:1113-1203 | a plan exists exactly when the registry holds every key asked for, and reaches exactly those |
| Registry.BuildNamedResolvers | src/main.rs:1096-1283 | the pass succeeds exactly when every key was built earlier and every build succeeds; then every resolver has a plan reaching what it asked for; errors are real |
| Registry.CleanReferencesAreFound | src/main.rs:1103-1123 | without trailing whitespace the pass never misses a dependency, for any build order |
| Registry.NeverMissedExactly | src/main.rs:1103-1123 | over all build orders: every lookup succeeds in each of them if and only if every key asked for is a dependency in the build-order graph; for one order `Registry.BuildNamedResolvers` says exactly when |
| Registry.PlansFollowReferencesExactly | src/main.rs:1113-1203 | a plan reaches exactly the resolvers the build order followed if and only if no reference of the definition carries trailing whitespace |
| Registry.TrailingSpaceLoads | src/config.rs:2465-2576 | the load-time checks accept the configuration of the next row: every reference resolves, trimmed and as written, and no resolver refers to itself |
| Registry.TrailingSpaceMissesADependency | src/main.rs:1103-1123 | with a trailing space in a name and a reference, no build order lets the pass succeed |
| LookupRecursion.BuildPassIsLayered | src/main.rs:1096-1283 | a successful pass leaves plans that only reach earlier resolvers |
| LookupRecursion.LookUp | src/dns_resolvers.rs:442-467 | lookup, rebuild, bootstrap and retry terminate within a number of queries known beforehand; success is the last answer; a final rejection means the retry budget is spent |
| LookupRecursion.Rebuild | src/dns_resolvers.rs:501-561 | a rebuild's own lookups stay within the bound, by rank in the build order |
| RebuildLocks.RunsKeepInvariant | src/dns_resolvers.rs:442-561 | any number of tasks at once: each task's pending calls nest downwards in the build order, and a lock is taken exactly while its owner rebuilds that resolver |
| RebuildLocks.SomeoneCanMove | src/dns_resolvers.rs:501-561 | in every run each unfinished task waits, through a chain of lock owners, for one that can move |
| RebuildLocks.NoCircles | src/dns_resolvers.rs:501-561 | in every run no chain of waiting tasks meets a task twice |
| RebuildLocks.RunsEnd | src/dns_resolvers.rs:442-561 | without new tasks no interleaving goes on for more moves than the work there is, known beforehand |
| RebuildLocks.EveryTaskFinishes | src/dns_resolvers.rs:442-561 | so every interleaving ends, and only with all tasks finished and all locks free |
| RebuildLocks.CirclesGetStuck | src/dns_resolvers.rs:496-500 | with circular plans, which load-time validation refuses, two rebuilds can wait for each other for ever |
| Hysteresis.RankingIsExactAndSettled | src/pool.rs:1790-1861 | the new order has no duplicates, holds exactly the live scored addresses, and no entry beats the one ahead of it |
| Hysteresis.PairwiseHysteresis | src/pool.rs:1790-1861 | two endpoints at any distance trade places only if the later one beats the earlier by the margin, though beating is not a total order |
| Hysteresis.NoChurnOnNoise | src/pool.rs:1790-1861 | two ranked endpoints keep their order unless the later one has become faster by the margin |
| Hysteresis.ReorderingIsIdempotent | src/pool.rs:1713-1716 | with unchanged scores an order reproduces itself |
| Hysteresis.RankBoundsTheLoss | src/pool.rs:1790-1870 | the score at rank k is at least the leader's lowered by the margin k times |
| Hysteresis.LevelIsNotTransitive | src/pool.rs:1867-1870 | a middle endpoint can be level with two that are not level, and the pass may leave an endpoint behind one it could overtake |
| Hysteresis.OvertakingIsAStrictOrder | src/pool.rs:1867-1870 | beating is irreflexive and transitive, and needs a score below the margin |
| Hysteresis.SortingSorts | src/pool.rs:1823-1824 | newcomers are appended in ascending score |
| Hysteresis.FreshMeaning | src/pool.rs:1815-1822 | the newcomers are the live scored addresses not kept, each once |
| Hysteresis.KeptMeaning | src/pool.rs:1808-1813 | what is kept of the former order is what is still live and scored |
| Hysteresis.CollectNewcomers | src/pool.rs:1815-1822 | the loop over the candidates collects exactly the newcomers |
| Hysteresis.InsertionPass | src/pool.rs:1826-1842 | the swap loop computes the specified promotion pass |
| Hysteresis.ReorderWithHysteresis | src/pool.rs:1790-1861 | the method computes the specified order |
| Selection.NothingBeatsTheChosen | src/pool.rs:547-577 | nothing in the view beats the chosen candidate under the same draws; the incumbent yields only to the best, and only by the margin |
| Selection.ViewRanking.ChooseWith | src/pool.rs:547-577 | the stored incumbent becomes the choice, from the old one clamped into range |
| Selection.ViewRanking.Pick | src/pool.rs:686-711 | the head without a payload size, an unbeaten candidate with one, the fallback exactly when the list is empty |
| Selection.PublishedIsTheFilteredOrder | src/pool.rs:1725-1757 | a published view holds exactly the ranked, eligible, healthy and measured addresses, each once |
| Selection.PublishedKeepsTheOrder | src/pool.rs:1752-1757 | and in the global order |
| Selection.IncumbentsStayInRange | src/pool.rs:533-577 | clone, load and store of picks and clone, load and swap of publications are single steps; however they interleave, every stored incumbent and loaded index stays within its own snapshot |
| Selection.ServedIsUnbeaten | src/pool.rs:533-577 | a served address is in the snapshot its pick cloned, and nothing there beats it under the pick's draws |
| Selection.PublishKeepsTheIncumbent | src/pool.rs:1719-1780 | the new holder is the address loaded, while it stays listed, and else the head; the holder at the swap, the address last stored in the old snapshot, keeps its place if and only if it is the one loaded or, the loaded one being gone, the new head |
| Selection.UndisturbedHolderStays | src/pool.rs:1758-1779 | so a listed holder keeps its place if no pick stores another address in the old snapshot between load and swap |
| Selection.StoresCanBeLost | src/pool.rs:1758-1779 | a run in which a pick stores in between: its choice stays listed but loses its place |
| Selection.ServedWasHealthy | src/pool.rs:1725-1757 | in every run a served address was healthy, measured, ranked and selected when its snapshot was built |
| Selection.FallbackOf | src/pool.rs:1766-1771 | a view's fallback is the first candidate of the configured target that the view selects, if there is one |
| Selection.FilterRanked | src/pool.rs:1752-1757 | filtering the order computes the published list |
| Selection.PublishView | src/pool.rs:1742-1778 | the published view has the filtered order, the carried incumbent and the fallback |
| EndpointHealth.Health.RecordSuccess | src/pool.rs:434-446 | an answer resets the probe state and schedules the healthy interval |
| EndpointHealth.Health.RecordFailure | src/pool.rs:448-469 | a failure counts, degrades at the threshold and doubles the backoff up to the interval |
| EndpointHealth.ProbeStateFollowsTheStreak | src/pool.rs:434-469 | in every run degraded holds exactly from the threshold on, and the backoff is base, then min(base·2^k, interval) |
| EndpointHealth.WaitsAreBounded | src/pool.rs:448-469 | no wait exceeds the larger of base and interval |
| EndpointHealth.DeadEndpointsSettle | src/pool.rs:448-469 | a dead endpoint is in the end probed exactly every interval |
| History.CapOldest | src/pool.rs:1145-1160 | a capped map keeps the newest entries, all but as many of the oldest as are over the cap |
| History.PoolMemory.Observe | src/pool.rs:1113-1141 | a transfer is folded into the live or unexpired parked history and into its subnet's prior, or changes nothing |
| History.PoolMemory.PruneHistory | src/pool.rs:1143-1182 | expired parking goes, both caps hold, priors of live and parked subnets stay |
| History.PoolMemory.BuildCandidates | src/pool.rs:1430-1477 | prune, park departures, restore or create arrivals, prune again |
| History.ArrivalsMeaning | src/pool.rs:1451-1474 | after the arrival loop every candidate has its own, its parked, or a newcomer's state, and is not parked |
| History.RebuildKeepsHistory | src/pool.rs:1430-1477 | afterwards health holds exactly the candidates, none also parked, parked ≤ 4096, idle priors ≤ 1024; live addresses keep what was known of them |
| History.NewcomersInheritTheirSubnet | src/pool.rs:1456-1473 | an unknown candidate starts with its subnet's model while any address there is remembered, else with the default |
| History.StepsTeachOnlyTheirOwn | src/pool.rs:1113-1182 | a step changes what is remembered of an address only by what it teaches about it |
| History.RunsStayBounded | src/pool.rs:1113-1182 | in every run no address is both live and parked, and the cap holds |
| History.RunsStaySane | src/scoring.rs:28-66 | in every run every round-trip filter kept, live or parked, is one the update is defined on |
| History.HistorySurvivesRotation | src/pool.rs:1430-1477 | in every run an address that leaves and returns in time has the probe state, the round-trip filter and the throughput posterior its own probes and transfers give it, those while parked included |
| History.ForgettingHasACause | src/pool.rs:1143-1160 | a rebuild forgets an unexpired address only if 4096 others stay parked at least as long |
| Networks.DrawFreshSample | src/pool.rs:1676-1691 | the draw is the first unreserved address from its start; none means every address of the network is reserved, below 128 host bits |
| Networks.FreshUnlessExhausted | src/pool.rs:1676-1691 | a failed draw means an exhausted network if and only if the network has fewer than 128 host bits |
| Networks.NoneMeansExhausted | src/pool.rs:1676-1691 | the pigeonhole argument: one probe more than there are reserved addresses cannot all be reserved |
| Networks.OffsetsAreInNetwork | src/pool.rs:1051-1062 | offsets below the size give addresses of the network, without wrapping |
| Networks.SizeIsAtMostTheNetwork | src/pool.rs:342-349 | the size is the number of addresses, except where it saturates |
| Resampling.Sampler.PlanReplacements | src/pool.rs:1617-1653 | each hopeless sample gets one fresh, distinct, unreserved address of its own network, unless the network is used up; where the network is short they go to the candidates in their order |
| Resampling.Sampler.ResampleDead | src/pool.rs:1617-1670 | the plan is recorded, and the dead addresses leave health and the order |
| Resampling.ResamplingCounts | src/pool.rs:1617-1705 | a target's number of active addresses grows by exactly the addresses retired on its account that it did not hold, less its samples retired on other accounts only |
| Resampling.AllHopelessAreReplaced | src/pool.rs:1617-1653 | with room in its network every hopeless candidate of a target is replaced |
| Resampling.UnchangedExactlyWhenSamplesDie | src/pool.rs:1617-1705 | on the state before the pass, below 128 host bits: a target gains one sample for each hopeless candidate that is none, as far as free addresses are left after its hopeless samples; it loses the samples retired on other accounts only, none if no projection enters its network or all its hopeless are replaced, and then its number is unchanged if and only if there are no such candidates or no such addresses |
| Resampling.NeverDrawnTwice | src/pool.rs:1617-1691 | in every run a replacement differs from every address drawn or retired before it, and from every load-time sample |
| Resampling.SampleSizes | src/pool.rs:1355-1365 | over every run a target's active addresses number what was drawn at load time, plus one per retirement on its account of an address that was none of its samples, less its samples retired on other accounts only; none is lost with disjoint networks that have room or that no projection enters |
| Resampling.SampleSizesAreConserved | src/pool.rs:1617-1705 | so a target that NAT64 leaves alone never grows, and keeps exactly its number of samples if and only if none is retired on other accounts only |
| Resampling.RetiredProjectionsReturn | src/pool.rs:1355-1409 | in every run a retired projection is a candidate of each later pass in which its IPv4 address is active, although it is recorded as retired |
| DeadGateways.DeadGatewaysGrowTheSample | src/pool.rs:1626-1670 | for every n the network has room for, a run of n passes, each probing a candidate at most once from the health it was left with, in which the same projection dies n times and one sample becomes n + 1 |
| DeadGateways.UsedUpTargetsLoseSamples | src/pool.rs:1640-1670 | a pass that retires a target's one sample on the account of another, with nothing in its place |
| Kalman.KalmanRtt.Update | src/scoring.rs:40-66 | one observation updates mean, variance and accumulator as specified and tells of the alarm |
| Kalman.StableLarge | src/scoring.rs:55-64 | the gain branch for a large variance equals p/(p+r) |
| Kalman.StableSmall | src/scoring.rs:55-64 | so does the branch for a small one |
| Kalman.VarianceEnvelope | src/scoring.rs:40-66 | in every run, alarms included, the variance stays at most r and at least every p with p² + qp ≤ qr, so at least the steady variance |
| Kalman.MeanStaysInTheObservedRange | src/scoring.rs:40-66 | the mean never leaves the range of the observations |
| Kalman.ConstantInputContracts | src/scoring.rs:40-66 | under constant input the error shrinks by at least the factor 1 - p/r per step, for every such p |
| Kalman.NoiselessFilterIsTheMean | src/scoring.rs:40-66 | without process noise and alarm the mean is the arithmetic mean of all samples |
| Kalman.CusumIsTheGreatestSuffixSum | src/scoring.rs:48-54 | the accumulator is the greatest suffix sum of the excesses since the last alarm |
| Kalman.AlarmMeansALongExcess | src/scoring.rs:48-54 | the alarm fires exactly when some suffix of excesses sums past 200 |
| Kalman.NarrowBandNeverAlarms | src/scoring.rs:13-14 | observations within 25 ms never raise it |
| Throughput.NigThroughput.Observe | src/scoring.rs:116-130 | a positive rate is clamped, faded and absorbed; a non-positive one changes nothing |
| Throughput.AbsorbedMeaning | src/scoring.rs:124-129 | one conjugate update, stated without quotients |
| Throughput.SequentialIsBatch | src/scoring.rs:116-130 | with discount 1 the sequential posterior is the batch posterior |
| Throughput.OrderOfObservationsIsIrrelevant | src/scoring.rs:116-130 | so any permutation of the observations gives the same posterior |
| Throughput.DiscountedPosteriorIsBounded | src/scoring.rs:116-130 | with discount below 1 the mean stays in range, no parameter falls below the prior, and each has a bound independent of the run |
| Throughput.AnyTransfersStayBounded | src/scoring.rs:85-130 | in particular from the default prior, for any rates and any increasing logarithm |
| RebuildProtocol.RunsKeepInvariant | src/dns_resolvers.rs:501-561 | every interleaving keeps version, generation, stored bytes and lock in agreement |
| RebuildProtocol.SnapshotsAreNeverStale | src/dns_resolvers.rs:367-384 | a snapshot is at least as new as the generation read before it |
| RebuildProtocol.OneSwapPerGeneration | src/dns_resolvers.rs:389-395 | each generation is left by exactly one swap |
| RebuildProtocol.GenerationsOnlyGrow | src/dns_resolvers.rs:389-395 | generations never decrease and built resolvers are never lost |
| RebuildProtocol.SkippingRetriesOnANewerResolver | src/dns_resolvers.rs:442-523 | a task that skips its rebuild retries on a resolver at least as new as the generation found at the check, so newer than the generation it had read; newer than the one that rejected it if and only if that is older than the generation found or another is written after the check |
| RebuildProtocol.NewerExactlyWhenTheGenerationPassed | src/dns_resolvers.rs:442-523 | at the check: the retry runs on a newer resolver in every continuation if and only if the generation found is beyond the version of the resolver that rejected the query |
| RebuildProtocol.SkippingCanRetryOnTheSameResolver | src/dns_resolvers.rs:389-395 | a run in which the retry runs on the very resolver that rejected the query |
| RebuildProtocol.RotationsReplaceOnlyWhatChanged | src/dns_resolvers.rs:525-540 | in every run a rotation goes on to swap exactly when the bytes found differ from those of the live resolver, and each resolver it writes differs from the one it replaces |
| RebuildProtocol.StoredBytesDescribeTheLiveResolver | src/dns_resolvers.rs:389-395 | outside a swap the stored bytes are those of the live resolver |
| RebuildProtocol.AttemptsStayWithinTheBudget | src/dns_resolvers.rs:442-467 | no task attempts more than its retry budget |
| EchProvider.EchProvider.TryFast | src/ech.rs:111-126 | the fast path hands out a memoized config of a fresh entry, or nothing |
| EchProvider.EchProvider.ClientLocked | src/ech.rs:128-163 | the locked section hands out from a fresh, a rebuilt or a kept entry, and leaves the cache as specified |
| EchProvider.EchProvider.HandOut | src/ech.rs:167-180 | a config is reused or assembled from the entry's mode and memoized under its ALPN list |
| EchProvider.EchProvider.Build | src/ech.rs:208-234 | a resolved mode takes the next generation and its refresh deadline |
| EchProvider.EchProvider.InvalidateAfterRejection | src/ech.rs:188-206 | only the current generation is evicted |
| EchProvider.ClientsMatchTheirGeneration | src/ech.rs:111-234 | in every run a client was assembled from the mode an earlier lookup for this name resolved under the returned generation, for exactly the requested ALPN, and is real ECH if required |
| EchProvider.GenerationsIncrease | src/ech.rs:208-234 | generations of successful lookups strictly increase |
| EchProvider.GenerationsNeverGoBack | src/ech.rs:111-163 | the generations handed out for one name never decrease |
| EchProvider.EvictedForGood | src/ech.rs:188-206 | an evicted generation is neither handed out nor evicted again, so at most one rejection of it returns true |
| EchProvider.LateRejectionsChangeNothing | src/ech.rs:182-206 | rejecting a generation older than one already handed out changes nothing |
| EchProvider.LookupsAreSpaced | src/ech.rs:111-163 | without evictions a name with an entry is looked up at most every five seconds, whatever ALPN offers come and whether lookups succeed |
| EchProvider.FailedLookupsNeverStopServing | src/ech.rs:107-163 | in every run, once a client was handed out for a name, every later call that can assemble is served from the same mode and generation, until a lookup succeeds or a rejection evicts, however many lookups fail |
| Routing.CheckWildcard | src/router.rs:229-320 | the walk over named hosts decides exactly the confinement predicate |
| Routing.OverlapIsExact | src/router.rs:371-432 | the scope overlap test holds just when some host is covered by both |
| Routing.ConfinedWildcardsAreSafe | src/router.rs:190-320 | every host a confined wildcard covers routes into the scope, if each regex out of the scope that matches a covered host declares a scope overlapping the wildcard |
| Routing.RefusedWildcardsAreUnsafe | src/router.rs:190-320 | without regexes a wildcard is refused only if some covered host really leaves the scope |
| Routing.DishonestScopesEscape | src/router.rs:190-228 | a regex that matches a covered host and declares no overlapping scope: a router that confines the wildcard and loses the host |
| Routing.TrustedExactlyWhenDeclared | src/router.rs:190-320 | beside a regex of another scope, every router that confines the wildcard is safe if and only if that regex, should it match a covered host, declares an overlapping scope |
| Routing.CoveringScopesAreDeclared | src/router.rs:371-432 | in particular if its scopes cover every host it matches |
| Clipping.ClipObserved | src/resolver.rs:318-374 | the loop computes the specified plan of kept and dropped names |
| Clipping.KeptNamesAreSafe | src/resolver.rs:332-361 | a kept name covers nothing that routes out of the scope |
| Clipping.SiftKeepsExactlyTheFit | src/resolver.rs:318-374 | exactly the fit names are kept, and every other one is listed with its reason |
| Clipping.ClippedCertificatesAreSafe | src/resolver.rs:318-374 | a clipped certificate covers its host and nothing outside the scope |
| Clipping.ClippingAddsOnlyTheHost | src/resolver.rs:365-373 | no fit name is lost, and only the host itself is added |
| Mirror.Resolver.CertificateFor | src/resolver.rs:265-470 | pinned, cached, persisted or freshly exact, with the new cache and store in each case |
| Mirror.Resolver.RecordUpstreamSans | src/resolver.rs:481-594 | a current mirror makes it a no-op; otherwise the clip is cached and saved, unless signing fails |
| Mirror.ServedCertificatesAreSafe | src/resolver.rs:385-594 | RFC 9113, section 9.1.1: in every run, whatever fails, a served certificate covers its host and covers only hosts that route into its scope, even if the store starts with broad files that record no observation |
| Mirror.EveryRunServesTheSpecification | src/resolver.rs:385-594 | from an empty store, while saves and signatures succeed, every run serves for a key the clip of the observation its own events settled last, or its name alone, exactly when those events say so |
| Mirror.RunsKeepAccounts | src/resolver.rs:385-594 | what is saved, settled and cached for a key is what replaying the events of that key alone gives |
| Mirror.OtherKeysDoNotMatter | src/resolver.rs:385-594 | two runs with the same events for a key serve the same for it at the same next event |
| Mirror.IssuingOverwritesNothing | src/resolver.rs:385-470 | in every run, whatever is stored at first and whatever fails, an issued entry is inserted only when the cache holds none for its key |
| Mirror.RunsKeepDiscipline | src/resolver.rs:385-594 | every task under a lock holds that of its key, in every run |
| Sidecar.SidecarsDescribeExactly | src/store.rs:173-216 | in every run, whatever fails: a key's sidecar describes its certificate at every step if and only if no save of the key stops before the sidecar over one whose observation has another clip; then cache and tasks agree with it too |
| Sidecar.CurrentMeansMirrored | src/resolver.rs:481-500 | then a mirror taken for current is the clip of what was observed |
| Sidecar.MisfiledMirrorsLookCurrent | src/store.rs:196-200 | any run that misfiles goes on to one in which, after a restart, a certificate that is not the clip of the observation is served and recording the observation does nothing |
| ClientHello.ParseClientHello | src/peek.rs:163-250 | the cursor parser stays in bounds on all bytes and computes the specified verdict |
| ClientHello.ParseExtensions | src/peek.rs:227-250 | so does the extension loop |
| ClientHello.ParseServerName | src/peek.rs:253-278 | so does the loop over server names |
| ClientHello.VerdictsStand | src/peek.rs:163-250 | a name once found, a refusal, and the absence of a name in a whole message survive any further bytes |
| ClientHello.PrefixesAgree | src/peek.rs:163-250 | no prefix of a buffer yields another name than the buffer |
| ClientHello.ServerNameRoundTrip | src/peek.rs:253-278 | parsing a printed server_name list yields its first host_name, if non-empty UTF-8 |
| ClientHello.ParsesEveryCut | src/peek.rs:163-250 | the verdict on every buffer that starts like a printed hello, cut anywhere or followed by anything |
| ClientHello.NamedHellosCut | src/peek.rs:217-250 | for a hello with a name: exactly which cuts give no name, which want more, and which find it |
| ClientHello.RoundTrip | src/peek.rs:522-562 | RFC 8446, section 4.1.2: parsing a printed hello yields its name, whatever follows |
| Peek.Classify | src/peek.rs:58-104 | the peek loop computes the specified classification, TLS or HTTP |
| Peek.ClassifiedUnlessCut | src/peek.rs:58-104 | a hello arriving in pieces is classified under its name if and only if the peeks reach the end of the name before one ends in a header or fills the window; otherwise under no name, never another |
| Peek.EveryNameCanBeMissed | src/peek.rs:217-224 | every hello with a name has a cut after which it is classified without one |
| HttpHost.HeaderBlockEnd | src/peek.rs:296-305 | the end of the first blank line, in either framing, or none |
| HttpHost.ParseHttpHost | src/peek.rs:325-364 | finding the end of the head and then scanning its lines gives the verdict of one pass over the lines |
| HttpHost.HostLinesCut | src/peek.rs:325-364 | the verdict on every buffer that starts like a request with a Host line, cut anywhere or followed by anything |
| HttpHost.BlankLinesCut | src/peek.rs:325-364 | and like a head without one |
| HttpHost.BodiesAreNeverRead | src/peek.rs:310-324 | two buffers with the same complete head have the same verdict, whatever bytes follow |
| HttpHost.HostsCutExactly | src/peek.rs:325-364 | a buffer answers the host of the request if and only if it holds the whole text of the value |
| HttpHost.HostsAreMisread | src/peek.rs:325-364 | every proper prefix of the host that ends in no space and is UTF-8 is answered for some cut |
| Peek.RequestsAreClassifiedUnlessCut | src/peek.rs:58-104 | a request arriving in pieces is classified under its host if and only if a peek holds the whole host and each before it shows the method, ends before the value and does not fill the window |
| Peek.HostsCanBeMistaken | src/peek.rs:58-104 | a first peek that ends inside the value has the connection classified under a prefix of the host |
| ClientHello.AsciiIsUtf8 | src/peek.rs:270-273 | every ASCII name passes the UTF-8 test |

## Left out

- Floating point: rounding, NaN, infinities and the clamp at the largest double are not modelled; estimators work on reals.
- Estimates and scores: the posterior sample behind a score is any real; its distribution is not modelled.
- The load-time draw of samples may fall short after a bounded number of attempts; the model takes whatever distinct addresses it drew.
- Resampling.UnchangedExactlyWhenSamplesDie: networks of 128 host bits, where a draw can fail while addresses are free, and sampled networks that overlap, where one target's draw can use up another's addresses.
- NAT64 address synthesis is an arbitrary function per prefix.
- Certificate signing, keys and X.509 are outcomes; a certificate is its list of names.
- The encoding of the observation sidecar is the identity; expiry and renewal count as a file that does not load.
- A certificate saved without its key, left by an interrupted save, counts as a file whose key does not load.
- Locks per key are assumed not to be evicted while held.
- RebuildLocks.SomeoneCanMove: which of several waiting tasks takes a free lock is left open; the queue's order is not modelled.
- Mirror.EveryRunServesTheSpecification: an observation settles when its call inserts it or, once saved, at a restart; server names are host names; other text in a server name is not modelled.
- Pinned routes take part in the single calls, not in the interleaved runs.
- Certificate scopes are abstract; that equal fingerprints mean equal scopes is not modelled.
- Clipping.KeptNamesAreSafe: the public suffix list is an arbitrary predicate on wildcard parents.
- Routing.RefusedWildcardsAreUnsafe: stated without regex routes, because a regex is an arbitrary predicate that may match no covered host.
- The order in which escapes are found and reported by the wildcard walk.
- Registry.NeverMissedExactly: does not single out the one order the sorted search returns.
- BuildOrder.ResolverBuildOrder: the text of an error message; the source's sorted start order is any order of the declared names.
- What a resolver build does on the network, and which endpoint kinds exist.
- The resolver's own answer cache, which an ECH rejection also clears.
- Peek.Classify: the waiting between peeks; a run of peeks is the sequence of lengths seen before the stream stalls.
- Selection: one view at a time; the views of a ranking share its clone and swap but no incumbent.
- The HTTP Host parser, the sockets, the relay loop, the configuration's inheritance ladders and the watch code, which would add only easy members.
