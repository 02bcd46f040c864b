# Verified model of the network scanner's deterministic core

The scanner sweeps a local network, collects evidence and turns it into reports, graphs and
verdicts. Its probes talk to the network; between them sits a deterministic middle of stores, folds,
merges, parsers and decision rules. This project models that middle in Dafny and proves what it
promises.

- **Report pipeline.** `Discovery` runs a scan's assembly: sources, devices, services, hops, peers.
  `Normalization` mints evidence for each device, `TopologyModel`, `TopologyGraph` and
  `TopologyBuilder` build the edge graph, `Links` says which edges and roles are due, `ReportValidator` is the
  separately written checker.
  The checker is first proved to list exactly the defects of any report; then every assembled report is
  shown to be free of them, with the one exception stated exactly.
- **Detection engine.** `Aggregation` folds probe results into evidence, `EvidenceMeaning` says what the folded
  evidence means in terms of the reports, `ScoreAudit` scores it twice
  (scoreboard and audit trail), `Ranking` orders types, categories and candidates, `Verdict` holds the
  confidence ladder, the gate to Unknown and the published state, `Engine` puts them together.
  `GatewayMerge` (over the generic lemmas of `KeyedMerge`) and `GatewayChain` reconcile what probes say about gateways.
- **Mobile fingerprint.** `MobileFingerprint` is the ledger of scored evidence and the classifier on it.
- **Parsers.** `Soap` is the two-stack extractor of SOAP values, `Stun` the STUN attribute walker
  (RFC 5389, sections 6, 15 and 15.2).
- **Identity and scope.** `Scope` accepts CIDR scopes and enumerates hosts, `DeviceMerger` merges devices by
  MAC and IP, `DeviceIntel` is the device-intelligence store, `PassiveCollector` the streaming LAN collector.
- **Desktop.** `ScanController` is the transition system of concurrent scan jobs under one mutex.
- `Sorting`, `Text`, `Numbers` and `Options` hold what all of them share: sorting with unique results,
  trimming, string order, larger and smaller numbers, missing values.

Where the source visits a map, the model visits it in an order nothing is known about. Confidences and
scores are reals. Functions outside the model (a CIDR parser, a vendor table, a rule's condition, a reverse
lookup) are parameters, so every result holds for all of them.

Some properties one would expect turn out to have exceptions. The model keeps the code as it is, shows an
input, and states exactly when the property holds: a proving edge asked for less than a guess
(`TopologyModel.InferenceBelowProofExactly`), edge ids that read alike (`TopologyModel.EdgeIDInjectiveExactly`),
a blank neighbour evidence id (`BuildValidity.BuiltEdgesDefectsExactly`), foreign ids carried in by scanned
services (`Discovery.AssembledIsWellFormedExactly`), multicast scopes (`Scope.AcceptedScopeIsPrivate`),
observations with two MACs or a moved address (`DeviceMerger.NoSharedMACExactly`,
`DeviceMerger.NoSharedIPExactly`), rules sharing an id
(`ScoreAudit.AuditCompleteExactly`), a leader that loses its category (`Ranking.LeaderHasGateScoreExactly`), a
grave conflict that raises a confidence (`Verdict.MoreConflictsLowerExactly`), cast records before the Android
evidence they support (`MobileFingerprint.RecordOrderIsFreeExactly`), scan ids from the same nanosecond
(`ScanController.LiveIsCurrentExactly`), and registered evidence ids that mimic minted ones
(`DeviceIntel.EvidenceStore.RegisterEvidence` and its neighbours, through `DeviceIntel.LogSound`).

## Model

| member | source | states |
|---|---|---|
| Soap.ParseSOAPValues | agent/internal/probes/upnp_igd_probe.go:288-320 | the loop with its two stacks ends in the values the stack machine yields, on any token stream |
| Soap.Run | agent/internal/probes/upnp_igd_probe.go:289-318 | on any token stream, well formed or not, the name stack and the text stack keep equal length |
| Soap.RunForest | agent/internal/probes/upnp_igd_probe.go:290-318 | reading whole elements leaves the open elements as they were, adds their direct text on top and records every element closed |
| Soap.ParseMeansLastText | agent/internal/probes/upnp_igd_probe.go:288-320 | for every document, each name maps to the trimmed direct text of the last-closed element of that name with non-blank text |
| Soap.ParseEndsBalanced | agent/internal/probes/upnp_igd_probe.go:294-318 | a document of properly closed elements is read back to an empty stack |
| Soap.ValuesTrimmed | agent/internal/probes/upnp_igd_probe.go:310-316 | whatever the stream, recorded values are trimmed and not blank |
| Soap.TruncationKeepsClosed | agent/internal/probes/upnp_igd_probe.go:293-297 | a stream that stops early loses nothing that was already closed |
| Stun.ParseSTUNXORMapped | agent/internal/probes/stun_pcp_nat_probe.go:111-134 | the walker ends on arbitrary bytes, never reads out of range, and answers what the attribute grammar says |
| Stun.ParseUndoesEncode | agent/internal/probes/stun_pcp_nat_probe.go:111-134 | round trip: behind a header and any padded attributes the walker passes over, an encoded IPv4 XOR-MAPPED-ADDRESS parses to the address and port it was made from |
| Stun.ParseFindsExactlyCarried | agent/internal/probes/stun_pcp_nat_probe.go:115-133 | an address is found if and only if the message carries it behind passed-over attributes |
| Stun.XorBits | agent/internal/probes/stun_pcp_nat_probe.go:126-129 | masking sets a bit exactly when it is set in one of the two words and not in the other |
| Stun.BitsDetermine | agent/internal/probes/stun_pcp_nat_probe.go:126-129 | its bits determine a word, so that says all of the masking |
| Stun.BareAttribute | agent/internal/probes/stun_pcp_nat_probe.go:116-131 | what a bare XOR-MAPPED-ADDRESS behind a header answers, with the type, the family and the cookie bytes written out |
| Stun.OtherAttributeSkipped | agent/internal/probes/stun_pcp_nat_probe.go:116-133 | any other attribute is skipped with its padding to four bytes |
| Stun.ResponseExample | agent/internal/probes/stun_pcp_nat_probe.go:126-130 | the bytes of 192.0.2.1 port 32853 read as that address and port |
| Scope.ParseScope | agent/internal/discovery/scope.go:41-104 | which error is returned for which request, and on success the host count, privacy flag and exactly the warnings that apply |
| Scope.HostsInScope | agent/internal/discovery/scope.go:131-160 | strictly ascending, exactly as many as the host count, exactly the in-scope addresses without network and broadcast when there are any |
| Scope.ContainsIsInterval | agent/internal/discovery/scope.go:163-176 | prefix membership is membership in a run of consecutive addresses |
| Scope.NetworkFits | agent/internal/discovery/scope.go:145-158 | the enumeration never leaves 32 bits |
| Scope.AcceptedIsSmall | agent/internal/discovery/scope.go:82-93 | acceptance means a prefix of /16 or longer, so every accepted scope is enumerated in full |
| Scope.AcceptedScopeIsPrivate | agent/internal/discovery/scope.go:82-104 | without the public flag every address of an accepted scope is private if and only if the scope is not a network of 224.0.0.0 shorter than /24 |
| Scope.MulticastScopeLeaks | agent/internal/discovery/scope.go:184-205 | 224.0.0.0/16 is accepted without the public flag though 224.0.1.0 is not private |
| Scope.PrivateBaseIsNotEnough | agent/internal/discovery/scope.go:179-182 | only the size limit carries the claim: the base of 10.0.0.0/7 is private, 11.0.0.0 inside it is not |
| Scope.PrivateRanges | agent/internal/discovery/scope.go:184-205 | the private ranges as intervals of addresses |
| Scope.TooLargeExactly | agent/internal/discovery/scope.go:116-126 | the host count of every prefix, and that a network is too large exactly below /16 |
| DeviceMerger.MergeDevices | agent/internal/discovery/merger.go:12-55 | the output lists the merged identities once each, ordered by id, whatever the map order |
| DeviceMerger.Absorb | agent/internal/discovery/merger.go:17-46 | one observation updates devices and both indexes as the fold prescribes |
| DeviceMerger.MergeAllSound | agent/internal/discovery/merger.go:13-46 | after any observations each index entry names a live device holding that address, and every stored address is indexed |
| DeviceMerger.NoAddressLost | agent/internal/discovery/merger.go:57-88 | every address and name of an accepted observation ends up, together with the others, in one output device |
| DeviceMerger.NoAddressInvented | agent/internal/discovery/merger.go:57-88 | every address of an output device was reported by an accepted observation |
| DeviceMerger.NoNameInvented | agent/internal/discovery/merger.go:57-88 | every name of an output device was reported by an accepted observation |
| DeviceMerger.NoSharedMACExactly | agent/internal/discovery/merger.go:90-112 | no two outputs share a MAC if and only if no observation joined MACs already held apart |
| DeviceMerger.SingleMACsNeverShared | agent/internal/discovery/merger.go:90-112 | observations with at most one MAC each never make two outputs share one |
| DeviceMerger.TwoMACsAreShared | agent/internal/discovery/merger.go:90-112 | any two MACs first seen apart and then together in one observation end up shared by two outputs |
| DeviceMerger.StepGoes | agent/internal/discovery/merger.go:90-112 | an accepted observation goes to the identity its first known MAC names, failing that the one its first known address names, failing that a new one |
| DeviceMerger.FoundsOnlyUnknown | agent/internal/discovery/merger.go:90-112 | it founds a new identity only when none of its MACs and none of its addresses is known |
| DeviceMerger.KnownIPJoins | agent/internal/discovery/merger.go:96-100 | without a known MAC it joins the identity of its first known address |
| DeviceMerger.NoSharedIPExactly | agent/internal/discovery/merger.go:90-112 | no two outputs share an address if and only if no observation brought an address to an identity other than the one holding it |
| DeviceMerger.SingleIPsNeverShared | agent/internal/discovery/merger.go:90-112 | observations with one address each and no MAC never make two outputs share one |
| DeviceMerger.AddressAloneJoins | agent/internal/discovery/merger.go:96-100 | an observation of a known address without a MAC leaves no second device with that address |
| DeviceMerger.MovedAddressIsShared | agent/internal/discovery/merger.go:90-112 | an address seen under one MAC and then under another known MAC ends up in two outputs |
| TopologyModel.InferenceIsCapped | agent/internal/topology/confidence.go:47-79 | whatever confidence a caller asks for, exactly the physical edges are drawn solid, edges that are not physical stop at 0.60, inferred ones at 0.50 and below the high labels |
| TopologyModel.InferenceBelowProofExactly | agent/internal/topology/edge.go:13-18 | an inferred edge stays below a proving edge if and only if the proving edge was not asked, by a positive override, to be no better |
| TopologyModel.InferenceNeverReachesProofExactly | agent/internal/topology/confidence.go:47-79 | a proving edge is above an inferred type whatever the latter is asked for, if and only if its own override is absent or above that type's ceiling |
| TopologyModel.LowOverrideExample | agent/internal/topology/edge.go:14-18 | an LLDP edge asked for 0.1 ends below a same-subnet guess |
| TopologyModel.SameIDExactly | agent/internal/topology/edge.go:39-41 | two edges share an id if and only if their types read alike and their ends, joined by the separator, do |
| TopologyModel.EdgeIDInjectiveExactly | agent/internal/topology/edge.go:39-41 | ids tell edges from a set of sources apart, with any targets, if and only if no source is another one followed by a dash or continues another by a double dash |
| TopologyModel.ConfusedSourcesCollide | agent/internal/topology/edge.go:39-41 | for such a pair of sources every target of the longer one has a target of the shorter with the same id |
| TopologyModel.SeparableExactly | agent/internal/topology/edge.go:39-41 | a source is safe beside every other if and only if it has no double dash and no dash at its end |
| TopologyModel.EdgeIDInjective | agent/internal/topology/edge.go:39-41 | ids are injective on safe sources, whatever the targets |
| TopologyModel.TrailingDashCollides | agent/internal/topology/edge.go:39-41 | a trailing dash is enough for two different edges to share an id |
| TopologyGraph.EvidenceStore.Add | agent/internal/topology/evidence.go:44-56 | appends one record numbered one above the count, and keeps all records numbered in order |
| TopologyGraph.GraphKeepsFirstMax | agent/internal/topology/graph.go:31-45 | after any insertions an id is present exactly when some admissible edge had it, and holds the first of highest confidence |
| TopologyGraph.Graph.AddEdge | agent/internal/topology/graph.go:31-45 | the map becomes the fold's next state; the result says whether the edge was stored |
| TopologyGraph.Graph.Edges | agent/internal/topology/graph.go:49-67 | lists every stored edge once in the sorted order |
| TopologyGraph.SortedViewUnique | agent/internal/topology/graph.go:49-67 | there is one sorted view, so the map iteration order cannot show |
| TopologyBuilder.Build | agent/internal/topology/builder.go:63-163 | the edges are the sorted view of all offered edges admitted in phase order; roles, the inferred-only flag and the high-confidence count are as promised |
| TopologyBuilder.AddNeighbors | agent/internal/topology/builder.go:81-95 | the neighbour phase offers the edges the neighbour records prescribe, in order |
| TopologyBuilder.AddHops | agent/internal/topology/builder.go:97-102 | the route phase offers the hop edges |
| TopologyBuilder.AddGateway | agent/internal/topology/builder.go:104-109 | the default-gateway edge is offered when both ends are known |
| TopologyBuilder.AddPeers | agent/internal/topology/builder.go:111-127 | the same-subnet phase offers the peer edges |
| TopologyBuilder.ApplyRoles | agent/internal/topology/builder.go:131-144 | roles are written into the copied devices and nothing else about them changes |
| TopologyBuilder.Summarize | agent/internal/topology/builder.go:146-155 | inferred-only holds exactly when no edge is physical evidence; the count is exact |
| TopologyBuilder.NeighborEdgeSpelled | agent/internal/topology/edge.go:14-36 | what the edge of an LLDP, CDP or SNMP neighbour says, field by field, with the confidence asked for up to the ceiling of its kind |
| ReportValidator.ValidateReport | agent/internal/topology/validate.go:24-184 | lists a problem if and only if the report has that defect; lists none exactly for well-formed reports |
| ReportValidator.CheckDevices | agent/internal/topology/validate.go:32-48 | the device checks find exactly the missing and duplicate ids and bad confidences |
| ReportValidator.CheckEdges | agent/internal/topology/validate.go:88-127 | the edge checks find exactly the defects of each edge and the duplicate ids |
| ReportValidator.CheckEdgeClaims | agent/internal/topology/validate.go:108-125 | physical edges without evidence and misdeclared edges are found, nothing else |
| ReportValidator.CheckCounts | agent/internal/topology/validate.go:172-181 | the summary counts are compared with the lists they count |
| ReportValidator.UnknownIDs | agent/internal/topology/validate.go:186-192 | the cited ids nobody recorded |
| BuildValidity.BuiltEdgesDefectsExactly | agent/internal/topology/builder.go:81-127 | built edges have no defect at all except a physical claim without evidence, and that exactly when a neighbour with only blank evidence ids wins its edge |
| BuildValidity.NamedEvidenceBuildsClean | agent/internal/topology/builder.go:81-127 | when every provable neighbour cites some id that is not blank, built edges have no defect |
| BuildValidity.BlankNeighborExample | agent/internal/topology/builder.go:87-94 | one LLDP neighbour citing [""] is such a case |
| BuildValidity.BuiltEdgeIsWinner | agent/internal/topology/graph.go:31-45 | each built edge is the first strongest offer under its id |
| Normalization.Normalizer.Device | agent/internal/discovery/normalize.go:36-89 | a device cites what was minted for it and what the caller proved, nothing else; each TCP service cites the connect record |
| Normalization.Normalizer.AttachNmap | agent/internal/discovery/normalize.go:91-119 | one record for the scan; the added services are those no earlier one covers, each citing that record, and the list stays ordered |
| Normalization.MergeServices | agent/internal/discovery/normalize.go:100-117 | keeps what is there and adds exactly the uncovered services |
| Normalization.KeysAfterScan | agent/internal/discovery/normalize.go:91-119 | taking over a scan leaves the services of both sides, by protocol and port |
| Normalization.ConfidenceTable | agent/internal/discovery/normalize.go:129-151 | the confidence of a device by number |
| Normalization.FactsInOrder | agent/internal/discovery/normalize.go:36-89 | which records are minted for a device, in which order |
| Discovery.SweepResult.AddSource | agent/internal/discovery/discovery.go:221-231 | a source is appended to its address unless listed already, so each is listed once, in order of first mention |
| Discovery.Discover | agent/internal/discovery/discovery.go:238-289 | an address is found by a source exactly when that source saw it; only the TCP sweep is trusted to stay in scope |
| Discovery.BuildDevices | agent/internal/discovery/discovery.go:296-372 | one device per found address, in address order, with the MAC, hostname, reachability, sources and evidence its sightings determine |
| Discovery.OrderAddresses | agent/internal/discovery/discovery.go:314-325 | the addresses once each, ascending as IPv4 numbers |
| Links.SameSubnetPeers | agent/internal/discovery/discovery.go:390-411 | exactly the other in-subnet devices |
| Links.BuildRouteHops | agent/internal/discovery/discovery.go:415-436 | hops along the private chain, citing one freshly minted record |
| Links.BuiltIsWhatIsDue | agent/internal/topology/builder.go:81-127 | the edges stored are those due from the default route, the gateway chain and the subnet, told from the addresses alone and field by field; no other is, and none is missing when the addresses read apart |
| Links.NoDashesReadApart | agent/internal/topology/edge.go:37-41 | addresses without a dash, such as dotted quads, read apart |
| Links.SmallNetExample | agent/internal/discovery/discovery.go:126-136 | agent, gateway and one more host yield the default route and one inferred link |
| Links.RolesMean | agent/internal/topology/classifier.go:17-41 | gateway, router, agent and host exactly when the address is the gateway, forwards along the chain, is the agent, and always, in that order |
| Links.HighCounted | agent/internal/topology/builder.go:146-155 | the counter is the number of edges of at least 0.70 |
| Discovery.Run | agent/internal/discovery/discovery.go:101-167 | from the inputs alone: which edges the report gets and which record each cites, the summary's counts, every device's roles, services, confidence, MAC, name and reachability, and which records it cites; well formed if and only if no scanned service carries in an id nobody minted |
| Discovery.MACTableMeans | agent/internal/discovery/discovery.go:255-277 | the MAC of an address is that of its last sweep answer, failing that the first the neighbour table fills in |
| Discovery.LastHitCounts | agent/internal/discovery/discovery.go:301-304 | of several sweep hits of one address the last counts |
| Discovery.LastScanCounts | agent/internal/discovery/discovery.go:305-308 | likewise of several scans |
| Discovery.MACOfSighting | agent/internal/discovery/discovery.go:343-351 | which MAC a device gets: the one ARP found, failing that the agent's own, failing that the scan's |
| Discovery.ReachabilityMeans | agent/internal/discovery/discovery.go:377-388 | which devices are the agent itself, reachable, known by ARP only, or unknown |
| Discovery.AssembledIsWellFormedExactly | agent/internal/discovery/normalize.go:91-119 | every assembled report is well formed except for exactly the foreign evidence ids of scanned services |
| Discovery.RunAndValidate | agent/internal/discovery/discovery.go:101-167 | the validator is silent on every run whose scanned services arrive bare, and exactly on the runs without foreign ids |
| Discovery.ForeignExample | agent/internal/discovery/normalize.go:104-112 | a run with one scanned service citing "other" is reported |
| ScoreAudit.Board.Add | agent/internal/scoring/score.go:16-20 | every target gains exactly its delta, whatever the map order |
| ScoreAudit.Board.AddHints | agent/internal/scoring/score.go:24-28 | every target gains the weight once per mention |
| ScoreAudit.Board.Normalize | agent/internal/scoring/score.go:48-61 | scores land in the unit interval, zero and one exactly at the clamps, proportional between |
| ScoreAudit.Score | agent/internal/detection/engine.go:115-148 | the board's points per target are the signals' plus the fired rules', and the fired ids are in rule order |
| ScoreAudit.SignalPointsByNumber | agent/internal/detection/engine.go:115-135 | every mention of a target is worth 40, 15, 25 or 45 points, and a latency what it speaks for, target by target |
| ScoreAudit.RulesByPrefix | agent/internal/detection/synthesis.go:140-165 | the evidence class and strength of a rule from the beginning of its id |
| ScoreAudit.BuildContributions | agent/internal/detection/synthesis.go:64-116 | for every target and every set of evidence classes the audit sums to what the sources filed under those classes give |
| ScoreAudit.LatencyTablesAgree | agent/internal/detection/synthesis.go:118-143 | the audit's latency table and the scoreboard's give every target the same points |
| ScoreAudit.AuditCompleteExactly | agent/internal/detection/synthesis.go:100-115 | whichever rules fire the audit accounts for every board point, if and only if rules sharing an id score alike |
| ScoreAudit.DuplicateIDExample | agent/internal/detection/synthesis.go:100-105 | two rules under one id: the audit reports the wrong one's points |
| ScoreAudit.PhysicalPointsHavePhysicalSource | agent/internal/detection/synthesis.go:148-157 | points filed as physical come from strong access hints and interface rules alone |
| ScoreAudit.ScoreAndAudit | agent/internal/detection/engine.go:115-179 | one scan's board and audit agree on every target when ids determine scores, and exactly then for the rules that fired |
| Ranking.TopTwo | agent/internal/detection/decision.go:32-45 | the two highest positive scores with their gap, for every iteration order |
| Ranking.TopTwoUnique | agent/internal/detection/decision.go:32-45 | ties may swap the names, never the scores |
| Ranking.CategoryScores | agent/internal/detection/decision.go:55-67 | exactly the categories with a positive type, each with its best score |
| Ranking.CategoryScoresUnique | agent/internal/detection/decision.go:55-67 | there is one such map, so the iteration order cannot show |
| Ranking.RankAll | agent/internal/detection/decision.go:71-85 | the positive types, best first |
| Ranking.RanksUnique | agent/internal/detection/decision.go:71-85 | there is one such list, so the iteration order cannot show |
| Ranking.Collapse | agent/internal/detection/decision.go:87-108 | drops exactly the parent types that have a scored subtype, keeping the order |
| Ranking.CollapseKeepsALeader | agent/internal/detection/decision.go:87-108 | a non-empty ranking keeps a leader |
| Ranking.LeaderHasGateScoreExactly | agent/internal/detection/decision.go:87-108 | the leader carries the score the gate looks at if and only if some type with that score survives the collapse |
| Ranking.LeaderLosesItsCategory | agent/internal/detection/decision.go:100-106 | DSL 0.9, VDSL 0.3 and Fiber 0.5 rank Fiber first while the gate reads 0.9 |
| Ranking.BuildCandidates | agent/internal/detection/synthesis.go:180-242 | one candidate per scored category, named after its best subtype, best first, for every iteration order |
| Ranking.CandidatesAreCategories | agent/internal/detection/synthesis.go:189-241 | candidates and category scores correspond one to one with equal scores |
| Ranking.CandidatesLeadWithGateScores | agent/internal/detection/synthesis.go:235-241 | the first two candidates carry the two scores the decision gate compares |
| Verdict.ComputeClassificationConfidence | agent/internal/detection/confidence.go:36-85 | the capped steps compute the rung of the evidence tier lowered by conflicts |
| Verdict.Decide | agent/internal/detection/engine.go:185-243 | the gate with its separate clause for grave conflicts reaches the same verdict without that clause |
| Verdict.GraveConflictForcesUnknown | agent/internal/detection/decision.go:175-209 | any high-severity conflict publishes Unknown with conflicting evidence |
| Verdict.UnknownExactly | agent/internal/detection/decision.go:203-208 | when the engine does not commit, in terms of the inputs alone, both directions |
| Verdict.TierCaps | agent/internal/detection/confidence.go:41-77 | caps of 0.40 without evidence, 0.75 with a model, 0.59 for Ethernet alone, 0.98 overall, and what state they bar |
| Verdict.SafeExactly | agent/internal/detection/contract.go:614-633 | safe to show as final if and only if direct non-Ethernet-only evidence is strong, the leader is named and scored high enough and there is no conflict |
| Verdict.SafeMeansConfirmed | agent/internal/detection/contract.go:739-759 | safe verdicts are confirmed with confidence at least 0.85 |
| Verdict.MoreConflictsLowerExactly | agent/internal/detection/confidence.go:79-83 | a further conflict never raises the confidence, except exactly where a grave one replaces the deduction for a medium one |
| Verdict.GraveConflictCanRaise | agent/internal/detection/confidence.go:79-83 | 0.30 becomes 0.35 when a high-severity conflict joins a medium one |
| Verdict.UnknownStaysUnknown | agent/internal/detection/engine.go:213-220 | more conflicts never turn Unknown into a verdict |
| Verdict.PublishedUnknownExactly | agent/internal/detection/contract.go:680-737 | the published name is Unknown exactly for the unnamed leaders |
| Verdict.StatesExactly | agent/internal/detection/contract.go:739-759 | the published state from the published confidence: confirmed from 0.85 with direct evidence, probable from 0.60, possible from 0.40 |
| Verdict.QualityExactly | agent/internal/detection/decision.go:213-221 | high and low quality by number |
| Verdict.RungsByTier | agent/internal/detection/confidence.go:36-85 | the confidence of every tier without a conflict |
| Verdict.BaseIsLinear | agent/internal/detection/confidence.go:16-34 | six tenths of the top score, a quarter of the lead's share, 0.0375 a source up to four, a tenth for a matched device |
| Verdict.PublishedMobile | agent/internal/detection/contract.go:680-737 | names of one family are published as one |
| Verdict.PublishedAsIs | agent/internal/detection/contract.go:680-737 | names of no family are published as they are |
| Aggregation.Aggregate | agent/internal/detection/engine.go:282-523 | the loop over results and its inner loops compute the fold of the evidence, line profile included |
| Aggregation.TakeDevices | agent/internal/detection/engine.go:415-425 | device lists contribute their best proof, best knowledge and physical hints |
| EvidenceMeaning.DirectMeans | agent/internal/detection/decision.go:128-150 | there is direct evidence if and only if some successful result claims proof, gives a proving hint or reports a strong signal, in terms of what it reports, or the CPE texts together are direct |
| EvidenceMeaning.KeepsTheBest | agent/internal/detection/engine.go:282-523 | on every matter (proof, acquaintance, network view, performance) the fold keeps the best value the successful results claim, each claim told in the fields of its payload |
| EvidenceMeaning.DirectCPEMeans | agent/internal/detection/contract.go:319-342 | when a CPE report proves the medium: its flag, a WAN access type, a strong signal, a line, or a token in its services and text |
| EvidenceMeaning.DirectDeviceMeans | agent/internal/detection/contract.go:344-358 | when a gateway device proves its link |
| EvidenceMeaning.KeepsHintsAndSignals | agent/internal/detection/engine.go:282-523 | hints, proving hints and signals are those of the successful results |
| EvidenceMeaning.CountsSources | agent/internal/detection/engine.go:282-470 | the number of sources is the number of successful results with a hint or something to say |
| EvidenceMeaning.LastReportCounts | agent/internal/detection/engine.go:291-345 | gateway, registration, latency and model are those of the last result that reports them |
| EvidenceMeaning.LastValueCounts | agent/internal/detection/engine.go:381-392 | of every CPE key the last value counts that is not blank |
| EvidenceMeaning.DirectTextCounts | agent/internal/detection/decision.go:143-148 | a direct token in any CPE text is direct evidence, in any letter case |
| Aggregation.ContextProvesNothing | agent/internal/detection/engine.go:282-523 | results of context probes only, whatever hints they carry, yield neither direct nor device evidence |
| Aggregation.ChainResultForgetsDevices | agent/internal/detection/engine.go:341-425 | for any results, the devices at the end are those of the last successful gateway chain result, then those fingerprinted after it |
| Aggregation.NoChainKeepsDevices | agent/internal/detection/engine.go:412-425 | without such a result every fingerprinted device stays, in order |
| Engine.Analyze | agent/internal/detection/engine.go:96-244 | a scan's verdict, ranking, candidates and audit are consistent, and its case says of the reports what they say: proof, direct confidence, model confidence, Ethernet alone, sources; the verdict is safe exactly when the reports prove the medium with 0.85 or the scores carry as far, under the remaining conditions |
| Engine.ContextDecidesNothing | agent/internal/detection/engine.go:185-232 | whatever rules match and whatever hints there are, context without a known model gives Unknown |
| Engine.FinalVerdictRestsOnProof | agent/internal/detection/contract.go:614-633 | a verdict shown as final rests on a report that proves the medium, or on direct CPE texts |
| Engine.ProofMakesSafe | agent/internal/detection/confidence.go:41-57 | a proof claimed with 0.85 gives a safe, confirmed verdict as sure as the claim up to 0.98, when a named leader scores 0.35, nothing conflicts and it is not Ethernet alone |
| Engine.DirectConfidenceMeans | agent/internal/detection/confidence.go:41-46 | the direct confidence is the highest of the claims of proof, the compelling signals and the line |
| Engine.EthernetOnlyMeans | agent/internal/detection/contract.go:549-575 | when the reports name nothing but an Ethernet WAN |
| Engine.DirectCPEExample | agent/internal/detection/engine.go:379-381 | one CPE report with the direct flag and 0.9 claims proof with 0.9 |
| MobileFingerprint.MobileScorer.AddIOS | agent/internal/discovery/mobile_fingerprint.go:566-569 | the ledger's fields become those of the history with one more entry |
| MobileFingerprint.MobileScorer.AddIPad | agent/internal/discovery/mobile_fingerprint.go:571-574 | likewise for iPad evidence |
| MobileFingerprint.MobileScorer.AddApple | agent/internal/discovery/mobile_fingerprint.go:576-581 | likewise, booked under both Apple systems with one id |
| MobileFingerprint.MobileScorer.AddAndroid | agent/internal/discovery/mobile_fingerprint.go:583-586 | likewise for Android evidence |
| MobileFingerprint.MobileScorer.EvaluateDNS | agent/internal/discovery/mobile_fingerprint.go:272-302 | any number of queries adds at most one Apple and one Android entry, with the impact their distinct hints earn |
| MobileFingerprint.MobileScorer.DetectConflicts | agent/internal/discovery/mobile_fingerprint.go:527-564 | exactly the conflicts of the history with the sorted ids on both sides |
| MobileFingerprint.MobileScorer.ChooseClassification | agent/internal/discovery/mobile_fingerprint.go:406-477 | the verdict the history deserves; conflicting exactly when conflicts are listed |
| MobileFingerprint.MobileScorer.Finish | agent/internal/discovery/mobile_fingerprint.go:385-404 | the fingerprint of the history: verdict, scores, conflicts, all evidence, and a confidence that is the leader's points in percent up to the cap of the verdict's band |
| MobileFingerprint.VerdictByNumber | agent/internal/discovery/mobile_fingerprint.go:406-477 | confirmed from 85 points with two strong items of two kinds, probable from 70 with two kinds, possible from 45 or from DNS alone, each exactly |
| MobileFingerprint.CluesByNumber | agent/internal/discovery/mobile_fingerprint.go:243-270 | the points of every multicast record, system by system |
| MobileFingerprint.MACsByNumber | agent/internal/discovery/mobile_fingerprint.go:184-225 | the points of a MAC address |
| MobileFingerprint.DNSByNumber | agent/internal/discovery/mobile_fingerprint.go:272-302 | the points of DNS queries |
| MobileFingerprint.ScoreIsSumOfIDs | agent/internal/discovery/mobile_fingerprint.go:566-628 | each score is the sum of the impacts of the evidence ids filed for that system |
| MobileFingerprint.ConflictsExactly | agent/internal/discovery/mobile_fingerprint.go:527-544 | conflicts are listed if and only if two scores are high or a name contradicts a manufacturer |
| MobileFingerprint.KindsFiled | agent/internal/discovery/mobile_fingerprint.go:610-628 | which kinds of evidence are filed as vendor and which as identity |
| MobileFingerprint.GuardsRedundant | agent/internal/discovery/mobile_fingerprint.go:440-443 | the DNS-only and randomized-MAC guards change no verdict, since two kinds of evidence are required anyway |
| MobileFingerprint.IPadLeadsExactly | agent/internal/discovery/mobile_fingerprint.go:424-430 | iPadOS leads if and only if iPad points exceed iPhone points and Android is not ahead |
| MobileFingerprint.IPadVerdictNeedsIPadItem | agent/internal/discovery/mobile_fingerprint.go:571-581 | an iPadOS verdict needs an iPad-specific item |
| MobileFingerprint.DNSNeverProves | agent/internal/discovery/mobile_fingerprint.go:634-637 | DNS evidence alone never exceeds a possible system |
| MobileFingerprint.DNSAloneVerdict | agent/internal/discovery/mobile_fingerprint.go:272-302 | the exact verdict of a device known by its DNS queries alone; iOS wins ties, iPadOS never |
| MobileFingerprint.VerdictOrderFree | agent/internal/discovery/mobile_fingerprint.go:406-477 | the order in which entries are filed does not change the verdict |
| MobileFingerprint.MobileScorer.EvaluateMDNS | agent/internal/discovery/mobile_fingerprint.go:243-270 | each record files what its first matching test says; a cast record counts only beside Android evidence filed before it |
| MobileFingerprint.RecordOrderIsFreeExactly | agent/internal/discovery/mobile_fingerprint.go:262-265 | every order of multicast DNS records files the same entries if and only if there is Android evidence before them, or they hold no Android name, or no cast record |
| MobileFingerprint.RecordOrderKeepsVerdict | agent/internal/discovery/mobile_fingerprint.go:243-270 | in those cases the order leaves the verdict alone |
| MobileFingerprint.RecordOrderMatters | agent/internal/discovery/mobile_fingerprint.go:260-265 | a cast record and an Android name give an unknown or a possible Android device, depending on which comes first |
| MobileFingerprint.MobileScorer.EvaluateMACs | agent/internal/discovery/mobile_fingerprint.go:184-225 | every address of a known maker is filed, weakly when locally administered, and one such address marks the device |
| MobileFingerprint.OneKindNeverProves | agent/internal/discovery/mobile_fingerprint.go:440-474 | one kind of evidence, however much of it, neither confirms a system nor makes it probable |
| MobileFingerprint.MACAloneNeverProves | agent/internal/discovery/mobile_fingerprint.go:639-642 | nor do MAC addresses alone, randomized or not |
| MobileFingerprint.TextLookup | agent/internal/discovery/mobile_fingerprint.go:975-986 | looking a new id up by its text finds nothing, as looking the id itself up does |
| MobileFingerprint.IDTextInjective | agent/internal/discovery/mobile_fingerprint.go:592-593 | rendered evidence ids with different numbers differ |
| MobileFingerprint.IDTextTrimmed | agent/internal/discovery/mobile_fingerprint.go:975-986 | trimming an id before storing it changes nothing |
| MobileFingerprint.ReportedExactly | agent/internal/discovery/mobile_fingerprint.go:920-927 | a hint is reported for some domain if and only if it lies under no earlier hint of its list |
| MobileFingerprint.ShadowedAppleDomains | agent/internal/discovery/mobile_fingerprint.go:655-663 | so three Apple hints are never reported |
| MobileFingerprint.ShadowedAndroidDomains | agent/internal/discovery/mobile_fingerprint.go:665-675 | so are three Android hints |
| MobileFingerprint.TwoServicesOneHint | agent/internal/discovery/mobile_fingerprint.go:897-905 | queries for any two services under apple.com count as one weak hint |
| GatewayChain.BuildPrivateChain | agent/internal/detection/gateway_chain_state.go:111-128 | the private hops up to the first public one: distinct, trimmed, private, without the agent |
| GatewayChain.ChainEndsAtPublicHop | agent/internal/detection/gateway_chain_state.go:111-128 | a hop is in the chain if and only if it is private, named, not the agent, and reported before the first public hop |
| GatewayChain.ResolveGatewayChainState | agent/internal/detection/gateway_chain_state.go:9-96 | the loops compute the resolved state: chain, hops, double NAT, confidence, sources, conflicts, evidence |
| GatewayChain.SourcesMean | agent/internal/detection/gateway_chain_state.go:28-60 | which sources the results make, with which chain, confidence and double-NAT claim |
| GatewayChain.StateMeans | agent/internal/detection/gateway_chain_state.go:62-96 | hops, confidence, conflicts and evidence of the state from its sources and chain |
| GatewayChain.BestWins | agent/internal/detection/gateway_chain_state.go:62-70 | the winner is the last traceroute among the longest chains, else the first most confident of the longest |
| GatewayChain.ChainIsLongest | agent/internal/detection/gateway_chain_state.go:71-75 | no source has a longer chain, and a traceroute provides it whenever one is as long |
| GatewayChain.CanonicalChainIsClean | agent/internal/detection/gateway_chain_state.go:62-80 | for every agent address the engine passes, the canonical chain has no duplicate, no public hop and not the agent |
| GatewayChain.DoubleNATExactly | agent/internal/detection/gateway_chain_state.go:82-90 | double NAT is claimed if and only if some source claims it |
| GatewayChain.MoreResultsOnlyAdd | agent/internal/detection/gateway_chain_state.go:34-90 | another result never shortens the chain and never takes a double-NAT verdict back |
| GatewayChain.UsableIPv4 | agent/internal/detection/adapters.go:96-113 | the first usable address of an adapter, without prefix length |
| GatewayChain.PickMainAdapter | agent/internal/detection/adapters.go:83-93 | the agent's address is the one of the first connected real adapter that has a usable one, and carries no prefix length |
| GatewayChain.FallbackUnreachable | agent/internal/detection/gateway_chain_state.go:76-80 | with an agent address as the engine passes it, the last-resort branch never runs, whatever the gateway and the results |
| GatewayChain.FallbackExactly | agent/internal/detection/gateway_chain_state.go:76-80 | for any arguments, that branch runs if and only if a usable default gateway is not reportable once trimmed and no result brings a chain |
| GatewayChain.FallbackReachableExactly | agent/internal/detection/gateway_chain_state.go:76-80 | some gateway and results reach it if and only if the agent address is private, trimmed and carries a prefix length, which no caller passes |
| GatewayChain.TrimmedGatewayNeverFallsBack | agent/internal/detection/gateway_chain_state.go:76-80 | a gateway without surrounding blanks never gets there, whatever the agent address |
| GatewayChain.PaddedAgentFallsBack | agent/internal/detection/gateway_chain_state.go:30-32 | such an agent address with a blank behind it as default gateway is the witness |
| GatewayChain.DisagreementIsNegative | agent/internal/detection/gateway_chain_state.go:164-175 | a reported disagreement about double NAT always has the state on the positive side |
| GatewayChain.JoinedTextsAgree | agent/internal/detection/gateway_chain_state.go:142-178 | comparing chains by their joined text compares the lists |
| GatewayMerge.MergeGatewayDevice | agent/internal/detection/gateway_device_merge.go:48-108 | the field-by-field merge keeps the first address, knows exactly what either device knew, and has the better of every measure |
| GatewayMerge.RolesRanked | agent/internal/detection/gateway_device_merge.go:10-21 | which role outranks which |
| GatewayMerge.MergedStates | agent/internal/detection/gateway_device_merge.go:155-166 | a found service stays found; otherwise a later state replaces the earlier one unless it says nothing was found or asked |
| GatewayMerge.MergedTextKept | agent/internal/detection/gateway_device_merge.go:80-88 | a populated text is never replaced, an empty one is filled in |
| GatewayMerge.MergeGatewayDevices | agent/internal/detection/gateway_device_merge.go:23-46 | one merged device per address in order of first sight, then the devices without one, untouched |
| GatewayMerge.MergingAgain | agent/internal/detection/gateway_device_merge.go:23-46 | merging a merged list changes nothing |
| GatewayMerge.MergedKnows | agent/internal/detection/gateway_device_merge.go:48-108 | two devices merged know what either knew, no more: flags, ports, hints, ids, populated texts |
| GatewayMerge.MergedLevel | agent/internal/detection/gateway_device_merge.go:51-105 | confidences, bit rates, role priority and reachability keep the better of the two |
| GatewayMerge.MergeIsJoin | agent/internal/detection/gateway_device_merge.go:23-46 | at every address the result is the join of the devices seen there |
| GatewayMerge.MergeOrderFree | agent/internal/detection/gateway_device_merge.go:23-46 | reordering or repeating the inputs changes neither what is known nor any measure |
| GatewayMerge.ReachabilityOrderFree | agent/internal/detection/gateway_device_merge.go:145-153 | with tri-state inputs the reachability state of an address does not depend on the order |
| GatewayMerge.AppendUniqueStrings | agent/internal/detection/gateway_device_merge.go:255-272 | appends what is neither blank nor there |
| KeyedMerge.MergeIdempotent | agent/internal/detection/gateway_device_merge.go:23-46 | any such merge is idempotent when preparing is idempotent and merging keeps keys |
| DeviceIntel.EvidenceStore.RegisterEvidence | agent/internal/deviceintel/store.go:68-91 | an outside id is recorded once; ids repeat only if one mimics a minted id |
| DeviceIntel.EvidenceStore.AddObservation | agent/internal/deviceintel/store.go:93-120 | mints the next id, appends one observation and cites it on the device |
| DeviceIntel.EvidenceStore.AddFailedAttempt | agent/internal/deviceintel/store.go:122-140 | afterwards the attempt is among the device's, nothing known is taken back, and an observation is minted only without an id |
| DeviceIntel.EvidenceStore.AddIP | agent/internal/deviceintel/store.go:142-148 | the device exists, cites the trimmed id and is at least that confident |
| DeviceIntel.EvidenceStore.AddService | agent/internal/deviceintel/store.go:198-237 | the device has the service, one per key, in order, and nothing is taken back |
| DeviceIntel.UpdatedMeans | agent/internal/deviceintel/store.go:205-230 | a service reported again keeps name and product, takes the better confidence and cites both reports |
| DeviceIntel.OpenStays | agent/internal/deviceintel/store.go:331-339 | a port seen open stays open, otherwise the first state given stays |
| DeviceIntel.ConfidenceWithService | agent/internal/deviceintel/store.go:198-237 | a device that gains a service is at least 0.70 sure |
| DeviceIntel.ServiceSound | agent/internal/deviceintel/store.go:198-237 | adding a service keeps one service per protocol and port in order and its ids among the device's |
| DeviceIntel.AttemptCitedExactly | agent/internal/deviceintel/store.go:138-139 | a failed attempt's id is among the device's if and only if it carries no surrounding blanks |
| DeviceIntel.AttemptSound | agent/internal/deviceintel/store.go:132-139 | recording an attempt keeps the device sound |
| DeviceIntel.UpsertSound | agent/internal/deviceintel/store.go:33-66 | looking a device up keeps the store sound and takes nothing back |
| DeviceIntel.UpsertKeeps | agent/internal/deviceintel/store.go:33-66 | it creates the device if new, adds its address, and changes nothing else in the store |
| DeviceIntel.LogMint | agent/internal/deviceintel/store.go:93-113 | minting keeps the record sound: seen ids are the observed ones, repeating exactly when a registered id mimics a minted one |
| DeviceIntel.LogRegister | agent/internal/deviceintel/store.go:68-91 | registering an unseen id keeps it sound |
| DeviceIntel.MimickedIDRepeats | agent/internal/deviceintel/store.go:94-95 | registering the id about to be minted makes two observations share it |
| DeviceIntel.CiteIsTidy | agent/internal/deviceintel/util.go:159-185 | id lists stay sorted, trimmed and complete |
| PassiveCollector.Collector.Record | agent/internal/passive/lan.go:57-92 | after any records each host is the group-by of the sightings with its key |
| PassiveCollector.KeysAgreeExactly | agent/internal/passive/lan.go:140-151 | two sightings belong to one host if and only if they have the same MAC, or neither has one and they have the same address |
| PassiveCollector.ReadAs | agent/internal/passive/lan.go:117-131 | how an observation is read, field by field |
| PassiveCollector.DirectionMeans | agent/internal/passive/lan.go:75-90 | a host's direction is the first that says something, failing that the last given |
| PassiveCollector.GroupNext | agent/internal/passive/lan.go:75-90 | one more sighting keeps count, span, distinct lists, interface and direction right |
| PassiveCollector.SpansNext | agent/internal/passive/lan.go:82-87 | first and last seen stay the minimum and maximum |
| PassiveCollector.Collector.Hosts | agent/internal/passive/lan.go:94-110 | every host once, ordered by MAC and addresses; the collector's own lists come out sorted too |
| PassiveCollector.HandedOutKeepsOrderExactly | agent/internal/passive/lan.go:97-101 | handing a host out keeps the first-seen order of its addresses if and only if that order was sorted |
| ScanController.App.Begin | apps/desktop/scan_controller.go:90-101 | cancels the predecessor's context and becomes the current scan, both fields at once |
| ScanController.App.CancelScan | apps/desktop/scan_controller.go:117-124 | cancels the current context, if any, and changes no field |
| ScanController.App.ClearScan | apps/desktop/scan_controller.go:219-226 | releases both fields exactly when the id is still current |
| ScanController.ContextEndsExactly | apps/desktop/scan_controller.go:90-124 | a scan's context ends when a later scan supersedes it, its cancel function is called, the application shuts down or its deferred cancel runs, by expiring, and for no other reason; it never revives |
| ScanController.CancelReachesCurrent | apps/desktop/scan_controller.go:117-124 | over any run: cancelling ends the current scan's context and no other |
| ScanController.ShutdownStopsAll | apps/desktop/scan_controller.go:90-101 | after a shutdown no scan is live again, not even one started later |
| ScanController.EveryRunKeeps | apps/desktop/scan_controller.go:80-226 | in every interleaving, whatever the ids, cancel function and id are set together for the same job, and every job has emitted exactly what its position says |
| ScanController.FreshRunsKeepLiveCurrent | apps/desktop/scan_controller.go:80-226 | with fresh ids a job at work with a live context is the current scan |
| ScanController.OneLiveChild | apps/desktop/scan_controller.go:135-147 | at most one child process runs under a live context |
| ScanController.ClearSparesNewer | apps/desktop/scan_controller.go:217-226 | a superseded job's clearScan leaves the newer scan alone |
| ScanController.ClearKeepsExactly | apps/desktop/scan_controller.go:217-226 | one clearScan strands a live job if and only if that job carries the clearing job's id |
| ScanController.CollidingIDsOrphanAScan | apps/desktop/scan_controller.go:95 | wherever a stamp repeats, some run with these stamps leaves the later scan running with no cancel function stored or picked up |
| ScanController.LiveIsCurrentExactly | apps/desktop/scan_controller.go:80-226 | every run with given stamps keeps jobs at work with a live context current if and only if no stamp repeats |
| ScanController.OrphanExactly | apps/desktop/scan_controller.go:80-226 | some run with given stamps leaves a running scan out of reach if and only if a stamp repeats |
| ScanController.OneOutcome | apps/desktop/scan_controller.go:152-184 | every finished job has emitted exactly one terminal outcome, the topology before completion (which one: the next row) |
| ScanController.OutcomeExactly | apps/desktop/scan_controller.go:152-184 | over every run: a finished job was cancelled exactly when its context was canceled at the first step after its child returned, failed exactly when the child had failed and the context was not canceled, and otherwise carries the stored report the child returned |
| ScanController.EveryJobHasItsStory | apps/desktop/scan_controller.go:135-184 | every job of every run is where its own past put it, from the child's return on |
| Sorting.SortOrderFree | agent/internal/discovery/normalize.go:162-177 | sorting distinct elements forgets the order they arrived in |
| Text.DedupSorted | agent/internal/topology/evidence.go:66-82 | the non-empty strings once each, ascending |
| Text.SortedSetCanonical | agent/internal/topology/evidence.go:66-82 | lists naming the same strings come out the same |
| Text.TrimIdempotent | agent/internal/discovery/merger.go:160-173 | trimming twice is trimming once |
| Text.TrimCuts | agent/internal/discovery/merger.go:160-173 | trimming cuts blanks off both ends, only those, and leaves none there |

## Left out

- Transports: HTTP, TLS, UDP, child processes, ping, ARP, reverse DNS, Nmap and the desktop runtime are inputs or events.
- Text decoding: `encoding/xml` yields the token stream `Soap` starts from, a CIDR parser the networks `Scope` starts from.
- Clocks and timeouts: timestamps are numbers handed in, a timeout is a step that may happen at any time.
- Floating point: confidences and scores are reals, so rounding is not modelled.
- IPv6 scopes and mixed lists: `Scope` enumerates IPv4 only as the code does, and address order is on IPv4 numbers.
- Summaries, explanations, labels, badges and reasons of every report, and the data attached to evidence records: presentation only.
- ReportValidator.ValidateReport: problems are structured values, so the wording of a message is not modelled.
- Discovery.Run: reverse lookups, service names, scope tests and the gateway address are parameters; mobile hints added to devices afterwards are not modelled.
- Normalization.MergeServices: a service key is the pair of protocol and port it is rendered from.
- DeviceMerger.MergeDevices: covers identity, addresses and hostnames; evidence, roles, ports, services, scalar fields and device classification are merged by list functions that say nothing new.
- ScoreAudit.BuildContributions: the public category, type and subtype names attached to an entry are a table and are left out.
- Ranking.CategoryScores: the category table is a parameter; only where a result needs it are the three parent types assumed to head their own categories.
- Aggregation.Aggregate: keyword tables, the line-statistics parser, model normalization and signal rendering are parameters; adapter, public IP, CGNAT and IP architecture fields, which the decision does not read, are dropped.
- Engine.Analyze: rule conditions, fingerprint matching, NAT reconciliation and conflict detection enter as arbitrary inputs, so its results hold for any of them; a signal's strength is compared in ASCII.
- MobileFingerprint.MobileScorer.Finish: values, sources and times of evidence, warnings and explanations are dropped; evaluators other than DNS, multicast DNS and MAC addresses are arbitrary sequences of the four add operations; the five maps kept per system are one map of records.
- MobileFingerprint.MobileScorer.EvaluateDNS: domains arrive normalized.
- MobileFingerprint.MobileScorer.EvaluateMDNS: which test a record's text matches first is its input, a clue.
- MobileFingerprint.MobileScorer.EvaluateMACs: the vendor tables are inputs; vendor strings file through the add operations.
- MobileFingerprint.RecordOrderIsFreeExactly: service records have guards like that of cast records; their order is not analysed.
- GatewayChain.PickMainAdapter: which adapters are virtual and which bare addresses are usable are inputs; adapter names and media are dropped.
- GatewayChain.ResolveGatewayChainState: which bare addresses parse as private IPv4 is a parameter; an evidence id is represented by its probe.
- GatewayMerge.MergeGatewayDevice: the HTTP, TLS, access and failed-attempt lists and twelve further texts are merged in the same two ways and not repeated.
- DeviceIntel.EvidenceStore.AddService: versions and banners merge like products; MAC, hostname, HTTP, TLS, mDNS, SSDP, NetBIOS and LLMNR records follow the same citing rule and are not repeated; devices are values in the store's map, so two holders of one pointer are not modelled.
- PassiveCollector.Collector.Record: multicast tests, discovery kinds and direction hints are parameters; MAC normalization lowers ASCII letters.
- ScanController.EveryRunKeeps: progress events and the child's output streams are left out; a context ends by cancellation, expiry or shutdown at any step.
- Text.Lower: lowers ASCII letters only.
- UPnP service lists and `containsIGD` are plain recursive searches and would only add easy members.
