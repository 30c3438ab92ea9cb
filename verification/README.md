# SemOps in Dafny

SemOps fuses sensor feeds into a common operating picture. MAVLink vehicles, TAK clients,
ADS-B receivers and civil alert (CAP) servers deliver data; each feed decodes it, keeps the
raw bytes on a bounded lane, projects it into create and update requests, and writes them to
a graph that several processes share. The picture is read back from that graph.

This project models that path and proves what it promises, in four parts.

**The born-first write protocol.** Each feed remembers which entities it has seen born. It
projects an input into an ordered plan, applies the plan request by request, stops at the
first failure, and when a create is answered with "entity exists" it remembers that one birth
and projects again. `GraphService` states what the graph service is trusted to do and what may
go wrong on the way; `BirthProtocol` is the retry loop; `Interleaving` runs any number of
writers request by request on one graph and shows that no reachable state has a dangling
source edge or an update of a missing entity; `AsIfOnce` shows that retries, half-applied plans
and lost replies leave no trace once an input is reported written. `MavlinkProjector`,
`CotProjector`, `AdsbProjector` and `CapProjector` are the four projectors with their mutable
born sets, each proved to produce the plans that the protocol speaks about; `MavlinkAdapter`,
`CotAdapter`, `AdsbAdapter` and `CapComponent` are the adapters and hosted components with the loops
that drive them. A `Job` describes
an input as the protocol sees it; `JobIsSound` in each projector shows that every input of that
feed makes a valid one.

**The MAVLink codec.** `Checksum`, `Fields`, `Frames` and `Scan` give a leftmost scan of a whole
byte stream; `Layout` writes the three frame formats out byte by byte and says what each is read as;
`Parser` is the incremental parser with its mutable buffer and refines that scan; `Encoding` and
`Generator` build frames in place; `RoundTrip` joins the two.

**Bounded stores and windows.** `RawLane`, `Pagination` and `Poller`.

**Meaning across layers.** `Ownership` compares the contracts with what the projectors emit, `Cot`
is the event codec, `Hazards` and `Outlines` read evidence back, and `EndToEnd`, `TakEndToEnd`,
`AdsbEndToEnd` and `CapEndToEnd` follow data from the wire to the graph, or from alerts to the
picture. These four state the graph afterwards in the words of what was sent, without the
functions of the projectors.

Methods stand where the code works by changing things step by step, each proved against a
function of its inputs and old state; the results are lemmas about those functions. Born sets
are value sets in fields, and the clones that a projection works on are values too. Raw frames
are arrays, so that copies can be told from the stored ones.

## What the proofs brought out

- **ADS-B writes against a partly filled graph.** One call of `writePlan` has four attempts, and each
  teaches one birth. What an attempt creates ahead of its conflict is not remembered, so it is a
  conflict in the next one. A call therefore runs out, although nothing is wrong, exactly when four or
  more tracks of the snapshot are blocked, that is, unknown and at or ahead of an unknown one that the
  graph holds (`AdsbAdapter.ExhaustsExactly`). One known aircraft at the end of a snapshot of four is
  enough (`AdsbAdapter.OneKnownAircraftIsEnough`). Called again, the snapshot is written after exactly
  one failing call per four blocked tracks (`AdsbAdapter.WrittenAfterExactly`).
- **Attempts of the other feeds.** The MAVLink and CoT adapters, with four attempts, cannot run out. The
  hosted components take the number from their configuration: three attempts always suffice, one or
  two run out exactly when at least as many births are blocked (`MavlinkAdapter.GivesUpExactly`,
  `CotAdapter.GivesUpExactly`). CAP runs out only with a single attempt (`CapComponent.ExhaustsExactly`).
- **Patterns and configuration.** Emitted ids match the ownership patterns exactly when the
  organisation is "c360" and the platform is one segment (`Ownership.MavlinkIsOwned`); other
  configurations are accepted and write entities that no contract names.
- **A blank how.** An event whose how is given but blank does not settle into a normal form at its
  first round trip (`Cot.BlankHowIsReplaced`); all other valid events do.
- **Cancels are dated by their effective time.** A cancel that is sent later than an alert but takes
  effect earlier does not cancel the hazard (`CapEndToEnd.CancelTakesEffectExactly`, `CapEndToEnd.EffectiveTimesDecide`).
- **Redelivered alerts.** At equal times the evidence appended last wins, so an alert that is delivered
  again after its cancel, by a second writer or a poll after a restart, makes the hazard active again
  (`CapEndToEnd.RedeliveryRevivesExactly`, `CapEndToEnd.SampleTie`). A single writer's immediate retry is
  harmless (`CapEndToEnd.RetriedEvidenceIsHarmless`).
- **Shared entities.** TAK uids, aircraft addresses and alert identifiers share an entity exactly when
  their tokens agree; all uids without ASCII letters, digits and underscores are one track
  (`CotProjector.UidsShareExactly`, `CotProjector.DifferentUidsShareATrack`).
- **Conditional polling.** A poll can miss a version exactly where the condition made from an earlier
  version names the later one: by its ETag, or by Last-Modified where there is no ETag
  (`Poller.NotModifiedMeansPublished`, `Poller.IndistinctVersionsAreLost`).
- **Short payloads.** Fields past the end of a payload are skipped, as in
  `pkg/adapters/mavlink/parser.go:231-236`, and not read as zero, as the section "Payload
  Truncation" on the page "Packet Serialization" of the MAVLink guide asks of a MAVLink 2 reader.
- **The overflow guard.** The guard at 4096 buffered bytes never finds anything to drop, because the
  loop before it leaves fewer than 280 (`Parser.Parser.Parse`).

## Model

| member | source | states |
|---|---|---|
| Interleaving.EveryRunIsSafe | pkg/adapters/mavlink/doc.go:14-24 | In every state that any interleaving of any number of writers reaches, with plans failing anywhere, requests or replies lost or delivered twice, cancellations and restarts: born sets name only entities of the graph, every source edge in the graph targets an asset of the graph, entities never vanish, and whatever a writer can send next updates only an existing entity and points only at existing assets |
| Interleaving.StepKeepsInv | internal/adapters/mavlink/adapter.go:159-180 | One step of any writer (taking an input, one request with its reply, cancelling, restarting, starting) keeps the invariant behind that safety |
| Interleaving.PlanIsSafe | internal/projectors/mavlink/projector.go:89-162 | A plan projected from born sets that the graph confirms is safe request by request: the asset is created before the edge to it is written, also when it is born in the same plan |
| Interleaving.InvMakesRequestsSafe | internal/projectors/mavlink/projector.go:89-162 | Born-first: in a good state no writer can send a request that relies on the graph creating a missing entity by itself |
| Interleaving.WritePlanIsARun | internal/adapters/mavlink/adapter.go:159-180 | In any run of the state machine in which a writer takes an input and is left to work on it, whatever the others do between its requests, its born sets and the graph after its last request are those of writePlan in a world where each request meets the graph the others have left |
| GraphService.GraphWriter.Apply | internal/projectors/mavlink/writer.go:87-100 | Requests go out in plan order and stop at the first failure or cancellation; the new graph, the faults left and the error are those of the recursive specification |
| BirthProtocol.PlanCreates | internal/projectors/mavlink/projector.go:164-178 | The births that MarkBornForPlan reads off a plan are exactly the entities of the input that were not born before |
| BirthProtocol.BatchIsOneByOne | internal/projectors/mavlink/projector.go:71-83 | Projecting a batch gives the concatenation of projecting its inputs one by one with the births of each plan marked before the next |
| BirthProtocol.CreatesAreDistinct | internal/projectors/mavlink/projector.go:108-144 | A plan creates no entity twice |
| BirthProtocol.BatchIsSequential | internal/projectors/cot/projector.go:79-93 | The plan of a joined input is the plan of the first part followed by that of the second from the born sets after the first |
| BirthProtocol.ConflictTeaches | internal/adapters/mavlink/adapter.go:182-193 | Every conflict that an adapter accepts names a birth of the input that it did not know, for any answers at all, invented ones included |
| BirthProtocol.GivingUpTeaches | internal/adapters/adsb/adapter.go:180-199 | Births are only learnt from the input, and a call that runs out of attempts has learnt exactly one new birth per attempt |
| BirthProtocol.GivingUpNeedsUnknownBirths | internal/adapters/adsb/adapter.go:180-199 | Running out needs at least as many unknown births as attempts |
| BirthProtocol.NeverGivesUp | internal/adapters/mavlink/adapter.go:159-180 | With more attempts than entities the retry limit is unreachable under any answers |
| BirthProtocol.CallsAddUp | internal/adapters/adsb/adapter.go:180-199 | Each call goes on from the births that the calls before it learnt, and counts if it runs out |
| BirthProtocol.GivingUpIsBounded | internal/adapters/adsb/adapter.go:180-199 | Over any number of calls on one input, running out happens at most once per full set of attempts among the unknown births |
| BirthProtocol.BlockedIs | internal/adapters/adsb/adapter.go:180-199 | The blocked births are those at or ahead of an unknown one that the graph holds: what is created ahead of a conflict is not remembered and conflicts next |
| BirthProtocol.CleanApply | internal/projectors/mavlink/writer.go:87-100 | A clean run over a plan goes through if and only if nothing is blocked, and otherwise names one blocked birth and leaves exactly the others blocked |
| BirthProtocol.GivingUpExactly | internal/adapters/adsb/adapter.go:180-199 | With clean answers, from any graph that confirms the born sets: a call runs out if and only if it has at most as many attempts as births are blocked, each attempt unblocking one, and otherwise the input is written |
| BirthProtocol.WrittenAfterExactly | internal/adapters/adsb/adapter.go:174-200 | Called with clean answers until it is written, an input exhausts exactly as many calls as full sets of attempts go into its blocked births, and never fails otherwise |
| BirthProtocol.LastKnownBlocksAll | internal/adapters/adsb/adapter.go:180-199 | If the last entity of an input is in the graph and unknown, every unknown birth is blocked |
| BirthProtocol.VaryingJobsTeach | internal/adapters/cot/adapter.go:169-195 | The bound on learnt births holds also where each projection reads the clock anew |
| BirthProtocol.OneJobAtAllAttempts | internal/adapters/cot/adapter.go:169-195 | Where all projections agree, the loop over them is the loop over one input |
| AsIfOnce.PrefixIsAbsorbed | internal/projectors/mavlink/writer.go:87-100 | Applying a first part of an input and then all of it leaves the same graph as applying it once |
| AsIfOnce.ApplyFollowsEffect | internal/projectors/mavlink/writer.go:87-100 | However applying a plan ends, the graph is what some first part of the input, applied once, makes of it; success means all of it |
| AsIfOnce.CallIsAsIfOnce | internal/adapters/adsb/adapter.go:174-200 | With no other writer in between, a call of writePlan that reports success leaves exactly the graph of applying the input once, whatever its retries; one that fails leaves a graph that a later success completes to the same |
| AsIfOnce.FailedCallsAreAbsorbed | internal/adapters/adsb/adapter.go:174-200 | The same over any number of failed calls before, with restarts in between |
| Projection.OwnBirths | internal/projectors/mavlink/projector.go:196-216 | On its own plans, the births a projector recognises by message type are exactly the entities its plan creates |
| Projection.OwnBirthsAs | internal/projectors/adsb/projector.go:136-152 | The same where every create counts as a track, or a hazard, whatever its message type |
| Projection.LoneJob | internal/projectors/adsb/projector.go:104-133 | An entity born and updated with the same triples makes a sound job of one entity |
| Projection.SourcedJob | internal/projectors/cot/projector.go:147-198 | A source asset and its track make a sound job of two entities: the edge points at the earlier birth and only the birth carries it |
| MavlinkProjector.Projector.constructor | internal/projectors/mavlink/projector.go:53-69 | A new projector has the default organisation, platform and confidence where none is given, and knows no births |
| MavlinkProjector.Projector.ProjectPacket | internal/projectors/mavlink/projector.go:85-87 | The plan of a packet, or none for a nil packet, from the current born sets, which stay as they are |
| MavlinkProjector.Projector.ProjectPackets | internal/projectors/mavlink/projector.go:71-83 | The plan of a batch with births inside the batch counted; the born sets stay as they are |
| MavlinkProjector.Projector.ProjectWith | internal/projectors/mavlink/projector.go:89-162 | One packet against local born sets: asset and track are created if unborn, else the track is updated, and the local sets gain exactly the entities of the packet |
| MavlinkProjector.Projector.MarkBornForPlan | internal/projectors/mavlink/projector.go:164-178 | The born sets gain exactly the recognised births of the plan, and the count is the number of new ones |
| MavlinkProjector.Projector.MarkBornEntity | internal/projectors/mavlink/projector.go:196-216 | One create is marked in the set its message type belongs to, and reported when it was new |
| MavlinkProjector.Projector.MarkBornForPacket | internal/projectors/mavlink/projector.go:180-194 | An id is learnt exactly when it is the asset or the track of the packet |
| MavlinkProjector.TrackTriplesStayOwned | internal/projectors/mavlink/projector.go:234-296 | Whatever fields a packet carries, its track triples are about that track and use only predicates its contract owns |
| MavlinkProjector.JobIsSound | internal/projectors/mavlink/projector.go:89-162 | For every packet: at most two entities, the edge points at an asset born before it, the births of both can be learnt from a conflict, and a birth includes what the update would write |
| MavlinkProjector.SystemsDoNotCollide | internal/projectors/mavlink/projector.go:314-334 | Different system ids never share a track or an asset |
| MavlinkProjector.BatchIsSequential | internal/projectors/mavlink/projector.go:71-83 | ProjectPackets equals single projections with MarkBornForPlan after each, and creates nothing twice |
| CotProjector.Projector.constructor | internal/projectors/cot/projector.go:59-77 | Defaults for a new projector, which knows no births |
| CotProjector.Projector.ProjectEvent | internal/projectors/cot/projector.go:95-103 | The plan of an event from the current born sets, or none for an invalid event |
| CotProjector.Projector.ProjectEvents | internal/projectors/cot/projector.go:79-93 | The plan of a batch with births inside it counted, or none if any event is invalid; the born sets stay as they are |
| CotProjector.Projector.ProjectWith | internal/projectors/cot/projector.go:105-127 | Dispatch by event type: chat before marker before position, nothing for other types |
| CotProjector.Projector.ProjectTrack | internal/projectors/cot/projector.go:129-199 | Asset and track of a position: created if unborn, else the track is updated, and the local sets gain both |
| CotProjector.Projector.ProjectTask | internal/projectors/cot/projector.go:201-241 | The control entity of a marker: created if unborn, else updated |
| CotProjector.Projector.ProjectAdvisory | internal/projectors/cot/projector.go:243-283 | The advisory of a chat message: created if unborn, else updated |
| CotProjector.Projector.MarkBornForPlan | internal/projectors/cot/projector.go:285-299 | The four born sets gain exactly the recognised births of the plan, and the count is the number of new ones |
| CotProjector.Projector.MarkBornEntity | internal/projectors/cot/projector.go:323-355 | One create is marked in the one of four sets its message type belongs to |
| CotProjector.Projector.MarkBornForEvent | internal/projectors/cot/projector.go:301-321 | An id is learnt exactly when it is one of the four ids of the event, and in the set of that kind |
| CotProjector.JobIsSound | internal/projectors/cot/projector.go:105-283 | For every event: at most two entities, edges born first, births learnable, and births including updates |
| CotProjector.BatchIsSequential | internal/projectors/cot/projector.go:79-93 | ProjectEvents equals single projections with MarkBornForPlan after each, and creates nothing twice |
| CotProjector.UidsShareExactly | internal/projectors/cot/projector.go:459-478 | Two uids share their entities if and only if they have the same token |
| CotProjector.DifferentUidsShareATrack | internal/projectors/cot/projector.go:572-592 | Two different uids without ASCII letters or digits that are one track |
| AdsbProjector.Projector.constructor | internal/projectors/adsb/projector.go:53-68 | Defaults for a new projector, which knows no births |
| AdsbProjector.Projector.ProjectState | internal/projectors/adsb/projector.go:70-72 | The plan of one state, or none if the address is blank or there is no contact time |
| AdsbProjector.Projector.ProjectStates | internal/projectors/adsb/projector.go:74-85 | The plan of a snapshot with births inside it counted, or none if any state is invalid |
| AdsbProjector.Projector.ProjectWith | internal/projectors/adsb/projector.go:87-134 | One state against the local born set |
| AdsbProjector.Projector.MarkBornForPlan | internal/projectors/adsb/projector.go:136-152 | Every create of a plan is marked as a track, and the count is the number of new ones |
| AdsbProjector.Projector.MarkBornForState | internal/projectors/adsb/projector.go:154-160 | An id is learnt exactly when it is the track of the state |
| AdsbProjector.JobIsSound | internal/projectors/adsb/projector.go:74-134 | For every snapshot: a sound job with at most one entity per state, each of which is always written to |
| AdsbProjector.BatchIsSequential | internal/projectors/adsb/projector.go:74-85 | ProjectStates equals single projections with MarkBornForPlan after each, and creates nothing twice |
| AdsbProjector.AircraftShareExactly | internal/projectors/adsb/projector.go:194-207 | Two addresses share a track if and only if they have the same token |
| CapProjector.Validate | pkg/adapters/cap/cap.go:92-115 | An alert is valid with an identifier, sender, status, message type and scope that are not blank, a sent time and an info |
| CapProjector.Projector.constructor | internal/projectors/cap/projector.go:52-67 | Defaults for a new projector, which knows no births |
| CapProjector.Projector.ProjectAlert | internal/projectors/cap/projector.go:69-71 | The plan of one alert, or none if a required element is blank |
| CapProjector.Projector.ProjectAlerts | internal/projectors/cap/projector.go:73-84 | The plan of several alerts with births inside it counted, or none if any alert is invalid |
| CapProjector.Projector.ProjectWith | internal/projectors/cap/projector.go:86-134 | One alert against the local born set: evidence creates the hazard or is added to it |
| CapProjector.Projector.MarkBornForPlan | internal/projectors/cap/projector.go:136-152 | Every create of a plan is marked as a hazard, and the count is the number of new ones |
| CapProjector.Projector.MarkBornForAlert | internal/projectors/cap/projector.go:154-160 | An id is learnt exactly when it is the hazard of the alert |
| CapProjector.JobIsSound | internal/projectors/cap/projector.go:86-134 | Every alert makes a sound job of exactly one entity, which it always writes to |
| CapProjector.BatchIsSequential | internal/projectors/cap/projector.go:73-84 | ProjectAlerts equals single projections with MarkBornForPlan after each, and creates nothing twice |
| CapProjector.AlertsShareExactly | internal/projectors/cap/projector.go:261-280 | Two identifiers share a hazard if and only if they have the same token |
| Tokens.TrimSpaceIs | internal/projectors/cot/projector.go:563-592 | Trimming leaves what stands between the white space at both ends |
| Tokens.TrimDashesIs | internal/projectors/cot/projector.go:563-592 | Trimming dashes leaves what stands between the dashes at both ends |
| Tokens.BuildEntityToken | internal/projectors/cot/projector.go:572-592 | The loop computes the token of its specification: kept characters in lower case, one dash for each run of others, no dash at the ends, "unknown" for nothing |
| Tokens.EntityTokenIsToken | internal/projectors/cot/projector.go:572-592 | Every native identifier becomes one non-empty id segment without dots |
| Tokens.EntityTokenIsIdempotent | internal/projectors/adsb/projector.go:288-308 | A token made into a token again stays itself |
| Tokens.NamelessIsUnknown | internal/projectors/cot/projector.go:572-592 | Every value without ASCII letters, digits and underscores becomes "unknown" |
| MavlinkAdapter.WriteWithin | internal/adapters/mavlink/adapter.go:159-180 | The retry loop computes the specified outcome: born sets, graph, faults left and result, for any number of attempts |
| MavlinkAdapter.Adapter.WritePlan | internal/adapters/mavlink/adapter.go:159-180 | The same with the four attempts of the adapter |
| MavlinkAdapter.Component.WritePlan | internal/components/mavlink/components.go:685-710 | The same with the configured number of retries, of which none or a negative one allows one attempt |
| MavlinkAdapter.Adapter.IngestFrame | internal/adapters/mavlink/adapter.go:97-157 | A frame is captured unless empty or too large, projected exactly when it completes exactly one packet and written by the retry loop from the current born sets; the health counters, readiness and last reference change exactly as its outcome says, so every frame is accounted for |
| MavlinkAdapter.Adapter.Receive | internal/adapters/mavlink/adapter.go:97-131 | The parser state after a frame is that of the leftmost scan, and the record keeps the frame with the header fields of its only packet |
| MavlinkAdapter.Adapter.ProjectAndWrite | internal/adapters/mavlink/adapter.go:136-157 | Nothing is written for a packet without content; otherwise the outcome is that of the retry loop, which never hits its limit |
| MavlinkAdapter.RetryLimitIsUnreachable | internal/adapters/mavlink/adapter.go:159-180 | With three attempts or more no answers of the graph make them run out |
| MavlinkAdapter.GivesUpExactly | internal/components/mavlink/components.go:685-710 | With clean answers one attempt runs out if and only if an unknown birth is in the graph, two if and only if neither birth is known and the track is in the graph, and otherwise the packet is written |
| CotAdapter.WriteWithin | internal/adapters/cot/adapter.go:169-195 | The retry loop computes the specified outcome for any number of attempts, reading the clock anew at each projection |
| CotAdapter.Adapter.WritePlan | internal/adapters/cot/adapter.go:169-195 | The same with the four attempts of the adapter |
| CotAdapter.Component.WritePlan | internal/components/cot/components.go:894-924 | The same with the configured number of retries |
| CotAdapter.RetryLimitIsUnreachable | internal/adapters/cot/adapter.go:169-195 | With three attempts or more no answers of the graph make them run out, wherever the clock stands |
| CotAdapter.GivesUpExactly | internal/components/cot/components.go:894-924 | With clean answers attempts run out if and only if as many births of the event are blocked, at most two; otherwise it is written |
| CotAdapter.TimedEventIsOneJob | internal/projectors/cot/projector.go:511-516 | The clock only stands in for a missing time, so an event with a time is the same input at every attempt |
| CotAdapter.WrittenIsAsIfOnce | internal/adapters/cot/adapter.go:169-195 | With no other writer in between, a written event that has a time leaves the graph of applying it once |
| AdsbAdapter.WriteWithin | internal/adapters/adsb/adapter.go:174-200 | The retry loop over a snapshot computes the specified outcome for any number of attempts |
| AdsbAdapter.Adapter.WritePlan | internal/adapters/adsb/adapter.go:174-200 | The same with the four attempts of the adapter |
| AdsbAdapter.Component.WritePlan | internal/components/adsb/components.go:785-815 | The same with the configured number of retries |
| AdsbAdapter.MarkBornForEntity | internal/adapters/adsb/adapter.go:215-222 | The first state that an id belongs to is marked, and nothing if there is none |
| AdsbAdapter.WrittenIsAsIfOnce | internal/adapters/adsb/adapter.go:174-200 | With no other writer in between, a written snapshot leaves exactly the graph of applying its states once, in order |
| AdsbAdapter.EarlierFailuresLeaveNoTrace | internal/adapters/adsb/adapter.go:174-200 | So does the call that succeeds after any number of calls that failed half-way, restarts included |
| AdsbAdapter.ExhaustionTeachesFour | internal/adapters/adsb/adapter.go:180-199 | A call that exhausts its four attempts has learnt exactly four new births of the snapshot |
| AdsbAdapter.ExhaustionsAreBounded | internal/adapters/adsb/adapter.go:180-199 | A snapshot is exhausted at most once per four of its unknown tracks, so at most N/4 times for N states |
| AdsbAdapter.ExhaustsExactly | internal/adapters/adsb/adapter.go:180-199 | With clean answers, from any graph that confirms the born set, a call on a snapshot runs out if and only if it has at most as many attempts as tracks are blocked, and otherwise the snapshot is written |
| AdsbAdapter.WrittenAfterExactly | internal/adapters/adsb/adapter.go:174-200 | Called until it is written, a snapshot exhausts exactly one clean call per four blocked tracks, so at most one per four states, and no call fails otherwise |
| AdsbAdapter.OneKnownAircraftIsEnough | internal/adapters/adsb/adapter.go:180-199 | A fresh writer exhausts its first call on four or more different aircraft although the graph holds only the last of them |
| AdsbAdapter.FourAircraftExhaust | internal/adapters/adsb/adapter.go:180-199 | Four valid states for which that happens |
| CapComponent.Component.WritePlan | internal/components/cap/components.go:754-784 | The retry loop with a configured number of attempts computes the specified outcome |
| CapComponent.RetryLimitIsUnreachable | internal/components/cap/components.go:754-784 | With two attempts or more an alert never exhausts them |
| CapComponent.ExhaustsExactly | internal/components/cap/components.go:760-784 | With clean answers, from any graph that confirms the born set, attempts run out if and only if there is a single one and the hazard is in the graph without being known; otherwise the alert is written |
| EndToEnd.SentIsShown | internal/adapters/mavlink/adapter.go:97-157 | A frame that any vehicle sends about position, attitude, battery or state yields one packet, and whenever its plan is written the graph is the one before with exactly that message in it: longitude before latitude in ten-millionths of a degree, velocities x, y, z, angles to hundredths, the source asset, the edge to it at the birth of the track, and provenance |
| EndToEnd.SignalsAreRead | internal/projectors/mavlink/projector.go:408-410 | An attitude is the number behind the sign, exponent and fraction of its IEEE single, to hundredths, and not finite exactly if all exponent bits are set |
| EndToEnd.PacketIsSigned | internal/projectors/mavlink/projector.go:385-394 | Every mutation of a packet names its owner, and every triple carries its entity, the feed, the time of the packet and the configured confidence |
| EndToEnd.CommandsAreNotProjected | internal/projectors/mavlink/projector.go:234-296 | Command frames are decoded in full and never written to the graph |
| TakEndToEnd.EventIsShown | internal/projectors/cot/projector.go:105-127 | What any event makes of the graph: types "b-t-f" an advisory, else "u-d-p" and "b-m-p" a task, else "a-f-G" and "a-h-G" an operator track, else "a-f-A" and "a-h-A" an air track with its source asset, others nothing; with position, motion, status, names, text, sender and provenance |
| TakEndToEnd.SentIsShown | internal/adapters/cot/adapter.go:99-195 | A sent event is read back as valid, and whenever its plan is written the graph is the one before with exactly what was sent in it |
| TakEndToEnd.EventIsSigned | internal/projectors/cot/projector.go:484-493 | Every mutation of an event names its owner, and every triple carries its entity, the feed, the time of the event and the configured confidence |
| AdsbEndToEnd.SnapshotIsShown | internal/adapters/adsb/adapter.go:99-200 | Once a snapshot is written, the graph is the one before with its states in it one after the other: position, motion and status rounded as printed, native id, time, and the confidence that the position source deserves |
| AdsbEndToEnd.LastStateIsShown | internal/adapters/adsb/adapter.go:99-200 | So the track of each aircraft says what its last state in the snapshot said |
| AdsbEndToEnd.StateIsSigned | internal/projectors/adsb/projector.go:183-192 | Every mutation of a state names its owner, and every triple carries its entity, the feed, the time and the trust of the state |
| CapEndToEnd.AlertIsPlanned | internal/projectors/cap/projector.go:86-258 | The plan of an alert is one mutation of its hazard, a create if and only if the hazard is not known as born; it says the words, first info and first area of the alert, and every triple carries its time, which is the effective time of the first info or, without one, the sent time, and the trust that its certainty deserves |
| Projection.HundredthsExactly | internal/projectors/cot/projector.go:533-539 | Courses, speeds and angles are rounded to the nearest hundredth, ties away from zero |
| Projection.SevenDecimalsExactly | internal/projectors/cot/projector.go:522-531 | Coordinates are rounded to the nearest seventh decimal, ties to the even one |
| Projection.SevenDecimalsAreExact | internal/projectors/mavlink/projector.go:396-402 | Coordinates that arrive in units of the seventh decimal are printed without rounding |
| Ownership.MavlinkIsOwned | pkg/cop/contracts.go:111-165 | Everything a packet makes the projector write is covered by the contract of its owner and profile, and ids and edge targets match the patterns if and only if the organisation is c360 and the platform one segment |
| Ownership.TakIsOwned | pkg/cop/contracts.go:111-272 | The same for every CoT event |
| Ownership.AdsbIsOwned | pkg/cop/contracts.go:195-219 | The same for every snapshot, where the platform is always one segment and only the tokenised organisation matters |
| Ownership.CapIsOwned | pkg/cop/contracts.go:272-293 | The same for every alert |
| Ownership.OwnershipIsExclusive | pkg/cop/contracts.go:97-330 | No predicate of an entity is replace-owned by two contracts |
| Cop.SplitKey | internal/projectors/cot/projector.go:463-478 | A key splits into the segments of organisation and platform followed by its four fixed segments |
| Checksum.AccumulateIsBitSerial | pkg/adapters/mavlink/checksum.go:33-37 | The byte-wise update equals eight clocks of the reflected 0x8408 register |
| Checksum.CalculateChecksumWithExtra | pkg/adapters/mavlink/checksum.go:17-26 | The loop folds the bytes and then the extra byte, if there is one, from 0xffff |
| Checksum.CheckValue | pkg/adapters/mavlink/checksum.go:17-37 | The checksum of the digits 1 to 9 is 0x6f91, the check value of CRC-16/MCRF4XX |
| Checksum.AccumulateInjectiveInByte | pkg/adapters/mavlink/checksum.go:33-37 | Different bytes give different registers |
| Checksum.AccumulateInjectiveInRegister | pkg/adapters/mavlink/checksum.go:33-37 | Different registers stay different |
| Checksum.AccumulateInjectiveInPair | pkg/adapters/mavlink/checksum.go:33-37 | Two successive bytes can be read back from the register they lead to |
| Checksum.ChecksumSeparates | pkg/adapters/mavlink/checksum.go:17-26 | Messages that differ in one byte or two adjacent ones have different checksums |
| Layout.WaitsExactly | pkg/adapters/mavlink/parser.go:127-222 | A frame is awaited if and only if the buffer is shorter than its first three bytes announce, and refused unseen if and only if it begins with neither start byte |
| Layout.V1FrameIsRead | pkg/adapters/mavlink/parser.go:142-176 | Start, length, sequence, system, component, id, payload and checksum of a MAVLink 1 frame are read as just these, if the checksum is right, whatever follows; else the frame is rejected |
| Layout.V2FrameIsRead | pkg/adapters/mavlink/parser.go:178-222 | The same for a MAVLink 2 frame without signature: length, two flag bytes, sequence, system, component, three id bytes, payload, checksum |
| Layout.SignedFrameIsRead | pkg/adapters/mavlink/parser.go:178-222 | The same for a signed MAVLink 2 frame, whose thirteen bytes of signature follow the checksum |
| Frames.AdjacentDamageIsCaught | pkg/adapters/mavlink/parser.go:142-222 | A valid frame damaged in at most two adjacent sequence, system, component, compatibility or payload bytes is rejected at that start |
| Frames.AttemptIsStable | pkg/adapters/mavlink/parser.go:127-222 | Bytes that arrive later never change the verdict on a complete frame |
| Frames.AttemptBounds | pkg/adapters/mavlink/parser.go:127-222 | An incomplete frame is shorter than 280 bytes, and an accepted one consumes exactly its wire length |
| Scan.SpansAreSound | pkg/adapters/mavlink/parser.go:80-125 | Each returned packet is the frame at its span of the stream |
| Scan.SpansAreOrdered | pkg/adapters/mavlink/parser.go:80-125 | Returned spans are in stream order and disjoint |
| Scan.EveryFrameIsFound | pkg/adapters/mavlink/parser.go:80-222 | A whole valid frame anywhere in the stream is returned unless it starts inside an earlier returned frame or in the unread rest |
| Scan.BytesAreConserved | pkg/adapters/mavlink/parser.go:80-125 | Bytes fed are the invalid count plus the returned frames plus the unread rest |
| Scan.ChunkingIsInvisible | pkg/adapters/mavlink/parser.go:80-125 | Any cutting of a stream into chunks gives the packets, counts and rest of the whole |
| Scan.ScanAppend | pkg/adapters/mavlink/parser.go:80-125 | Scanning a prefix and then its rest with more bytes is scanning the whole |
| Parser.Parser.constructor | pkg/adapters/mavlink/parser.go:67-77 | A new parser has an empty buffer, no counts and the six standard message specs |
| Parser.Parser.Parse | pkg/adapters/mavlink/parser.go:80-125 | The mutable loop returns the packets of the leftmost scan, leaves its rest in the buffer and adds its counts; the buffer stays below 280 bytes, so the overflow guard never drops anything |
| Parser.Parser.ParsePacket | pkg/adapters/mavlink/parser.go:127-222 | One attempt at the start of a buffer: incomplete, bad start, bad checksum, or a packet and its length |
| Parser.Parser.RegisterMessageSpec | pkg/adapters/mavlink/parser.go:468-473 | A spec replaces the one of its id, and nil is ignored |
| Parser.Parser.ResetStats | pkg/adapters/mavlink/parser.go:463-466 | All counters are zero again |
| Parser.FindNextSync | pkg/adapters/mavlink/parser.go:338-345 | The offset of the first start byte of either version, or -1 |
| Parser.ParseChunks | pkg/adapters/mavlink/parser.go:80-125 | A parser fed with any chunks returns the packets and holds the counts and rest of the whole stream |
| Fields.ScalarsAreRead | pkg/adapters/mavlink/parser.go:246-312 | A scalar field needs all of its bytes, and is the little-endian number they stand for, in two's complement where its type is signed |
| Fields.ArraysAreRead | pkg/adapters/mavlink/parser.go:314-336 | Arrays of bytes and of 16-bit words are read element by element; shorter ones and those of other types are not read |
| Fields.ParseFields | pkg/adapters/mavlink/parser.go:224-244 | The loop decodes every field that lies within the payload and skips those that do not |
| Fields.DecodedField | pkg/adapters/mavlink/parser.go:224-244 | With distinct names each field that fits reads as the value at its offset |
| Fields.OnlyNamedFields | pkg/adapters/mavlink/parser.go:224-244 | Nothing is decoded under a name that the table does not hold |
| Encoding.MessagesAreStandard | pkg/adapters/mavlink/parser.go:347-456 | Message ids, names, CRC-extra bytes and payload sizes are those of the common dialect, and encoders, CRC table and parser table agree on them |
| Encoding.OthersAreUnknown | pkg/adapters/mavlink/parser.go:347-456 | No other message has a CRC-extra byte or a field table |
| Encoding.GeneratedFrameIs | pkg/adapters/mavlink/generator.go:180-203 | A generated frame byte by byte: start, length, two zero flag bytes, sequence, system, component, three id bytes, payload and the checksum over all but the start, low byte first |
| Encoding.PayloadRoundTrip | pkg/adapters/mavlink/generator.go:47-178 | Decoding the payload of a typed message gives every field its value and no others |
| Encoding.PayloadsDiffer | pkg/adapters/mavlink/generator.go:47-178 | A payload stands for one message of its type: two messages of one type with the same payload are equal |
| Encoding.PayloadLength | pkg/adapters/mavlink/generator.go:47-178 | Payload lengths match the table |
| Encoding.FrameRoundTrip | pkg/adapters/mavlink/generator.go:180-203 | A built frame is read back as the packet it was built for |
| Generator.Generator.SetSystemId | pkg/adapters/mavlink/generator.go:25-27 | Later frames carry the new system id |
| Generator.Generator.SetComponentId | pkg/adapters/mavlink/generator.go:29-31 | Later frames carry the new component id |
| Generator.Generator.NextSequence | pkg/adapters/mavlink/generator.go:33-36 | The 32-bit counter wraps and the sequence byte is its low byte |
| Generator.Generator.BuildV2Frame | pkg/adapters/mavlink/generator.go:180-203 | The array holds start byte, header, payload and checksum in place; a payload over 255 bytes is refused |
| Generator.Generator.GenerateHeartbeat | pkg/adapters/mavlink/generator.go:47-69 | The frame of the message with the next sequence number |
| Generator.Generator.GenerateBatteryStatus | pkg/adapters/mavlink/generator.go:71-98 | The same for battery status, with its ten voltages |
| Generator.Generator.GenerateGlobalPosition | pkg/adapters/mavlink/generator.go:100-123 | The same for positions |
| Generator.Generator.GenerateAttitude | pkg/adapters/mavlink/generator.go:125-144 | The same for attitudes |
| Generator.Generator.GenerateCommandLong | pkg/adapters/mavlink/generator.go:146-166 | The same for commands, with their seven parameters |
| Generator.Generator.GenerateCommandAck | pkg/adapters/mavlink/generator.go:168-178 | The same for acknowledgements |
| RoundTrip.StreamRoundTrip | pkg/adapters/mavlink/generator.go:33-203 | A concatenation of generated frames scans to exactly their packets, with nothing left or miscounted |
| RoundTrip.CodecRoundTrip | pkg/adapters/mavlink/generator.go:33-203 | However such a stream is cut, a fresh parser delivers every message in order with every field value |
| RoundTrip.GenerateAll | pkg/adapters/mavlink/generator.go:33-36 | The n-th frame of a generator carries n modulo 256, also across the wrap of the counter |
| RawLane.SanitizeSource | pkg/adapters/mavlink/raw_lane.go:148-167 | The loop makes a source name of kept characters in lower case, one dash for each run of others and none at the ends, or "default" |
| RawLane.RawLane.constructor | pkg/adapters/mavlink/raw_lane.go:47-67 | An empty lane with a sanitised source name and the default bounds where none are given |
| RawLane.RawLane.Capture | pkg/adapters/mavlink/raw_lane.go:69-104 | The retained records are the longest suffix of all accepted captures within both bounds, the newest among them; the array returned is a fresh copy that is not in the store; refused frames change nothing |
| RawLane.RawLane.Accept | pkg/adapters/mavlink/raw_lane.go:83-103 | Storing a record and evicting keeps the lane valid and the record newest |
| RawLane.RawLane.Evict | pkg/adapters/mavlink/raw_lane.go:135-141 | The loop drops the oldest records until both bounds hold, keeping the byte sum exact |
| RawLane.RawLane.Snapshot | pkg/adapters/mavlink/raw_lane.go:106-118 | Copies of all retained records in order, sharing no array with the lane |
| RawLane.RawLane.Get | pkg/adapters/mavlink/raw_lane.go:120-133 | A copy of the retained record with the reference, or nothing exactly when there is none |
| RawLane.RetainedIsLongestFit | pkg/adapters/mavlink/raw_lane.go:135-141 | What is retained is a suffix that fits, and no longer suffix fits |
| RawLane.EvictingEarlyIsHarmless | pkg/adapters/mavlink/raw_lane.go:69-104 | Evicting after each capture keeps exactly what evicting once at the end would |
| RawLane.NewestIsRetained | pkg/adapters/mavlink/raw_lane.go:69-104 | The newest capture is always retained |
| RawLane.RefIs | pkg/adapters/mavlink/raw_lane.go:88-93 | A reference names the source and, in at least eight digits without further leading zeros, the number of captures so far |
| RawLane.ReferencesAreUnique | pkg/adapters/mavlink/raw_lane.go:80-85 | Retained records have distinct references |
| Pagination.QueryPrefix | internal/api/cop/graph_provider.go:427-469 | The loop returns the specified listing and sends the specified requests, for any sequence of pages |
| Pagination.NeverBeyondTheLimit | internal/api/cop/graph_provider.go:427-479 | Against any server: at most limit entities, at most limit requests, no page larger than allowed |
| Pagination.FaithfulServerIsListed | internal/api/cop/graph_provider.go:427-479 | Against a faithful paginator: the first entities up to the limit, truncated if and only if there are more |
| Poller.HTTPPoller.PollOnce | internal/components/cap/components.go:227-289 | The request carries the stored validators, and only a published answer replaces them, both at once |
| Poller.ValidatorsComeFromOneResponse | internal/components/cap/components.go:227-289 | In every run the stored pair is the initial one or that of the newest published answer |
| Poller.NotModifiedMeansPublished | internal/components/cap/components.go:227-289 | From empty validators, against a correct server that never gives a later version with another body the validator that its condition names, the ETag or, where there is none, Last-Modified, a 304 means the current body was published before |
| Poller.IndistinctVersionsAreLost | internal/components/cap/components.go:227-289 | For any two versions that those validators do not tell apart, a correct server may make the poller miss the second |
| Cot.Marshal | pkg/adapters/cot/cot.go:57-119 | The assignments fill the structure of the specification, or refuse an event without uid or type |
| Cot.BuildDetail | pkg/adapters/cot/cot.go:94-110 | The detail element: blank parts left out, chat text copied to empty remarks |
| Cot.DefaultsAreWritten | pkg/adapters/cot/cot.go:57-80 | Unset times stand for the clock, the time of the event and two minutes after it, and an unset how for "m-g" |
| Cot.Unmarshal | pkg/adapters/cot/cot.go:121-177 | The assignments read the event of the specification, or refuse malformed times and events without uid or type |
| Cot.TimesAreRead | pkg/adapters/cot/cot.go:123-177 | A blank time attribute is unset, a malformed one refuses the event, and time, start and stale are each read for themselves |
| Cot.RoundTripIsIdentityExactly | pkg/adapters/cot/cot.go:57-177 | Writing and reading back is the identity if and only if the event is in normal form |
| Cot.RoundTripSettlesExactly | pkg/adapters/cot/cot.go:57-177 | Every valid event comes back valid, and in a normal form that further round trips keep if and only if its how is not a blank that is given |
| Cot.BlankHowIsReplaced | pkg/adapters/cot/cot.go:72-75 | A given but blank how is lost at the first round trip and becomes the default at the second |
| Cot.ABlankHow | pkg/adapters/cot/cot.go:72-75 | A concrete event of that kind |
| Hazards.LatestPropertyValue | internal/api/cop/graph_provider.go:1249-1271 | The loop finds the value of the latest triple about the predicate, or what the library finds if there is none |
| Hazards.LatestIsGreatest | internal/api/cop/graph_provider.go:1249-1271 | It is the triple with the greatest time and, among those, the greatest index |
| Hazards.OrderDoesNotMatter | internal/api/cop/graph_provider.go:1249-1271 | Reordering evidence of distinct times changes nothing |
| Hazards.OrderDoesNotShow | internal/api/cop/graph_provider.go:1001-1034 | Reordering the triples of a hazard, with evidence and observations of distinct times, leaves what is shown as it is |
| Hazards.LatestObservedAt | internal/api/cop/graph_provider.go:1311-1340 | The time a hazard was updated: the latest observation, else what the library finds, else the newest of all times, else the clock |
| Hazards.StatusShown | internal/api/cop/graph_provider.go:1059-1088 | The branches on CAP status, message type, expiry and freshness compute the status of a hazard |
| Hazards.HazardFromEntity | internal/api/cop/graph_provider.go:1001-1057 | From an entity to what is shown of its hazard, or nothing without evidence or an outline |
| Outlines.DrawHazard | internal/api/cop/graph_provider.go:1121-1141 | The loops find the first polygon with three points on earth, else the first circle that can be drawn |
| Outlines.OutlineIsDrawn | internal/api/cop/graph_provider.go:1121-1171 | The outline is the first polygon with at least three points on earth, reduced to those in their order; failing that an ellipse around the first drawable circle, whose half-axes in degrees times the length of a degree are its radius; otherwise nothing |
| Outlines.NothingExactly | internal/api/cop/graph_provider.go:1121-1171 | Nothing is drawn if and only if no polygon has three points on earth and no circle can be drawn |
| CapEndToEnd.NewestAlertDecides | internal/api/cop/graph_provider.go:1001-1034 | However alerts were appended, the hazard shows the outline, status, severity and time of the alert that speaks for the latest time, read off its own fields, or nothing if that cannot be drawn |
| CapEndToEnd.CancelledStaysCancelled | internal/api/cop/graph_provider.go:1059-1088 | After a newer cancel that can be drawn, older alerts never make the hazard active again |
| CapEndToEnd.RetriedEvidenceIsHarmless | internal/api/cop/graph_provider.go:1249-1271 | Appending the last evidence once more at once, as a single writer retries, changes nothing, whatever the times |
| CapEndToEnd.RedeliveryRevivesExactly | internal/api/cop/graph_provider.go:1059-1088 | An alert appended behind a newest cancel makes the hazard active again if and only if it speaks for no earlier time and is operational, unexpired and fresh |
| CapEndToEnd.RedeliveryAtATie | internal/api/cop/graph_provider.go:1249-1271 | At equal times the order decides: a cancel stands until its alert is delivered once more |
| CapEndToEnd.SampleTie | internal/api/cop/graph_provider.go:1249-1271 | An alert and a cancel for which that happens |
| CapEndToEnd.ActiveExactly | internal/api/cop/graph_provider.go:1059-1088 | A hazard is active if and only if its newest alert is operational, not taken back, not expired and fresh |
| CapEndToEnd.CancelTakesEffectExactly | internal/projectors/cap/projector.go:227-238 | A cancel takes effect if and only if the time it speaks for is not before that of the alert |
| CapEndToEnd.EffectiveTimesDecide | internal/projectors/cap/projector.go:227-238 | Where both alerts say when they take effect, the cancel takes effect if and only if its effective time is not before that of the alert, whenever the two were sent |

## Left out

- The graph service is trusted, not modelled: a create succeeds exactly when the id is absent, an update overlays predicates on a present entity, nothing is deleted, each request is atomic. It is not part of the repository.
- AsIfOnce.CallIsAsIfOnce: speaks of updates that overlay predicates, so it is applied to MAVLink, CoT and ADS-B. CAP evidence is appended and may stand in the graph more than once; CapEndToEnd.RetriedEvidenceIsHarmless and CapEndToEnd.RedeliveryRevivesExactly say when that shows.
- CotAdapter.WrittenIsAsIfOnce: an event without a time is stamped anew at each attempt, so what a half-applied attempt wrote may carry an earlier stamp than the rest.
- BirthProtocol.GivingUpExactly: is about inputs that write to some entity even when all are born, which every input with a plan does.
- AdsbAdapter.WrittenIsAsIfOnce: is about a sole writer; what several writers leave together is covered by the safety results only.
- Interleaving.EveryRunIsSafe: each process is one sequential writer; the data race of CoT handlers that share one unlocked projector inside a process is not modelled.
- MavlinkAdapter.Adapter.IngestFrame: time stamps are parameters, health keeps its counters, its readiness and its last reference but not its times and error texts, and locking is left out.
- CotAdapter.Adapter.WritePlan: the ingest around it, with replay files and callbacks, is not modelled; clock readings are parameters.
- AdsbAdapter.Adapter.WritePlan: parsing of snapshot JSON, replay and callbacks are not modelled.
- CapComponent.Component.WritePlan: message envelopes and flow counters are not modelled.
- MavlinkProjector.Projector.ProjectPacket: a packet carries its observation time, where the code reads the clock for a packet without one; trace ids, request ids and entity time stamps of requests are left out, and an owner name stands for its lease token.
- CotProjector.Projector.ProjectEvent: coordinates and speeds are real numbers, rounded as the code rounds them; formatted values are kept as their parts, and floating-point error is left out.
- EndToEnd.SentIsShown: entities of the graph are their message type and the last value of each predicate; sources, times and confidences of triples are stated of the plans (EndToEnd.PacketIsSigned and its counterparts). An attitude that is not finite stands as such a value, where the code's request could not be encoded.
- CapProjector.Projector.ProjectAlert: evidence is a document value, not JSON text; parameters, resources and geocodes of an alert are left out of it.
- Tokens.BuildEntityToken: characters are lower-cased as far as a token can tell, that is, to ASCII letters.
- Fields.ParseFields: float fields are their IEEE bit patterns; a spec whose field ends beyond byte 255 is excluded, where the code computes the end in one byte.
- Parser.Parser.RegisterMessageSpec: requires field ends within byte 255, because beyond it the code's one-byte sum wraps and the slice it takes is out of order.
- Parser.Parser.Parse: packets are compared without their time stamps, and counters are unbounded.
- Cot.Marshal: the XML structure stands for its text; XML syntax, attribute escaping and time formats are left out, and instants count from year one.
- Cot.Unmarshal: a time attribute is blank, a time, or malformed; the two accepted layouts are not told apart.
- RawLane.RawLane.Capture: locking is left out; the cot, adsb and sapient lanes are the same algorithm.
- RawLane.SanitizeSource: the Unicode tables of letters, digits and lower case are parameters.
- Pagination.QueryPrefix: the server's largest page size is a parameter, as it is declared outside the repository; discovery of several prefixes around the loop is left out.
- Poller.HTTPPoller.PollOnce: transport, tickers and message envelopes are left out; marshalling a valid payload is taken to succeed.
- Hazards.LatestPropertyValue: what the graph library's own lookup finds is a parameter of the entity.
- Hazards.OrderDoesNotShow: label, kind, source and confidence of a hazard are left out; the cosine in the outline of a circle is a parameter.
- Predicate names are an enumeration and keys join their segments with dots, as the graph library's types do where the repository's own code relies on it.
- SAPIENT, fusion, fixtures, scenario status, configuration and the user interface are left out: they would add only easy members.
