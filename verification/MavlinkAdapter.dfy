/**
 The MAVLink adapter (internal/adapters/mavlink/adapter.go): a received frame goes through
 the parser, the raw lane and the projector into the graph, with health counters on the way.
 The hosted component (internal/components/mavlink/components.go) writes with the same loop,
 but takes the number of attempts from its configuration.
 */
module MavlinkAdapter {
  import opened Checksum
  import opened Frames
  import opened Scan
  import opened GraphService
  import opened BirthProtocol
  import opened AsIfOnce
  import opened Projection
  import M = MavlinkProjector
  import P = Parser
  import L = RawLane

  const ATTEMPTS := 4

  /** How often each stage was reached and left. */
  datatype Health = Health(
    ready: bool,
    framesReceived: nat, framesCaptured: nat, packetsDecoded: nat, graphMutations: nat,
    parseErrors: nat, captureErrors: nat, projectionDrops: nat, writeErrors: nat,
    lastRawRef: string)

  const FRESH := Health(true, 0, 0, 0, 0, 0, 0, 0, 0, "")

  /** Every frame is accounted for: captured or refused, decoded or not, dropped, failed or written. */
  predicate Balanced(h: Health, writes: nat) {
    h.framesReceived == h.framesCaptured + h.captureErrors
    && h.framesCaptured == h.packetsDecoded + h.parseErrors
    && h.packetsDecoded == h.projectionDrops + h.writeErrors + writes
  }

  /** The counters after a frame with the given outcome. */
  function Recorded(h: Health, outcome: Ingest): Health {
    var received := h.(framesReceived := h.framesReceived + 1);
    var captured := received.(framesCaptured := h.framesCaptured + 1);
    match outcome
    case CaptureRefused => received.(ready := false, captureErrors := h.captureErrors + 1)
    case NotOnePacket(ref, _) => captured.(ready := false, parseErrors := h.parseErrors + 1, lastRawRef := ref)
    case NothingToProject(ref) =>
      captured.(ready := true, packetsDecoded := h.packetsDecoded + 1, projectionDrops := h.projectionDrops + 1, lastRawRef := ref)
    case Projected(ref, status) =>
      var decoded := captured.(ready := true, packetsDecoded := h.packetsDecoded + 1, lastRawRef := ref);
      if status.Written? then decoded.(graphMutations := h.graphMutations + status.mutations)
      else decoded.(ready := false, writeErrors := h.writeErrors + 1)
  }

  /** What projecting and writing add to the counters of a decoded packet. */
  function Settled(h: Health, outcome: Ingest): Health {
    match outcome
    case NothingToProject(_) => h.(projectionDrops := h.projectionDrops + 1)
    case Projected(_, status) =>
      if status.Written? then h.(ready := true, graphMutations := h.graphMutations + status.mutations)
      else h.(ready := false, writeErrors := h.writeErrors + 1)
    case _ => h
  }

  datatype Ingest =
    | CaptureRefused
    | NotOnePacket(rawRef: string, packets: nat)
    | NothingToProject(rawRef: string)
    | Projected(rawRef: string, status: Status)

  /** The packet of a frame that completed exactly one. */
  function Only(packets: seq<Packet>): Option<Packet> {
    if |packets| == 1 then Some(packets[0]) else None
  }

  /** A packet that a frame completed, as it is projected. */
  function ReportOf(packets: seq<Packet>, parsedAt: int, rawRef: string): Option<M.Report> {
    if |packets| == 1 then Some(M.Report(packets[0], parsedAt, rawRef)) else None
  }

  /** The retry loop: a conflict teaches one birth, after which the packet is projected again. */
  method WriteWithin(projector: M.Projector, writer: GraphWriter, input: M.Report, plan: Plan, attempts: nat) returns (status: Status)
    requires plan == PlanOf(M.IntentsOf(projector.config, Some(input)), projector.Born())
    modifies projector, writer.service
    ensures Outcome(projector.Born(), writer.service.State(), status)
         == WriteJob(M.JobOf(projector.config, Some(input)), attempts, old(projector.Born()), old(writer.service.State()))
  {
    hide M.IntentsOf, M.Kinds, M.Markable, Marked, ApplyPlan, PlanOf, SoundJob, M.BornOf, EntityAlreadyExists;
    ghost var job := M.JobOf(projector.config, Some(input));
    M.JobIsSound(projector.config, Some(input));
    var current := plan;
    for attempt := 0 to attempts
      invariant current == PlanOf(job.intents, projector.Born())
      invariant WriteLoop(job, attempts - attempt, projector.Born(), current, writer.service.State())
             == WriteJob(job, attempts, old(projector.Born()), old(writer.service.State()))
    {
      var err := writer.Apply(current);
      if err.None? {
        OwnBirths(job.intents, projector.Born(), M.Kinds());
        var marked := projector.MarkBornForPlan(current);
        return Written(|current|);
      }
      var entityId := EntityAlreadyExists(err.value);
      if entityId.None? {
        return Failed(|current|, err.value);
      }
      PlusMoves(projector.Born(), {}, Marked(job.markable, entityId.value));
      var known := projector.MarkBornForPacket(Some(input), entityId.value);
      if !known {
        return Failed(|current|, err.value);
      }
      current := projector.ProjectPacket(Some(input));
      if current == [] {
        return Written(0);
      }
    }
    status := Exceeded(|current|);
  }

  class Adapter {
    const parser: P.Parser
    const rawLane: L.RawLane
    const projector: M.Projector
    const writer: GraphWriter
    var health: Health

    /** How many plans were written. */
    ghost var writes: nat

    ghost predicate Valid()
      reads this, parser, rawLane, rawLane.Store()
    {
      parser.Valid() && rawLane.Valid() && Balanced(health, writes)
    }

    constructor (parser: P.Parser, rawLane: L.RawLane, projector: M.Projector, writer: GraphWriter)
      requires parser.Valid() && rawLane.Valid()
      ensures Valid() && health == Health(true, 0, 0, 0, 0, 0, 0, 0, 0, "")
      ensures this.parser == parser && this.rawLane == rawLane && this.projector == projector && this.writer == writer
    {
      hide P.Parser.Valid, L.RawLane.Valid;
      ghost var store := L.StoreIsApart(rawLane);
      this.parser, this.rawLane, this.projector, this.writer := parser, rawLane, projector, writer;
      health, writes := FRESH, 0;
    }

    /** Applies a plan with the four attempts of the adapter. */
    method WritePlan(input: M.Report, plan: Plan) returns (status: Status)
      requires plan == PlanOf(M.IntentsOf(projector.config, Some(input)), projector.Born())
      modifies projector, writer.service
      ensures Outcome(projector.Born(), writer.service.State(), status)
           == WriteJob(M.JobOf(projector.config, Some(input)), 4, old(projector.Born()), old(writer.service.State()))
    {
      hide M.JobOf, WriteJob, PlanOf, M.BornOf;
      status := WriteWithin(projector, writer, input, plan, ATTEMPTS);
    }

    /**
     Takes in one received frame. It is captured whatever it holds, unless it is empty or
     too large for the lane; only a frame that completes exactly one packet is projected.
     */
    method IngestFrame(frame: array<byte>, now: int, parsedAt: int) returns (result: Ingest)
      requires Valid()
      modifies this, parser`buffer, parser`stats, rawLane, projector, writer.service
      ensures Valid()
      ensures health == Recorded(old(health), result)
      ensures writes == old(writes) + if result.Projected? && result.status.Written? then 1 else 0
      ensures var r := ScanStream(old(parser.buffer) + frame[..], parser.messageSpecs);
        var refused := frame.Length == 0 || frame.Length > rawLane.maxBytes;
        parser.buffer == r.rest
        && (result.CaptureRefused? <==> refused)
        && (result.NotOnePacket? <==> !refused && |r.packets| != 1)
        && (result.NotOnePacket? ==> result.packets == |r.packets|)
        && (refused <==> rawLane.accepted == old(rawLane.accepted))
        && (!refused ==>
              |rawLane.accepted| == |old(rawLane.accepted)| + 1
              && rawLane.accepted[|old(rawLane.accepted)|] == L.Entry(result.rawRef, now, L.InfoOf(Only(r.packets)), frame[..]))
      ensures !result.Projected? ==> projector.Born() == old(projector.Born()) && writer.service.State() == old(writer.service.State())
      ensures result.Projected? || result.NothingToProject? ==>
        var r := ScanStream(old(parser.buffer) + frame[..], parser.messageSpecs);
        var job := M.JobOf(projector.config, ReportOf(r.packets, parsedAt, result.rawRef));
        (result.NothingToProject? <==> PlanOf(job.intents, old(projector.Born())) == [])
        && (result.Projected? ==>
              !result.status.Exceeded?
              && Outcome(projector.Born(), writer.service.State(), result.status)
              == WriteJob(job, ATTEMPTS, old(projector.Born()), old(writer.service.State())))
    {
      hide ScanStream, P.Parser.Valid, L.RawLane.Valid, M.JobOf, WriteJob, PlanOf, M.BornOf;
      var packets, capture := Receive(frame, now);
      ghost var store := L.StoreIsApart(rawLane);
      if !capture.Captured? {
        health := health.(ready := false, captureErrors := health.captureErrors + 1);
        return CaptureRefused;
      }
      var ref := capture.record.ref;
      if |packets| != 1 {
        health := health.(ready := false, framesCaptured := health.framesCaptured + 1,
                          parseErrors := health.parseErrors + 1, lastRawRef := ref);
        return NotOnePacket(ref, |packets|);
      }
      health := health.(ready := true, framesCaptured := health.framesCaptured + 1,
                        packetsDecoded := health.packetsDecoded + 1, lastRawRef := ref);
      result := ProjectAndWrite(M.Report(packets[0], parsedAt, ref));
    }

    /** Parses and captures one frame. */
    method Receive(frame: array<byte>, now: int) returns (packets: seq<Packet>, capture: L.Capture)
      requires Valid()
      modifies this, parser`buffer, parser`stats, rawLane
      ensures parser.Valid() && rawLane.Valid()
      ensures health == old(health).(framesReceived := old(health).framesReceived + 1) && writes == old(writes)
      ensures var r := ScanStream(old(parser.buffer) + frame[..], parser.messageSpecs);
        parser.buffer == r.rest && packets == r.packets
      ensures capture.Captured? <==> !(frame.Length == 0 || frame.Length > rawLane.maxBytes)
      ensures rawLane.accepted == old(rawLane.accepted) + if capture.Captured? then [L.EntryOf(capture.record)] else []
      ensures capture.Captured? ==>
        L.EntryOf(capture.record) == L.Entry(capture.record.ref, now, L.InfoOf(Only(packets)), frame[..])
    {
      hide ScanStream, P.Parser.Valid, L.RawLane.Valid;
      ghost var store := L.StoreIsApart(rawLane);
      health := health.(framesReceived := health.framesReceived + 1);
      packets := parser.Parse(frame[..]);
      capture := rawLane.Capture(frame, if |packets| == 1 then Some(packets[0]) else None, now);
    }

    method ProjectAndWrite(input: M.Report) returns (result: Ingest)
      modifies this, projector, writer.service
      ensures var job := M.JobOf(projector.config, Some(input));
        if PlanOf(job.intents, old(projector.Born())) == []
        then
          result == NothingToProject(input.sourceRef)
          && projector.Born() == old(projector.Born()) && writer.service.State() == old(writer.service.State())
        else
          result.Projected? && result.rawRef == input.sourceRef && !result.status.Exceeded?
          && Outcome(projector.Born(), writer.service.State(), result.status)
          == WriteJob(job, ATTEMPTS, old(projector.Born()), old(writer.service.State()))
      ensures writes == old(writes) + if result.Projected? && result.status.Written? then 1 else 0
      ensures health == Settled(old(health), result)
    {
      hide M.IntentsOf, WriteJob, PlanOf, M.BornOf, M.Markable;
      var plan := projector.ProjectPacket(Some(input));
      if plan == [] {
        health := health.(projectionDrops := health.projectionDrops + 1);
        return NothingToProject(input.sourceRef);
      }
      RetryLimitIsUnreachable(projector.config, Some(input), ATTEMPTS, projector.Born(), writer.service.State());
      var status := WritePlan(input, plan);
      RecordWrite(status);
      result := Projected(input.sourceRef, status);
    }

    method RecordWrite(status: Status)
      modifies this
      ensures writes == old(writes) + if status.Written? then 1 else 0
      ensures health == if status.Written?
        then old(health).(ready := true, graphMutations := old(health).graphMutations + status.mutations)
        else old(health).(ready := false, writeErrors := old(health).writeErrors + 1)
    {
      if status.Written? {
        health := health.(ready := true, graphMutations := health.graphMutations + status.mutations);
        writes := writes + 1;
      } else {
        health := health.(ready := false, writeErrors := health.writeErrors + 1);
      }
    }
  }

  /** The component with its configured number of retries. */
  class Component {
    const projector: M.Projector
    const writer: GraphWriter
    const writeRetries: int

    constructor (projector: M.Projector, writer: GraphWriter, writeRetries: int)
      ensures this.projector == projector && this.writer == writer && this.writeRetries == Configured(writeRetries)
    {
      this.projector, this.writer := projector, writer;
      this.writeRetries := if writeRetries == 0 then 4 else writeRetries;
    }

    method WritePlan(input: M.Report, plan: Plan) returns (status: Status)
      requires plan == PlanOf(M.IntentsOf(projector.config, Some(input)), projector.Born())
      modifies projector, writer.service
      ensures Outcome(projector.Born(), writer.service.State(), status)
           == WriteJob(M.JobOf(projector.config, Some(input)), Attempts(writeRetries), old(projector.Born()), old(writer.service.State()))
    {
      hide M.JobOf, WriteJob, PlanOf, M.BornOf;
      var attempts := writeRetries;
      if attempts <= 0 {
        attempts := 1;
      }
      status := WriteWithin(projector, writer, input, plan, attempts);
    }
  }

  /** With three attempts or more no answers of the graph make them run out: a packet has two births to learn. */
  lemma RetryLimitIsUnreachable(c: Config, input: Option<M.Report>, attempts: nat, born: Born, w: World)
    requires attempts >= 3
    ensures !WriteJob(M.JobOf(c, input), attempts, born, w).status.Exceeded?
  {
    hide WriteJob, Job.Valid, CreateIncludesUpdate, M.JobOf, HasUpdate;
    M.JobIsSound(c, input);
    NeverGivesUp(M.JobOf(c, input), attempts, born, w);
  }

  /**
   With fewer, and clean answers: one attempt runs out if and only if an unknown birth is in
   the graph, two if and only if neither birth is known and the track is in the graph.
   */
  lemma GivesUpExactly(c: Config, r: M.Report, attempts: nat, born: Born, w: World)
    requires M.TrackTriples(c, r) != [] && attempts > 0
    requires BornIn(born, w.graph.Keys) && AllClean(w.faults) && |w.faults| >= attempts * 2
    ensures var (a, t) := (M.AssetIntent(c, r).ref, M.TrackIntent(c, r).ref);
      var trackBlocked := t !in born && t.id in w.graph;
      var assetBlocked := a !in born && (a.id in w.graph || trackBlocked);
      var status := WriteJob(M.JobOf(c, Some(r)), attempts, born, w).status;
      if (attempts == 1 && (assetBlocked || trackBlocked)) || (attempts == 2 && assetBlocked && trackBlocked)
      then status.Exceeded? else status.Written?
  {
    hide WriteJob, Job.Valid, CreateIncludesUpdate, M.TrackTriples, M.SourceAssetTriples, M.SourceAssetId, M.TrackId, RefsOf, Blocked;
    M.JobIsSound(c, Some(r));
    BlockedPair(M.AssetIntent(c, r), M.TrackIntent(c, r), born, w.graph.Keys);
    GivingUpExactly(M.JobOf(c, Some(r)), attempts, born, w);
  }
}
