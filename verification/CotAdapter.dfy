/**
 writePlan of the CoT adapter (internal/adapters/cot/adapter.go) and of the hosted component
 (internal/components/cot/components.go), which takes its attempts from the configuration.
 */
module CotAdapter {
  import opened Checksum
  import opened GraphService
  import opened BirthProtocol
  import opened AsIfOnce
  import opened Projection
  import opened Tokens
  import C = Cot
  import Q = CotProjector

  const ATTEMPTS := 4

  /** The event as it is projected when the clock stands at each of the given times. */
  function JobsOf(c: Config, event: C.Event, sourceRef: string, clocks: seq<nat>): seq<Job> {
    seq(|clocks|, k requires 0 <= k < |clocks| => Q.JobOf(c, Q.SourceEvent(event, sourceRef, clocks[k])))
  }

  /** What the loop comes to when the clock stands at clocks[k] for the projection of attempt k. */
  function WrittenWith(c: Config, event: C.Event, sourceRef: string, clocks: seq<nat>, born: Born, w: World): Outcome
    requires clocks != []
  {
    var jobs := JobsOf(c, event, sourceRef, clocks);
    WriteAttempts(jobs, born, PlanOf(jobs[0].intents, born), w)
  }

  /**
   The retry loop: a conflict teaches one birth, after which the event is projected again.
   The clock stands at clocks[0] for the plan in hand and at clocks[k] for the k-th retry.
   */
  method WriteWithin(
      projector: Q.Projector, writer: GraphWriter, event: C.Event, sourceRef: string, clocks: seq<nat>, plan: Plan, attempts: nat)
    returns (status: Status)
    requires event.Valid() && |clocks| == attempts + 1
    requires plan == PlanOf(Q.IntentsOf(projector.config, Q.SourceEvent(event, sourceRef, clocks[0])), projector.Born())
    modifies projector, writer.service
    ensures Outcome(projector.Born(), writer.service.State(), status)
         == WrittenWith(projector.config, event, sourceRef, clocks, old(projector.Born()), old(writer.service.State()))
  {
    hide Q.IntentsOf, Q.Kinds, Q.Markable, Marked, ApplyPlan, PlanOf, SoundJob, Q.BornSets.Born, EntityAlreadyExists, C.Event.Valid;
    ghost var jobs := JobsOf(projector.config, event, sourceRef, clocks);
    var current := plan;
    for attempt := 0 to attempts
      invariant current == PlanOf(jobs[attempt].intents, projector.Born())
      invariant WriteAttempts(jobs[attempt..], projector.Born(), current, writer.service.State())
             == WriteAttempts(jobs, old(projector.Born()), plan, old(writer.service.State()))
    {
      assert jobs[attempt..][1..] == jobs[attempt + 1..];
      var err := writer.Apply(current);
      if err.None? {
        Q.JobIsSound(projector.config, Q.SourceEvent(event, sourceRef, clocks[attempt]));
        OwnBirths(jobs[attempt].intents, projector.Born(), Q.Kinds());
        var marked := projector.MarkBornForPlan(current);
        return Written(|current|);
      }
      var entityId := EntityAlreadyExists(err.value);
      if entityId.None? {
        return Failed(|current|, err.value);
      }
      PlusMoves(projector.Born(), {}, Marked(jobs[attempt].markable, entityId.value));
      var known := projector.MarkBornForEvent(event, entityId.value);
      if !known {
        return Failed(|current|, err.value);
      }
      var next := projector.ProjectEvent(event, sourceRef, clocks[attempt + 1]);
      current := next.value;
      if current == [] {
        return Written(0);
      }
    }
    status := Exceeded(|current|);
  }

  class Adapter {
    const projector: Q.Projector
    const writer: GraphWriter

    constructor (projector: Q.Projector, writer: GraphWriter)
      ensures this.projector == projector && this.writer == writer
    {
      this.projector, this.writer := projector, writer;
    }

    /** Applies a plan with the four attempts of the adapter. */
    method WritePlan(event: C.Event, sourceRef: string, clocks: seq<nat>, plan: Plan) returns (status: Status)
      requires event.Valid() && |clocks| == 5
      requires plan == PlanOf(Q.IntentsOf(projector.config, Q.SourceEvent(event, sourceRef, clocks[0])), projector.Born())
      modifies projector, writer.service
      ensures Outcome(projector.Born(), writer.service.State(), status)
           == WrittenWith(projector.config, event, sourceRef, clocks, old(projector.Born()), old(writer.service.State()))
    {
      hide WrittenWith, Q.IntentsOf, PlanOf, Q.BornSets.Born, C.Event.Valid;
      status := WriteWithin(projector, writer, event, sourceRef, clocks, plan, ATTEMPTS);
    }
  }

  /** The component with its configured number of retries. */
  class Component {
    const projector: Q.Projector
    const writer: GraphWriter
    const writeRetries: int

    constructor (projector: Q.Projector, writer: GraphWriter, writeRetries: int)
      ensures this.projector == projector && this.writer == writer && this.writeRetries == Configured(writeRetries)
    {
      this.projector, this.writer := projector, writer;
      this.writeRetries := if writeRetries == 0 then 4 else writeRetries;
    }

    method WritePlan(event: C.Event, sourceRef: string, clocks: seq<nat>, plan: Plan) returns (status: Status)
      requires event.Valid() && |clocks| == Attempts(writeRetries) + 1
      requires plan == PlanOf(Q.IntentsOf(projector.config, Q.SourceEvent(event, sourceRef, clocks[0])), projector.Born())
      modifies projector, writer.service
      ensures Outcome(projector.Born(), writer.service.State(), status)
           == WrittenWith(projector.config, event, sourceRef, clocks, old(projector.Born()), old(writer.service.State()))
    {
      hide WrittenWith, Q.IntentsOf, PlanOf, Q.BornSets.Born, C.Event.Valid;
      var attempts := writeRetries;
      if attempts <= 0 {
        attempts := 1;
      }
      status := WriteWithin(projector, writer, event, sourceRef, clocks, plan, attempts);
    }
  }

  lemma ContentIgnoresTheClock(c: Config, s: Q.SourceEvent, t: Q.SourceEvent)
    requires s.event == t.event && s.sourceRef == t.sourceRef
    ensures Q.TrackTriples(c, s) == [] <==> Q.TrackTriples(c, t) == []
    ensures Q.TaskTriples(c, s) == [] <==> Q.TaskTriples(c, t) == []
    ensures Q.AdvisoryTriples(c, s) == [] <==> Q.AdvisoryTriples(c, t) == []
  {
    hide Q.EntityId, Q.ProvenanceTriples, Q.NativeId, Q.StatusFor, FirstNonEmpty, TrimSpace;
  }

  /** The clock decides what an event's entities say, not which they are. */
  lemma RefsIgnoreTheClock(c: Config, event: C.Event, sourceRef: string, clock: nat, later: nat)
    ensures RefsOf(Q.IntentsOf(c, Q.SourceEvent(event, sourceRef, clock)))
         == RefsOf(Q.IntentsOf(c, Q.SourceEvent(event, sourceRef, later)))
  {
    hide Q.EntityId, Q.TrackTriples, Q.TaskTriples, Q.AdvisoryTriples, Q.SourceAssetTriples, RefsOf;
    var s, t := Q.SourceEvent(event, sourceRef, clock), Q.SourceEvent(event, sourceRef, later);
    ContentIgnoresTheClock(c, s, t);
    if Q.TrackTriples(c, s) != [] {
      PlanOfTwo(Q.TrackIntents(c, s)[0], Q.TrackIntents(c, s)[1], {});
      PlanOfTwo(Q.TrackIntents(c, t)[0], Q.TrackIntents(c, t)[1], {});
    }
    if Q.TaskTriples(c, s) != [] {
      PlanOfOne(Q.TaskIntents(c, s)[0], {});
      PlanOfOne(Q.TaskIntents(c, t)[0], {});
    }
    if Q.AdvisoryTriples(c, s) != [] {
      PlanOfOne(Q.AdvisoryIntents(c, s)[0], {});
      PlanOfOne(Q.AdvisoryIntents(c, t)[0], {});
    }
  }

  /**
   With three attempts or more no answers of the graph make them run out, wherever the clock
   stands: an event has at most two births to learn.
   */
  lemma RetryLimitIsUnreachable(c: Config, event: C.Event, sourceRef: string, clocks: seq<nat>, born: Born, w: World)
    requires |clocks| >= 4
    ensures !WrittenWith(c, event, sourceRef, clocks, born, w).status.Exceeded?
  {
    hide WriteAttempts, Job.Valid, CreateIncludesUpdate, Q.IntentsOf, HasUpdate, PlanOf, RefsOf;
    var jobs := JobsOf(c, event, sourceRef, clocks);
    var refs := RefsOf(jobs[0].intents);
    forall k | 0 <= k < |jobs|
      ensures jobs[k].Valid() && RefsOf(jobs[k].intents) == refs && |refs| <= 2
    {
      Q.JobIsSound(c, Q.SourceEvent(event, sourceRef, clocks[k]));
      RefsIgnoreTheClock(c, event, sourceRef, clocks[0], clocks[k]);
    }
    VaryingJobsTeach(jobs, refs, born, w);
    var o := WrittenWith(c, event, sourceRef, clocks, born, w);
    SubsetSize(born, o.born);
    SubsetSize(o.born - born, refs);
  }

  /** An event with a time is one job at every attempt, so what is said of jobs holds for it. */
  lemma TimedEventIsOneJob(c: Config, event: C.Event, sourceRef: string, clocks: seq<nat>, born: Born, w: World)
    requires event.time != 0 && clocks != []
    ensures WrittenWith(c, event, sourceRef, clocks, born, w)
         == WriteJob(Q.JobOf(c, Q.SourceEvent(event, sourceRef, clocks[0])), |clocks| - 1, born, w)
  {
    hide WriteAttempts, WriteLoop, PlanOf, Q.JobOf;
    var jobs := JobsOf(c, event, sourceRef, clocks);
    forall k | 0 <= k < |jobs|
      ensures jobs[k] == jobs[0]
    {
      ClockIsNotRead(c, event, sourceRef, clocks[0], clocks[k]);
    }
    OneJobAtAllAttempts(jobs, born, PlanOf(jobs[0].intents, born), w);
  }

  /**
   With fewer, and clean answers, attempts run out exactly when as many births of the event
   are blocked, which are two at most; otherwise the event is written.
   */
  lemma GivesUpExactly(c: Config, s: Q.SourceEvent, attempts: nat, born: Born, w: World)
    requires Q.IntentsOf(c, s) != []
    requires BornIn(born, w.graph.Keys) && AllClean(w.faults) && |w.faults| >= attempts * |Q.IntentsOf(c, s)|
    ensures var blocked := Blocked(Q.IntentsOf(c, s), born, w.graph.Keys);
      var status := WriteJob(Q.JobOf(c, s), attempts, born, w).status;
      |blocked| <= 2 && if attempts <= |blocked| then status.Exceeded? else status.Written?
  {
    hide WriteJob, CreateIncludesUpdate, Q.IntentsOf, RefsOf, Blocked, Job.Valid, HasUpdate;
    Q.JobIsSound(c, s);
    var intents := Q.IntentsOf(c, s);
    BlockedIsUnborn(intents, born, w.graph.Keys);
    SubsetSize(Blocked(intents, born, w.graph.Keys), RefsOf(intents));
    GivingUpExactly(Q.JobOf(c, s), attempts, born, w);
  }

  /** The clock only stands in for a missing time: an event with a time is the same job at every attempt. */
  lemma ClockIsNotRead(c: Config, event: C.Event, sourceRef: string, clock: nat, later: nat)
    requires event.time != 0
    ensures Q.JobOf(c, Q.SourceEvent(event, sourceRef, clock)) == Q.JobOf(c, Q.SourceEvent(event, sourceRef, later))
  {
    hide Q.EntityId, Q.Markable, Q.TrackTriples, Q.SourceAssetTriples, Q.TaskTriples, Q.AdvisoryTriples;
    var s, t := Q.SourceEvent(event, sourceRef, clock), Q.SourceEvent(event, sourceRef, later);
    SameTrack(c, s, t);
    SameTaskAndAdvisory(c, s, t);
  }

  lemma SameTrack(c: Config, s: Q.SourceEvent, t: Q.SourceEvent)
    requires s.event == t.event && s.sourceRef == t.sourceRef && Q.ObservedAt(s) == Q.ObservedAt(t)
    ensures Q.TrackTriples(c, s) == Q.TrackTriples(c, t) && Q.SourceAssetTriples(c, s) == Q.SourceAssetTriples(c, t)
  {
    hide Q.EntityId, Q.NativeId, FirstNonEmpty, Q.ObservedAt;
  }

  lemma SameTaskAndAdvisory(c: Config, s: Q.SourceEvent, t: Q.SourceEvent)
    requires s.event == t.event && s.sourceRef == t.sourceRef && Q.ObservedAt(s) == Q.ObservedAt(t)
    ensures Q.TaskTriples(c, s) == Q.TaskTriples(c, t) && Q.AdvisoryTriples(c, s) == Q.AdvisoryTriples(c, t)
  {
    hide Q.EntityId, Q.NativeId, FirstNonEmpty, TrimSpace, Q.ObservedAt;
  }

  /** Whatever retries it took, an event with a time that is written leaves the graph as if applied once. */
  lemma WrittenIsAsIfOnce(c: Config, event: C.Event, sourceRef: string, clocks: seq<nat>, born: Born, w: World)
    requires event.time != 0 && clocks != [] && w.Honest() && BornIn(born, w.graph.Keys)
    ensures var o := WrittenWith(c, event, sourceRef, clocks, born, w);
      o.status.Written? ==> o.world.graph == Effect(w.graph, Q.IntentsOf(c, Q.SourceEvent(event, sourceRef, clocks[0])))
  {
    hide WriteJob, WrittenWith, Job.Valid, CreateIncludesUpdate, Q.IntentsOf, Effect, BornIn, HasUpdate;
    var s := Q.SourceEvent(event, sourceRef, clocks[0]);
    TimedEventIsOneJob(c, event, sourceRef, clocks, born, w);
    Q.JobIsSound(c, s);
    CallIsAsIfOnce(Q.JobOf(c, s), |clocks| - 1, born, w);
  }
}
