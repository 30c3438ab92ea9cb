/**
 writePlan of the ADS-B adapter (internal/adapters/adsb/adapter.go): a snapshot's plan may
 name many entities, but the retry limit is fixed. The hosted component
 (internal/components/adsb/components.go) takes its limit from the configuration.
 */
module AdsbAdapter {
  import opened Checksum
  import opened GraphService
  import opened BirthProtocol
  import opened AsIfOnce
  import opened Projection
  import opened Tokens
  import Q = AdsbProjector

  const ATTEMPTS := 4

  /** The retry loop: a conflict teaches one birth, after which all states are projected again. */
  method WriteWithin(
      projector: Q.Projector, writer: GraphWriter, states: seq<Q.StateVector>, sourceRef: string, plan: Plan, attempts: nat)
    returns (status: Status)
    requires Q.AllValid(Q.SourceStates(states, sourceRef))
    requires plan == PlanOf(Q.JobOf(projector.config, states, sourceRef).intents, projector.Born())
    modifies projector, writer.service
    ensures Outcome(projector.Born(), writer.service.State(), status)
         == WriteJob(Q.JobOf(projector.config, states, sourceRef), attempts, old(projector.Born()), old(writer.service.State()))
  {
    hide Q.Markable, Marked, ApplyPlan, PlanOf, Q.AllValid, Concat, CreateIncludesUpdate, EntityAlreadyExists, Tagged;
    ghost var job := Q.JobOf(projector.config, states, sourceRef);
    Q.JobIsSound(projector.config, states, sourceRef);
    var sources := Q.SourceStates(states, sourceRef);
    var current := plan;
    for attempt := 0 to attempts
      invariant current == PlanOf(job.intents, projector.Born())
      invariant WriteLoop(job, attempts - attempt, projector.Born(), current, writer.service.State())
             == WriteJob(job, attempts, old(projector.Born()), old(writer.service.State()))
    {
      var err := writer.Apply(current);
      if err.None? {
        OwnBirthsOf(job, projector.Born());
        var marked := projector.MarkBornForPlan(current);
        return Written(|current|);
      }
      var entityId := EntityAlreadyExists(err.value);
      if entityId.None? {
        return Failed(|current|, err.value);
      }
      PlusMoves(projector.Born(), {}, Marked(job.markable, entityId.value));
      var known := MarkBornForEntity(projector, states, entityId.value);
      if !known {
        return Failed(|current|, err.value);
      }
      var next := projector.ProjectStates(sources);
      current := next.value;
      if current == [] {
        return Written(0);
      }
    }
    status := Exceeded(|current|);
  }

  /** Marks the first state that the entity belongs to. */
  method MarkBornForEntity(projector: Q.Projector, states: seq<Q.StateVector>, entityId: string) returns (known: bool)
    modifies projector
    ensures var ref := Marked(Q.Markable(projector.config, states), entityId);
      known == ref.Some? && projector.Born() == Plus(old(projector.Born()), ref)
  {
    hide Q.TrackId, Tagged, Plus;
    ghost var markable := Q.Markable(projector.config, states);
    PlusMoves(projector.Born(), {}, None);
    for i := 0 to |states|
      invariant projector.Born() == old(projector.Born())
      invariant Marked(markable, entityId) == Marked(markable[i..], entityId)
    {
      assert markable[i..][1..] == markable[i + 1..];
      NothingMarked(projector.Born());
      known := projector.MarkBornForState(states[i], entityId);
      if known {
        return true;
      }
    }
    NothingMarked(projector.Born());
    return false;
  }

  class Adapter {
    const projector: Q.Projector
    const writer: GraphWriter

    constructor (projector: Q.Projector, writer: GraphWriter)
      ensures this.projector == projector && this.writer == writer
    {
      this.projector, this.writer := projector, writer;
    }

    /** Applies the plan of a snapshot with the four attempts of the adapter. */
    method WritePlan(states: seq<Q.StateVector>, sourceRef: string, plan: Plan) returns (status: Status)
      requires Q.AllValid(Q.SourceStates(states, sourceRef))
      requires plan == PlanOf(Q.JobOf(projector.config, states, sourceRef).intents, projector.Born())
      modifies projector, writer.service
      ensures Outcome(projector.Born(), writer.service.State(), status)
           == WriteJob(Q.JobOf(projector.config, states, sourceRef), 4, old(projector.Born()), old(writer.service.State()))
    {
      hide Q.JobOf, WriteJob, PlanOf, Tagged, Q.AllValid;
      status := WriteWithin(projector, writer, states, sourceRef, plan, ATTEMPTS);
    }
  }

  /** The component with its configured number of retries. */
  class Component {
    const projector: Q.Projector
    const writer: GraphWriter
    const writeRetries: int

    constructor (projector: Q.Projector, writer: GraphWriter, writeRetries: int)
      ensures this.projector == projector && this.writer == writer && this.writeRetries == Configured(writeRetries)
    {
      this.projector, this.writer := projector, writer;
      this.writeRetries := if writeRetries == 0 then 4 else writeRetries;
    }

    method WritePlan(states: seq<Q.StateVector>, sourceRef: string, plan: Plan) returns (status: Status)
      requires Q.AllValid(Q.SourceStates(states, sourceRef))
      requires plan == PlanOf(Q.JobOf(projector.config, states, sourceRef).intents, projector.Born())
      modifies projector, writer.service
      ensures Outcome(projector.Born(), writer.service.State(), status)
           == WriteJob(Q.JobOf(projector.config, states, sourceRef), Attempts(writeRetries), old(projector.Born()), old(writer.service.State()))
    {
      hide Q.JobOf, WriteJob, PlanOf, Tagged, Q.AllValid;
      var attempts := writeRetries;
      if attempts <= 0 {
        attempts := 1;
      }
      status := WriteWithin(projector, writer, states, sourceRef, plan, attempts);
    }
  }

  lemma NothingMarked(born: Born)
    ensures Plus(born, None) == born
  {}

  lemma OwnBirthsOf(job: Job, born: Born)
    requires job.Valid() && forall i <- job.intents :: i.ref.kind == Track && i.update.Some?
    ensures BirthsAs(PlanOf(job.intents, born), Track) == CreatedBy(PlanOf(job.intents, born))
  {
    hide PlanOf, CreatedBy, BirthsAs;
    OwnBirthsAs(job.intents, born, Track);
  }

  /** The tracks of a snapshot. */
  function Tracks(c: Config, states: seq<Q.StateVector>, sourceRef: string): Born {
    RefsOf(Q.JobOf(c, states, sourceRef).intents)
  }

  /**
   Whatever retries, half-applied plans and lost replies it took, a snapshot that is written
   leaves the graph exactly as applying its states once, in order, would have.
   */
  lemma WrittenIsAsIfOnce(c: Config, states: seq<Q.StateVector>, sourceRef: string, born: Born, w: World)
    requires w.Honest() && BornIn(born, w.graph.Keys)
    ensures var job := Q.JobOf(c, states, sourceRef);
      var o := WriteJob(job, ATTEMPTS, born, w);
      o.status.Written? ==> o.world.graph == Effect(w.graph, job.intents)
  {
    hide WriteJob, Job.Valid, CreateIncludesUpdate, Q.JobOf, Effect, BornIn;
    Q.JobIsSound(c, states, sourceRef);
    CallIsAsIfOnce(Q.JobOf(c, states, sourceRef), ATTEMPTS, born, w);
  }

  /** So does the call that finally succeeds after any number of calls that failed, restarts included. */
  lemma EarlierFailuresLeaveNoTrace(
      c: Config, states: seq<Q.StateVector>, sourceRef: string, g: Graph, calls: seq<Call>, last: Call)
    requires CallsAreSound(Q.JobOf(c, states, sourceRef), ATTEMPTS, g, calls + [last])
    ensures var job := Q.JobOf(c, states, sourceRef);
      var o := WriteJob(job, ATTEMPTS, last.born, World(GraphAfter(job, ATTEMPTS, g, calls), last.faults));
      o.status.Written? ==> o.world.graph == Effect(g, job.intents)
  {
    hide WriteJob, Job.Valid, CreateIncludesUpdate, Q.JobOf, Effect, CallsAreSound, GraphAfter;
    Q.JobIsSound(c, states, sourceRef);
    FailedCallsAreAbsorbed(Q.JobOf(c, states, sourceRef), ATTEMPTS, g, calls, last);
  }

  /** A call that runs out of attempts has learnt four new births, whatever the graph answered. */
  lemma ExhaustionTeachesFour(c: Config, states: seq<Q.StateVector>, sourceRef: string, born: Born, w: World)
    ensures var o := WriteJob(Q.JobOf(c, states, sourceRef), ATTEMPTS, born, w);
      born <= o.born <= born + Tracks(c, states, sourceRef)
      && (o.status.Exceeded? ==> |o.born| == |born| + 4)
  {
    hide WriteJob, Job.Valid, CreateIncludesUpdate, Q.JobOf, RefsOf;
    Q.JobIsSound(c, states, sourceRef);
    GivingUpTeaches(Q.JobOf(c, states, sourceRef), ATTEMPTS, born, w);
  }

  /** However often a snapshot is tried, it runs out at most once for every four of its tracks that were unknown. */
  lemma ExhaustionsAreBounded(c: Config, states: seq<Q.StateVector>, sourceRef: string, born: Born, worlds: seq<World>)
    ensures var (final, exhausted) := RepeatedCalls(Q.JobOf(c, states, sourceRef), ATTEMPTS, born, worlds);
      exhausted <= |Tracks(c, states, sourceRef) - born| / 4 <= |states| / 4
  {
    hide WriteJob, Job.Valid, CreateIncludesUpdate, Q.JobOf, RefsOf, RepeatedCalls;
    var job := Q.JobOf(c, states, sourceRef);
    Q.JobIsSound(c, states, sourceRef);
    GivingUpIsBounded(job, ATTEMPTS, born, worlds);
    SubsetSize(RefsOf(job.intents) - born, RefsOf(job.intents));
  }

  /** The births of a snapshot that clean answers make a call learn one by one. */
  function BlockedTracks(c: Config, states: seq<Q.StateVector>, sourceRef: string, born: Born, ids: set<string>): Born {
    Blocked(Q.JobOf(c, states, sourceRef).intents, born, ids)
  }

  lemma SnapshotHasUpdate(c: Config, states: seq<Q.StateVector>, sourceRef: string)
    requires states != []
    ensures HasUpdate(Q.JobOf(c, states, sourceRef).intents) && |Q.JobOf(c, states, sourceRef).intents| == |states|
  {
    hide Concat, Q.PartsOf, Q.TrackId, Q.TrackTriples;
    Q.ConcatOfOnes(c, Q.SourceStates(states, sourceRef));
    assert Q.JobOf(c, states, sourceRef).intents[0].update.Some?;
  }

  /**
   With clean answers, from any graph that confirms the born sets: a call on a snapshot runs
   out of attempts if and only if as many of its tracks are blocked, that is, unknown and at
   or ahead of an unknown one that the graph holds. Otherwise it is written.
   */
  lemma ExhaustsExactly(c: Config, states: seq<Q.StateVector>, sourceRef: string, attempts: nat, born: Born, w: World)
    requires states != [] && BornIn(born, w.graph.Keys) && AllClean(w.faults) && |w.faults| >= attempts * |states|
    ensures var blocked := BlockedTracks(c, states, sourceRef, born, w.graph.Keys);
      var status := WriteJob(Q.JobOf(c, states, sourceRef), attempts, born, w).status;
      if attempts <= |blocked| then status.Exceeded? else status.Written?
  {
    hide WriteJob, Job.Valid, CreateIncludesUpdate, RefsOf, HasUpdate, Q.JobOf, Blocked;
    Q.JobIsSound(c, states, sourceRef);
    SnapshotHasUpdate(c, states, sourceRef);
    GivingUpExactly(Q.JobOf(c, states, sourceRef), attempts, born, w);
  }

  /**
   Called again with clean answers until it is written, a snapshot exhausts exactly one call
   for every four blocked tracks, so at most one for every four states, and no call fails in
   any other way.
   */
  lemma WrittenAfterExactly(c: Config, states: seq<Q.StateVector>, sourceRef: string, born: Born, g: Graph, n: nat)
    requires states != [] && BornIn(born, g.Keys)
    ensures var blocked := |BlockedTracks(c, states, sourceRef, born, g.Keys)|;
      var status := CallAfter(Q.JobOf(c, states, sourceRef), ATTEMPTS, born, g, n).status;
      blocked <= |states|
      && (n < blocked / 4 ==> status.Exceeded?)
      && (n == blocked / 4 ==> status.Written?)
  {
    hide CallAfter, Job.Valid, CreateIncludesUpdate, RefsOf, HasUpdate, Q.JobOf, Blocked;
    var job := Q.JobOf(c, states, sourceRef);
    Q.JobIsSound(c, states, sourceRef);
    SnapshotHasUpdate(c, states, sourceRef);
    BlockedIsUnborn(job.intents, born, g.Keys);
    SubsetSize(Blocked(job.intents, born, g.Keys), RefsOf(job.intents));
    BirthProtocol.WrittenAfterExactly(job, ATTEMPTS, born, g, n);
  }

  // ---------- One known aircraft is enough ----------

  predicate DistinctTracks(c: Config, states: seq<Q.StateVector>) {
    forall i, j :: 0 <= i < j < |states| ==> Q.TrackId(c, states[i].icao24) != Q.TrackId(c, states[j].icao24)
  }

  lemma {:induction false} DistinctRefs(intents: seq<Intent>)
    requires forall i, j :: 0 <= i < j < |intents| ==> intents[i].ref != intents[j].ref
    ensures |RefsOf(intents)| == |intents|
  {
    if intents == [] {
      NoIntents({});
    } else {
      var n := |intents| - 1;
      DistinctRefs(intents[1..]);
      RefsOfHead(intents);
      assert intents[0].ref !in RefsOf(intents[1..]);
    }
  }

  lemma SnapshotRefs(c: Config, states: seq<Q.StateVector>, sourceRef: string)
    requires DistinctTracks(c, states)
    ensures var intents := Q.JobOf(c, states, sourceRef).intents;
      |intents| == |states| == |RefsOf(intents)|
      && (forall i :: 0 <= i < |states| ==> intents[i].ref == Ref(Track, Q.TrackId(c, states[i].icao24)))
      && (states != [] ==> intents[|states| - 1].ref !in RefsOf(intents[..|states| - 1]))
  {
    hide Concat, Q.PartsOf, Q.TrackId, Q.TrackTriples, RefsOf;
    var intents := Q.JobOf(c, states, sourceRef).intents;
    Q.ConcatOfOnes(c, Q.SourceStates(states, sourceRef));
    DistinctRefs(intents);
    if states != [] {
      NotAmong(intents[..|states| - 1], intents[|states| - 1].ref);
    }
  }

  lemma NotAmong(intents: seq<Intent>, r: Ref)
    requires forall i :: 0 <= i < |intents| ==> intents[i].ref != r
    ensures r !in RefsOf(intents)
  {}

  /**
   A writer that knows nothing meets a snapshot of different aircraft whose last one, and no
   other, is in the graph. What it creates ahead of that conflict it does not remember, so
   every aircraft costs an attempt, and four aircraft exhaust the call.
   */
  lemma OneKnownAircraftIsEnough(c: Config, states: seq<Q.StateVector>, sourceRef: string, w: World)
    requires |states| >= ATTEMPTS && DistinctTracks(c, states) && AllClean(w.faults) && |w.faults| >= ATTEMPTS * |states|
    requires w.graph.Keys == {Q.TrackId(c, states[|states| - 1].icao24)}
    ensures |BlockedTracks(c, states, sourceRef, {}, w.graph.Keys)| == |states|
    ensures WriteJob(Q.JobOf(c, states, sourceRef), ATTEMPTS, {}, w).status.Exceeded?
  {
    hide WriteJob, RefsOf, Q.JobOf, Q.TrackId, Blocked, DistinctTracks;
    var intents := Q.JobOf(c, states, sourceRef).intents;
    SnapshotRefs(c, states, sourceRef);
    assert Conflicts(intents, {}, w.graph.Keys, |intents| - 1);
    LastKnownBlocksAll(intents, {}, w.graph.Keys);
    assert RefsOf(intents) - {} == RefsOf(intents);
    ExhaustsExactly(c, states, sourceRef, ATTEMPTS, {}, w);
  }

  function Aircraft(icao24: string): Q.StateVector {
    Q.StateVector(icao24, None, None, 1, None, None, false, None, None, None, None)
  }

  const FOUR_AIRCRAFT := [Aircraft("a"), Aircraft("b"), Aircraft("c"), Aircraft("d")]

  lemma FourAreDistinct(c: Config)
    ensures DistinctTracks(c, FOUR_AIRCRAFT) && Q.AllValid(Q.SourceStates(FOUR_AIRCRAFT, ""))
  {
    hide Q.TrackId, TrimSpace;
    forall i, j | 0 <= i < j < |FOUR_AIRCRAFT|
      ensures Q.TrackId(c, FOUR_AIRCRAFT[i].icao24) != Q.TrackId(c, FOUR_AIRCRAFT[j].icao24)
    {
      LettersDiffer(c, FOUR_AIRCRAFT[i].icao24, FOUR_AIRCRAFT[j].icao24);
    }
    forall i | 0 <= i < |FOUR_AIRCRAFT|
      ensures TrimSpace(FOUR_AIRCRAFT[i].icao24) != ""
    {
      LettersStay(FOUR_AIRCRAFT[i].icao24);
    }
  }

  /** Such a snapshot: four valid states, of which the graph holds the last one's track. */
  lemma FourAircraftExhaust(c: Config, w: World)
    requires w.graph.Keys == {Q.TrackId(c, "d")} && AllClean(w.faults) && |w.faults| >= 16
    ensures Q.AllValid(Q.SourceStates(FOUR_AIRCRAFT, ""))
    ensures WriteJob(Q.JobOf(c, FOUR_AIRCRAFT, ""), ATTEMPTS, {}, w).status.Exceeded?
  {
    hide WriteJob, Q.JobOf, Q.TrackId, DistinctTracks, BlockedTracks;
    FourAreDistinct(c);
    OneKnownAircraftIsEnough(c, FOUR_AIRCRAFT, "", w);
  }

  predicate IsLetter(s: string) {
    |s| == 1 && 'a' <= s[0] <= 'z'
  }

  lemma LettersStay(s: string)
    requires IsLetter(s)
    ensures EntityToken(s) == s && TrimSpace(s) == s
  {
    hide EntityToken;
    TokensAreFixed(s);
    TokensAreTrimmed(s);
  }

  lemma LettersDiffer(c: Config, s: string, t: string)
    requires IsLetter(s) && IsLetter(t) && s != t
    ensures Q.TrackId(c, s) != Q.TrackId(c, t)
  {
    hide EntityToken, TrimSpace;
    LettersStay(s);
    LettersStay(t);
    Q.AircraftShareExactly(c, s, t);
  }
}
