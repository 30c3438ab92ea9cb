/**
 writePlan of the CAP projector component (internal/components/cap/components.go), whose
 number of attempts comes from the configuration.
 */
module CapComponent {
  import opened Checksum
  import opened GraphService
  import opened BirthProtocol
  import opened AsIfOnce
  import opened Projection
  import Q = CapProjector

  class Component {
    const projector: Q.Projector
    const writer: GraphWriter
    const writeRetries: int

    constructor (projector: Q.Projector, writer: GraphWriter, writeRetries: int)
      ensures this.projector == projector && this.writer == writer && this.writeRetries == Configured(writeRetries)
    {
      this.projector, this.writer := projector, writer;
      this.writeRetries := if writeRetries == 0 then 4 else writeRetries;
    }

    /** Applies the plan of an alert; a conflict teaches its birth, after which the alert is projected again. */
    method WritePlan(alert: Q.Alert, sourceRef: string, plan: Plan) returns (status: Status)
      requires alert.Valid()
      requires plan == PlanOf(Q.JobOf(projector.config, Q.SourceAlert(alert, sourceRef)).intents, projector.Born())
      modifies projector, writer.service
      ensures Outcome(projector.Born(), writer.service.State(), status)
           == WriteJob(Q.JobOf(projector.config, Q.SourceAlert(alert, sourceRef)), Attempts(writeRetries),
                       old(projector.Born()), old(writer.service.State()))
    {
      hide Q.HazardIntent, ApplyPlan, PlanOf, EntityAlreadyExists, Tagged, Q.Alert.Valid, Q.HazardId, SoundJob;
      ghost var source := Q.SourceAlert(alert, sourceRef);
      ghost var job := Q.JobOf(projector.config, source);
      var attempts := writeRetries;
      if attempts <= 0 {
        attempts := 1;
      }
      var current := plan;
      for attempt := 0 to attempts
        invariant current == PlanOf(job.intents, projector.Born())
        invariant WriteLoop(job, attempts - attempt, projector.Born(), current, writer.service.State())
               == WriteJob(job, attempts, old(projector.Born()), old(writer.service.State()))
      {
        var err := writer.Apply(current);
        if err.None? {
          OwnBirthsOf(projector.config, source, projector.Born());
          var marked := projector.MarkBornForPlan(current);
          return Written(|current|);
        }
        var entityId := EntityAlreadyExists(err.value);
        if entityId.None? {
          return Failed(|current|, err.value);
        }
        MarkedOfOne(Ref(Hazard, Q.HazardId(projector.config, alert.identifier)), entityId.value);
        PlusMoves(projector.Born(), {}, Marked(job.markable, entityId.value));
        var known := projector.MarkBornForAlert(alert, entityId.value);
        if !known {
          return Failed(|current|, err.value);
        }
        var next := projector.ProjectAlert(alert, sourceRef);
        current := next.value;
        if current == [] {
          return Written(0);
        }
      }
      status := Exceeded(|current|);
    }
  }

  lemma OwnBirthsOf(c: Config, s: Q.SourceAlert, born: Born)
    ensures BirthsAs(PlanOf(Q.JobOf(c, s).intents, born), Hazard) == CreatedBy(PlanOf(Q.JobOf(c, s).intents, born))
  {
    hide PlanOf, CreatedBy, BirthsAs, Q.EvidenceTriples, Q.HazardId, CreateIncludesUpdate;
    Q.JobIsSound(c, s);
    OwnBirthsAs(Q.JobOf(c, s).intents, born, Hazard);
  }

  /** With two attempts or more an alert never runs out of them, whatever the graph answers. */
  lemma RetryLimitIsUnreachable(c: Config, s: Q.SourceAlert, writeRetries: int, born: Born, w: World)
    requires writeRetries >= 2
    ensures !WriteJob(Q.JobOf(c, s), Attempts(writeRetries), born, w).status.Exceeded?
  {
    hide WriteJob, Job.Valid, CreateIncludesUpdate, Q.JobOf;
    Q.JobIsSound(c, s);
    NeverGivesUp(Q.JobOf(c, s), Attempts(writeRetries), born, w);
  }

  /**
   With clean answers, from any graph that confirms the born set: attempts run out if and
   only if there is a single one and the hazard is in the graph without being known.
   */
  lemma ExhaustsExactly(c: Config, s: Q.SourceAlert, writeRetries: int, born: Born, w: World)
    requires BornIn(born, w.graph.Keys) && AllClean(w.faults) && |w.faults| >= Attempts(writeRetries)
    ensures var status := WriteJob(Q.JobOf(c, s), Attempts(writeRetries), born, w).status;
      var id := Q.HazardId(c, s.alert.identifier);
      if writeRetries <= 1 && id in w.graph && Ref(Hazard, id) !in born then status.Exceeded? else status.Written?
  {
    hide WriteJob, Job.Valid, CreateIncludesUpdate, Q.EvidenceTriples, Q.HazardId, RefsOf, AllClean, Blocked;
    var job := Q.JobOf(c, s);
    Q.JobIsSound(c, s);
    assert job.intents[0].update.Some?;
    BlockedLone(job.intents[0], born, w.graph.Keys);
    GivingUpExactly(job, Attempts(writeRetries), born, w);
  }
}
