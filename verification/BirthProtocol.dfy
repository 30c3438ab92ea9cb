/**
 The born-first write protocol that all four feeds follow: project an input into creates
 for what is not born yet and updates for the rest, apply the plan, and when the graph
 answers that an entity exists, remember it as born, project again and retry.

 A projection is described by its intents, one per entity it touches, in order. The
 projector classes are proved to produce PlanOf their intents, and the adapters'
 writePlan loops to compute WriteLoop; the theorems here are about those two functions.
 */
module BirthProtocol {
  import opened Checksum
  import opened Cop
  import opened GraphService

  datatype Kind = Asset | Track | Task | Advisory | Hazard | OtherKind

  /** An entity as a projector's born sets know it. */
  datatype Ref = Ref(kind: Kind, id: string)

  type Born = set<Ref>

  function KindOf(messageType: string): Kind {
    if messageType == SourceAssetContract().messageType then Asset
    else if messageType == MavlinkTrackContract().messageType then Track
    else if messageType == TakTrackContract().messageType then Track
    else if messageType == AdsbTrackContract().messageType then Track
    else if messageType == TakTaskContract().messageType then Task
    else if messageType == TakAdvisoryContract().messageType then Advisory
    else if messageType == CapHazardEvidenceContract().messageType then Hazard
    else OtherKind
  }

  /** The kind of entity that the type segment of an id announces. */
  function KindOfId(id: string): Kind {
    var entityType := TypeOfId(id);
    if entityType == ENTITY_ASSET then Asset
    else if entityType == ENTITY_TRACK then Track
    else if entityType == ENTITY_TASK then Task
    else if entityType == ENTITY_ADVISORY then Advisory
    else if entityType == ENTITY_HAZARD_AREA then Hazard
    else OtherKind
  }

  /** One entity of a projection: how it is born, and what a born one is updated with, if anything. */
  datatype Intent = Intent(ref: Ref, create: Mutation, update: Option<Mutation>) {
    predicate WellFormed() {
      create.Create? && create.id == ref.id && KindOf(create.messageType) == ref.kind
      && KindOfId(ref.id) == ref.kind && ref.id != ""
      && (update.Some? ==> update.value.Update? && update.value.id == ref.id)
    }
  }

  function Step(i: Intent, born: Born): Plan {
    if i.ref !in born then [i.create]
    else if i.update.Some? then [i.update.value]
    else []
  }

  /** The plan for intents, births in this plan counting as born for what follows. */
  function PlanOf(intents: seq<Intent>, born: Born): Plan {
    if intents == [] then []
    else Step(intents[0], born) + PlanOf(intents[1..], born + {intents[0].ref})
  }

  function RefsOf(intents: seq<Intent>): Born {
    set i | 0 <= i < |intents| :: intents[i].ref
  }

  /** The entities a plan creates, as MarkBornForPlan marks them. */
  function CreatedBy(plan: Plan): Born {
    set i | 0 <= i < |plan| && plan[i].Create? :: Ref(KindOf(plan[i].messageType), plan[i].id)
  }

  predicate AllWellFormed(intents: seq<Intent>) {
    forall i <- intents :: i.WellFormed()
  }

  /** An input on its way to the graph: its intents, and the entities whose births it may learn of. */
  datatype Job = Job(intents: seq<Intent>, markable: seq<Ref>) {
    ghost predicate Valid() {
      AllWellFormed(intents)
      && (forall r <- RefsOf(intents) :: Marked(markable, r.id) == Some(r))
      && EdgesBornFirst(intents)
    }
  }

  /** The first markable entity with the given id (MarkBornForPacket, -Event, -State, -Alert). */
  function Marked(markable: seq<Ref>, id: string): Option<Ref> {
    if markable == [] then None
    else if markable[0].id == id then Some(markable[0])
    else Marked(markable[1..], id)
  }

  /** Everything remembered as born is among the given ids. */
  ghost predicate BornIn(born: Born, ids: set<string>) {
    forall r <- born :: r.id in ids
  }

  /** The entities that the strict foreign edges among the triples point at. */
  function EdgeTargets(triples: seq<Triple>): set<string> {
    set i | 0 <= i < |triples| && triples[i].predicate_ == TrackSource && triples[i].object_.Link? :: triples[i].object_.target
  }

  /** A create only points at assets that an earlier intent makes sure of; an update points nowhere. */
  ghost predicate EdgesBornFirst(intents: seq<Intent>) {
    forall k :: 0 <= k < |intents| ==>
      (forall t <- EdgeTargets(intents[k].create.triples) :: Ref(Asset, t) in RefsOf(intents[..k]))
      && (intents[k].update.Some? ==> EdgeTargets(intents[k].update.value.triples) == {})
  }

  // ---------- Plans ----------

  lemma RefsOfHead(intents: seq<Intent>)
    requires intents != []
    ensures RefsOf(intents) == {intents[0].ref} + RefsOf(intents[1..])
  {
    forall r | r in RefsOf(intents)
      ensures r in {intents[0].ref} + RefsOf(intents[1..])
    {
      var i :| 0 <= i < |intents| && intents[i].ref == r;
      if i > 0 {
        assert intents[1..][i - 1].ref == r;
      }
    }
    forall r | r in RefsOf(intents[1..])
      ensures r in RefsOf(intents)
    {
      var i :| 0 <= i < |intents[1..]| && intents[1..][i].ref == r;
      assert intents[i + 1].ref == r;
    }
  }

  lemma CreatedByAppend(p: Plan, q: Plan)
    ensures CreatedBy(p + q) == CreatedBy(p) + CreatedBy(q)
  {
    forall r | r in CreatedBy(p) + CreatedBy(q)
      ensures r in CreatedBy(p + q)
    {
      if r in CreatedBy(p) {
        var i :| 0 <= i < |p| && p[i].Create? && Ref(KindOf(p[i].messageType), p[i].id) == r;
        assert (p + q)[i] == p[i];
      } else {
        var i :| 0 <= i < |q| && q[i].Create? && Ref(KindOf(q[i].messageType), q[i].id) == r;
        assert (p + q)[|p| + i] == q[i];
      }
    }
  }

  lemma CreatedByStep(i: Intent, born: Born)
    requires i.WellFormed()
    ensures CreatedBy(Step(i, born)) == {i.ref} - born
  {
    hide KindOfId, KindOf;
    var plan := Step(i, born);
    if i.ref !in born {
      assert plan[0] == i.create;
    }
  }

  /** The births of a plan are exactly the entities of its intents that were not born before. */
  lemma {:induction false} PlanCreates(intents: seq<Intent>, born: Born)
    requires AllWellFormed(intents)
    ensures CreatedBy(PlanOf(intents, born)) == RefsOf(intents) - born
  {
    if intents != [] {
      var first, rest := intents[0], intents[1..];
      PlanCreates(rest, born + {first.ref});
      CreatedByAppend(Step(first, born), PlanOf(rest, born + {first.ref}));
      CreatedByStep(first, born);
      RefsOfHead(intents);
    }
  }

  lemma {:induction false} PlanOfAppend(a: seq<Intent>, b: seq<Intent>, born: Born)
    ensures PlanOf(a + b, born) == PlanOf(a, born) + PlanOf(b, born + RefsOf(a))
    ensures RefsOf(a + b) == RefsOf(a) + RefsOf(b)
  {
    hide Step;
    if a == [] {
      assert a + b == b;
      assert born + RefsOf(a) == born;
    } else {
      var first, rest := a[0], a[1..];
      assert (a + b)[1..] == rest + b;
      PlanOfAppend(rest, b, born + {first.ref});
      RefsOfHead(a);
      RefsOfHead(a + b);
      assert born + RefsOf(a) == born + {first.ref} + RefsOf(rest);
    }
  }

  /** Projecting a batch is projecting its parts one after another, marking births in between. */
  lemma BatchIsSequential(a: seq<Intent>, b: seq<Intent>, born: Born)
    requires AllWellFormed(a)
    ensures PlanOf(a + b, born) == PlanOf(a, born) + PlanOf(b, born + CreatedBy(PlanOf(a, born)))
  {
    PlanOfAppend(a, b, born);
    PlanCreates(a, born);
    assert born + (RefsOf(a) - born) == born + RefsOf(a);
  }

  /** The intents of a batch of inputs. */
  function Concat(parts: seq<seq<Intent>>): seq<Intent> {
    if parts == [] then [] else Concat(parts[..|parts| - 1]) + parts[|parts| - 1]
  }

  /** Projecting inputs one at a time, marking the births of each plan before the next. */
  function OneByOne(parts: seq<seq<Intent>>, born: Born): (Plan, Born)
    decreases |parts|
  {
    if parts == [] then ([], born)
    else
      var (plan, now) := OneByOne(parts[..|parts| - 1], born);
      var next := PlanOf(parts[|parts| - 1], now);
      (plan + next, now + CreatedBy(next))
  }

  /** A batch is projected to exactly what its inputs give one by one. */
  lemma {:induction false} BatchIsOneByOne(parts: seq<seq<Intent>>, born: Born)
    requires forall p <- parts :: AllWellFormed(p)
    ensures OneByOne(parts, born) == (PlanOf(Concat(parts), born), born + RefsOf(Concat(parts)))
    decreases |parts|
  {
    hide AllWellFormed, CreatedBy, RefsOf;
    if parts == [] {
      NoIntents(born);
    } else {
      var init, last := parts[..|parts| - 1], parts[|parts| - 1];
      BatchIsOneByOne(init, born);
      PlanOfAppend(Concat(init), last, born);
      PlanCreates(last, born + RefsOf(Concat(init)));
      assert last in parts;
      var now := born + RefsOf(Concat(init));
      assert now + (RefsOf(last) - now) == born + (RefsOf(Concat(init)) + RefsOf(last));
    }
  }

  predicate CreatesDistinct(plan: Plan) {
    forall i, j :: 0 <= i < j < |plan| && plan[i].Create? && plan[j].Create? ==>
      Ref(KindOf(plan[i].messageType), plan[i].id) != Ref(KindOf(plan[j].messageType), plan[j].id)
  }

  lemma {:induction false} ConcatIsWellFormed(parts: seq<seq<Intent>>)
    requires forall p <- parts :: AllWellFormed(p)
    ensures AllWellFormed(Concat(parts))
    decreases |parts|
  {
    hide KindOf, KindOfId, Intent.WellFormed;
    if parts != [] {
      var n := |parts| - 1;
      ConcatIsWellFormed(parts[..n]);
      assert parts[n] in parts;
    }
  }

  /** What a projector's batch owes: the plans of its inputs one by one, and no entity created twice. */
  ghost predicate FaithfulBatch(parts: seq<seq<Intent>>, born: Born) {
    OneByOne(parts, born) == (PlanOf(Concat(parts), born), born + RefsOf(Concat(parts)))
    && CreatesDistinct(PlanOf(Concat(parts), born))
  }

  lemma BatchIsFaithful(parts: seq<seq<Intent>>, born: Born)
    requires forall p <- parts :: AllWellFormed(p)
    ensures FaithfulBatch(parts, born)
  {
    hide AllWellFormed, OneByOne, PlanOf, Concat, KindOf;
    BatchIsOneByOne(parts, born);
    ConcatIsWellFormed(parts);
    CreatesAreDistinct(Concat(parts), born);
  }

  lemma NoIntents(born: Born)
    ensures PlanOf([], born) == [] && RefsOf([]) == {} && born + RefsOf([]) == born
  {}

  /** No entity is created twice in a plan, and none that is born already. */
  lemma {:induction false} CreatesAreDistinct(intents: seq<Intent>, born: Born)
    requires AllWellFormed(intents)
    ensures CreatesDistinct(PlanOf(intents, born))
  {
    hide KindOfId, KindOf;
    if intents != [] {
      var first, rest := intents[0], intents[1..];
      var tail := PlanOf(rest, born + {first.ref});
      CreatesAreDistinct(rest, born + {first.ref});
      PlanCreates(rest, born + {first.ref});
      assert first.WellFormed();
      forall j | 0 <= j < |tail| && tail[j].Create?
        ensures Ref(KindOf(tail[j].messageType), tail[j].id) != first.ref
      {
        assert Ref(KindOf(tail[j].messageType), tail[j].id) in CreatedBy(tail);
      }
    }
  }

  // ---------- The retry loop ----------

  lemma {:induction false} MarkedHasId(markable: seq<Ref>, id: string)
    ensures Marked(markable, id).Some? ==> Marked(markable, id).value.id == id
  {
    if markable != [] {
      MarkedHasId(markable[1..], id);
    }
  }

  datatype Status =
    | Written(mutations: nat)
    | Failed(mutations: nat, err: WriteError)
    | Exceeded(mutations: nat)

  /** The number of retries that a component works with, given the configured one. */
  function Configured(writeRetries: int): int {
    if writeRetries == 0 then 4 else writeRetries
  }

  /** The attempts that this number allows. */
  function Attempts(writeRetries: int): nat {
    if writeRetries <= 0 then 1 else writeRetries
  }

  datatype Outcome = Outcome(born: Born, world: World, status: Status)

  /** What writePlan does with `attempts` tries left, a plan in hand and the born sets as they stand. */
  function WriteLoop(job: Job, attempts: nat, born: Born, plan: Plan, w: World): Outcome {
    if attempts == 0 then Outcome(born, w, Exceeded(|plan|))
    else
      var (after, err) := ApplyPlan(w, plan);
      if err.None? then Outcome(born + CreatedBy(plan), after, Written(|plan|))
      else
        var id := EntityAlreadyExists(err.value);
        var ref := if id.Some? then Marked(job.markable, id.value) else None;
        if ref.None? then Outcome(born, after, Failed(|plan|, err.value))
        else
          var next := PlanOf(job.intents, born + {ref.value});
          if next == [] then Outcome(born + {ref.value}, after, Written(0))
          else WriteLoop(job, attempts - 1, born + {ref.value}, next, after)
  }

  function WriteJob(job: Job, attempts: nat, born: Born, w: World): Outcome {
    WriteLoop(job, attempts, born, PlanOf(job.intents, born), w)
  }

  /**
   The same loop where each projection may come out differently, because it reads a clock:
   jobs[0] gave the plan in hand and jobs[k] is what projecting for attempt k gives.
   */
  function WriteAttempts(jobs: seq<Job>, born: Born, plan: Plan, w: World): Outcome
    requires jobs != []
    decreases |jobs|
  {
    if |jobs| == 1 then Outcome(born, w, Exceeded(|plan|))
    else
      var (after, err) := ApplyPlan(w, plan);
      if err.None? then Outcome(born + CreatedBy(plan), after, Written(|plan|))
      else
        var id := EntityAlreadyExists(err.value);
        var ref := if id.Some? then Marked(jobs[0].markable, id.value) else None;
        if ref.None? then Outcome(born, after, Failed(|plan|, err.value))
        else
          var next := PlanOf(jobs[1].intents, born + {ref.value});
          if next == [] then Outcome(born + {ref.value}, after, Written(0))
          else WriteAttempts(jobs[1..], born + {ref.value}, next, after)
  }

  /** Where all projections agree it is the loop over one job. */
  lemma {:induction false} OneJobAtAllAttempts(jobs: seq<Job>, born: Born, plan: Plan, w: World)
    requires jobs != [] && forall k :: 0 <= k < |jobs| ==> jobs[k] == jobs[0]
    ensures WriteAttempts(jobs, born, plan, w) == WriteLoop(jobs[0], |jobs| - 1, born, plan, w)
    decreases |jobs|
  {
    hide ApplyPlan, PlanOf, Marked, CreatedBy;
    if |jobs| > 1 {
      var (after, err) := ApplyPlan(w, plan);
      if err.Some? && EntityAlreadyExists(err.value).Some? {
        var ref := Marked(jobs[0].markable, EntityAlreadyExists(err.value).value);
        if ref.Some? {
          OneJobAtAllAttempts(jobs[1..], born + {ref.value}, PlanOf(jobs[1].intents, born + {ref.value}), after);
        }
      }
    }
  }

  /** A conflict names a create of the plan. */
  lemma {:induction false} ConflictNamesACreate(w: World, plan: Plan) returns (i: nat)
    requires ApplyPlan(w, plan).1.Some? && EntityAlreadyExists(ApplyPlan(w, plan).1.value).Some?
    ensures i < |plan| && plan[i].Create? && plan[i].id == EntityAlreadyExists(ApplyPlan(w, plan).1.value).value
    decreases |plan|
  {
    hide Deliver;
    var (graph, reply) := Deliver(w.graph, plan[0], w.faults[0]);
    if reply.Success? {
      var j := ConflictNamesACreate(World(graph, w.faults[1..]), plan[1..]);
      i := j + 1;
    } else {
      i := 0;
    }
  }

  /** Every conflict the adapter accepts teaches it a birth it did not know. */
  lemma ConflictTeaches(job: Job, born: Born, w: World) returns (ref: Ref)
    requires job.Valid()
    requires var err := ApplyPlan(w, PlanOf(job.intents, born)).1; err.Some? && EntityAlreadyExists(err.value).Some?
    ensures var err := ApplyPlan(w, PlanOf(job.intents, born)).1;
      Marked(job.markable, EntityAlreadyExists(err.value).value) == Some(ref)
    ensures ref in RefsOf(job.intents) - born
  {
    hide KindOfId, KindOf, ApplyPlan, EdgesBornFirst;
    var plan := PlanOf(job.intents, born);
    var i := ConflictNamesACreate(w, plan);
    PlanCreates(job.intents, born);
    ref := Ref(KindOf(plan[i].messageType), plan[i].id);
    assert ref in CreatedBy(plan);
  }

  /** Whatever the graph answers: births are only learnt from the job, and giving up costs one new birth per attempt. */
  lemma {:induction false} GivingUpTeaches(job: Job, attempts: nat, born: Born, w: World)
    requires job.Valid()
    ensures var o := WriteJob(job, attempts, born, w);
      born <= o.born <= born + RefsOf(job.intents)
      && (o.status.Exceeded? ==> |o.born| == |born| + attempts)
    decreases attempts
  {
    hide ApplyPlan, KindOf, EdgesBornFirst, Marked;
    if attempts > 0 {
      var plan := PlanOf(job.intents, born);
      var (after, err) := ApplyPlan(w, plan);
      PlanCreates(job.intents, born);
      if err.Some? && EntityAlreadyExists(err.value).Some? {
        var ref := ConflictTeaches(job, born, w);
        if PlanOf(job.intents, born + {ref}) != [] {
          GivingUpTeaches(job, attempts - 1, born + {ref}, after);
        }
      }
    }
  }

  /** The same for projections that differ in content but concern the same entities. */
  lemma {:induction false} VaryingJobsTeach(jobs: seq<Job>, refs: Born, born: Born, w: World)
    requires jobs != [] && forall k :: 0 <= k < |jobs| ==> jobs[k].Valid() && RefsOf(jobs[k].intents) == refs
    ensures var o := WriteAttempts(jobs, born, PlanOf(jobs[0].intents, born), w);
      born <= o.born <= born + refs && (o.status.Exceeded? ==> |o.born| == |born| + |jobs| - 1)
    decreases |jobs|
  {
    hide ApplyPlan, KindOf, EdgesBornFirst, Marked, Job.Valid, RefsOf;
    if |jobs| > 1 {
      var plan := PlanOf(jobs[0].intents, born);
      var (after, err) := ApplyPlan(w, plan);
      BirthsOfJob(jobs[0], born);
      if err.Some? && EntityAlreadyExists(err.value).Some? {
        var ref := ConflictTeaches(jobs[0], born, w);
        if PlanOf(jobs[1].intents, born + {ref}) != [] {
          VaryingJobsTeach(jobs[1..], refs, born + {ref}, after);
        }
      }
    }
  }

  lemma BirthsOfJob(job: Job, born: Born)
    requires job.Valid()
    ensures CreatedBy(PlanOf(job.intents, born)) == RefsOf(job.intents) - born
  {
    hide KindOf, EdgesBornFirst, CreatedBy, RefsOf;
    PlanCreates(job.intents, born);
  }

  lemma SubsetSize<T>(s: set<T>, t: set<T>)
    requires s <= t
    ensures |s| <= |t| && |t - s| == |t| - |s|
  {
    assert t == s + (t - s);
  }

  /** The loop gives up only if it started with at least as many unknown births as attempts. */
  lemma GivingUpNeedsUnknownBirths(job: Job, attempts: nat, born: Born, w: World)
    requires job.Valid() && WriteJob(job, attempts, born, w).status.Exceeded?
    ensures attempts <= |RefsOf(job.intents) - born|
  {
    hide WriteJob;
    GivingUpTeaches(job, attempts, born, w);
    var o := WriteJob(job, attempts, born, w);
    var learnt := o.born - born;
    SubsetSize(born, o.born);
    SubsetSize(learnt, RefsOf(job.intents) - born);
  }

  /** With more attempts than entities, giving up is unreachable under any answers. */
  lemma NeverGivesUp(job: Job, attempts: nat, born: Born, w: World)
    requires job.Valid() && |RefsOf(job.intents)| < attempts
    ensures !WriteJob(job, attempts, born, w).status.Exceeded?
  {
    if WriteJob(job, attempts, born, w).status.Exceeded? {
      GivingUpNeedsUnknownBirths(job, attempts, born, w);
      SubsetSize(RefsOf(job.intents) - born, RefsOf(job.intents));
    }
  }

  // ---------- Repeated calls ----------

  /** The born sets and the number of calls that gave up, after calls on one job, each in its own world. */
  function RepeatedCalls(job: Job, attempts: nat, born: Born, worlds: seq<World>): (Born, nat)
    decreases |worlds|
  {
    if worlds == [] then (born, 0)
    else
      var o := WriteJob(job, attempts, born, worlds[0]);
      var (final, given) := RepeatedCalls(job, attempts, o.born, worlds[1..]);
      (final, given + if o.status.Exceeded? then 1 else 0)
  }

  /** One more call goes on from the births that the calls before it left behind. */
  lemma {:induction false} CallsAddUp(job: Job, attempts: nat, born: Born, worlds: seq<World>, w: World)
    ensures var (known, given) := RepeatedCalls(job, attempts, born, worlds);
      var o := WriteJob(job, attempts, known, w);
      RepeatedCalls(job, attempts, born, worlds + [w]) == (o.born, given + if o.status.Exceeded? then 1 else 0)
    decreases |worlds|
  {
    hide WriteJob;
    if worlds == [] {
      assert [w][1..] == [];
      var o := WriteJob(job, attempts, born, w);
      assert RepeatedCalls(job, attempts, o.born, []) == (o.born, 0);
      assert [] + [w] == [w];
    } else {
      assert (worlds + [w])[1..] == worlds[1..] + [w];
      CallsAddUp(job, attempts, WriteJob(job, attempts, born, worlds[0]).born, worlds[1..], w);
    }
  }

  /** However often a job is retried, its calls give up at most once per `attempts` unknown births. */
  lemma {:induction false} GivingUpIsBounded(job: Job, attempts: nat, born: Born, worlds: seq<World>)
    requires job.Valid()
    ensures var (final, given) := RepeatedCalls(job, attempts, born, worlds);
      born <= final <= born + RefsOf(job.intents) && given * attempts <= |RefsOf(job.intents) - born|
    decreases |worlds|
  {
    hide WriteJob, Job.Valid;
    var refs := RefsOf(job.intents);
    if worlds != [] {
      var o := WriteJob(job, attempts, born, worlds[0]);
      GivingUpTeaches(job, attempts, born, worlds[0]);
      GivingUpIsBounded(job, attempts, o.born, worlds[1..]);
      assert refs - born == (refs - o.born) + (o.born - born);
      SubsetSize(born, o.born);
      assert |refs - born| == |refs - o.born| + (|o.born| - |born|);
    }
  }

  // ---------- Exactly when the loop gives up ----------

  /**
   The births that clean answers make the loop learn one at a time: the unborn entities up
   to the last of them that the graph holds. What is created ahead of a conflict is not
   remembered, so it becomes a conflict itself.
   */
  function Blocked(intents: seq<Intent>, born: Born, ids: set<string>): Born {
    if intents == [] then {}
    else
      var r := intents[0].ref;
      var rest := Blocked(intents[1..], born + {r}, ids);
      if r in born then rest
      else if rest != {} || r.id in ids then {r} + rest
      else {}
  }

  /** Intent j is the first about its entity, which is not born yet. */
  predicate IsBirth(intents: seq<Intent>, born: Born, j: nat) {
    j < |intents| && intents[j].ref !in born && intents[j].ref !in RefsOf(intents[..j])
  }

  ghost predicate Conflicts(intents: seq<Intent>, born: Born, ids: set<string>, j: nat) {
    IsBirth(intents, born, j) && intents[j].ref.id in ids
  }

  /** The birth of r stands at or ahead of birth j. */
  ghost predicate BornBy(intents: seq<Intent>, born: Born, r: Ref, j: nat) {
    exists i: nat :: i <= j && i < |intents| && IsBirth(intents, born, i) && intents[i].ref == r
  }

  lemma BirthInTail(intents: seq<Intent>, born: Born, j: nat)
    requires j < |intents| - 1
    ensures IsBirth(intents, born, j + 1) <==> IsBirth(intents[1..], born + {intents[0].ref}, j)
  {
    var upTo := intents[..j + 1];
    assert upTo[0] == intents[0] && upTo[1..] == intents[1..][..j];
    RefsOfHead(upTo);
    assert intents[1..][j] == intents[j + 1];
  }

  lemma NoneBefore(intents: seq<Intent>, born: Born)
    requires intents != []
    ensures IsBirth(intents, born, 0) <==> intents[0].ref !in born
  {
    assert RefsOf(intents[..0]) == {};
  }

  lemma BirthsShift(intents: seq<Intent>, born: Born, ids: set<string>, r: Ref, j: nat)
    requires j < |intents| - 1
    ensures var (tail, more) := (intents[1..], born + {intents[0].ref});
      (Conflicts(intents, born, ids, j + 1) <==> Conflicts(tail, more, ids, j))
      && (BornBy(tail, more, r, j) ==> BornBy(intents, born, r, j + 1))
  {
    hide IsBirth;
    var tail, more := intents[1..], born + {intents[0].ref};
    BirthInTail(intents, born, j);
    if BornBy(tail, more, r, j) {
      var i: nat :| i <= j && i < |tail| && IsBirth(tail, more, i) && tail[i].ref == r;
      BirthInTail(intents, born, i);
      assert intents[i + 1].ref == r;
    }
  }

  /** Blocked without recursion: the births at or ahead of one that the graph holds already. */
  lemma {:induction false} BlockedIs(intents: seq<Intent>, born: Born, ids: set<string>, r: Ref)
    ensures r in Blocked(intents, born, ids) <==>
      exists j: nat :: Conflicts(intents, born, ids, j) && BornBy(intents, born, r, j)
    decreases |intents|
  {
    hide IsBirth;
    if intents == [] {
      NoBirths(intents, born);
    } else {
      if r in Blocked(intents, born, ids) {
        var j := BlockedHasConflict(intents, born, ids, r);
      }
      if j: nat :| Conflicts(intents, born, ids, j) && BornBy(intents, born, r, j) {
        ConflictBlocks(intents, born, ids, r, j);
      }
    }
  }

  lemma NoBirths(intents: seq<Intent>, born: Born)
    requires intents == []
    ensures forall j: nat :: !IsBirth(intents, born, j)
  {}

  lemma {:induction false} BlockedHasConflict(intents: seq<Intent>, born: Born, ids: set<string>, r: Ref) returns (j: nat)
    requires r in Blocked(intents, born, ids)
    ensures Conflicts(intents, born, ids, j) && BornBy(intents, born, r, j)
    decreases |intents|
  {
    hide IsBirth;
    var first, tail := intents[0].ref, intents[1..];
    var rest := Blocked(tail, born + {first}, ids);
    NoneBefore(intents, born);
    if first !in born && r == first && first.id in ids {
      return 0;
    }
    var q := if r in rest then r else var q :| q in rest; q;
    var k := BlockedHasConflict(tail, born + {first}, ids, q);
    BirthBounds(tail, born + {first}, k);
    BirthsShift(intents, born, ids, q, k);
    j := k + 1;
    if r !in rest {
      assert IsBirth(intents, born, 0) && intents[0].ref == r;
    }
  }

  lemma {:induction false} ConflictBlocks(intents: seq<Intent>, born: Born, ids: set<string>, r: Ref, j: nat)
    requires Conflicts(intents, born, ids, j) && BornBy(intents, born, r, j)
    ensures r in Blocked(intents, born, ids)
    decreases |intents|
  {
    hide IsBirth;
    var i: nat :| i <= j && i < |intents| && IsBirth(intents, born, i) && intents[i].ref == r;
    BirthBounds(intents, born, j);
    NoneBefore(intents, born);
    if j > 0 {
      var tail, more := intents[1..], born + {intents[0].ref};
      BirthsShift(intents, born, ids, r, j - 1);
      BirthInTail(intents, born, j - 1);
      assert tail[j - 1].ref == intents[j].ref;
      ConflictBlocks(tail, more, ids, intents[j].ref, j - 1);
      if i > 0 {
        BirthInTail(intents, born, i - 1);
        assert tail[i - 1].ref == r;
        ConflictBlocks(tail, more, ids, r, j - 1);
      }
    }
  }

  lemma BirthBounds(intents: seq<Intent>, born: Born, j: nat)
    requires IsBirth(intents, born, j)
    ensures j < |intents|
  {}

  /** Blocked births are unknown births. */
  lemma {:induction false} BlockedIsUnborn(intents: seq<Intent>, born: Born, ids: set<string>)
    ensures Blocked(intents, born, ids) <= RefsOf(intents) - born
  {
    if intents != [] {
      RefsOfHead(intents);
      BlockedIsUnborn(intents[1..], born + {intents[0].ref}, ids);
    }
  }

  /** One known entity at the end of an input blocks all unknown births of it. */
  lemma {:induction false} LastKnownBlocksAll(intents: seq<Intent>, born: Born, ids: set<string>)
    requires intents != [] && Conflicts(intents, born, ids, |intents| - 1)
    ensures Blocked(intents, born, ids) == RefsOf(intents) - born
    decreases |intents|
  {
    hide IsBirth;
    var first, tail, n := intents[0].ref, intents[1..], |intents| - 1;
    RefsOfHead(intents);
    NoneBefore(intents, born);
    if n == 0 {
      NoIntents(born);
      assert tail == [];
    } else {
      BirthsShift(intents, born, ids, first, n - 1);
      BirthInTail(intents, born, n - 1);
      LastKnownBlocksAll(tail, born + {first}, ids);
      LastIsBlocked(tail, born + {first});
    }
  }

  lemma LastIsBlocked(intents: seq<Intent>, born: Born)
    requires intents != [] && IsBirth(intents, born, |intents| - 1)
    ensures RefsOf(intents) - born != {}
  {
    assert intents[|intents| - 1].ref in RefsOf(intents) - born;
  }

  /** Entities that are born already do not conflict. */
  lemma {:induction false} BornDoNotBlock(intents: seq<Intent>, born: Born, ids: set<string>, r: Ref)
    requires AllWellFormed(intents) && r in born && r.kind == KindOfId(r.id)
    ensures Blocked(intents, born, ids + {r.id}) == Blocked(intents, born, ids)
    decreases |intents|
  {
    hide KindOf, KindOfId;
    if intents != [] {
      assert intents[0].WellFormed();
      BornDoNotBlock(intents[1..], born + {intents[0].ref}, ids, r);
    }
  }

  predicate AllClean(faults: seq<Fault>) {
    forall f <- faults :: f == Clean
  }

  lemma CleanTail(faults: seq<Fault>)
    requires AllClean(faults) && faults != []
    ensures faults[0] == Clean && AllClean(faults[1..])
  {
    assert faults[0] in faults && forall f <- faults[1..] :: f in faults;
  }

  /**
   One clean run over a plan: it goes through exactly when nothing is blocked, and otherwise
   its conflict names one blocked birth, and learning that one leaves the others blocked.
   */
  lemma {:induction false} CleanApply(intents: seq<Intent>, born: Born, w: World) returns (ref: Ref)
    requires AllWellFormed(intents) && BornIn(born, w.graph.Keys) && AllClean(w.faults) && |w.faults| >= |intents|
    ensures var (after, err) := ApplyPlan(w, PlanOf(intents, born));
      var blocked := Blocked(intents, born, w.graph.Keys);
      w.graph.Keys <= after.graph.Keys && AllClean(after.faults) && |after.faults| >= |w.faults| - |intents|
      && (err.None? <==> blocked == {})
      && (err.None? ==> BornIn(RefsOf(intents), after.graph.Keys))
      && (err.Some? ==>
            EntityAlreadyExists(err.value) == Some(ref.id) && ref in blocked && ref.id in after.graph
            && Blocked(intents, born + {ref}, after.graph.Keys) == blocked - {ref})
    decreases |intents|
  {
    hide KindOfId, KindOf, AsMap, Blocked, Serve;
    if intents == [] {
      ref := Ref(OtherKind, "");
      NothingBlocked(born, w.graph.Keys);
      return;
    }
    var first, rest := intents[0], intents[1..];
    assert first in intents && first.WellFormed();
    RefsOfHead(intents);
    BlockedHead(intents, born, w.graph.Keys);
    var plan, tail, more := PlanOf(intents, born), PlanOf(rest, born + {first.ref}), born + {first.ref};
    if Step(first, born) == [] {
      assert plan == tail && more == born;
      ref := CleanApply(rest, more, w);
      BlockedHead(intents, born + {ref}, ApplyPlan(w, plan).0.graph.Keys);
      assert born + {ref} + {first.ref} == born + {ref};
    } else {
      assert plan[0] == Step(first, born)[0] && plan[1..] == tail;
      CleanTail(w.faults);
      var (graph, reply) := Serve(w.graph, plan[0]);
      var after := World(graph, w.faults[1..]);
      ServeStep(w.graph, plan[0]);
      if first.ref in born {
        assert more == born;
        ref := CleanApply(rest, more, after);
        BlockedHead(intents, born + {ref}, ApplyPlan(w, plan).0.graph.Keys);
        assert born + {ref} + {first.ref} == born + {ref};
      } else if first.ref.id in w.graph {
        ref := first.ref;
        BlockedHead(intents, born + {ref}, w.graph.Keys);
        BlockedIsUnborn(rest, more, w.graph.Keys);
        assert born + {ref} + {ref} == more;
      } else {
        BornDoNotBlock(rest, more, w.graph.Keys, first.ref);
        ref := CleanApply(rest, more, after);
        var end := ApplyPlan(w, plan).0.graph.Keys;
        if ApplyPlan(w, plan).1.Some? {
          BlockedIsUnborn(rest, more, w.graph.Keys);
          BlockedHead(intents, born + {ref}, end);
          assert born + {ref} + {first.ref} == more + {ref};
        }
      }
    }
  }

  lemma NothingBlocked(born: Born, ids: set<string>)
    ensures Blocked([], born, ids) == {} && RefsOf([]) == {}
  {}

  lemma BlockedHead(intents: seq<Intent>, born: Born, ids: set<string>)
    requires intents != []
    ensures var r := intents[0].ref;
      var rest := Blocked(intents[1..], born + {r}, ids);
      Blocked(intents, born, ids) ==
        if r in born then rest else if rest != {} || r.id in ids then {r} + rest else {}
  {}

  /** One clean request to a graph that does or does not hold its entity. */
  lemma ServeStep(g: Graph, m: Mutation)
    ensures var (g', r) := Serve(g, m);
      if m.Create? && m.id in g then g' == g && r == Rejected(EntityExists)
      else if m.Create? then g'.Keys == g.Keys + {m.id} && r == Success
      else if m.id in g then g'.Keys == g.Keys && r == Success
      else g' == g && r == Rejected(EntityMissing)
  {
    hide AsMap;
  }

  /** Some entity of the input is written to even when all are born; every input that plans anything has one. */
  ghost predicate HasUpdate(intents: seq<Intent>) {
    exists i :: 0 <= i < |intents| && intents[i].update.Some?
  }

  lemma {:induction false} UpdatesKeepPlansAlive(intents: seq<Intent>, born: Born)
    requires HasUpdate(intents)
    ensures PlanOf(intents, born) != []
  {
    var i :| 0 <= i < |intents| && intents[i].update.Some?;
    if i > 0 {
      assert intents[1..][i - 1].update.Some?;
      UpdatesKeepPlansAlive(intents[1..], born + {intents[0].ref});
    }
  }

  lemma OneAttemptLess(attempts: nat, requests: nat)
    requires attempts > 0
    ensures attempts * requests == (attempts - 1) * requests + requests
    ensures attempts * requests >= requests
  {}

  /**
   With clean answers, from any graph that confirms the born sets: a call gives up if and
   only if at least as many births are blocked as it has attempts, each attempt unblocking
   one; otherwise the input is written.
   */
  lemma {:induction false} GivingUpExactly(job: Job, attempts: nat, born: Born, w: World)
    requires job.Valid() && HasUpdate(job.intents)
    requires BornIn(born, w.graph.Keys) && AllClean(w.faults) && |w.faults| >= attempts * |job.intents|
    ensures var o := WriteJob(job, attempts, born, w);
      var blocked := Blocked(job.intents, born, w.graph.Keys);
      BornIn(o.born, o.world.graph.Keys)
      && if attempts <= |blocked|
         then o.status.Exceeded? && |Blocked(job.intents, o.born, o.world.graph.Keys)| == |blocked| - attempts
         else o.status.Written?
    decreases attempts
  {
    hide KindOfId, KindOf, EdgesBornFirst, ApplyPlan, PlanOf, Marked, Blocked;
    if attempts > 0 {
      var intents := job.intents;
      OneAttemptLess(attempts, |intents|);
      var ref := CleanApply(intents, born, w);
      PlanCreates(intents, born);
      BlockedIsUnborn(intents, born, w.graph.Keys);
      var (after, err) := ApplyPlan(w, PlanOf(intents, born));
      if err.Some? {
        UpdatesKeepPlansAlive(intents, born + {ref});
        GivingUpExactly(job, attempts - 1, born + {ref}, after);
      }
    }
  }

  // ---------- Clean calls until one is written ----------

  function CleanFaults(n: nat): (faults: seq<Fault>)
    ensures |faults| == n && AllClean(faults)
  {
    seq(n, _ => Clean)
  }

  /** One call of a sole writer that meets no faults. */
  function CleanCall(job: Job, attempts: nat, born: Born, g: Graph): Outcome {
    WriteJob(job, attempts, born, World(g, CleanFaults(attempts * |job.intents|)))
  }

  /** The outcome of the call after n such calls, each going on from where the one before left off. */
  function CallAfter(job: Job, attempts: nat, born: Born, g: Graph, n: nat): Outcome
    decreases n
  {
    var o := CleanCall(job, attempts, born, g);
    if n == 0 then o else CallAfter(job, attempts, o.born, o.world.graph, n - 1)
  }

  /**
   An input that is called with clean answers until it is written exhausts its calls exactly
   as often as its attempts go into the blocked births: every call before that number gives
   up, and the next one is written.
   */
  lemma {:induction false} WrittenAfterExactly(job: Job, attempts: nat, born: Born, g: Graph, n: nat)
    requires job.Valid() && HasUpdate(job.intents)
    requires BornIn(born, g.Keys) && attempts > 0
    ensures var blocked := |Blocked(job.intents, born, g.Keys)|;
      var status := CallAfter(job, attempts, born, g, n).status;
      (attempts * n + attempts <= blocked ==> status.Exceeded?)
      && (attempts * n <= blocked < attempts * n + attempts ==> status.Written?)
    decreases n
  {
    hide Job.Valid, WriteJob, Blocked;
    var blocked := |Blocked(job.intents, born, g.Keys)|;
    var o := CleanCall(job, attempts, born, g);
    GivingUpExactly(job, attempts, born, World(g, CleanFaults(attempts * |job.intents|)));
    if n > 0 {
      assert attempts * n == attempts * (n - 1) + attempts;
      if attempts <= blocked {
        WrittenAfterExactly(job, attempts, o.born, o.world.graph, n - 1);
      }
    }
  }
}
