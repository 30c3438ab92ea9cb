/**
 Any number of writers, of any feeds, interleaved request by request on one graph: the
 hosted runtime and the scenario runner may write at the same time. Plans fail anywhere,
 requests and replies are lost or delivered twice, contexts are cancelled, and processes
 restart with empty born sets.
 */
module Interleaving {
  import opened Checksum
  import opened Cop
  import opened GraphService
  import opened BirthProtocol

  /** A plan being applied: the next request, and the attempts left including this one. */
  datatype Run = Run(job: Job, plan: Plan, next: nat, attempts: nat)

  datatype Writer = Writer(born: Born, run: Option<Run>)

  datatype System = System(graph: Graph, writers: seq<Writer>)

  // ---------- Steps ----------

  function Begin(w: Writer, job: Job, attempts: nat): Writer {
    var plan := PlanOf(job.intents, w.born);
    if plan == [] then w else w.(run := Some(Run(job, plan, 0, attempts)))
  }

  /** The writer after the reply to its current request. */
  function AfterReply(w: Writer, reply: Reply): Writer
    requires w.run.Some? && w.run.value.next < |w.run.value.plan|
  {
    var r := w.run.value;
    if reply.Success? then
      if r.next + 1 == |r.plan| then Writer(w.born + CreatedBy(r.plan), None)
      else w.(run := Some(r.(next := r.next + 1)))
    else
      var id := EntityAlreadyExists(ErrorOf(r.plan[r.next], reply));
      var ref := if id.Some? then Marked(r.job.markable, id.value) else None;
      if ref.None? then w.(run := None)
      else
        var plan := PlanOf(r.job.intents, w.born + {ref.value});
        if plan == [] || r.attempts <= 1 then Writer(w.born + {ref.value}, None)
        else Writer(w.born + {ref.value}, Some(Run(r.job, plan, 0, r.attempts - 1)))
  }

  ghost predicate CanSend(s: System, i: nat) {
    i < |s.writers| && s.writers[i].run.Some? && s.writers[i].run.value.next < |s.writers[i].run.value.plan|
  }

  function Request(s: System, i: nat): Mutation
    requires CanSend(s, i)
  {
    s.writers[i].run.value.plan[s.writers[i].run.value.next]
  }

  datatype Action =
    | Receive(writer: nat, job: Job, attempts: nat)
    | Send(writer: nat, fault: Fault)
    | Cancel(writer: nat)
    | Restart(writer: nat)
    | Start

  ghost predicate Enabled(s: System, a: Action) {
    match a
    case Receive(i, job, attempts) => i < |s.writers| && s.writers[i].run.None? && job.Valid() && attempts > 0
    case Send(i, fault) => CanSend(s, i) && fault.Honest()
    case Cancel(i) => i < |s.writers|
    case Restart(i) => i < |s.writers|
    case Start => true
  }

  function Next(s: System, a: Action): System
    requires Enabled(s, a)
  {
    match a
    case Receive(i, job, attempts) => s.(writers := s.writers[i := Begin(s.writers[i], job, attempts)])
    case Send(i, fault) =>
      var (graph, reply) := Deliver(s.graph, Request(s, i), fault);
      System(graph, s.writers[i := AfterReply(s.writers[i], reply)])
    case Cancel(i) => s.(writers := s.writers[i := s.writers[i].(run := None)])
    case Restart(i) => s.(writers := s.writers[i := Writer({}, None)])
    case Start => s.(writers := s.writers + [Writer({}, None)])
  }

  // ---------- What every reachable state keeps ----------

  /** Every strict source edge in the graph points at an asset of the graph. */
  ghost predicate EdgesHold(g: Graph) {
    forall id <- g :: TrackSource in g[id].properties && g[id].properties[TrackSource].Link? ==>
      IsAsset(g, g[id].properties[TrackSource].target)
  }

  ghost predicate IsAsset(g: Graph, id: string) {
    id in g && KindOfId(id) == Asset && KindOf(g[id].messageType) == Asset
  }

  /** What carries an asset id was born as an asset. */
  ghost predicate AssetsTyped(g: Graph) {
    forall id <- g :: KindOfId(id) == Asset ==> KindOf(g[id].messageType) == Asset
  }

  ghost predicate GraphSound(g: Graph) {
    EdgesHold(g) && AssetsTyped(g)
  }

  /** A birth of the right kind, whose edges name assets. */
  ghost predicate Typed(m: Mutation) {
    (m.Create? ==> KindOf(m.messageType) == KindOfId(m.id))
    && forall t <- EdgeTargets(m.triples) :: KindOfId(t) == Asset
  }

  /** Requests that only ever touch and point at what is known when they are sent. */
  ghost predicate PlanSafe(plan: Plan, known: set<string>) {
    plan == [] ||
    ((plan[0].Update? ==> plan[0].id in known)
     && EdgeTargets(plan[0].triples) <= known
     && Typed(plan[0])
     && PlanSafe(plan[1..], known + {plan[0].id}))
  }

  ghost predicate WriterSafe(w: Writer, known: set<string>) {
    BornIn(w.born, known)
    && (w.run.Some? ==>
      var r := w.run.value;
      r.job.Valid() && r.next < |r.plan|
      && PlanSafe(r.plan[r.next..], known)
      && BornIn(CreatedBy(r.plan[..r.next]), known))
  }

  ghost predicate Inv(s: System) {
    GraphSound(s.graph) && forall w <- s.writers :: WriterSafe(w, s.graph.Keys)
  }

  /** The request respects the graph: an update finds its entity, an edge finds its asset. */
  ghost predicate RequestSafe(s: System, i: nat) {
    CanSend(s, i) ==>
      (Request(s, i).Update? ==> Request(s, i).id in s.graph)
      && Typed(Request(s, i))
      && forall t <- EdgeTargets(Request(s, i).triples) :: IsAsset(s.graph, t)
  }

  // ---------- Plans are safe ----------

  lemma {:induction false} PlanSafeGrows(plan: Plan, known: set<string>, more: set<string>)
    requires PlanSafe(plan, known) && known <= more
    ensures PlanSafe(plan, more)
  {
    if plan != [] {
      PlanSafeGrows(plan[1..], known + {plan[0].id}, more + {plan[0].id});
    }
  }

  /** Edges of later intents point at assets seen before the list or earlier in it. */
  ghost predicate EdgesSeen(intents: seq<Intent>, seen: Born) {
    forall k :: 0 <= k < |intents| ==>
      (forall t <- EdgeTargets(intents[k].create.triples) :: Ref(Asset, t) in seen + RefsOf(intents[..k]))
      && (intents[k].update.Some? ==> EdgeTargets(intents[k].update.value.triples) == {})
  }

  lemma EdgesSeenTail(intents: seq<Intent>, seen: Born)
    requires intents != [] && EdgesSeen(intents, seen)
    ensures EdgesSeen(intents[1..], seen + {intents[0].ref})
  {
    hide EdgeTargets;
    var rest := intents[1..];
    forall k | 0 <= k < |rest|
      ensures forall t <- EdgeTargets(rest[k].create.triples) :: Ref(Asset, t) in seen + {intents[0].ref} + RefsOf(rest[..k])
      ensures rest[k].update.Some? ==> EdgeTargets(rest[k].update.value.triples) == {}
    {
      var upTo := intents[..k + 1];
      assert upTo[0] == intents[0] && upTo[1..] == rest[..k];
      RefsOfHead(upTo);
      assert rest[k] == intents[k + 1];
    }
  }

  ghost predicate RefsTyped(born: Born) {
    forall r <- born :: r.kind == Asset ==> KindOfId(r.id) == Asset
  }

  /** A plan projected from born sets that the graph confirms is safe from its first request on. */
  lemma {:induction false} PlanIsSafe(intents: seq<Intent>, born: Born, seen: Born, known: set<string>)
    requires AllWellFormed(intents) && EdgesSeen(intents, seen)
    requires BornIn(born, known) && BornIn(seen, known) && RefsTyped(seen)
    ensures PlanSafe(PlanOf(intents, born), known)
    decreases |intents|
  {
    hide KindOfId, KindOf, EdgeTargets;
    if intents != [] {
      var first, rest := intents[0], intents[1..];
      assert first in intents && first.WellFormed();
      EdgesSeenTail(intents, seen);
      assert RefsOf(intents[..0]) == {};
      assert EdgeTargets(first.create.triples) <= known && Typed(first.create) by {
        forall t | t in EdgeTargets(first.create.triples)
          ensures t in known && KindOfId(t) == Asset
        {
          assert Ref(Asset, t) in seen + RefsOf(intents[..0]);
        }
      }
      PlanIsSafe(rest, born + {first.ref}, seen + {first.ref}, known + {first.ref.id});
      var plan := PlanOf(intents, born);
      if Step(first, born) == [] {
        assert first.ref in born && known + {first.ref.id} == known;
        assert plan == PlanOf(rest, born + {first.ref});
      } else {
        assert plan[0] == Step(first, born)[0] && plan[1..] == PlanOf(rest, born + {first.ref});
      }
    }
  }

  lemma JobPlanIsSafe(job: Job, born: Born, known: set<string>)
    requires job.Valid() && BornIn(born, known)
    ensures PlanSafe(PlanOf(job.intents, born), known)
  {
    hide EdgeTargets, KindOfId, KindOf;
    assert EdgesSeen(job.intents, {}) by {
      forall k | 0 <= k < |job.intents|
        ensures forall t <- EdgeTargets(job.intents[k].create.triples) :: Ref(Asset, t) in {} + RefsOf(job.intents[..k])
        ensures job.intents[k].update.Some? ==> EdgeTargets(job.intents[k].update.value.triples) == {}
      {}
    }
    PlanIsSafe(job.intents, born, {}, known);
  }

  // ---------- Each step keeps the invariant ----------

  lemma {:induction false} EdgesOfMap(triples: seq<Triple>)
    ensures var m := AsMap(triples);
      TrackSource in m && m[TrackSource].Link? ==> m[TrackSource].target in EdgeTargets(triples)
  {
    if triples != [] {
      var init := triples[..|triples| - 1];
      EdgesOfMap(init);
      forall t | t in EdgeTargets(init)
        ensures t in EdgeTargets(triples)
      {
        var i :| 0 <= i < |init| && init[i].predicate_ == TrackSource && init[i].object_.Link? && init[i].object_.target == t;
        assert triples[i].predicate_ == TrackSource;
      }
      var last := triples[|triples| - 1];
      if last.predicate_ == TrackSource && last.object_.Link? {
        assert last.object_.target in EdgeTargets(triples);
      }
    }
  }

  lemma ServeKeepsGraphSound(g: Graph, m: Mutation)
    requires GraphSound(g) && EdgeTargets(m.triples) <= g.Keys && Typed(m)
    ensures GraphSound(Serve(g, m).0)
  {
    hide AsMap, EdgeTargets, KindOf, KindOfId;
    EdgesOfMap(m.triples);
    ServeGrows(g, m);
  }

  lemma DeliverKeepsGraphSound(g: Graph, m: Mutation, f: Fault)
    requires GraphSound(g) && EdgeTargets(m.triples) <= g.Keys && Typed(m) && f.Honest()
    ensures GraphSound(Deliver(g, m, f).0) && g.Keys <= Deliver(g, m, f).0.Keys
  {
    hide Serve, GraphSound, EdgeTargets, Typed;
    ServeGrows(g, m);
    ServeKeepsGraphSound(g, m);
    ServeGrows(Serve(g, m).0, m);
    ServeKeepsGraphSound(Serve(g, m).0, m);
  }

  lemma WriterSafeGrows(w: Writer, known: set<string>, more: set<string>)
    requires WriterSafe(w, known) && known <= more
    ensures WriterSafe(w, more)
  {
    hide PlanSafe, CreatedBy;
    if w.run.Some? {
      PlanSafeGrows(w.run.value.plan[w.run.value.next..], known, more);
    }
  }

  lemma BeginIsSafe(w: Writer, job: Job, attempts: nat, known: set<string>)
    requires WriterSafe(w, known) && w.run.None? && job.Valid()
    ensures WriterSafe(Begin(w, job, attempts), known)
  {
    hide PlanSafe, Job.Valid;
    var plan := PlanOf(job.intents, w.born);
    JobPlanIsSafe(job, w.born, known);
    assert plan[0..] == plan && CreatedBy(plan[..0]) == {};
  }

  lemma CreatedByOneMore(plan: Plan, k: nat)
    requires k < |plan|
    ensures forall r <- CreatedBy(plan[..k + 1]) :: r in CreatedBy(plan[..k]) || r.id == plan[k].id
  {
    forall r | r in CreatedBy(plan[..k + 1])
      ensures r in CreatedBy(plan[..k]) || r.id == plan[k].id
    {
      var i :| 0 <= i < k + 1 && plan[i].Create? && Ref(KindOf(plan[i].messageType), plan[i].id) == r;
      if i < k {
        assert plan[..k][i] == plan[i];
      }
    }
  }

  lemma SuccessIsSafe(w: Writer, known: set<string>, more: set<string>)
    requires WriterSafe(w, known) && w.run.Some? && known <= more
    requires var r := w.run.value; r.next < |r.plan| && r.plan[r.next].id in more
    ensures WriterSafe(AfterReply(w, Success), more)
  {
    hide CreatedBy, EdgeTargets, Job.Valid;
    var r := w.run.value;
    CreatedByOneMore(r.plan, r.next);
    assert BornIn(CreatedBy(r.plan[..r.next + 1]), more);
    if r.next + 1 == |r.plan| {
      assert r.plan[..r.next + 1] == r.plan;
    } else {
      assert r.plan[r.next..][1..] == r.plan[r.next + 1..];
      PlanSafeGrows(r.plan[r.next + 1..], known + {r.plan[r.next].id}, more);
    }
  }

  lemma FailureIsSafe(w: Writer, reply: Reply, known: set<string>)
    requires WriterSafe(w, known) && w.run.Some? && !reply.Success?
    requires var r := w.run.value;
      r.next < |r.plan| && (r.plan[r.next].Create? && reply == Rejected(EntityExists) ==> r.plan[r.next].id in known)
    ensures WriterSafe(AfterReply(w, reply), known)
  {
    hide CreatedBy, EdgeTargets, Job.Valid, PlanSafe, PlanOf, Marked;
    var r := w.run.value;
    var id := EntityAlreadyExists(ErrorOf(r.plan[r.next], reply));
    if id.Some? && Marked(r.job.markable, id.value).Some? {
      var ref := Marked(r.job.markable, id.value).value;
      MarkedHasId(r.job.markable, id.value);
      JobPlanIsSafe(r.job, w.born + {ref}, known);
      var plan := PlanOf(r.job.intents, w.born + {ref});
      assert plan[0..] == plan;
      NothingCreated(plan);
    }
  }

  lemma NothingCreated(plan: Plan)
    ensures CreatedBy(plan[..0]) == {}
  {}

  /** In a good state every request any writer can send next is safe. */
  lemma InvMakesRequestsSafe(s: System, i: nat)
    requires Inv(s)
    ensures RequestSafe(s, i)
  {
    hide EdgeTargets, CreatedBy, Job.Valid, KindOf, KindOfId;
    if CanSend(s, i) {
      var w := s.writers[i];
      assert w in s.writers && WriterSafe(w, s.graph.Keys);
      assert w.run.value.plan[w.run.value.next..][0] == Request(s, i);
    }
  }

  lemma SendKeepsInv(s: System, i: nat, f: Fault)
    requires Inv(s) && Enabled(s, Send(i, f))
    ensures Inv(Next(s, Send(i, f)))
  {
    hide EdgeTargets, GraphSound, Typed, IsAsset, WriterSafe, Deliver, AfterReply;
    InvMakesRequestsSafe(s, i);
    var m := Request(s, i);
    AssetsAreKnown(s.graph, m.triples);
    var (graph, reply) := Deliver(s.graph, m, f);
    DeliverKeepsGraphSound(s.graph, m, f);
    var w := s.writers[i];
    assert w in s.writers;
    HonestAnswer(s.graph, m, f);
    if reply.Success? {
      SuccessIsSafe(w, s.graph.Keys, graph.Keys);
    } else {
      WriterSafeGrows(w, s.graph.Keys, graph.Keys);
      FailureIsSafe(w, reply, graph.Keys);
    }
    var after := s.writers[i := AfterReply(w, reply)];
    forall v | v in after
      ensures WriterSafe(v, graph.Keys)
    {
      if v != AfterReply(w, reply) {
        assert v in s.writers;
        WriterSafeGrows(v, s.graph.Keys, graph.Keys);
      }
    }
  }

  lemma AssetsAreKnown(g: Graph, triples: seq<Triple>)
    requires forall t <- EdgeTargets(triples) :: IsAsset(g, t)
    ensures EdgeTargets(triples) <= g.Keys
  {
    hide EdgeTargets, KindOf, KindOfId;
  }

  /** Every step of every writer keeps the invariant. */
  lemma StepKeepsInv(s: System, a: Action)
    requires Inv(s) && Enabled(s, a)
    ensures Inv(Next(s, a))
  {
    hide GraphSound, WriterSafe;
    match a
    case Send(i, f) => SendKeepsInv(s, i, f);
    case Receive(i, job, attempts) =>
      assert s.writers[i] in s.writers;
      BeginIsSafe(s.writers[i], job, attempts, s.graph.Keys);
    case Cancel(i) =>
      assert s.writers[i] in s.writers;
      IdleIsSafe(s.writers[i], s.graph.Keys);
    case Restart(i) =>
      IdleIsSafe(Writer({}, None), s.graph.Keys);
    case Start =>
      IdleIsSafe(Writer({}, None), s.graph.Keys);
  }

  lemma IdleIsSafe(w: Writer, known: set<string>)
    requires BornIn(w.born, known) || WriterSafe(w, known)
    ensures WriterSafe(w.(run := None), known)
  {}

  // ---------- Whole runs ----------

  /** The states that a list of actions leads through, as far as the actions are enabled. */
  ghost predicate Runs(s: System, actions: seq<Action>, final: System)
    decreases |actions|
  {
    if actions == [] then final == s
    else Enabled(s, actions[0]) && Runs(Next(s, actions[0]), actions[1..], final)
  }

  /** Fresh writers in front of any graph that is sound. */
  ghost predicate Init(s: System) {
    GraphSound(s.graph) && forall w <- s.writers :: w == Writer({}, None)
  }

  /**
   In every state that any interleaving reaches: born sets name only entities of the
   graph, every source edge targets an asset of the graph, and whatever a writer sends
   next updates only what exists and points only at assets that exist.
   */
  lemma {:induction false} EveryRunIsSafe(s: System, actions: seq<Action>, final: System)
    requires (Init(s) || Inv(s)) && Runs(s, actions, final)
    ensures Inv(final) && EdgesHold(final.graph) && s.graph.Keys <= final.graph.Keys
    ensures forall w <- final.writers :: BornIn(w.born, final.graph.Keys)
    ensures forall i :: 0 <= i < |final.writers| ==> RequestSafe(final, i)
    decreases |actions|
  {
    hide EdgesHold, AssetsTyped, RequestSafe, Enabled, Next;
    if Init(s) {
      forall w | w in s.writers
        ensures WriterSafe(w, s.graph.Keys)
      {
        IdleIsSafe(w, s.graph.Keys);
      }
    }
    if actions == [] {
      forall i | 0 <= i < |final.writers|
        ensures RequestSafe(final, i)
      {
        InvMakesRequestsSafe(final, i);
      }
    } else {
      StepKeepsInv(s, actions[0]);
      GraphGrows(s, actions[0]);
      EveryRunIsSafe(Next(s, actions[0]), actions[1..], final);
    }
  }

  lemma GraphGrows(s: System, a: Action)
    requires Enabled(s, a)
    ensures s.graph.Keys <= Next(s, a).graph.Keys
  {
    hide Serve;
    if a.Send? {
      var m := Request(s, a.writer);
      ServeGrows(s.graph, m);
      ServeGrows(Serve(s.graph, m).0, m);
    }
  }

  // ---------- writePlan as a run of one writer ----------

  /** Letting one writer send until it is idle, or cancelling it when no faults are left to meet. */
  function Drive(w: Writer, g: Graph, faults: seq<Fault>): (Writer, Graph, seq<Fault>)
    decreases |faults|
  {
    if w.run.None? || w.run.value.next >= |w.run.value.plan| then (w, g, faults)
    else if faults == [] then (w.(run := None), g, faults)
    else
      var (graph, reply) := Deliver(g, w.run.value.plan[w.run.value.next], faults[0]);
      Drive(AfterReply(w, reply), graph, faults[1..])
  }

  /** What WriteLoop goes on to do once a plan has ended with the given result. */
  function Continue(job: Job, attempts: nat, born: Born, plan: Plan, after: World, err: Option<WriteError>): Outcome
    requires attempts > 0
  {
    if err.None? then Outcome(born + CreatedBy(plan), after, Written(|plan|))
    else
      var id := EntityAlreadyExists(err.value);
      var ref := if id.Some? then Marked(job.markable, id.value) else None;
      if ref.None? then Outcome(born, after, Failed(|plan|, err.value))
      else
        var next := PlanOf(job.intents, born + {ref.value});
        if next == [] then Outcome(born + {ref.value}, after, Written(0))
        else WriteLoop(job, attempts - 1, born + {ref.value}, next, after)
  }

  lemma {:induction false} DriveFrom(r: Run, born: Born, w: World)
    requires r.next < |r.plan| && r.attempts > 0
    ensures var (after, err) := ApplyPlan(w, r.plan[r.next..]);
      var o := Continue(r.job, r.attempts, born, r.plan, after, err);
      Drive(Writer(born, Some(r)), w.graph, w.faults) == (Writer(o.born, None), o.world.graph, o.world.faults)
    decreases |w.faults|
  {
    hide Deliver, Marked, PlanOf, CreatedBy;
    if w.faults != [] {
      var (graph, reply) := Deliver(w.graph, r.plan[r.next], w.faults[0]);
      var after := World(graph, w.faults[1..]);
      assert r.plan[r.next..][1..] == r.plan[r.next + 1..];
      if reply.Success? {
        if r.next + 1 < |r.plan| {
          DriveFrom(r.(next := r.next + 1), born, after);
        } else {
          assert r.plan[r.next + 1..] == [];
        }
      } else {
        var id := EntityAlreadyExists(ErrorOf(r.plan[r.next], reply));
        if id.Some? && Marked(r.job.markable, id.value).Some? {
          var born' := born + {Marked(r.job.markable, id.value).value};
          var plan := PlanOf(r.job.intents, born');
          if plan != [] && r.attempts > 1 {
            assert plan[0..] == plan;
            DriveFrom(Run(r.job, plan, 0, r.attempts - 1), born', after);
          }
        }
      }
    }
  }

  /** writePlan does exactly what the steps of one undisturbed writer do. */
  lemma WriteJobIsARun(job: Job, attempts: nat, born: Born, w: World)
    requires attempts > 0 && PlanOf(job.intents, born) != []
    ensures var o := WriteJob(job, attempts, born, w);
      Drive(Begin(Writer(born, None), job, attempts), w.graph, w.faults)
        == (Writer(o.born, None), o.world.graph, o.world.faults)
  {
    hide Deliver, Marked, PlanOf, ApplyPlan;
    var plan := PlanOf(job.intents, born);
    assert plan[0..] == plan;
    DriveFrom(Run(job, plan, 0, attempts), born, w);
  }

  // ---------- writePlan among other writers ----------

  /** Nothing but requests of its own happens to writer i: no new input, cancellation or restart. */
  predicate LeftAlone(actions: seq<Action>, i: nat) {
    forall a <- actions :: a.Start? || a.writer != i || a.Send?
  }

  /** What the requests of writer i meet in a run: the graph that the others have left, and the fault. */
  ghost function Observed(s: System, i: nat, actions: seq<Action>): seq<Fault>
    decreases |actions|
  {
    if actions == [] || !Enabled(s, actions[0]) then []
    else
      var later := Observed(Next(s, actions[0]), i, actions[1..]);
      if actions[0].Send? && actions[0].writer == i then [Meanwhile(s.graph, actions[0].fault)] + later else later
  }

  /** The graph right after the last request of writer i in a run, or g if it sends none. */
  ghost function LeftBy(s: System, i: nat, actions: seq<Action>, g: Graph): Graph
    decreases |actions|
  {
    if actions == [] || !Enabled(s, actions[0]) then g
    else
      var next := Next(s, actions[0]);
      LeftBy(next, i, actions[1..], if actions[0].Send? && actions[0].writer == i then next.graph else g)
  }

  lemma OthersLeaveTheWriter(s: System, i: nat, a: Action)
    requires Enabled(s, a) && i < |s.writers| && LeftAlone([a], i) && !(a.Send? && a.writer == i)
    ensures i < |Next(s, a).writers| && Next(s, a).writers[i] == s.writers[i]
  {
    hide Deliver, AfterReply, Begin;
    assert a in [a];
  }

  lemma OwnRequest(s: System, i: nat, f: Fault)
    requires Enabled(s, Send(i, f))
    ensures var w := s.writers[i];
      var (graph, reply) := Deliver(s.graph, w.run.value.plan[w.run.value.next], f);
      Next(s, Send(i, f)).graph == graph && Next(s, Send(i, f)).writers[i] == AfterReply(w, reply)
      && |Next(s, Send(i, f)).writers| == |s.writers|
  {
    hide Deliver, AfterReply;
  }

  lemma DriveSteps(w: Writer, g: Graph, f: Fault, later: seq<Fault>, left: Graph)
    requires w.run.Some? && w.run.value.next < |w.run.value.plan|
    ensures var (graph, reply) := Deliver(left, w.run.value.plan[w.run.value.next], f);
      Drive(w, g, [Meanwhile(left, f)] + later) == Drive(AfterReply(w, reply), graph, later)
  {
    hide AfterReply, Serve;
    assert ([Meanwhile(left, f)] + later)[1..] == later;
  }

  lemma RunningWriter(s: System, i: nat)
    requires Inv(s) && i < |s.writers| && s.writers[i].run.Some?
    ensures s.writers[i].run.value.next < |s.writers[i].run.value.plan|
  {
    hide PlanSafe, CreatedBy, Job.Valid, GraphSound;
    assert s.writers[i] in s.writers;
  }

  lemma {:induction false} DriveFollowsRun(s: System, i: nat, actions: seq<Action>, final: System, g: Graph)
    requires Inv(s) && i < |s.writers| && LeftAlone(actions, i) && Runs(s, actions, final)
    ensures i < |final.writers|
    ensures var (w, graph, _) := Drive(s.writers[i], g, Observed(s, i, actions));
      w == final.writers[i].(run := None) && graph == LeftBy(s, i, actions, g)
    decreases |actions|
  {
    hide Inv, Deliver, AfterReply, Next, Enabled;
    if actions == [] {
      if s.writers[i].run.Some? {
        RunningWriter(s, i);
      }
    } else {
      var a, next := actions[0], Next(s, actions[0]);
      assert a in actions && forall b <- actions[1..] :: b in actions;
      StepKeepsInv(s, a);
      if a.Send? && a.writer == i {
        OwnRequest(s, i, a.fault);
        CanSendNow(s, i, a.fault);
        DriveSteps(s.writers[i], g, a.fault, Observed(next, i, actions[1..]), s.graph);
        DriveFollowsRun(next, i, actions[1..], final, next.graph);
      } else {
        OthersLeaveTheWriter(s, i, a);
        DriveFollowsRun(next, i, actions[1..], final, g);
      }
    }
  }

  lemma CanSendNow(s: System, i: nat, f: Fault)
    requires Enabled(s, Send(i, f))
    ensures i < |s.writers| && s.writers[i].run.Some? && s.writers[i].run.value.next < |s.writers[i].run.value.plan|
  {}

  /**
   writePlan among other writers: in any run of the state machine in which writer i takes an
   input and is then left to work on it, whatever the others do between its requests, its
   born sets and the graph after its last request are those of writePlan in a world where
   each request meets the graph that the others have left.
   */
  lemma WritePlanIsARun(s: System, i: nat, job: Job, attempts: nat, actions: seq<Action>, final: System)
    requires Inv(s) && Enabled(s, Receive(i, job, attempts)) && PlanOf(job.intents, s.writers[i].born) != []
    requires LeftAlone(actions, i) && Runs(Next(s, Receive(i, job, attempts)), actions, final)
    ensures var begun := Next(s, Receive(i, job, attempts));
      var o := WriteJob(job, attempts, s.writers[i].born, World(s.graph, Observed(begun, i, actions)));
      i < |final.writers| && final.writers[i].born == o.born && o.world.graph == LeftBy(begun, i, actions, s.graph)
  {
    hide Inv, Deliver, AfterReply, Runs, Drive, WriteJob, PlanOf, Job.Valid, Begin;
    var begun := Next(s, Receive(i, job, attempts));
    StepKeepsInv(s, Receive(i, job, attempts));
    DriveFollowsRun(begun, i, actions, final, s.graph);
    IdleWriter(s.writers[i]);
    WriteJobIsARun(job, attempts, s.writers[i].born, World(s.graph, Observed(begun, i, actions)));
  }

  lemma IdleWriter(w: Writer)
    requires w.run.None?
    ensures w == Writer(w.born, None)
  {}
}
