/**
 Retries, partial plans and lost replies leave no trace: whenever a job is reported
 written, the graph is what applying the job once would have made of it.
 */
module AsIfOnce {
  import opened Checksum
  import opened GraphService
  import opened BirthProtocol

  /** Applying one intent to a graph once, undisturbed. */
  function EffectOf(g: Graph, i: Intent): Graph {
    if i.ref.id !in g then Serve(g, i.create).0
    else if i.update.Some? then Serve(g, i.update.value).0
    else g
  }

  function Effect(g: Graph, intents: seq<Intent>): Graph
    decreases |intents|
  {
    if intents == [] then g else Effect(EffectOf(g, intents[0]), intents[1..])
  }

  function Updates(i: Intent): Properties {
    if i.update.Some? then AsMap(i.update.value.triples) else map[]
  }

  /** A birth carries everything an update at the same time would have carried. */
  ghost predicate CreateIncludesUpdate(intents: seq<Intent>) {
    forall i <- intents :: AsMap(i.create.triples) + Updates(i) == AsMap(i.create.triples)
  }

  // ---------- The effect on one entity ----------

  function Lookup(g: Graph, id: string): Option<Entity> {
    if id in g then Some(g[id]) else None
  }

  function Newborn(m: Mutation): Entity {
    Entity(if m.Create? then m.messageType else "", AsMap(m.triples))
  }

  function Touched(o: Option<Entity>, i: Intent): Entity {
    match o
    case None => Newborn(i.create)
    case Some(e) => e.(properties := e.properties + Updates(i))
  }

  function EffectAt(o: Option<Entity>, intents: seq<Intent>, id: string): Option<Entity>
    decreases |intents|
  {
    if intents == [] then o
    else EffectAt(if intents[0].ref.id == id then Some(Touched(o, intents[0])) else o, intents[1..], id)
  }

  /** All that the intents write into an entity that is there already. */
  function UpdatesAt(intents: seq<Intent>, id: string): Properties {
    if intents == [] then map[]
    else (if intents[0].ref.id == id then Updates(intents[0]) else map[]) + UpdatesAt(intents[1..], id)
  }

  predicate Shaped(intents: seq<Intent>) {
    forall i <- intents :: i.create.Create? && i.create.id == i.ref.id
      && (i.update.Some? ==> i.update.value.Update? && i.update.value.id == i.ref.id)
  }

  lemma EffectOfOne(g: Graph, i: Intent, id: string)
    requires Shaped([i])
    ensures Lookup(EffectOf(g, i), id) == EffectAt(Lookup(g, id), [i], id)
  {
    hide AsMap;
    assert i in [i];
    assert [i][1..] == [];
    if id in g && id == i.ref.id {
      assert g[id].properties + map[] == g[id].properties;
    }
  }

  lemma {:induction false} EffectIsPerEntity(g: Graph, intents: seq<Intent>, id: string)
    requires Shaped(intents)
    ensures Lookup(Effect(g, intents), id) == EffectAt(Lookup(g, id), intents, id)
    decreases |intents|
  {
    hide AsMap, EffectOf, Lookup;
    if intents != [] {
      var first := intents[0];
      assert first in intents;
      EffectOfOne(g, first, id);
      assert [first][1..] == [];
      EffectIsPerEntity(EffectOf(g, first), intents[1..], id);
    }
  }

  lemma {:induction false} EffectOnPresent(e: Entity, intents: seq<Intent>, id: string)
    ensures EffectAt(Some(e), intents, id) == Some(e.(properties := e.properties + UpdatesAt(intents, id)))
    decreases |intents|
  {
    hide Updates;
    if intents == [] {
      assert e.properties + map[] == e.properties;
    } else {
      var u := if intents[0].ref.id == id then Updates(intents[0]) else map[];
      assert e.properties + map[] == e.properties;
      EffectOnPresent(e.(properties := e.properties + u), intents[1..], id);
      UnionAssociates(e.properties, u, UpdatesAt(intents[1..], id));
    }
  }

  lemma {:induction false} UpdatesAtAppend(a: seq<Intent>, b: seq<Intent>, id: string)
    ensures UpdatesAt(a + b, id) == UpdatesAt(a, id) + UpdatesAt(b, id)
  {
    hide Updates;
    if a == [] {
      assert a + b == b;
      assert map[] + UpdatesAt(b, id) == UpdatesAt(b, id);
    } else {
      assert (a + b)[1..] == a[1..] + b;
      UpdatesAtAppend(a[1..], b, id);
      UnionAssociates(if a[0].ref.id == id then Updates(a[0]) else map[], UpdatesAt(a[1..], id), UpdatesAt(b, id));
    }
  }

  lemma UnionAssociates(x: Properties, y: Properties, z: Properties)
    ensures (x + y) + z == x + (y + z)
  {}

  lemma {:induction false} EffectAtAppend(o: Option<Entity>, a: seq<Intent>, b: seq<Intent>, id: string)
    ensures EffectAt(o, a + b, id) == EffectAt(EffectAt(o, a, id), b, id)
    decreases |a|
  {
    hide Touched;
    if a == [] {
      assert a + b == b;
    } else {
      assert (a + b)[1..] == a[1..] + b;
      EffectAtAppend(if a[0].ref.id == id then Some(Touched(o, a[0])) else o, a[1..], b, id);
    }
  }

  /** An entity born here has at least what its updates write. */
  lemma {:induction false} EffectOnAbsent(intents: seq<Intent>, id: string)
    requires CreateIncludesUpdate(intents)
    ensures match EffectAt(None, intents, id)
      case None => forall i <- intents :: i.ref.id != id
      case Some(e) => e.properties + UpdatesAt(intents, id) == e.properties
  {
    hide AsMap, Updates;
    if intents != [] {
      var first, rest := intents[0], intents[1..];
      if first.ref.id != id {
        EffectOnAbsent(rest, id);
        assert UpdatesAt(intents, id) == UpdatesAt(rest, id);
      } else {
        var base := AsMap(first.create.triples);
        assert first in intents;
        EffectOnPresent(Newborn(first.create), rest, id);
        var u, v := Updates(first), UpdatesAt(rest, id);
        assert (base + v) + (u + v) == (base + u) + v;
      }
    }
  }

  /** Doing a first part before doing everything adds nothing, entity by entity. */
  lemma PrefixIsAbsorbedAt(o: Option<Entity>, pre: seq<Intent>, post: seq<Intent>, id: string)
    requires CreateIncludesUpdate(pre + post)
    ensures EffectAt(EffectAt(o, pre, id), pre + post, id) == EffectAt(o, pre + post, id)
  {
    hide EffectAt, UpdatesAt, AsMap, Updates;
    EffectAtAppend(o, pre, post, id);
    match EffectAt(o, pre, id)
    case None =>
      EffectAtAppend(None, pre, post, id);
      NoneStaysNone(o, pre, id);
    case Some(e) =>
      var u, v := UpdatesAt(pre, id), UpdatesAt(post, id);
      UpdatesAtAppend(pre, post, id);
      EffectOnPresent(e, pre + post, id);
      EffectOnPresent(e, post, id);
      match o {
        case Some(e0) =>
          EffectOnPresent(e0, pre, id);
          assert (e0.properties + u) + (u + v) == (e0.properties + u) + v;
        case None =>
          assert forall i <- pre :: i in pre + post;
          EffectOnAbsent(pre, id);
          assert e.properties + (u + v) == (e.properties + u) + v;
      }
  }

  lemma {:induction false} NoneStaysNone(o: Option<Entity>, intents: seq<Intent>, id: string)
    requires EffectAt(o, intents, id).None?
    ensures o.None?
  {
    if intents != [] && o.Some? {
      EffectOnPresent(o.value, intents, id);
    }
  }

  /** Doing a first part of a job before doing all of it adds nothing to the graph. */
  lemma PrefixIsAbsorbed(g: Graph, intents: seq<Intent>, k: nat)
    requires Shaped(intents) && CreateIncludesUpdate(intents) && k <= |intents|
    ensures Effect(Effect(g, intents[..k]), intents) == Effect(g, intents)
  {
    hide Effect, EffectAt, AsMap, Updates;
    var pre, post := intents[..k], intents[k..];
    assert intents == pre + post;
    var once, twice := Effect(g, intents), Effect(Effect(g, pre), intents);
    assert Shaped(pre) by {
      assert forall i <- pre :: i in intents;
    }
    forall id: string
      ensures Lookup(once, id) == Lookup(twice, id)
    {
      EffectIsPerEntity(g, intents, id);
      EffectIsPerEntity(g, pre, id);
      EffectIsPerEntity(Effect(g, pre), intents, id);
      PrefixIsAbsorbedAt(Lookup(g, id), pre, post, id);
    }
    SameLookups(once, twice);
  }

  lemma SameLookups(g: Graph, h: Graph)
    requires forall id: string :: Lookup(g, id) == Lookup(h, id)
    ensures g == h
  {
    forall id: string
      ensures id in g <==> id in h
      ensures id in g ==> g[id] == h[id]
    {
      assert Lookup(g, id) == Lookup(h, id);
    }
  }

  // ---------- Plans under honest faults ----------

  lemma OverlayTwice(p: Properties, u: Properties)
    ensures (p + u) + u == p + u
  {}

  /** One honest request has the effect of its intent, or none, and a good reply means the effect. */
  lemma RequestFollowsEffect(i: Intent, born: Born, g: Graph, f: Fault)
    requires i.WellFormed() && f.Honest() && (i.ref in born ==> i.ref.id in g)
    requires Step(i, born) != []
    ensures var (g', reply) := Deliver(g, Step(i, born)[0], f);
      (g' == g || g' == EffectOf(g, i))
      && (reply.Success? ==> g' == EffectOf(g, i) && i.ref.id in g')
      && (Step(i, born)[0].Create? && reply == Rejected(EntityExists) ==> i.ref.id in g')
      && g.Keys <= g'.Keys
  {
    hide KindOfId, KindOf, AsMap;
    if i.ref in born && f.Redelivered? {
      OverlayTwice(g[i.ref.id].properties, AsMap(i.update.value.triples));
    }
  }

  /** However a plan ends, the graph is what a first part of the intents, applied once, makes of it. */
  lemma {:induction false} ApplyFollowsEffect(intents: seq<Intent>, born: Born, w: World) returns (k: nat)
    requires AllWellFormed(intents) && w.Honest() && BornIn(born, w.graph.Keys)
    ensures var (after, err) := ApplyPlan(w, PlanOf(intents, born));
      k <= |intents| && after.graph == Effect(w.graph, intents[..k])
      && after.Honest() && w.graph.Keys <= after.graph.Keys
      && (err.None? ==> k == |intents| && BornIn(RefsOf(intents), after.graph.Keys))
      && (err.Some? && EntityAlreadyExists(err.value).Some? ==> EntityAlreadyExists(err.value).value in after.graph)
    decreases |intents|
  {
    hide KindOfId, KindOf, Deliver, EffectOf, Effect, RefsOf;
    EffectOfNone(w.graph, intents);
    if intents == [] {
      k := 0;
      NoIntents(born);
      return;
    }
    var first, rest := intents[0], intents[1..];
    assert first in intents;
    RefsOfHead(intents);
    var plan, tail := PlanOf(intents, born), PlanOf(rest, born + {first.ref});
    if Step(first, born) == [] {
      assert plan == tail && born + {first.ref} == born;
      assert EffectOf(w.graph, first) == w.graph by { EffectOfBorn(w.graph, first); }
      var j := ApplyFollowsEffect(rest, born, w);
      k := j + 1;
      EffectOfPrefix(w.graph, intents, j);
    } else {
      assert plan[0] == Step(first, born)[0] && plan[1..] == tail;
      if w.faults == [] {
        k := 0;
        return;
      }
      assert w.faults[0] in w.faults;
      assert forall f <- w.faults[1..] :: f in w.faults;
      RequestFollowsEffect(first, born, w.graph, w.faults[0]);
      var (graph, reply) := Deliver(w.graph, plan[0], w.faults[0]);
      if reply.Success? {
        var j := ApplyFollowsEffect(rest, born + {first.ref}, World(graph, w.faults[1..]));
        k := j + 1;
        EffectOfPrefix(w.graph, intents, j);
      } else {
        k := if graph == w.graph then 0 else 1;
        EffectOfPrefix(w.graph, intents, 0);
        EffectOfNone(graph, rest);
      }
    }
  }

  lemma EffectOfNone(g: Graph, intents: seq<Intent>)
    ensures Effect(g, intents[..0]) == g
  {}

  lemma EffectOfPrefix(g: Graph, intents: seq<Intent>, k: nat)
    requires k < |intents|
    ensures Effect(g, intents[..k + 1]) == Effect(EffectOf(g, intents[0]), intents[1..][..k])
  {
    hide EffectOf;
    assert intents[..k + 1][0] == intents[0] && intents[..k + 1][1..] == intents[1..][..k];
  }

  lemma EffectOfBorn(g: Graph, i: Intent)
    requires i.ref.id in g && i.update.None?
    ensures EffectOf(g, i) == g
  {}

  lemma WellFormedIsShaped(intents: seq<Intent>)
    requires AllWellFormed(intents)
    ensures Shaped(intents)
  {
    hide KindOfId, KindOf;
    forall i | i in intents
      ensures i.create.Create? && i.create.id == i.ref.id
        && (i.update.Some? ==> i.update.value.Update? && i.update.value.id == i.ref.id)
    {
      assert i.WellFormed();
    }
  }

  /**
   One call of writePlan under honest faults, whatever the retries and however it ends:
   what it did is absorbed by doing the whole job, and if it reports success the graph is
   exactly what doing the job once would have made of it.
   */
  lemma {:induction false} CallIsAsIfOnce(job: Job, attempts: nat, born: Born, w: World)
    requires job.Valid() && CreateIncludesUpdate(job.intents) && w.Honest() && BornIn(born, w.graph.Keys)
    ensures var o := WriteJob(job, attempts, born, w);
      Effect(o.world.graph, job.intents) == Effect(w.graph, job.intents)
      && (o.status.Written? ==> o.world.graph == Effect(w.graph, job.intents))
      && BornIn(o.born, o.world.graph.Keys) && o.world.Honest()
    decreases attempts
  {
    hide KindOfId, KindOf, EdgesBornFirst, ApplyPlan, Effect, CreateIncludesUpdate, Marked;
    if attempts > 0 {
      var intents := job.intents;
      WellFormedIsShaped(intents);
      PlanCreates(intents, born);
      var k := ApplyFollowsEffect(intents, born, w);
      PrefixIsAbsorbed(w.graph, intents, k);
      assert intents[..|intents|] == intents;
      var (after, err) := ApplyPlan(w, PlanOf(intents, born));
      if err.Some? && EntityAlreadyExists(err.value).Some? {
        var ref := ConflictTeaches(job, born, w);
        MarkedHasId(job.markable, EntityAlreadyExists(err.value).value);
        assert BornIn(born + {ref}, after.graph.Keys);
        var next := PlanOf(intents, born + {ref});
        if next == [] {
          var j := ApplyFollowsEffect(intents, born + {ref}, after);
          EmptyPlanApplies(after);
        } else {
          CallIsAsIfOnce(job, attempts - 1, born + {ref}, after);
        }
      }
    }
  }

  lemma EmptyPlanApplies(w: World)
    ensures ApplyPlan(w, []) == (w, None)
  {}

  // ---------- Over many calls ----------

  /** One of several calls on a job: the born sets it starts from and the faults it meets. */
  datatype Call = Call(born: Born, faults: seq<Fault>)

  function GraphAfter(job: Job, attempts: nat, g: Graph, calls: seq<Call>): Graph
    decreases |calls|
  {
    if calls == [] then g
    else GraphAfter(job, attempts, WriteJob(job, attempts, calls[0].born, World(g, calls[0].faults)).world.graph, calls[1..])
  }

  /** Each call starts from born sets that the graph of its time confirms; a restart forgets them all. */
  ghost predicate CallsAreSound(job: Job, attempts: nat, g: Graph, calls: seq<Call>)
    decreases |calls|
  {
    calls == [] ||
    (BornIn(calls[0].born, g.Keys) && World(g, calls[0].faults).Honest()
     && CallsAreSound(job, attempts, WriteJob(job, attempts, calls[0].born, World(g, calls[0].faults)).world.graph, calls[1..]))
  }

  /** Calls that failed half-way before, restarts in between included, are absorbed by the call that succeeds. */
  lemma {:induction false} FailedCallsAreAbsorbed(job: Job, attempts: nat, g: Graph, calls: seq<Call>, last: Call)
    requires job.Valid() && CreateIncludesUpdate(job.intents)
    requires CallsAreSound(job, attempts, g, calls + [last])
    ensures var before := GraphAfter(job, attempts, g, calls);
      var o := WriteJob(job, attempts, last.born, World(before, last.faults));
      o.status.Written? ==> o.world.graph == Effect(g, job.intents)
    decreases |calls|
  {
    hide WriteJob, CreateIncludesUpdate, Job.Valid, Effect;
    if calls == [] {
      assert (calls + [last])[0] == last;
      CallIsAsIfOnce(job, attempts, last.born, World(g, last.faults));
    } else {
      var c := calls[0];
      assert (calls + [last])[0] == c && (calls + [last])[1..] == calls[1..] + [last];
      CallIsAsIfOnce(job, attempts, c.born, World(g, c.faults));
      FailedCallsAreAbsorbed(job, attempts, WriteJob(job, attempts, c.born, World(g, c.faults)).world.graph, calls[1..], last);
    }
  }
}
