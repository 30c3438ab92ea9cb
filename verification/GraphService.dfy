/**
 The graph as the writers see it. The service itself is not part of the repository; what
 the adapters rely on is stated here as an explicit environment: a create succeeds exactly
 when the id is absent and otherwise answers that the entity exists, an update overlays
 predicates on a present entity, nothing is deleted, and each request is atomic. Between
 a writer and the graph requests and replies may be lost or delivered twice, and for the
 strongest results a reply may even be invented.

 GraphWriter.Apply sends a plan request by request and stops at the first failure
 (internal/projectors/mavlink/writer.go; the cot, adsb and cap writers are the same code).
 */
module GraphService {
  import opened Checksum
  import opened Cop

  datatype Mutation =
    | Create(id: string, messageType: string, triples: seq<Triple>, profile: string, owner: string)
    | Update(id: string, triples: seq<Triple>, profile: string, owner: string)

  type Plan = seq<Mutation>
  type Properties = map<Predicate, Value>

  datatype Entity = Entity(messageType: string, properties: Properties)

  type Graph = map<string, Entity>

  datatype ErrorCode = EntityExists | EntityMissing | OtherCode

  datatype Reply = Success | Rejected(code: ErrorCode) | NoReply

  /**
   What happens to one request on its way to the graph and back. Meanwhile is the work of
   other writers, who have left the given graph by the time the request arrives.
   */
  datatype Fault =
    | Clean
    | Dropped
    | ReplyLost
    | Redelivered
    | Invented(reply: Reply, effect: bool)
    | Meanwhile(graph: Graph, fault: Fault)
  {
    /** No answer is made up, and no other writer comes in between. */
    predicate Honest() {
      !Invented? && !Meanwhile?
    }
  }

  /** The graph and the faults that the coming requests will meet; none left means cancelled. */
  datatype World = World(graph: Graph, faults: seq<Fault>) {
    predicate Honest() {
      forall f <- faults :: f.Honest()
    }
  }

  /** The predicates that a list of triples sets, the last triple winning. */
  function AsMap(triples: seq<Triple>): Properties {
    if triples == [] then map[]
    else
      var last := triples[|triples| - 1];
      AsMap(triples[..|triples| - 1])[last.predicate_ := last.object_]
  }

  function Serve(g: Graph, m: Mutation): (Graph, Reply) {
    match m
    case Create(id, messageType, triples, _, _) =>
      if id in g then (g, Rejected(EntityExists))
      else (g[id := Entity(messageType, AsMap(triples))], Success)
    case Update(id, triples, _, _) =>
      if id !in g then (g, Rejected(EntityMissing))
      else (g[id := g[id].(properties := g[id].properties + AsMap(triples))], Success)
  }

  function Deliver(g: Graph, m: Mutation, f: Fault): (Graph, Reply)
    decreases f
  {
    match f
    case Clean => Serve(g, m)
    case Dropped => (g, NoReply)
    case ReplyLost => (Serve(g, m).0, NoReply)
    case Redelivered => Serve(Serve(g, m).0, m)
    case Invented(reply, effect) => (if effect then Serve(g, m).0 else g, reply)
    case Meanwhile(left, fault) => Deliver(left, m, fault)
  }

  datatype WriteError =
    | MutationFailure(isCreate: bool, entityId: string, code: ErrorCode)
    | RequestFailed
    | ContextDone

  function ErrorOf(m: Mutation, r: Reply): WriteError
    requires !r.Success?
  {
    match r
    case Rejected(code) => MutationFailure(m.Create?, m.id, code)
    case NoReply => RequestFailed
  }

  /** The id of the entity that a create found in the graph already. */
  function EntityAlreadyExists(err: WriteError): Option<string> {
    match err
    case MutationFailure(isCreate, entityId, code) =>
      if !isCreate || code != EntityExists || entityId == "" then None else Some(entityId)
    case _ => None
  }

  /** Applying a plan request by request, stopping at the first failure. */
  function ApplyPlan(w: World, plan: Plan): (World, Option<WriteError>)
    decreases |plan|
  {
    if plan == [] then (w, None)
    else if w.faults == [] then (w, Some(ContextDone))
    else
      var (graph, reply) := Deliver(w.graph, plan[0], w.faults[0]);
      var after := World(graph, w.faults[1..]);
      if reply.Success? then ApplyPlan(after, plan[1..]) else (after, Some(ErrorOf(plan[0], reply)))
  }

  class Service {
    var graph: Graph
    var faults: seq<Fault>

    function State(): World
      reads this
    {
      World(graph, faults)
    }

    constructor (w: World)
      ensures State() == w
    {
      graph, faults := w.graph, w.faults;
    }

    method Request(m: Mutation) returns (reply: Reply)
      requires faults != []
      modifies this
      ensures (graph, reply) == Deliver(old(graph), m, old(faults)[0]) && faults == old(faults)[1..]
    {
      var answer := Deliver(graph, m, faults[0]);
      graph, faults, reply := answer.0, faults[1..], answer.1;
    }
  }

  class GraphWriter {
    const service: Service

    constructor (service: Service)
      ensures this.service == service
    {
      this.service := service;
    }

    method Apply(plan: Plan) returns (err: Option<WriteError>)
      modifies service
      ensures (service.State(), err) == ApplyPlan(old(service.State()), plan)
    {
      for i := 0 to |plan|
        invariant ApplyPlan(service.State(), plan[i..]) == ApplyPlan(old(service.State()), plan)
      {
        assert plan[i..][0] == plan[i] && plan[i..][1..] == plan[i + 1..];
        if service.faults == [] {
          return Some(ContextDone);
        }
        var reply := service.Request(plan[i]);
        if !reply.Success? {
          return Some(ErrorOf(plan[i], reply));
        }
      }
      return None;
    }
  }

  // ---------- What requests do to the graph ----------

  lemma ServeGrows(g: Graph, m: Mutation)
    ensures var (g', r) := Serve(g, m);
      g.Keys <= g'.Keys <= g.Keys + {m.id}
      && (m.Create? ==> m.id in g')
      && (forall id <- g :: id != m.id ==> g'[id] == g[id])
      && (forall id <- g :: g'[id].messageType == g[id].messageType && g[id].properties.Keys <= g'[id].properties.Keys)
  {}

  /** An honest answer tells the truth: after a success, or after a create met its entity, the entity is there. */
  lemma HonestAnswer(g: Graph, m: Mutation, f: Fault)
    requires f.Honest()
    ensures var (g', r) := Deliver(g, m, f);
      g.Keys <= g'.Keys
      && (r.Success? ==> m.id in g')
      && (m.Create? && r == Rejected(EntityExists) ==> m.id in g')
  {
    hide AsMap;
    ServeGrows(g, m);
    ServeGrows(Serve(g, m).0, m);
  }
}
