/**
 The conditional HTTP poller (PollOnce in internal/components/cap/components.go; the ADS-B
 poller is the same code). A stored ETag and Last-Modified pair makes the next request
 conditional, sections 13.1.2 and 13.1.3 of RFC 9110; a 304 answer, section 15.4.5, means
 that nothing is read or published.
 */
module Poller {
  import opened Checksum

  const NOT_MODIFIED := 304

  /** Response validators; an empty one is absent. */
  datatype Validators = Validators(etag: string, lastModified: string)

  const NO_VALIDATORS := Validators("", "")

  /** The conditional headers of a request. */
  datatype Conditions = Conditions(ifNoneMatch: Option<string>, ifModifiedSince: Option<string>)

  function ConditionsOf(v: Validators): Conditions {
    Conditions(
      if v.etag != "" then Some(v.etag) else None,
      if v.lastModified != "" then Some(v.lastModified) else None)
  }

  /** An answer, with the body as far as it could be read, or none at all. */
  datatype Response =
    | Unreachable
    | Response(status: int, validators: Validators, body: Option<seq<byte>>)

  datatype Publication = Publication(body: seq<byte>, validators: Validators)

  /** What stays the same over the polls: the configured source name and the largest body. */
  datatype Settings = Settings(source: string, maxBytes: nat)

  datatype State = State(validators: Validators, published: seq<Publication>)

  /** One poll: the time of the answer, the answer, and whether the bus takes the message. */
  datatype Exchange = Exchange(now: nat, response: Response, accepted: bool)

  predicate IsSuccess(status: int) {
    200 <= status <= 299
  }

  /** Whether the answer makes a message: it succeeds, its body fits, and the payload is valid. */
  predicate Publishable(s: Settings, now: nat, r: Response) {
    r.Response? && r.status != NOT_MODIFIED && IsSuccess(r.status)
    && r.body.Some? && |r.body.value| <= s.maxBytes
    && s.source != "" && now != 0 && r.body.value != []
  }

  function Poll(s: Settings, before: State, e: Exchange): State {
    if Publishable(s, e.now, e.response) && e.accepted then
      State(e.response.validators, before.published + [Publication(e.response.body.value, e.response.validators)])
    else before
  }

  // ---------- The component ----------

  class Provider {
    var responses: seq<Response>
    var requests: seq<Conditions>

    constructor (responses: seq<Response>)
      ensures this.responses == responses && requests == []
    {
      this.responses, requests := responses, [];
    }

    method Do(c: Conditions) returns (r: Response)
      modifies this
      ensures requests == old(requests) + [c]
      ensures r == NextOf(old(responses)) && responses == LaterOf(old(responses))
    {
      requests := requests + [c];
      if responses == [] {
        return Unreachable;
      }
      r, responses := responses[0], responses[1..];
    }
  }

  function NextOf(responses: seq<Response>): Response {
    if responses == [] then Unreachable else responses[0]
  }

  function LaterOf(responses: seq<Response>): seq<Response> {
    if responses == [] then [] else responses[1..]
  }

  class Bus {
    var published: seq<Publication>

    constructor ()
      ensures published == []
    {
      published := [];
    }

    method Publish(p: Publication, accepted: bool) returns (ok: bool)
      modifies this
      ensures ok == accepted && published == old(published) + if ok then [p] else []
    {
      ok := accepted;
      if ok {
        published := published + [p];
      }
    }
  }

  class HTTPPoller {
    const settings: Settings
    const provider: Provider
    const bus: Bus
    var etag: string
    var lastModified: string
    var lastStatusCode: int

    function Current(): State
      reads this, bus
    {
      State(Validators(etag, lastModified), bus.published)
    }

    constructor (settings: Settings, initial: Validators, provider: Provider, bus: Bus)
      ensures this.settings == settings && this.provider == provider && this.bus == bus
      ensures Current() == State(initial, bus.published)
    {
      this.settings, this.provider, this.bus := settings, provider, bus;
      etag, lastModified, lastStatusCode := initial.etag, initial.lastModified, 0;
    }

    /** One poll at the given time; the bus takes or refuses the message, if there is one. */
    method PollOnce(now: nat, accepted: bool) returns (ok: bool)
      modifies this, provider, bus
      ensures provider.requests == old(provider.requests) + [ConditionsOf(old(Current()).validators)]
      ensures Current() == Poll(settings, old(Current()), Exchange(now, NextOf(old(provider.responses)), accepted))
      ensures ok <==>
        var r := NextOf(old(provider.responses));
        (r.Response? && r.status == 304) || (Publishable(settings, now, r) && accepted)
    {
      var c := Conditions(None, None);
      if etag != "" {
        c := c.(ifNoneMatch := Some(etag));
      }
      if lastModified != "" {
        c := c.(ifModifiedSince := Some(lastModified));
      }
      var r := provider.Do(c);
      if r.Unreachable? {
        return false;
      }
      lastStatusCode := r.status;
      if r.status == NOT_MODIFIED {
        return true;
      }
      if r.status < 200 || r.status > 299 {
        return false;
      }
      if r.body.None? || |r.body.value| > settings.maxBytes {
        return false;
      }
      var payload := Publication(r.body.value, r.validators);
      if settings.source == "" || now == 0 || |payload.body| == 0 {
        return false;
      }
      ok := bus.Publish(payload, accepted);
      if ok {
        etag, lastModified := payload.validators.etag, payload.validators.lastModified;
      }
    }
  }

  // ---------- Runs ----------

  /** The states that a run of polls leads through. */
  function After(s: Settings, initial: State, run: seq<Exchange>): State
    decreases |run|
  {
    if run == [] then initial else Poll(s, After(s, initial, run[..|run| - 1]), run[|run| - 1])
  }

  /** The stored pair is the initial one or came, as a pair, with the newest message published. */
  lemma {:induction false} ValidatorsComeFromOneResponse(s: Settings, initial: Validators, run: seq<Exchange>)
    ensures var now := After(s, State(initial, []), run);
      now.validators == if now.published == [] then initial else now.published[|now.published| - 1].validators
    decreases |run|
  {
    if run != [] {
      ValidatorsComeFromOneResponse(s, initial, run[..|run| - 1]);
    }
  }

  /** What the provider has to offer at one moment. */
  datatype Resource = Resource(body: seq<byte>, validators: Validators)

  /**
   Validators tell versions apart: a later version that the condition made from an earlier
   one would name has the same body. An ETag decides where there is one, and Last-Modified
   only where there is none.
   */
  ghost predicate Identify(resources: seq<Resource>) {
    forall i, j :: 0 <= i < j < |resources| && Names(resources[i].validators, resources[j].validators)
      ==> resources[i].body == resources[j].body
  }

  /** Whether the condition made from validators v is met by the current validators w. */
  predicate Names(v: Validators, w: Validators) {
    if v.etag != "" then v.etag == w.etag else v.lastModified != "" && v.lastModified == w.lastModified
  }

  /**
   An answer that a correct server gives: 304 only if the condition that counts names the
   current validator, where If-None-Match outranks If-Modified-Since, and a readable success
   carries the current body with its validators.
   */
  predicate Correct(current: Resource, c: Conditions, r: Response) {
    r.Response? ==>
      (r.status == 304 ==>
        if c.ifNoneMatch.Some? then c.ifNoneMatch.value == current.validators.etag
        else c.ifModifiedSince.Some? && c.ifModifiedSince.value == current.validators.lastModified)
      && (IsSuccess(r.status) && r.body.Some? ==> r.body.value == current.body && r.validators == current.validators)
  }

  /** Every answer of the run is correct for the resource of its time and the request that was sent. */
  ghost predicate CorrectRun(s: Settings, resources: seq<Resource>, run: seq<Exchange>) {
    |resources| == |run|
    && forall k :: 0 <= k < |run| ==>
      Correct(resources[k], ConditionsOf(After(s, State(NO_VALIDATORS, []), run[..k]).validators), run[k].response)
  }

  /** Everything published is the body and the validators of some resource seen so far. */
  lemma {:induction false} PublishedIsSeen(s: Settings, resources: seq<Resource>, run: seq<Exchange>, k: nat)
    requires CorrectRun(s, resources, run) && k <= |run|
    ensures forall p <- After(s, State(NO_VALIDATORS, []), run[..k]).published ::
      exists i :: 0 <= i < k && resources[i] == Resource(p.body, p.validators)
  {
    if k > 0 {
      assert run[..k][..k - 1] == run[..k - 1];
      PublishedIsSeen(s, resources, run, k - 1);
      var before := After(s, State(NO_VALIDATORS, []), run[..k - 1]);
      var after := After(s, State(NO_VALIDATORS, []), run[..k]);
      assert after == Poll(s, before, run[k - 1]);
      forall p | p in after.published
        ensures exists i :: 0 <= i < k && resources[i] == Resource(p.body, p.validators)
      {
        if p !in before.published {
          assert resources[k - 1] == Resource(p.body, p.validators);
        }
      }
    }
  }

  /**
   Conditional polling loses nothing: from empty validators, against a correct server whose
   validators tell bodies apart, a 304 is only ever answered when the current body has been
   published already.
   */
  lemma NotModifiedMeansPublished(s: Settings, resources: seq<Resource>, run: seq<Exchange>, k: nat)
    requires CorrectRun(s, resources, run) && Identify(resources)
    requires k < |run| && run[k].response.Response? && run[k].response.status == NOT_MODIFIED
    ensures exists p <- After(s, State(NO_VALIDATORS, []), run[..k]).published :: p.body == resources[k].body
  {
    hide After;
    var now := After(s, State(NO_VALIDATORS, []), run[..k]);
    ValidatorsComeFromOneResponse(s, NO_VALIDATORS, run[..k]);
    PublishedIsSeen(s, resources, run, k);
    assert Correct(resources[k], ConditionsOf(now.validators), run[k].response);
    var p := now.published[|now.published| - 1];
    assert p in now.published;
    var i :| 0 <= i < k && resources[i] == Resource(p.body, p.validators);
    assert Names(resources[i].validators, resources[k].validators);
  }

  /**
   No weaker assumption on the server would do: for any two versions that its validators do
   not tell apart, a correct server may answer the second poll with 304, and the second body
   is never published.
   */
  lemma IndistinctVersionsAreLost(s: Settings, first: Resource, second: Resource, now: nat)
    requires Names(first.validators, second.validators) && first.body != second.body
    requires Publishable(s, now, Response(200, first.validators, Some(first.body)))
    ensures var run := [Exchange(now, Response(200, first.validators, Some(first.body)), true),
                        Exchange(now, Response(NOT_MODIFIED, second.validators, None), true)];
      CorrectRun(s, [first, second], run) && !Identify([first, second])
      && forall p <- After(s, State(NO_VALIDATORS, []), run).published :: p.body != second.body
  {
    var resources := [first, second];
    var run := [Exchange(now, Response(200, first.validators, Some(first.body)), true),
                Exchange(now, Response(NOT_MODIFIED, second.validators, None), true)];
    var start := State(NO_VALIDATORS, []);
    assert run[..0] == [] && run[..1] == [run[0]] && run[..1][..0] == [];
    assert After(s, start, run[..0]) == start;
    assert After(s, start, run[..1]) == Poll(s, start, run[0]);
    assert Names(resources[0].validators, resources[1].validators);
  }
}
