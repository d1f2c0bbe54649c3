/** The eyes: observations through adapters, each checked and put in an envelope, in the order of their sources. */
module AgentEyes {
  import opened Prelude

  datatype Observation = Observation(source: string, observedAt: int, ttl: int, payload: string, evidenceId: string)

  /** What an adapter does when asked: it shows an observation, or it raises. */
  datatype Glance = Saw(observation: Observation) | Threw

  type Adapters = map<string, Glance>

  datatype Envelope = Envelope(observation: Observation, age: int, isFresh: bool)

  datatype EyesHold =
    | UnknownObservationSource(id: string) | ObservationFailed(id: string)
    | InvalidObservation(id: string) | StaleObservation(id: string, seen: Envelope)

  /** An observation from the future has no age. */
  function EnvelopeOf(o: Observation, now: int): (e: Envelope)
    ensures e.observation == o && e.age >= 0 && e.age >= now - o.observedAt
    ensures e.age == 0 || e.age == now - o.observedAt
    ensures o.ttl > 0 ==> (e.isFresh <==> now - o.observedAt <= o.ttl)
  {
    var age := if now > o.observedAt then now - o.observedAt else 0;
    Envelope(o, age, age <= o.ttl)
  }

  /** What is wrong with one source, in the order it is looked for. */
  function Fault(adapters: Adapters, id: string, now: int): (fault: Option<EyesHold>)
    ensures fault.None? <==> Shows(adapters, id, now)
    ensures fault.Some? ==> FaultIs(adapters, id, now, fault.value)
  {
    if id !in adapters then Some(UnknownObservationSource(id))
    else if adapters[id].Threw? then Some(ObservationFailed(id))
    else
      var o := adapters[id].observation;
      if o.source != id || o.evidenceId == "" || o.ttl <= 0 then Some(InvalidObservation(id))
      else if !EnvelopeOf(o, now).isFresh then Some(StaleObservation(id, EnvelopeOf(o, now)))
      else None
  }

  /** The source shows an observation of its own, with evidence, not older than it may be. */
  predicate Shows(adapters: Adapters, id: string, now: int) {
    && id in adapters && adapters[id].Saw?
    && var o := adapters[id].observation;
      o.source == id && o.evidenceId != "" && o.ttl > 0 && now - o.observedAt <= o.ttl
  }

  /** What each hold says of the source. */
  predicate FaultIs(adapters: Adapters, id: string, now: int, hold: EyesHold) {
    match hold
    case UnknownObservationSource(at) => at == id && id !in adapters
    case ObservationFailed(at) => at == id && id in adapters && adapters[id].Threw?
    case InvalidObservation(at) =>
      && at == id && id in adapters && adapters[id].Saw?
      && !(adapters[id].observation.source == id && adapters[id].observation.evidenceId != ""
           && adapters[id].observation.ttl > 0)
    case StaleObservation(at, seen) =>
      && at == id && id in adapters && adapters[id].Saw? && seen.observation == adapters[id].observation
      && seen.observation.source == id && seen.observation.evidenceId != ""
      && 0 < seen.observation.ttl < now - seen.observation.observedAt == seen.age && !seen.isFresh
  }

  ghost predicate AllShow(adapters: Adapters, sources: set<string>, now: int) {
    forall id :: id in sources ==> Shows(adapters, id, now)
  }

  /** `items` are the envelopes of the first `k` sources, in order. */
  ghost predicate EnvelopesOf(adapters: Adapters, names: seq<string>, now: int, k: nat, items: seq<Envelope>) {
    && k <= |names| && |items| == k
    && forall i :: 0 <= i < k ==>
         Shows(adapters, names[i], now) && items[i] == EnvelopeOf(adapters[names[i]].observation, now)
  }

  /** The first source with a fault is the `k`-th. */
  ghost predicate FirstFault(adapters: Adapters, names: seq<string>, now: int, k: nat, hold: EyesHold) {
    && k < |names| && FaultIs(adapters, names[k], now, hold)
    && forall i :: 0 <= i < k ==> Shows(adapters, names[i], now)
  }

  /** A snapshot comes out exactly when every source shows a proper, fresh observation, and holds the envelopes of
      all of them in the order of their names; otherwise the first faulty source decides. */
  method Observe(adapters: Adapters, sources: set<string>, now: int)
    returns (r: Result<seq<Envelope>, EyesHold>, ghost names: seq<string>)
    ensures IsSortedList(names, sources)
    ensures r.Ok? <==> AllShow(adapters, sources, now)
    ensures r.Ok? ==> EnvelopesOf(adapters, names, now, |names|, r.value)
    ensures r.Err? ==> exists k :: FirstFault(adapters, names, now, k, r.error)
  {
    var order := SortedIds(sources);
    names := order;
    var items: seq<Envelope> := [];
    for i := 0 to |order|
      invariant EnvelopesOf(adapters, order, now, i, items)
    {
      assert order[i] in order;
      var fault := Fault(adapters, order[i], now);
      if fault.Some? {
        assert FirstFault(adapters, order, now, i, fault.value);
        return Err(fault.value), names;
      }
      items := items + [EnvelopeOf(adapters[order[i]].observation, now)];
    }
    forall id | id in sources ensures Shows(adapters, id, now) {
      assert id in order;
    }
    r := Ok(items);
  }
}
