/** The worlds that runs of a new pool lead to. */
module Reachability {
  import opened PoolTypes
  import opened PoolSteps
  import opened Worlds

  lemma NextState(w: World, e: Event)
    requires Apply(w.s, e.action, e.now, e.height).Ok?
    ensures Next(w, e).s == Apply(w.s, e.action, e.now, e.height).value.state
    ensures Next(w, e).now == e.now && Next(w, e).height == e.height
  {
  }

  /** The answer to a packet, given at once. */
  function AnswerNow(w: World, key: PacketKey, success: bool): Event {
    Event(DoDeliver(key, success), w.now, w.height)
  }

  ghost predicate RunTo(start: World, events: seq<Event>, end: World, limit: nat) {
    AllOrderly(start, events, limit) && Run(start, events) == end
  }

  /** Some orderly run of a new pool leads here, with no commission over the limit. */
  ghost predicate ReachableWithin(w: World, limit: nat) {
    exists d, now: nat, height: nat, events :: now <= MAX_SECONDS && RunTo(Genesis(d, now, height), events, w, limit)
  }

  ghost predicate Reachable(w: World) {
    ReachableWithin(w, CAL_BASE)
  }

  lemma GenesisReachable(d: Deployment, now: nat, height: nat, limit: nat)
    requires now <= MAX_SECONDS
    ensures ReachableWithin(Genesis(d, now, height), limit)
  {
    assert RunTo(Genesis(d, now, height), [], Genesis(d, now, height), limit);
  }

  lemma {:induction false} RunOneMore(w: World, events: seq<Event>, e: Event, limit: nat)
    requires AllOrderly(w, events, limit) && Orderly(Run(w, events), e, limit)
    ensures RunTo(w, events + [e], Next(Run(w, events), e), limit)
    decreases |events|
  {
    if events == [] {
      assert [e][1..] == [];
      assert events + [e] == [e];
    } else {
      assert (events + [e])[1..] == events[1..] + [e];
      RunOneMore(Next(w, events[0]), events[1..], e, limit);
    }
  }

  lemma ReachableNext(w: World, e: Event, limit: nat)
    requires ReachableWithin(w, limit) && Orderly(w, e, limit)
    ensures ReachableWithin(Next(w, e), limit)
  {
    var d, now: nat, height: nat, events :| now <= MAX_SECONDS && RunTo(Genesis(d, now, height), events, w, limit);
    RunOneMore(Genesis(d, now, height), events, e, limit);
  }

  /** A higher limit reaches no fewer worlds. */
  lemma {:induction false} OrderlyWithin(w: World, events: seq<Event>, limit: nat, higher: nat)
    requires AllOrderly(w, events, limit) && limit <= higher
    ensures AllOrderly(w, events, higher)
    decreases |events|
  {
    if events != [] {
      OrderlyWithin(Next(w, events[0]), events[1..], limit, higher);
    }
  }
}
