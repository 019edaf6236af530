/**
 * handleAsync: the batches fetched in the background are drained one poll
 * at a time; every non-empty batch is consumed with async acknowledgement,
 * until a poll times out, a fetch failed, or a batch ends abnormally.
 */
module AsyncDrain {
  import opened Types
  import opened Sessions
  import opened Consumers
  import opened Pipeline
  import opened GroupProperties
  import opened BatchProperties

  /** What one poll of the consumer service gives: nothing within the wait
      time (null), a completed fetch with its messages, or a fetch whose
      future failed (get() throws, and the exception is logged). */
  datatype Poll = NoFetch | Fetched(messages: seq<Message>) | FetchFailed

  /** Where the drain ends: the world, the status of the last batch, and
      how many polls were made. */
  datatype Drained = Drained(world: World, status: Status, polls: nat)

  /** The config of a drained batch: acknowledgement is always async. */
  function AsyncConfig(shared: bool, demarcator: seq<bv8>): Config
  {
    Config(shared, true, demarcator)
  }

  /** The drain over the poll results, in order; polling past the given
      results times out. */
  function Drain(w: World, polls: seq<Poll>, caps: Capabilities, shared: bool, demarcator: seq<bv8>): Drained
    decreases |polls|
  {
    if polls == [] then Drained(w, Completed, 1)
    else
      match polls[0]
      case NoFetch => Drained(w, Completed, 1)
      case FetchFailed => Drained(w, Completed, 1)
      case Fetched(messages) =>
        if messages == [] then
          var d := Drain(w, polls[1..], caps, shared, demarcator);
          Drained(d.world, d.status, d.polls + 1)
        else
          var r := Consume(w, messages, caps, AsyncConfig(shared, demarcator));
          if r.status.Aborted? then Drained(r.world, r.status, 1)
          else
            var d := Drain(r.world, polls[1..], caps, shared, demarcator);
            Drained(d.world, d.status, d.polls + 1)
  }

  /** The do-while loop of handleAsync. */
  method HandleAsync(session: Session, consumer: Consumer, polls: seq<Poll>, caps: Capabilities,
                     shared: bool, demarcator: seq<bv8>)
    returns (status: Status, polled: nat)
    modifies session, consumer`acks
    ensures var d := Drain(old(Snapshot(session, consumer)), polls, caps, shared, demarcator);
      Snapshot(session, consumer) == d.world && status == d.status && polled == d.polls
  {
    ghost var d0 := Drain(Snapshot(session, consumer), polls, caps, shared, demarcator);
    status := Completed;
    polled := 0;
    var more := true;
    while more
      invariant polled <= |polls| + 1
      invariant more ==> polled <= |polls| && status == Completed
      invariant more ==>
        var d := Drain(Snapshot(session, consumer), polls[polled..], caps, shared, demarcator);
        d0 == Drained(d.world, d.status, d.polls + polled)
      invariant !more ==> d0 == Drained(Snapshot(session, consumer), status, polled)
      decreases |polls| + 1 - polled
    {
      ghost var rest := polls[polled..];
      var done := if polled < |polls| then polls[polled] else NoFetch;
      polled := polled + 1;
      match done {
        case NoFetch =>
          more := false;
        case FetchFailed =>
          more := false;
        case Fetched(messages) =>
          assert rest[1..] == polls[polled..];
          if messages != [] {
            status := ConsumeMessages(session, consumer, messages, caps, AsyncConfig(shared, demarcator));
            if status.Aborted? {
              return;
            }
          }
      }
    }
  }

  // ---------------------------------------------------------------------
  // Properties

  /** Draining stops at the first poll that times out: the results after it
      are never looked at. */
  lemma {:induction false} DrainStopsAtTimeout(w: World, polls: seq<Poll>, k: nat, caps: Capabilities,
                                               shared: bool, demarcator: seq<bv8>)
    requires k < |polls| && polls[k] == NoFetch
    ensures Drain(w, polls, caps, shared, demarcator) == Drain(w, polls[..k], caps, shared, demarcator)
    decreases k
  {
    if k > 0 {
      assert polls[..k][0] == polls[0];
      assert polls[..k][1..] == polls[1..][..k - 1];
      match polls[0]
      case NoFetch =>
      case FetchFailed =>
      case Fetched(messages) =>
        if messages == [] {
          DrainStopsAtTimeout(w, polls[1..], k - 1, caps, shared, demarcator);
        } else {
          var r := Consume(w, messages, caps, AsyncConfig(shared, demarcator));
          if r.status.Completed? {
            DrainStopsAtTimeout(r.world, polls[1..], k - 1, caps, shared, demarcator);
          }
        }
    }
  }

  /** The poll results with the empty fetches taken out. */
  function NonEmptyFetches(polls: seq<Poll>): (ps: seq<Poll>)
    ensures |ps| <= |polls|
    ensures forall p :: p in ps ==> p in polls && p != Fetched([])
  {
    if polls == [] then []
    else if polls[0] == Fetched([]) then NonEmptyFetches(polls[1..])
    else [polls[0]] + NonEmptyFetches(polls[1..])
  }

  /** An empty fetch changes nothing but the poll count: the drain ends in
      the same world and status with the empty fetches taken out. */
  lemma {:induction false} EmptyFetchesAreSkipped(w: World, polls: seq<Poll>, caps: Capabilities,
                                                  shared: bool, demarcator: seq<bv8>)
    ensures var d := Drain(w, polls, caps, shared, demarcator);
      var d' := Drain(w, NonEmptyFetches(polls), caps, shared, demarcator);
      d.world == d'.world && d.status == d'.status && d'.polls <= d.polls
    decreases |polls|
  {
    if polls != [] {
      var ps := NonEmptyFetches(polls);
      if polls[0] == Fetched([]) {
        EmptyFetchesAreSkipped(w, polls[1..], caps, shared, demarcator);
      } else {
        assert ps[0] == polls[0] && ps[1..] == NonEmptyFetches(polls[1..]);
        match polls[0]
        case NoFetch =>
        case FetchFailed =>
        case Fetched(messages) =>
          var r := Consume(w, messages, caps, AsyncConfig(shared, demarcator));
          if r.status.Completed? {
            EmptyFetchesAreSkipped(r.world, polls[1..], caps, shared, demarcator);
          }
      }
    }
  }

  /** Every acknowledgement the drain issues is an async one: individual on
      a shared subscription, cumulative otherwise. */
  lemma {:induction false} DrainAcksAreAsync(w: World, polls: seq<Poll>, caps: Capabilities,
                                             shared: bool, demarcator: seq<bv8>)
    ensures AppendsOnly(w.acks, Drain(w, polls, caps, shared, demarcator).world.acks,
                        if shared then Individual else Cumulative, Async)
    decreases |polls|
  {
    if polls != [] && polls[0].Fetched? {
      var messages := polls[0].messages;
      var kind := if shared then Individual else Cumulative;
      if messages == [] {
        DrainAcksAreAsync(w, polls[1..], caps, shared, demarcator);
      } else {
        var r := Consume(w, messages, caps, AsyncConfig(shared, demarcator));
        BatchAckPolicyAsync(w, messages, caps, shared, demarcator);
        if r.status.Completed? {
          DrainAcksAreAsync(r.world, polls[1..], caps, shared, demarcator);
          AppendsOnlyChain(w.acks, r.world.acks, Drain(w, polls, caps, shared, demarcator).world.acks, kind, Async);
        }
      }
    }
  }

  /** One batch consumed with async acknowledgement issues only async
      acknowledgements of the subscription's kind. */
  lemma BatchAckPolicyAsync(w: World, batch: seq<Message>, caps: Capabilities, shared: bool, demarcator: seq<bv8>)
    ensures AppendsOnly(w.acks, Consume(w, batch, caps, AsyncConfig(shared, demarcator)).world.acks,
                        if shared then Individual else Cumulative, Async)
  {
    BatchAckPolicy(w, batch, caps, AsyncConfig(shared, demarcator));
  }
}
