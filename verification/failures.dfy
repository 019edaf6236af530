/**
 * handleFailures: the messages queued as parse failures during one batch
 * become one flow file on the parse-failure relationship, holding their
 * payloads in queue order separated by the demarcator.
 */
module Failures {
  import opened Types
  import opened Sessions

  function Payloads(queue: seq<Message>): (ps: seq<seq<bv8>>)
    ensures |ps| == |queue|
    ensures forall i :: 0 <= i < |queue| ==> ps[i] == queue[i].payload
  {
    if queue == [] then [] else [queue[0].payload] + Payloads(queue[1..])
  }

  /** The parts separated by the demarcator, with nothing before the first
      part or after the last. */
  function Join(parts: seq<seq<bv8>>, demarcator: seq<bv8>): seq<bv8>
  {
    if parts == [] then []
    else if |parts| == 1 then parts[0]
    else parts[0] + demarcator + Join(parts[1..], demarcator)
  }

  /** Appending a part adds the demarcator and the part at the end. */
  lemma {:induction false} JoinSnoc(parts: seq<seq<bv8>>, p: seq<bv8>, demarcator: seq<bv8>)
    requires parts != []
    ensures Join(parts + [p], demarcator) == Join(parts, demarcator) + demarcator + p
  {
    if |parts| == 1 {
      assert parts + [p] == [parts[0], p];
      assert [parts[0], p][1..] == [p];
    } else {
      assert (parts + [p])[1..] == parts[1..] + [p];
      JoinSnoc(parts[1..], p, demarcator);
    }
  }

  function SumLengths(parts: seq<seq<bv8>>): nat
  {
    if parts == [] then 0 else |parts[0]| + SumLengths(parts[1..])
  }

  /** The joined output is as long as the payloads together plus one
      demarcator per gap between consecutive payloads. */
  lemma {:induction false} JoinLength(parts: seq<seq<bv8>>, demarcator: seq<bv8>)
    requires parts != []
    ensures |Join(parts, demarcator)| == SumLengths(parts) + (|parts| - 1) * |demarcator|
  {
    if |parts| > 1 {
      JoinLength(parts[1..], demarcator);
    }
  }

  /** Where the k-th payload starts in the joined output: after the earlier
      payloads and one demarcator for each of them. */
  function Offset(parts: seq<seq<bv8>>, demarcator: seq<bv8>, k: nat): nat
    requires k <= |parts|
  {
    if k == 0 then 0 else Offset(parts, demarcator, k - 1) + |parts[k - 1]| + |demarcator|
  }

  lemma {:induction false} OffsetTail(parts: seq<seq<bv8>>, demarcator: seq<bv8>, k: nat)
    requires 1 <= k <= |parts|
    ensures Offset(parts, demarcator, k) == |parts[0]| + |demarcator| + Offset(parts[1..], demarcator, k - 1)
  {
    if k > 1 {
      OffsetTail(parts, demarcator, k - 1);
      assert parts[1..][k - 2] == parts[k - 1];
    }
  }

  /** A slice that lies inside the second operand of a concatenation. */
  lemma SliceOfAppend<T>(a: seq<T>, b: seq<T>, lo: nat, hi: nat)
    requires |a| <= lo <= hi <= |a| + |b|
    ensures (a + b)[lo..hi] == b[lo - |a|..hi - |a|]
  {
  }

  /** The first payload starts the output, and the first demarcator follows
      it when there is more than one payload. */
  lemma JoinFirstPlace(parts: seq<seq<bv8>>, demarcator: seq<bv8>)
    requires |parts| > 1
    ensures var j := Join(parts, demarcator);
      && Offset(parts, demarcator, 1) == |parts[0]| + |demarcator| <= |j|
      && j[..|parts[0]|] == parts[0]
      && j[|parts[0]|..|parts[0]| + |demarcator|] == demarcator
  {
    var head, rest := parts[0] + demarcator, Join(parts[1..], demarcator);
    assert Join(parts, demarcator) == head + rest;
    OffsetTail(parts, demarcator, 1);
    assert parts[1..][..0] == [];
  }

  /** The layout of the joined output: payload k occupies the bytes from
      Offset(k) on, and when another payload follows it, exactly one
      demarcator lies between the two. */
  lemma {:induction false} JoinPlaces(parts: seq<seq<bv8>>, demarcator: seq<bv8>, k: nat)
    requires k < |parts|
    ensures var j, o := Join(parts, demarcator), Offset(parts, demarcator, k);
      && o + |parts[k]| <= |j|
      && j[o..o + |parts[k]|] == parts[k]
      && (k + 1 < |parts| ==>
            && o + |parts[k]| + |demarcator| == Offset(parts, demarcator, k + 1) <= |j|
            && j[o + |parts[k]|..o + |parts[k]| + |demarcator|] == demarcator)
    decreases k
  {
    assert parts[..0] == [];
    if |parts| > 1 {
      if k == 0 {
        JoinFirstPlace(parts, demarcator);
      } else {
        JoinPlacesStep(parts, demarcator, k);
      }
    }
  }

  /** Payload k of the output is payload k - 1 of the tail's output, moved
      past the first payload and demarcator. */
  lemma {:induction false} JoinPlacesStep(parts: seq<seq<bv8>>, demarcator: seq<bv8>, k: nat)
    requires 1 <= k < |parts|
    ensures var j, o := Join(parts, demarcator), Offset(parts, demarcator, k);
      && o + |parts[k]| <= |j|
      && j[o..o + |parts[k]|] == parts[k]
      && (k + 1 < |parts| ==>
            && o + |parts[k]| + |demarcator| == Offset(parts, demarcator, k + 1) <= |j|
            && j[o + |parts[k]|..o + |parts[k]| + |demarcator|] == demarcator)
    decreases k, 0
  {
    var tail := parts[1..];
    var head, rest := parts[0] + demarcator, Join(tail, demarcator);
    assert Join(parts, demarcator) == head + rest;
    assert tail[k - 1] == parts[k];
    JoinPlaces(tail, demarcator, k - 1);
    OffsetTail(parts, demarcator, k);
    var o' := Offset(tail, demarcator, k - 1);
    var n := |parts[k]|;
    SliceOfAppend(head, rest, |head| + o', |head| + o' + n);
    if k + 1 < |parts| {
      OffsetTail(parts, demarcator, k + 1);
      SliceOfAppend(head, rest, |head| + o' + n, |head| + o' + n + |demarcator|);
    }
  }

  /** The first payload starts the output and the last one ends it. */
  lemma {:induction false} JoinEnds(parts: seq<seq<bv8>>, demarcator: seq<bv8>)
    requires parts != []
    ensures parts[0] <= Join(parts, demarcator)
    ensures var j := Join(parts, demarcator);
      |parts[|parts| - 1]| <= |j| && j[|j| - |parts[|parts| - 1]|..] == parts[|parts| - 1]
  {
    if |parts| > 1 {
      var tail, last := parts[1..], parts[|parts| - 1];
      assert tail[|tail| - 1] == last;
      JoinEnds(tail, demarcator);
      var head, rest := parts[0] + demarcator, Join(tail, demarcator);
      assert Join(parts, demarcator) == head + rest;
      assert (head + rest)[..|parts[0]|] == parts[0];
      assert (head + rest)[|head + rest| - |last|..] == rest[|rest| - |last|..];
    }
  }

  /** What handleFailures leaves in the session: nothing new when the queue
      is empty, otherwise one flow file with the joined payloads. */
  function Flush(s: SessionState, queue: seq<Message>, demarcator: seq<bv8>): SessionState
  {
    if queue == [] then s
    else s.Create(map[]).Transfer(ParseFailure, map[], Raw(Join(Payloads(queue), demarcator)))
  }

  /** An empty queue produces no output; otherwise exactly one unit is added
      to the parse-failure relationship and nothing else changes. */
  lemma FlushOutcome(s: SessionState, queue: seq<Message>, demarcator: seq<bv8>)
    ensures var s' := Flush(s, queue, demarcator);
      && s'.pending == s.pending
      && s'.success == s.success
      && s'.failure == s.failure + (if queue == [] then [] else [Unit(map[], Raw(Join(Payloads(queue), demarcator)))])
  {
    if queue != [] {
      var c := s.Create(map[]);
      assert c.pending[..|c.pending| - 1] == s.pending;
    }
  }

  method HandleFailures(session: Session, queue: seq<Message>, demarcator: seq<bv8>)
    modifies session
    ensures session.State() == Flush(old(session.State()), queue, demarcator)
  {
    if queue == [] {
      return;
    }
    session.Create(map[]);
    var out: seq<bv8> := [];
    var idx := 0;
    while idx < |queue|
      invariant 0 <= idx <= |queue|
      invariant out == Join(Payloads(queue[..idx]), demarcator)
      invariant session.State() == old(session.State()).Create(map[])
    {
      var msg := queue[idx];
      if idx > 0 {
        out := out + demarcator;
      }
      out := out + msg.payload;
      assert queue[..idx + 1] == queue[..idx] + [msg];
      assert Payloads(queue[..idx + 1]) == Payloads(queue[..idx]) + [msg.payload];
      if idx > 0 {
        JoinSnoc(Payloads(queue[..idx]), msg.payload, demarcator);
      }
      idx := idx + 1;
    }
    assert queue[..idx] == queue;
    session.Transfer(ParseFailure, map[], Raw(out));
  }

  /** The parse-failure output of two payloads "msg" with demarcator "***"
      is "msg***msg". */
  lemma TwoFailuresJoined(m1: Message, m2: Message)
    requires m1.payload == m2.payload == [0x6D, 0x73, 0x67]
    ensures Join(Payloads([m1, m2]), [0x2A, 0x2A, 0x2A]) == [0x6D, 0x73, 0x67, 0x2A, 0x2A, 0x2A, 0x6D, 0x73, 0x67]
  {
    assert Payloads([m1, m2]) == [m1.payload, m2.payload];
    assert [m1.payload, m2.payload][1..] == [m2.payload];
  }
}
