/**
 * The Pulsar consumer as the pipeline sees it: a source of received
 * messages and a log of acknowledgements, plus the acknowledgement policy
 * (acknowledge / acknowledgeCumulative, each sync or async) and the bounded
 * fetch loop getMessages.
 */
module Consumers {
  import opened Types

  datatype AckKind = Individual | Cumulative
  datatype AckMode = Sync | Async

  /** One acknowledgement issued to the broker. An async one stands for the
      task submitted to the acknowledgement executor. */
  datatype AckEvent = AckEvent(kind: AckKind, mode: AckMode, message: Message)

  /** The consumer: the results its next receive(0, SECONDS) calls will give
      (an exhausted inbox gives null), how many receive calls were made, and
      the acknowledgements issued so far, oldest first. */
  class Consumer {
    var inbox: seq<Option<Message>>
    var receives: nat
    var acks: seq<AckEvent>

    constructor (inbox: seq<Option<Message>>)
      ensures this.inbox == inbox && receives == 0 && acks == []
    {
      this.inbox, receives, acks := inbox, 0, [];
    }

    method Receive() returns (m: Option<Message>)
      modifies this`inbox, this`receives
      ensures m == (if old(inbox) == [] then None else old(inbox)[0])
      ensures inbox == (if old(inbox) == [] then [] else old(inbox)[1..])
      ensures receives == old(receives) + 1
    {
      receives := receives + 1;
      if inbox == [] {
        m := None;
      } else {
        m := inbox[0];
        inbox := inbox[1..];
      }
    }

    /** Records one acknowledgement call of the Pulsar client API. */
    method Ack(event: AckEvent)
      modifies this`acks
      ensures acks == old(acks) + [event]
    {
      acks := acks + [event];
    }
  }

  function ModeOf(async: bool): AckMode
  {
    if async then Async else Sync
  }

  /** The call that acknowledge (cumulative false) or acknowledgeCumulative
      (cumulative true) makes: the async variant exactly when async is set. */
  function AckEventFor(cumulative: bool, async: bool, msg: Message): (e: AckEvent)
    ensures e.message == msg
    ensures e.kind == Cumulative <==> cumulative
    ensures e.mode == Async <==> async
  {
    AckEvent(if cumulative then Cumulative else Individual, ModeOf(async), msg)
  }

  method Acknowledge(consumer: Consumer, msg: Message, async: bool)
    modifies consumer`acks
    ensures consumer.acks == old(consumer.acks) + [AckEventFor(false, async, msg)]
  {
    if async {
      consumer.Ack(AckEvent(Individual, Async, msg));
    } else {
      consumer.Ack(AckEvent(Individual, Sync, msg));
    }
  }

  method AcknowledgeCumulative(consumer: Consumer, msg: Message, async: bool)
    modifies consumer`acks
    ensures consumer.acks == old(consumer.acks) + [AckEventFor(true, async, msg)]
  {
    if async {
      consumer.Ack(AckEvent(Cumulative, Async, msg));
    } else {
      consumer.Ack(AckEvent(Cumulative, Sync, msg));
    }
  }

  // ---------------------------------------------------------------------
  // getMessages

  /** The messages getMessages collects from the given receive results. */
  function Fetch(inbox: seq<Option<Message>>, maxMessages: int): seq<Message>
    decreases |inbox|
  {
    if maxMessages <= 0 || inbox == [] || inbox[0].None? then []
    else [inbox[0].value] + Fetch(inbox[1..], maxMessages - 1)
  }

  /** How many times getMessages calls receive: once per collected message,
      plus the call that returned null, unless the bound stopped it first. */
  function ReceiveCalls(inbox: seq<Option<Message>>, maxMessages: int): nat
  {
    var n := |Fetch(inbox, maxMessages)|;
    if n < maxMessages then n + 1 else n
  }

  /** The receive results getMessages consumes. */
  function Consumed(inbox: seq<Option<Message>>, maxMessages: int): nat
  {
    var calls := ReceiveCalls(inbox, maxMessages);
    if calls <= |inbox| then calls else |inbox|
  }

  /** The loop of getMessages: receive until maxMessages messages have been
      collected or receive returns null. */
  method GetMessages(consumer: Consumer, maxMessages: int) returns (messages: seq<Message>)
    modifies consumer`inbox, consumer`receives
    ensures messages == Fetch(old(consumer.inbox), maxMessages)
    ensures consumer.receives == old(consumer.receives) + ReceiveCalls(old(consumer.inbox), maxMessages)
    ensures consumer.inbox == old(consumer.inbox)[Consumed(old(consumer.inbox), maxMessages)..]
  {
    ghost var inbox0 := consumer.inbox;
    ghost var receives0 := consumer.receives;
    ghost var fetched := Fetch(inbox0, maxMessages);
    messages := [];
    var msgCount := 0;
    while msgCount < maxMessages
      invariant 0 <= msgCount == |messages| <= |inbox0|
      invariant consumer.inbox == inbox0[msgCount..]
      invariant consumer.receives == receives0 + msgCount
      invariant messages + Fetch(consumer.inbox, maxMessages - msgCount) == fetched
      invariant msgCount <= maxMessages || msgCount == 0
      decreases |consumer.inbox|
    {
      ghost var before := consumer.inbox;
      var msg := consumer.Receive();
      if msg.None? {
        assert Fetch(before, maxMessages - msgCount) == [];
        assert messages == fetched;
        StoppedAtNull(inbox0, msgCount, maxMessages);
        return;
      }
      assert Fetch(before, maxMessages - msgCount) == [msg.value] + Fetch(consumer.inbox, maxMessages - msgCount - 1);
      assert messages + [msg.value] + Fetch(consumer.inbox, maxMessages - msgCount - 1) == fetched;
      messages := messages + [msg.value];
      msgCount := msgCount + 1;
    }
    assert Fetch(consumer.inbox, maxMessages - msgCount) == [];
  }

  /** Where getMessages ends when receive returned null after n messages:
      n + 1 receive calls, and the null (if any) consumed. */
  lemma StoppedAtNull(inbox: seq<Option<Message>>, n: nat, maxMessages: int)
    requires n < maxMessages && n <= |inbox| && |Fetch(inbox, maxMessages)| == n
    requires n == |inbox| || inbox[n].None?
    ensures ReceiveCalls(inbox, maxMessages) == n + 1
    ensures inbox[Consumed(inbox, maxMessages)..] == if n == |inbox| then [] else inbox[n + 1..]
  {
  }

  /** The fetched messages are the first receive results, in order, at most
      maxMessages of them, and collection stopped at the bound, at the end of
      the inbox or at the first null. */
  lemma {:induction false} FetchIsBoundedPrefix(inbox: seq<Option<Message>>, maxMessages: int)
    ensures var r := Fetch(inbox, maxMessages);
      && |r| <= |inbox|
      && (maxMessages >= 0 ==> |r| <= maxMessages)
      && (forall i :: 0 <= i < |r| ==> inbox[i] == Some(r[i]))
      && (|r| == maxMessages || |r| == |inbox| || maxMessages < 0 || inbox[|r|].None?)
    decreases |inbox|
  {
    if !(maxMessages <= 0 || inbox == [] || inbox[0].None?) {
      FetchIsBoundedPrefix(inbox[1..], maxMessages - 1);
    }
  }

  /** Conversely, Fetch is the only such sequence. */
  lemma {:induction false} FetchUnique(inbox: seq<Option<Message>>, maxMessages: int, r: seq<Message>)
    requires maxMessages >= 0
    requires |r| <= |inbox| && |r| <= maxMessages
    requires forall i :: 0 <= i < |r| ==> inbox[i] == Some(r[i])
    requires |r| == maxMessages || |r| == |inbox| || inbox[|r|].None?
    ensures r == Fetch(inbox, maxMessages)
    decreases |inbox|
  {
    if r != [] {
      assert inbox[0] == Some(r[0]);
      FetchUnique(inbox[1..], maxMessages - 1, r[1..]);
    }
  }

  /** When the broker has at least maxMessages messages ready, getMessages
      returns maxMessages of them and calls receive exactly maxMessages times. */
  lemma {:induction false} FullBatch(inbox: seq<Option<Message>>, maxMessages: nat)
    requires maxMessages <= |inbox|
    requires forall i :: 0 <= i < maxMessages ==> inbox[i].Some?
    ensures |Fetch(inbox, maxMessages)| == maxMessages
    ensures ReceiveCalls(inbox, maxMessages) == maxMessages
    decreases maxMessages
  {
    if maxMessages > 0 {
      FullBatch(inbox[1..], maxMessages - 1);
    }
  }
}
