/**
 * What one group of a batch does, stated without the step-by-step
 * functions: which messages it acknowledges, which it queues as failures,
 * which records it writes, and which flow file (if any) it leaves on the
 * success relationship.
 */
module GroupProperties {
  import opened Types
  import opened Grouping
  import opened Sessions
  import opened Consumers
  import opened Pipeline
  import opened Decimal

  /** The records the reader yields for the messages, in message order. */
  function DecodedRecords(msgs: seq<Message>, caps: Capabilities): seq<Record>
  {
    if msgs == [] then [] else caps.decode(msgs[0].payload).records + DecodedRecords(msgs[1..], caps)
  }

  /** The messages whose decoding fails, in message order. */
  function FailedDecodes(msgs: seq<Message>, caps: Capabilities): (fs: seq<Message>)
    ensures |fs| <= |msgs|
  {
    if msgs == [] then []
    else (if caps.decode(msgs[0].payload).ok then [] else [msgs[0]]) + FailedDecodes(msgs[1..], caps)
  }

  /** A message is among the failed decodes exactly when it is one of the
      messages and its decoding fails. */
  lemma {:induction false} FailedDecodesMembers(msgs: seq<Message>, caps: Capabilities, m: Message)
    ensures m in FailedDecodes(msgs, caps) <==> m in msgs && !caps.decode(m.payload).ok
  {
    if msgs != [] {
      FailedDecodesMembers(msgs[1..], caps, m);
      assert m in msgs <==> m == msgs[0] || m in msgs[1..];
    }
  }

  /** The individual acknowledgements of the messages, in message order. */
  function Individuals(msgs: seq<Message>, async: bool): (es: seq<AckEvent>)
    ensures |es| == |msgs|
    ensures forall i :: 0 <= i < |msgs| ==> es[i].message == msgs[i] && es[i].kind == Individual && es[i].mode == ModeOf(async)
  {
    if msgs == [] then [] else [AckEventFor(false, async, msgs[0])] + Individuals(msgs[1..], async)
  }

  lemma {:induction false} DecodedRecordsAppend(a: seq<Message>, b: seq<Message>, caps: Capabilities)
    ensures DecodedRecords(a + b, caps) == DecodedRecords(a, caps) + DecodedRecords(b, caps)
  {
    if a == [] {
      assert a + b == b;
    } else {
      assert (a + b)[1..] == a[1..] + b;
      DecodedRecordsAppend(a[1..], b, caps);
    }
  }

  lemma {:induction false} FailedDecodesAppend(a: seq<Message>, b: seq<Message>, caps: Capabilities)
    ensures FailedDecodes(a + b, caps) == FailedDecodes(a, caps) + FailedDecodes(b, caps)
  {
    if a == [] {
      assert a + b == b;
    } else {
      assert (a + b)[1..] == a[1..] + b;
      FailedDecodesAppend(a[1..], b, caps);
    }
  }

  lemma {:induction false} IndividualsAppend(a: seq<Message>, b: seq<Message>, async: bool)
    ensures Individuals(a + b, async) == Individuals(a, async) + Individuals(b, async)
  {
    if a == [] {
      assert a + b == b;
    } else {
      assert (a + b)[1..] == a[1..] + b;
      IndividualsAppend(a[1..], b, async);
    }
  }

  /** The acknowledgement log only grows, and every new event has the given
      kind and mode. */
  ghost predicate AppendsOnly(before: seq<AckEvent>, after: seq<AckEvent>, kind: AckKind, mode: AckMode)
  {
    && before <= after
    && forall i :: |before| <= i < |after| ==> after[i].kind == kind && after[i].mode == mode
  }

  lemma AppendsOnlyChain(a: seq<AckEvent>, b: seq<AckEvent>, c: seq<AckEvent>, kind: AckKind, mode: AckMode)
    requires AppendsOnly(a, b, kind, mode) && AppendsOnly(b, c, kind, mode)
    ensures AppendsOnly(a, c, kind, mode)
  {
    assert a <= c by {
      assert forall i :: 0 <= i < |a| ==> a[i] == b[i] == c[i];
    }
  }

  // ---------------------------------------------------------------------
  // The messages of one group

  /** With a writable schema the group's session and removal flag are left
      alone. */
  lemma {:induction false} WritableKeepsSession(g: GroupRun, msgs: seq<Message>, s: Schema, caps: Capabilities, cfg: Config)
    requires caps.canWrite(s)
    ensures var g' := ProcessMessages(g, msgs, s, caps, cfg);
      g'.world.session == g.world.session && g'.removed == g.removed
    decreases |msgs|
  {
    if msgs != [] {
      WritableKeepsSession(MessageStep(g, msgs[0], s, caps, cfg), msgs[1..], s, caps, cfg);
    }
  }

  /** With a writable schema every message is acknowledged individually on a
      shared subscription, in order, and none on any other. */
  lemma {:induction false} WritableAcks(g: GroupRun, msgs: seq<Message>, s: Schema, caps: Capabilities, cfg: Config)
    requires caps.canWrite(s)
    ensures ProcessMessages(g, msgs, s, caps, cfg).world.acks ==
      g.world.acks + (if cfg.shared then Individuals(msgs, cfg.async) else [])
    decreases |msgs|
  {
    if msgs != [] {
      WritableAcks(MessageStep(g, msgs[0], s, caps, cfg), msgs[1..], s, caps, cfg);
      assert Individuals(msgs, cfg.async) == [AckEventFor(false, cfg.async, msgs[0])] + Individuals(msgs[1..], cfg.async);
    }
  }

  /** With a writable schema a message is queued as a failure exactly when
      its decoding fails. */
  lemma {:induction false} WritableFailures(g: GroupRun, msgs: seq<Message>, s: Schema, caps: Capabilities, cfg: Config)
    requires caps.canWrite(s)
    ensures ProcessMessages(g, msgs, s, caps, cfg).failures == g.failures + FailedDecodes(msgs, caps)
    decreases |msgs|
  {
    if msgs != [] {
      WritableFailures(MessageStep(g, msgs[0], s, caps, cfg), msgs[1..], s, caps, cfg);
      var first := caps.decode(msgs[0].payload);
      assert FailedDecodes(msgs, caps) == (if first.ok then [] else [msgs[0]]) + FailedDecodes(msgs[1..], caps);
    }
  }

  /** With a writable schema the writer ends up holding what it held plus
      every decoded record, in message order; records read before a failing
      message's error stay. */
  lemma {:induction false} WritableRecords(g: GroupRun, msgs: seq<Message>, s: Schema, caps: Capabilities, cfg: Config)
    requires caps.canWrite(s)
    ensures ProcessMessages(g, msgs, s, caps, cfg).written ==
      (if msgs == [] then g.written else Some((if g.written.None? then [] else g.written.value) + DecodedRecords(msgs, caps)))
    decreases |msgs|
  {
    if msgs != [] {
      var g1 := MessageStep(g, msgs[0], s, caps, cfg);
      WritableRecords(g1, msgs[1..], s, caps, cfg);
      var before := if g.written.None? then [] else g.written.value;
      var first := caps.decode(msgs[0].payload).records;
      assert g1.written == Some(before + first);
      assert DecodedRecords(msgs, caps) == first + DecodedRecords(msgs[1..], caps);
      if msgs[1..] == [] {
        assert first + [] == first;
      } else {
        assert (before + first) + DecodedRecords(msgs[1..], caps) == before + (first + DecodedRecords(msgs[1..], caps));
      }
    }
  }

  /** With a writable schema, every message gets the writer: it is
      acknowledged on a shared subscription (and only there), decoded, its
      records appended to what the writer holds, and queued as a failure
      exactly when decoding fails. */
  lemma WritableMessages(g: GroupRun, msgs: seq<Message>, s: Schema, caps: Capabilities, cfg: Config)
    requires caps.canWrite(s)
    ensures var g' := ProcessMessages(g, msgs, s, caps, cfg);
      && g'.world.session == g.world.session
      && g'.removed == g.removed
      && g'.world.acks == g.world.acks + (if cfg.shared then Individuals(msgs, cfg.async) else [])
      && g'.failures == g.failures + FailedDecodes(msgs, caps)
      && g'.written == (if msgs == [] then g.written
                        else Some((if g.written.None? then [] else g.written.value) + DecodedRecords(msgs, caps)))
  {
    WritableKeepsSession(g, msgs, s, caps, cfg);
    WritableAcks(g, msgs, s, caps, cfg);
    WritableFailures(g, msgs, s, caps, cfg);
    WritableRecords(g, msgs, s, caps, cfg);
  }

  /** Without a writable schema no message gets a writer: every message is
      queued as a failure, none is acknowledged or decoded, and the group's
      flow file is removed once. */
  lemma {:induction false} UnwritableMessages(g: GroupRun, msgs: seq<Message>, s: Schema, caps: Capabilities, cfg: Config)
    requires !caps.canWrite(s) && g.written.None?
    ensures var g' := ProcessMessages(g, msgs, s, caps, cfg);
      && g'.written.None?
      && g'.world.acks == g.world.acks
      && g'.failures == g.failures + msgs
      && g'.removed == (g.removed || msgs != [])
      && g'.world.session == (if g.removed || msgs == [] then g.world.session else g.world.session.Remove())
    decreases |msgs|
  {
    if msgs != [] {
      var g1 := MessageStep(g, msgs[0], s, caps, cfg);
      UnwritableMessages(g1, msgs[1..], s, caps, cfg);
      assert [msgs[0]] + msgs[1..] == msgs;
    }
  }

  // ---------------------------------------------------------------------
  // The flow file of one group

  /** The flow file a group transfers when its writer reports (count,
      attributes): the key's attributes, the schema attribute, then the
      writer's attributes and the record count; the decoded records as
      content. */
  function GroupUnit(e: Entry, s: Schema, count: nat, attributes: map<string, string>, caps: Capabilities): (u: Unit)
    ensures CountAttribute in u.attributes && u.attributes[CountAttribute] == ToDecimal(count)
    ensures forall k :: k in attributes && k != CountAttribute ==> k in u.attributes && u.attributes[k] == attributes[k]
    ensures SchemaAttribute !in attributes ==> SchemaAttribute in u.attributes && u.attributes[SchemaAttribute] == s.rendering
    ensures forall k :: k in e.key.attributes && k !in attributes && k != SchemaAttribute && k != CountAttribute ==>
      k in u.attributes && u.attributes[k] == e.key.attributes[k]
    ensures u.content == RecordSet(DecodedRecords(e.messages, caps))
    ensures u.attributes.Keys == e.key.attributes.Keys + attributes.Keys + {SchemaAttribute, CountAttribute}
  {
    Unit(e.key.attributes[SchemaAttribute := s.rendering] + ResultAttributes(count, attributes),
         RecordSet(DecodedRecords(e.messages, caps)))
  }

  /** What a group leaves on the success relationship: its flow file, or
      nothing when the schema is missing, no writer can be created or the
      writer reports an empty result. */
  function Outcome(e: Entry, caps: Capabilities): Option<Unit>
  {
    match e.key.schema
    case None => None
    case Some(s) =>
      if !caps.canWrite(s) then None
      else
        match caps.finish(s, DecodedRecords(e.messages, caps))
        case Empty => None
        case Written(count, attributes) => Some(GroupUnit(e, s, count, attributes, caps))
  }

  /** Whether every group of the store has a schema a writer can be created
      for. */
  ghost predicate Writable(es: seq<Entry>, caps: Capabilities)
  {
    forall i :: 0 <= i < |es| ==> es[i].key.schema.Some? && caps.canWrite(es[i].key.schema.value)
  }

  /** One group, from a session with no flow file under construction:
      - no schema: the batch aborts (the "avro.schema" dereference), with
        nothing acknowledged or queued;
      - no writer: the batch aborts (the finishRecordSet dereference), with
        every message of the group queued as a failure and none acknowledged;
      - otherwise the group completes: its messages are acknowledged
        individually on a shared subscription, its failed decodes queued,
        and its flow file transferred to success, or, when the writer reports
        an empty result, the whole session rolled back. */
  lemma EntryOutcome(r: Run, e: Entry, caps: Capabilities, cfg: Config)
    requires r.status == Completed && e.messages != [] && r.world.session.pending == []
    ensures var r' := ProcessEntry(r, e, caps, cfg);
      if e.key.schema.None? then
        r'.status == Aborted(NullSchema) && r'.world.acks == r.world.acks && r'.failures == r.failures
      else if !caps.canWrite(e.key.schema.value) then
        r'.status == Aborted(NoWriter) && r'.world.acks == r.world.acks && r'.failures == r.failures + e.messages
      else
        && r'.status == Completed
        && r'.world.acks == r.world.acks + (if cfg.shared then Individuals(e.messages, cfg.async) else [])
        && r'.failures == r.failures + FailedDecodes(e.messages, caps)
        && r'.world.session == (match Outcome(e, caps)
                                case None => EmptySession
                                case Some(u) => SessionState([], r.world.session.success + [u], r.world.session.failure))
  {
    if e.key.schema.Some? {
      var s := e.key.schema.value;
      var started := r.world.session.Create(e.key.attributes).PutAttribute(SchemaAttribute, s.rendering);
      var g0 := GroupRun(World(started, r.world.acks), r.failures, None, false);
      if caps.canWrite(s) {
        WritableMessages(g0, e.messages, s, caps, cfg);
        var records := DecodedRecords(e.messages, caps);
        assert [] + records == records;
        assert started.pending == [Unit(e.key.attributes[SchemaAttribute := s.rendering], RecordSet([]))];
      } else {
        UnwritableMessages(g0, e.messages, s, caps, cfg);
      }
    }
  }

  /** With a writer that reports EMPTY exactly when nothing was written, a
      group with a writable schema leaves a flow file exactly when its
      messages decode to at least one record, and that flow file's
      "record.count" reads back as the number of those records. */
  lemma HonestOutcome(e: Entry, caps: Capabilities)
    requires HonestWriter(caps)
    requires e.key.schema.Some? && caps.canWrite(e.key.schema.value)
    ensures Outcome(e, caps).Some? <==> DecodedRecords(e.messages, caps) != []
    ensures Outcome(e, caps).Some? ==>
      var u := Outcome(e, caps).value;
      && CountAttribute in u.attributes
      && IsDigits(u.attributes[CountAttribute])
      && ParseDecimal(u.attributes[CountAttribute]) == |DecodedRecords(e.messages, caps)|
      && u.content == RecordSet(DecodedRecords(e.messages, caps))
  {
    var s := e.key.schema.value;
    var rs := DecodedRecords(e.messages, caps);
    assert caps.finish(s, rs).Empty? <==> rs == [];
    if caps.finish(s, rs).Written? {
      ParseToDecimal(caps.finish(s, rs).count);
    }
  }

  /** An attribute name that the writer never reports and that is neither
      "avro.schema" nor "record.count" is on a group's flow file exactly when
      the group's key maps it, and then with the key's value: the mapped
      message properties reach the flow file and nothing else does. */
  lemma KeyAttributesKept(e: Entry, caps: Capabilities, name: string)
    requires Outcome(e, caps).Some?
    requires forall rs :: caps.finish(e.key.schema.value, rs).Written? ==> name !in caps.finish(e.key.schema.value, rs).attributes
    requires name != SchemaAttribute && name != CountAttribute
    ensures var u := Outcome(e, caps).value;
      && (name in u.attributes <==> name in e.key.attributes)
      && (name in e.key.attributes ==> u.attributes[name] == e.key.attributes[name])
  {
    var s := e.key.schema.value;
    var result := caps.finish(s, DecodedRecords(e.messages, caps));
    assert name !in result.attributes;
  }
}
