/**
 * consumeMessages: one batch of fetched messages is grouped by key, each
 * group is written to one flow file (or rolled back), parse failures are
 * flushed, and the batch is acknowledged according to the subscription.
 *
 * The spec functions below describe the batch step by step on values (a
 * World: the session's state and the consumer's acknowledgement log); the
 * methods do the same on the Session and Consumer objects and are proved to
 * agree with them.
 */
module Pipeline {
  import opened Types
  import opened GroupKeys
  import opened Grouping
  import opened Sessions
  import opened Consumers
  import opened Failures
  import opened Decimal

  const SchemaAttribute := "avro.schema"
  const CountAttribute := "record.count"

  datatype World = World(session: SessionState, acks: seq<AckEvent>)

  /** The two places where the source dereferences null: a group whose
      schema could not be resolved (the "avro.schema" attribute), and a
      group for which no writer could be created (finishRecordSet). */
  datatype Fault = NullSchema | NoWriter

  datatype Status = Completed | Aborted(fault: Fault)

  /** The state of a batch between groups: the world, the parse-failure
      queue and whether the batch was aborted. */
  datatype Run = Run(world: World, failures: seq<Message>, status: Status)

  /** The state of a group between messages: the world, the parse-failure
      queue, once a writer exists the records written to it, and whether the
      group's flow file has been removed. */
  datatype GroupRun = GroupRun(world: World, failures: seq<Message>, written: Option<seq<Record>>, removed: bool)

  function Snapshot(session: Session, consumer: Consumer): World
    reads session, consumer
  {
    World(session.State(), consumer.acks)
  }

  // ---------------------------------------------------------------------
  // Specification

  /** One message of a group. While the group has no writer, a writer is
      requested; if none can be created the message is queued as a failure
      and the flow file removed (a flow file is removed only once). Otherwise the message is acknowledged on a
      shared subscription, decoded, its records written, and it is queued as
      a failure if decoding failed. */
  function MessageStep(g: GroupRun, m: Message, s: Schema, caps: Capabilities, cfg: Config): GroupRun
  {
    if g.written.None? && !caps.canWrite(s) then
      var session := if g.removed then g.world.session else g.world.session.Remove();
      GroupRun(World(session, g.world.acks), g.failures + [m], None, true)
    else
      var before := if g.written.None? then [] else g.written.value;
      var acks := if cfg.shared then g.world.acks + [AckEventFor(false, cfg.async, m)] else g.world.acks;
      var d := caps.decode(m.payload);
      GroupRun(World(g.world.session, acks), g.failures + (if d.ok then [] else [m]), Some(before + d.records), g.removed)
  }

  function ProcessMessages(g: GroupRun, msgs: seq<Message>, s: Schema, caps: Capabilities, cfg: Config): GroupRun
    decreases |msgs|
  {
    if msgs == [] then g else ProcessMessages(MessageStep(g, msgs[0], s, caps, cfg), msgs[1..], s, caps, cfg)
  }

  /** The attributes a group's flow file receives when it is transferred:
      the writer's attributes, then the record count. */
  function ResultAttributes(count: nat, attributes: map<string, string>): map<string, string>
  {
    attributes[CountAttribute := ToDecimal(count)]
  }

  /** One entry of the map: a flow file is created with the key's
      attributes and schema, the messages are written, and the flow file is
      transferred to success, or the session is rolled back when the writer
      reports an empty result. */
  function ProcessEntry(r: Run, e: Entry, caps: Capabilities, cfg: Config): Run
  {
    var created := r.world.session.Create(e.key.attributes);
    match e.key.schema
    case None => Run(World(created, r.world.acks), r.failures, Aborted(NullSchema))
    case Some(s) =>
      var started := created.PutAttribute(SchemaAttribute, s.rendering);
      if e.messages == [] then Run(World(started, r.world.acks), r.failures, r.status)
      else
        var g := ProcessMessages(GroupRun(World(started, r.world.acks), r.failures, None, false), e.messages, s, caps, cfg);
        match g.written
        case None => Run(g.world, g.failures, Aborted(NoWriter))
        case Some(records) =>
          match caps.finish(s, records)
          case Empty => Run(World(g.world.session.Rollback(), g.world.acks), g.failures, r.status)
          case Written(count, attributes) =>
            Run(World(g.world.session.Transfer(Success, ResultAttributes(count, attributes), RecordSet(records)), g.world.acks),
                g.failures, r.status)
  }

  function ProcessEntries(r: Run, es: seq<Entry>, caps: Capabilities, cfg: Config): Run
    decreases |es|
  {
    if es == [] || r.status.Aborted? then r
    else ProcessEntries(ProcessEntry(r, es[0], caps, cfg), es[1..], caps, cfg)
  }

  /** The whole batch. An empty batch does nothing. Otherwise the scratch
      flow file used while grouping is discarded with a rollback, the groups
      are processed in map order, and unless a group aborted the batch, the
      failures are flushed and, on a non-shared subscription, the last
      message is acknowledged cumulatively. */
  function Consume(w: World, batch: seq<Message>, caps: Capabilities, cfg: Config): Run
  {
    if batch == [] then Run(w, [], Completed)
    else
      var scratch := w.session.Create(map[]).Rollback();
      var r := ProcessEntries(Run(World(scratch, w.acks), [], Completed), Grouped(batch, caps), caps, cfg);
      if r.status.Aborted? then r
      else
        var flushed := Flush(r.world.session, r.failures, cfg.demarcator);
        var acks := if cfg.shared then r.world.acks
                    else r.world.acks + [AckEventFor(true, cfg.async, batch[|batch| - 1])];
        Run(World(flushed, acks), r.failures, Completed)
  }

  // ---------------------------------------------------------------------
  // Implementation

  /** The record writer of one group: the records written so far. */
  class RecordWriter {
    const schema: Schema
    var records: seq<Record>

    /** createWriter followed by beginRecordSet. */
    constructor (schema: Schema)
      ensures this.schema == schema && records == []
    {
      this.schema, records := schema, [];
    }

    /** Writes the records a reader returns, one at a time. */
    method WriteAll(rs: seq<Record>)
      modifies this
      ensures records == old(records) + rs
    {
      for k := 0 to |rs|
        invariant records == old(records) + rs[..k]
      {
        records := records + [rs[k]];
        assert rs[..k + 1] == rs[..k] + [rs[k]];
      }
      assert rs[..|rs|] == rs;
    }
  }

  function WrittenBy(w: RecordWriter?): Option<seq<Record>>
    reads w
  {
    if w == null then None else Some(w.records)
  }

  /** One iteration of the loop over a group's messages. The source's
      isFirstMessage flag is the writer still being null. */
  method WriteMessage(session: Session, consumer: Consumer, writer: RecordWriter?, message: Message,
                      failures: seq<Message>, removed: bool, schema: Schema, caps: Capabilities, cfg: Config)
    returns (writer': RecordWriter?, failures': seq<Message>, removed': bool)
    modifies session, consumer`acks, writer
    ensures writer' == writer || (writer == null && fresh(writer'))
    ensures GroupRun(Snapshot(session, consumer), failures', WrittenBy(writer'), removed') ==
      MessageStep(GroupRun(old(Snapshot(session, consumer)), failures, old(WrittenBy(writer)), removed),
                  message, schema, caps, cfg)
  {
    writer', failures', removed' := writer, failures, removed;
    if writer == null && !caps.canWrite(schema) {
      failures' := failures + [message];
      if !removed {
        session.Remove();
        removed' := true;
      }
      return;
    }
    if writer == null {
      writer' := new RecordWriter(schema);
    }
    if cfg.shared {
      Acknowledge(consumer, message, cfg.async);
    }
    var decoded := caps.decode(message.payload);
    writer'.WriteAll(decoded.records);
    if !decoded.ok {
      failures' := failures' + [message];
    }
  }

  /** The body of the loop over the map's entries. */
  method WriteGroup(session: Session, consumer: Consumer, entry: Entry, failures: seq<Message>,
                    caps: Capabilities, cfg: Config)
    returns (failures': seq<Message>, status: Status)
    modifies session, consumer`acks
    ensures var r := ProcessEntry(Run(old(Snapshot(session, consumer)), failures, Completed), entry, caps, cfg);
      Snapshot(session, consumer) == r.world && failures' == r.failures && status == r.status
  {
    failures' := failures;
    session.Create(entry.key.attributes);
    if entry.key.schema.None? {
      return failures', Aborted(NullSchema);
    }
    var schema := entry.key.schema.value;
    session.PutAttribute(SchemaAttribute, schema.rendering);
    if entry.messages == [] {
      return failures', Completed;
    }
    ghost var g0 := GroupRun(Snapshot(session, consumer), failures, None, false);
    var entryWriter: RecordWriter? := null;
    var flowFileRemoved := false;
    var i := 0;
    while i < |entry.messages|
      invariant 0 <= i <= |entry.messages|
      invariant entryWriter != null ==> fresh(entryWriter)
      invariant ProcessMessages(g0, entry.messages, schema, caps, cfg) ==
        ProcessMessages(GroupRun(Snapshot(session, consumer), failures', WrittenBy(entryWriter), flowFileRemoved),
                        entry.messages[i..], schema, caps, cfg)
    {
      assert entry.messages[i..][0] == entry.messages[i] && entry.messages[i..][1..] == entry.messages[i + 1..];
      entryWriter, failures', flowFileRemoved :=
        WriteMessage(session, consumer, entryWriter, entry.messages[i], failures', flowFileRemoved, schema, caps, cfg);
      i := i + 1;
    }
    if entryWriter == null {
      return failures', Aborted(NoWriter);
    }
    var result := caps.finish(schema, entryWriter.records);
    match result {
      case Empty =>
        session.Rollback();
      case Written(count, attributes) =>
        session.Transfer(Success, ResultAttributes(count, attributes), RecordSet(entryWriter.records));
    }
    status := Completed;
  }

  /** consumeMessages. */
  method ConsumeMessages(session: Session, consumer: Consumer, batch: seq<Message>, caps: Capabilities, cfg: Config)
    returns (status: Status)
    modifies session, consumer`acks
    ensures var r := Consume(old(Snapshot(session, consumer)), batch, caps, cfg);
      Snapshot(session, consumer) == r.world && status == r.status
  {
    if batch == [] {
      return Completed;
    }
    session.Create(map[]);
    var store := GroupMessages(batch, caps);
    session.Rollback();
    ghost var r0 := Run(Snapshot(session, consumer), [], Completed);
    var failures: seq<Message> := [];
    status := Completed;
    var i := 0;
    while i < |store| && status == Completed
      invariant 0 <= i <= |store|
      invariant ProcessEntries(r0, store, caps, cfg) ==
        ProcessEntries(Run(Snapshot(session, consumer), failures, status), store[i..], caps, cfg)
    {
      assert store[i..][0] == store[i] && store[i..][1..] == store[i + 1..];
      failures, status := WriteGroup(session, consumer, store[i], failures, caps, cfg);
      i := i + 1;
    }
    if status.Aborted? {
      return;
    }
    HandleFailures(session, failures, cfg.demarcator);
    if !cfg.shared {
      AcknowledgeCumulative(consumer, batch[|batch| - 1], cfg.async);
    }
  }
}
