/**
 * What a whole batch does: when it completes, which flow files it leaves on
 * the success and parse-failure relationships, and which acknowledgements it
 * issues, for every reader, writer and subscription.
 */
module BatchProperties {
  import opened Types
  import opened GroupKeys
  import opened Grouping
  import opened Sessions
  import opened Consumers
  import opened Failures
  import opened Pipeline
  import opened GroupProperties
  import opened Decimal

  /** Every group holds at least one message. */
  ghost predicate NonEmptyGroups(es: seq<Entry>)
  {
    forall i :: 0 <= i < |es| ==> es[i].messages != []
  }

  /** A group is created by the first message of its key, so none is empty. */
  lemma GroupsAreNonEmpty(batch: seq<Message>, caps: Capabilities)
    ensures NonEmptyGroups(Grouped(batch, caps))
  {
    var es := Grouped(batch, caps);
    GroupedIsGrouping(batch, caps);
    forall i | 0 <= i < |es|
      ensures es[i].messages != []
    {
      var id := IdentityOf(es[i].key);
      var f := First(batch, id, caps);
      SelectContains(batch, id, caps, f);
    }
  }

  /** The success relationship after the groups, starting from the given
      flow files: each group appends its flow file, and a group that leaves
      none rolls the session back, discarding every flow file before it.
      This is what the pipeline does when every group is Writable; a group
      without a schema or a writer aborts the batch instead. */
  function Delivered(units: seq<Unit>, es: seq<Entry>, caps: Capabilities): seq<Unit>
    decreases |es|
  {
    if es == [] then units
    else
      var next := match Outcome(es[0], caps) case None => [] case Some(u) => units + [u];
      Delivered(next, es[1..], caps)
  }

  /** When every group leaves a flow file, the success relationship gets one
      flow file per group, in map order, after the ones already there. */
  lemma {:induction false} DeliveredAll(units: seq<Unit>, es: seq<Entry>, caps: Capabilities)
    requires forall i :: 0 <= i < |es| ==> Outcome(es[i], caps).Some?
    ensures var d := Delivered(units, es, caps);
      && |d| == |units| + |es|
      && d[..|units|] == units
      && forall i :: 0 <= i < |es| ==> d[|units| + i] == Outcome(es[i], caps).value
    decreases |es|
  {
    if es != [] {
      var u := Outcome(es[0], caps).value;
      var units', tail := units + [u], es[1..];
      var d := Delivered(units, es, caps);
      assert d == Delivered(units', tail, caps);
      assert forall i :: 0 <= i < |tail| ==> Outcome(tail[i], caps).Some? by {
        forall i | 0 <= i < |tail| ensures Outcome(tail[i], caps).Some? {
          assert tail[i] == es[i + 1];
        }
      }
      DeliveredAll(units', tail, caps);
      assert d[..|units|] == units by {
        assert d[..|units'|] == units';
        assert d[..|units|] == d[..|units'|][..|units|];
      }
      forall i | 0 <= i < |es|
        ensures d[|units| + i] == Outcome(es[i], caps).value
      {
        if i == 0 {
          assert d[|units|] == d[..|units'|][|units|];
        } else {
          assert tail[i - 1] == es[i];
          assert |units| + i == |units'| + (i - 1);
        }
      }
    }
  }

  /** A group that leaves no flow file wipes out the flow files of every
      group before it: only the groups after it count. */
  lemma {:induction false} RollbackDiscardsEarlierGroups(units: seq<Unit>, es: seq<Entry>, k: nat, caps: Capabilities)
    requires k < |es| && Outcome(es[k], caps).None?
    ensures Delivered(units, es, caps) == Delivered([], es[k + 1..], caps)
    decreases k
  {
    if k > 0 {
      var next := match Outcome(es[0], caps) case None => [] case Some(u) => units + [u];
      assert es[1..][k - 1..] == es[k..];
      RollbackDiscardsEarlierGroups(next, es[1..], k - 1, caps);
      assert es[1..][k..] == es[k + 1..];
    }
  }

  // ---------------------------------------------------------------------
  // The groups of a batch

  lemma AppendAssoc<T>(x: seq<T>, y: seq<T>, z: seq<T>)
    ensures (x + y) + z == x + (y + z)
  {
  }

  lemma WritableCons(es: seq<Entry>, caps: Capabilities)
    requires es != []
    ensures Writable(es, caps) <==>
      es[0].key.schema.Some? && caps.canWrite(es[0].key.schema.value) && Writable(es[1..], caps)
  {
    if es[0].key.schema.Some? && caps.canWrite(es[0].key.schema.value) && Writable(es[1..], caps) {
      forall i | 0 <= i < |es| ensures es[i].key.schema.Some? && caps.canWrite(es[i].key.schema.value) {
        if i > 0 {
          assert es[1..][i - 1] == es[i];
        }
      }
    }
    if Writable(es, caps) {
      forall i | 0 <= i < |es[1..]| ensures es[1..][i].key.schema.Some? && caps.canWrite(es[1..][i].key.schema.value) {
        assert es[1..][i] == es[i + 1];
      }
    }
  }

  lemma NonEmptyGroupsTail(es: seq<Entry>)
    requires es != [] && NonEmptyGroups(es)
    ensures NonEmptyGroups(es[1..]) && es[0].messages != []
  {
    forall i | 0 <= i < |es[1..]| ensures es[1..][i].messages != [] {
      assert es[1..][i] == es[i + 1];
    }
  }

  /** From a clean session, the groups run to the end exactly when every
      group has a schema a writer can be created for. */
  lemma {:induction false} EntriesComplete(r: Run, es: seq<Entry>, caps: Capabilities, cfg: Config)
    requires r.status == Completed && r.world.session.pending == [] && r.world.session.failure == []
    requires NonEmptyGroups(es)
    ensures ProcessEntries(r, es, caps, cfg).status == Completed <==> Writable(es, caps)
    decreases |es|
  {
    if es != [] {
      NonEmptyGroupsTail(es);
      EntryOutcome(r, es[0], caps, cfg);
      WritableCons(es, caps);
      var r1 := ProcessEntry(r, es[0], caps, cfg);
      if r1.status == Completed {
        EntriesComplete(r1, es[1..], caps, cfg);
      }
    }
  }

  lemma EntriesStep(r: Run, es: seq<Entry>, caps: Capabilities, cfg: Config)
    requires es != [] && r.status == Completed
    ensures ProcessEntries(r, es, caps, cfg) == ProcessEntries(ProcessEntry(r, es[0], caps, cfg), es[1..], caps, cfg)
  {
  }

  /** One group whose schema is writable, from a clean session: the facts of
      EntryOutcome for that case. */
  lemma WritableEntry(r: Run, e: Entry, caps: Capabilities, cfg: Config)
    requires r.status == Completed && e.messages != [] && r.world.session.pending == []
    requires e.key.schema.Some? && caps.canWrite(e.key.schema.value)
    ensures var r' := ProcessEntry(r, e, caps, cfg);
      && r'.status == Completed
      && r'.world.acks == r.world.acks + (if cfg.shared then Individuals(e.messages, cfg.async) else [])
      && r'.failures == r.failures + FailedDecodes(e.messages, caps)
      && r'.world.session.pending == []
      && r'.world.session.failure == (if Outcome(e, caps).None? then [] else r.world.session.failure)
      && r'.world.session.success == (match Outcome(e, caps) case None => [] case Some(u) => r.world.session.success + [u])
  {
    EntryOutcome(r, e, caps, cfg);
  }

  /** When every group has a writable schema, every failed decode of the
      groups is queued, group by group. */
  lemma {:induction false} EntriesFailures(r: Run, es: seq<Entry>, caps: Capabilities, cfg: Config)
    requires r.status == Completed && r.world.session.pending == []
    requires NonEmptyGroups(es) && Writable(es, caps)
    ensures ProcessEntries(r, es, caps, cfg).failures == r.failures + FailedDecodes(Flatten(es), caps)
    decreases |es|
  {
    if es != [] {
      var e, tail := es[0], es[1..];
      var r1 := ProcessEntry(r, e, caps, cfg);
      var f, g := FailedDecodes(e.messages, caps), FailedDecodes(Flatten(tail), caps);
      NonEmptyGroupsTail(es);
      WritableCons(es, caps);
      assert r1.failures == r.failures + f && r1.status == Completed && r1.world.session.pending == [] by {
        WritableEntry(r, e, caps, cfg);
      }
      assert ProcessEntries(r, es, caps, cfg) == ProcessEntries(r1, tail, caps, cfg) by {
        EntriesStep(r, es, caps, cfg);
      }
      assert ProcessEntries(r1, tail, caps, cfg).failures == r1.failures + g by {
        EntriesFailures(r1, tail, caps, cfg);
      }
      assert FailedDecodes(Flatten(es), caps) == f + g by {
        assert Flatten(es) == e.messages + Flatten(tail);
        FailedDecodesAppend(e.messages, Flatten(tail), caps);
      }
      AppendAssoc(r.failures, f, g);
    }
  }

  /** When every group has a writable schema, every message of the groups
      is acknowledged individually on a shared subscription, in map order,
      and none otherwise. */
  lemma {:induction false} EntriesAcks(r: Run, es: seq<Entry>, caps: Capabilities, cfg: Config)
    requires r.status == Completed && r.world.session.pending == []
    requires NonEmptyGroups(es) && Writable(es, caps)
    ensures ProcessEntries(r, es, caps, cfg).world.acks ==
      r.world.acks + (if cfg.shared then Individuals(Flatten(es), cfg.async) else [])
    decreases |es|
  {
    if es != [] {
      var e, tail := es[0], es[1..];
      var r1 := ProcessEntry(r, e, caps, cfg);
      var a := if cfg.shared then Individuals(e.messages, cfg.async) else [];
      var b := if cfg.shared then Individuals(Flatten(tail), cfg.async) else [];
      NonEmptyGroupsTail(es);
      WritableCons(es, caps);
      assert r1.world.acks == r.world.acks + a && r1.status == Completed && r1.world.session.pending == [] by {
        WritableEntry(r, e, caps, cfg);
      }
      assert ProcessEntries(r, es, caps, cfg) == ProcessEntries(r1, tail, caps, cfg) by {
        EntriesStep(r, es, caps, cfg);
      }
      assert ProcessEntries(r1, tail, caps, cfg).world.acks == r1.world.acks + b by {
        EntriesAcks(r1, tail, caps, cfg);
      }
      assert (if cfg.shared then Individuals(Flatten(es), cfg.async) else []) == a + b by {
        assert Flatten(es) == e.messages + Flatten(tail);
        IndividualsAppend(e.messages, Flatten(tail), cfg.async);
      }
      AppendAssoc(r.world.acks, a, b);
    }
  }

  /** When every group has a writable schema, the groups run to the end from
      a clean session, and the session then holds the delivered flow files
      and nothing else. */
  lemma {:induction false} EntriesSession(r: Run, es: seq<Entry>, caps: Capabilities, cfg: Config)
    requires r.status == Completed && r.world.session.pending == [] && r.world.session.failure == []
    requires NonEmptyGroups(es) && Writable(es, caps)
    ensures var r' := ProcessEntries(r, es, caps, cfg);
      && r'.status == Completed
      && r'.world.session == SessionState([], Delivered(r.world.session.success, es, caps), [])
    decreases |es|
  {
    if es == [] {
      assert r.world.session == SessionState([], r.world.session.success, []);
    } else {
      var e := es[0];
      NonEmptyGroupsTail(es);
      WritableCons(es, caps);
      WritableEntry(r, e, caps, cfg);
      EntriesStep(r, es, caps, cfg);
      EntriesSession(ProcessEntry(r, e, caps, cfg), es[1..], caps, cfg);
    }
  }

  /** The three together. */
  lemma EntriesOutcome(r: Run, es: seq<Entry>, caps: Capabilities, cfg: Config)
    requires r.status == Completed && r.world.session.pending == [] && r.world.session.failure == []
    requires NonEmptyGroups(es) && Writable(es, caps)
    ensures var r' := ProcessEntries(r, es, caps, cfg);
      && r'.status == Completed
      && r'.failures == r.failures + FailedDecodes(Flatten(es), caps)
      && r'.world.acks == r.world.acks + (if cfg.shared then Individuals(Flatten(es), cfg.async) else [])
      && r'.world.session == SessionState([], Delivered(r.world.session.success, es, caps), [])
  {
    EntriesFailures(r, es, caps, cfg);
    EntriesAcks(r, es, caps, cfg);
    EntriesSession(r, es, caps, cfg);
  }

  /** The acknowledgements one group's messages issue: individual ones in
      the configured mode, and only on a shared subscription. */
  lemma {:induction false} MessagesAckPolicy(g: GroupRun, msgs: seq<Message>, s: Schema, caps: Capabilities, cfg: Config)
    ensures var g' := ProcessMessages(g, msgs, s, caps, cfg);
      && AppendsOnly(g.world.acks, g'.world.acks, Individual, ModeOf(cfg.async))
      && (!cfg.shared ==> g'.world.acks == g.world.acks)
    decreases |msgs|
  {
    if msgs != [] {
      var g1 := MessageStep(g, msgs[0], s, caps, cfg);
      MessagesAckPolicy(g1, msgs[1..], s, caps, cfg);
      AppendsOnlyChain(g.world.acks, g1.world.acks, ProcessMessages(g, msgs, s, caps, cfg).world.acks, Individual, ModeOf(cfg.async));
    }
  }

  /** The same for any run of groups, whatever its outcome. */
  lemma {:induction false} EntriesAckPolicy(r: Run, es: seq<Entry>, caps: Capabilities, cfg: Config)
    ensures var r' := ProcessEntries(r, es, caps, cfg);
      && AppendsOnly(r.world.acks, r'.world.acks, Individual, ModeOf(cfg.async))
      && (!cfg.shared ==> r'.world.acks == r.world.acks)
    decreases |es|
  {
    if es != [] && r.status.Completed? {
      var e := es[0];
      var r1 := ProcessEntry(r, e, caps, cfg);
      if e.key.schema.Some? && e.messages != [] {
        var s := e.key.schema.value;
        var started := r.world.session.Create(e.key.attributes).PutAttribute(SchemaAttribute, s.rendering);
        MessagesAckPolicy(GroupRun(World(started, r.world.acks), r.failures, None, false), e.messages, s, caps, cfg);
      }
      assert AppendsOnly(r.world.acks, r1.world.acks, Individual, ModeOf(cfg.async));
      EntriesAckPolicy(r1, es[1..], caps, cfg);
      AppendsOnlyChain(r.world.acks, r1.world.acks, ProcessEntries(r, es, caps, cfg).world.acks, Individual, ModeOf(cfg.async));
    }
  }

  // ---------------------------------------------------------------------
  // The whole batch

  /** An empty batch leaves the session and the acknowledgements alone. */
  lemma EmptyBatchChangesNothing(w: World, caps: Capabilities, cfg: Config)
    ensures Consume(w, [], caps, cfg) == Run(w, [], Completed)
  {
  }

  /** A non-empty batch completes exactly when every group has a schema a
      writer can be created for. Then the failure queue holds the messages
      whose decoding failed (group by group), the session holds no flow file
      under construction, the delivered flow files on success, and on
      parse-failure nothing when the queue is empty and otherwise one flow
      file with the queued payloads joined by the demarcator. Whatever the
      session held before the batch is gone. */
  lemma BatchOutcome(w: World, batch: seq<Message>, caps: Capabilities, cfg: Config)
    requires batch != []
    ensures var es := Grouped(batch, caps);
      var r := Consume(w, batch, caps, cfg);
      && (r.status == Completed <==> Writable(es, caps))
      && (r.status == Completed ==>
            && r.failures == FailedDecodes(Flatten(es), caps)
            && r.world.session.pending == []
            && r.world.session.success == Delivered([], es, caps)
            && r.world.session.failure ==
                 (if r.failures == [] then [] else [Unit(map[], Raw(Join(Payloads(r.failures), cfg.demarcator)))]))
  {
    var es := Grouped(batch, caps);
    GroupsAreNonEmpty(batch, caps);
    var scratch := w.session.Create(map[]).Rollback();
    var r0 := Run(World(scratch, w.acks), [], Completed);
    EntriesComplete(r0, es, caps, cfg);
    if Writable(es, caps) {
      EntriesOutcome(r0, es, caps, cfg);
    }
    var r1 := ProcessEntries(r0, es, caps, cfg);
    if r1.status == Completed {
      FlushOutcome(r1.world.session, r1.failures, cfg.demarcator);
    }
  }

  /** With a writer that reports EMPTY exactly for an empty record set, when
      every group has a writable schema and decodes to at least one record,
      a batch leaves exactly one flow file per group on success, in map
      order, each holding its group's records and a "record.count" that
      reads back as their number. */
  lemma EveryGroupDelivered(w: World, batch: seq<Message>, caps: Capabilities, cfg: Config)
    requires batch != [] && HonestWriter(caps) && Writable(Grouped(batch, caps), caps)
    requires forall i :: 0 <= i < |Grouped(batch, caps)| ==> DecodedRecords(Grouped(batch, caps)[i].messages, caps) != []
    ensures var es := Grouped(batch, caps);
      var success := Consume(w, batch, caps, cfg).world.session.success;
      && |success| == |es|
      && forall i :: 0 <= i < |es| ==>
           && success[i].content == RecordSet(DecodedRecords(es[i].messages, caps))
           && CountAttribute in success[i].attributes
           && IsDigits(success[i].attributes[CountAttribute])
           && ParseDecimal(success[i].attributes[CountAttribute]) == |DecodedRecords(es[i].messages, caps)|
  {
    var es := Grouped(batch, caps);
    var success := Consume(w, batch, caps, cfg).world.session.success;
    assert success == Delivered([], es, caps) by {
      BatchOutcome(w, batch, caps, cfg);
    }
    forall i | 0 <= i < |es|
      ensures Outcome(es[i], caps).Some?
      ensures var u := Outcome(es[i], caps).value;
        && u.content == RecordSet(DecodedRecords(es[i].messages, caps))
        && CountAttribute in u.attributes
        && IsDigits(u.attributes[CountAttribute])
        && ParseDecimal(u.attributes[CountAttribute]) == |DecodedRecords(es[i].messages, caps)|
    {
      HonestOutcome(es[i], caps);
    }
    DeliveredAll([], es, caps);
  }

  /** A message is queued as a parse failure of a completed batch exactly
      when it belongs to the batch and its decoding fails. */
  lemma FailuresOfBatch(w: World, batch: seq<Message>, caps: Capabilities, cfg: Config, m: Message)
    requires batch != [] && Consume(w, batch, caps, cfg).status == Completed
    ensures m in Consume(w, batch, caps, cfg).failures <==> m in batch && !caps.decode(m.payload).ok
  {
    BatchOutcome(w, batch, caps, cfg);
    GroupedIsPermutation(batch, caps);
    FailedDecodesMembers(Flatten(Grouped(batch, caps)), caps, m);
    assert m in Flatten(Grouped(batch, caps)) <==> m in multiset(batch);
  }

  /** The messages a log of acknowledgements names, in order. */
  function AckedMessages(events: seq<AckEvent>): (ms: seq<Message>)
    ensures |ms| == |events| && forall i :: 0 <= i < |events| ==> ms[i] == events[i].message
  {
    if events == [] then [] else [events[0].message] + AckedMessages(events[1..])
  }

  /** The acknowledgement policy of a batch:
      - on a shared subscription only individual acknowledgements are
        issued, and when the batch completes every message of the batch is
        acknowledged exactly once;
      - otherwise no individual acknowledgement is issued, and exactly one
        cumulative acknowledgement of the batch's last message is, when a
        non-empty batch completes;
      - each uses the async variant exactly when async is set. */
  lemma BatchAckPolicy(w: World, batch: seq<Message>, caps: Capabilities, cfg: Config)
    ensures var r := Consume(w, batch, caps, cfg);
      && (cfg.shared ==> AppendsOnly(w.acks, r.world.acks, Individual, ModeOf(cfg.async)))
      && (cfg.shared && r.status == Completed ==>
            multiset(AckedMessages(r.world.acks[|w.acks|..])) == multiset(batch))
      && (!cfg.shared ==>
            r.world.acks == w.acks + (if batch != [] && r.status == Completed
                                      then [AckEvent(Cumulative, ModeOf(cfg.async), batch[|batch| - 1])] else []))
  {
    if batch != [] {
      var es := Grouped(batch, caps);
      var scratch := w.session.Create(map[]).Rollback();
      var r0 := Run(World(scratch, w.acks), [], Completed);
      EntriesAckPolicy(r0, es, caps, cfg);
      var r := Consume(w, batch, caps, cfg);
      if cfg.shared && r.status == Completed {
        GroupsAreNonEmpty(batch, caps);
        EntriesComplete(r0, es, caps, cfg);
        EntriesOutcome(r0, es, caps, cfg);
        GroupedIsPermutation(batch, caps);
        var added := r.world.acks[|w.acks|..];
        assert added == Individuals(Flatten(es), cfg.async);
        assert AckedMessages(added) == Flatten(es);
      }
    }
  }

  /** The session rollback that follows grouping discards whatever the
      session held before the batch: the outcome of a non-empty batch does
      not depend on it. */
  lemma BatchForgetsEarlierOutput(s1: SessionState, s2: SessionState, acks: seq<AckEvent>, batch: seq<Message>,
                                  caps: Capabilities, cfg: Config)
    requires batch != []
    ensures Consume(World(s1, acks), batch, caps, cfg) == Consume(World(s2, acks), batch, caps, cfg)
  {
  }
}
