/**
 * Concrete batches: the expectations of the processor's unit tests,
 * derived from the general properties.
 */
module Scenarios {
  import opened Types
  import opened GroupKeys
  import opened Grouping
  import opened Sessions
  import opened Consumers
  import opened Failures
  import opened Pipeline
  import opened Decimal
  import opened GroupProperties
  import opened BatchProperties

  /** The message payload "msg". */
  const MsgBytes: seq<bv8> := [0x6D, 0x73, 0x67]

  /** The demarcator "***". */
  const Stars: seq<bv8> := [0x2A, 0x2A, 0x2A]

  /** A message without an embedded schema whose schema the reader infers
      as s. */
  ghost predicate InferredAs(m: Message, s: Schema, caps: Capabilities)
  {
    m.embeddedSchema == None && caps.schemaOf(m.payload) == Some(s)
  }

  /** A message whose key equals that of the i-th group joins that group. */
  lemma GroupedJoins(batch: seq<Message>, g: seq<Entry>, m: Message, i: nat, caps: Capabilities)
    requires Grouped(batch, caps) == g && i < |g| && IndexOf(g, IdOf(m, caps)) == i
    ensures Grouped(batch + [m], caps) == g[i := Entry(g[i].key, g[i].messages + [m])]
  {
    assert (batch + [m])[..|batch|] == batch;
  }

  /** A message whose key equals no group's key opens a new group at the
      end. */
  lemma GroupedOpens(batch: seq<Message>, g: seq<Entry>, m: Message, caps: Capabilities)
    requires Grouped(batch, caps) == g && IdOf(m, caps) !in Identities(g)
    ensures Grouped(batch + [m], caps) == g + [Entry(KeyOf(m, caps), [m])]
  {
    assert (batch + [m])[..|batch|] == batch;
  }

  /** How the keys of the four messages of the mapped-attributes test
      compare: A and B have the same key, and C and D each have a key of
      their own. */
  lemma MappedKeys(a: Message, b: Message, c: Message, d: Message, s: Schema, caps: Capabilities)
    requires InferredAs(a, s, caps) && InferredAs(b, s, caps) && InferredAs(c, s, caps) && InferredAs(d, s, caps)
    requires a.attributes == map[] && b.attributes == map[]
    requires c.attributes == map["prop" := "val"]
    requires d.attributes == map["prop" := "val", "key" := "K"]
    ensures KeyOf(b, caps) == KeyOf(a, caps)
    ensures IdOf(c, caps) != IdOf(a, caps)
    ensures IdOf(d, caps) != IdOf(a, caps) && IdOf(d, caps) != IdOf(c, caps)
  {
    assert "prop" !in a.attributes && "prop" in c.attributes && "prop" in d.attributes;
    assert "key" !in c.attributes && "key" in d.attributes;
  }

  /** Two messages with equal keys form one group. */
  lemma GroupedPair(a: Message, b: Message, caps: Capabilities)
    requires KeyOf(b, caps) == KeyOf(a, caps)
    ensures Grouped([a, b], caps) == [Entry(KeyOf(a, caps), [a, b])]
  {
    var g1 := [Entry(KeyOf(a, caps), [a])];
    GroupedOpens([], [], a, caps);
    assert [] + [a] == [a] && [] + [Entry(KeyOf(a, caps), [a])] == g1;
    GroupedJoins([a], g1, b, 0, caps);
    assert [a] + [b] == [a, b];
  }

  /** A third message with a key of its own opens a second group. */
  lemma GroupedThird(a: Message, b: Message, c: Message, ka: GroupKey, caps: Capabilities)
    requires Grouped([a, b], caps) == [Entry(ka, [a, b])] && IdOf(c, caps) != IdentityOf(ka)
    ensures Grouped([a, b, c], caps) == [Entry(ka, [a, b]), Entry(KeyOf(c, caps), [c])]
  {
    assert Identities([Entry(ka, [a, b])]) == [IdentityOf(ka)];
    GroupedOpens([a, b], [Entry(ka, [a, b])], c, caps);
    assert [a, b] + [c] == [a, b, c];
  }

  /** A fourth message with a key of its own opens a third group. */
  lemma GroupedFourth(a: Message, b: Message, c: Message, d: Message, ka: GroupKey, kc: GroupKey, caps: Capabilities)
    requires Grouped([a, b, c], caps) == [Entry(ka, [a, b]), Entry(kc, [c])]
    requires IdOf(d, caps) != IdentityOf(ka) && IdOf(d, caps) != IdentityOf(kc)
    ensures Grouped([a, b, c, d], caps) == [Entry(ka, [a, b]), Entry(kc, [c]), Entry(KeyOf(d, caps), [d])]
  {
    assert Identities([Entry(ka, [a, b]), Entry(kc, [c])]) == [IdentityOf(ka), IdentityOf(kc)];
    GroupedOpens([a, b, c], [Entry(ka, [a, b]), Entry(kc, [c])], d, caps);
    assert [a, b, c] + [d] == [a, b, c, d];
  }

  /** Four messages with the same inferred schema, the first two without
      mapped attributes, the third with prop=val and the fourth with prop=val
      and key=K, group into three groups in arrival order: A and B, then C,
      then D. */
  lemma MappedAttributesGrouping(a: Message, b: Message, c: Message, d: Message, s: Schema, caps: Capabilities)
    requires InferredAs(a, s, caps) && InferredAs(b, s, caps) && InferredAs(c, s, caps) && InferredAs(d, s, caps)
    requires a.attributes == map[] && b.attributes == map[]
    requires c.attributes == map["prop" := "val"]
    requires d.attributes == map["prop" := "val", "key" := "K"]
    ensures Grouped([a, b, c, d], caps) == [Entry(KeyOf(a, caps), [a, b]), Entry(KeyOf(c, caps), [c]), Entry(KeyOf(d, caps), [d])]
  {
    MappedKeys(a, b, c, d, s, caps);
    GroupedPair(a, b, caps);
    GroupedThird(a, b, c, KeyOf(a, caps), caps);
    GroupedFourth(a, b, c, d, KeyOf(a, caps), KeyOf(c, caps), caps);
  }

  /** A message whose payload decodes without error to one record. */
  ghost predicate OneRecord(m: Message, caps: Capabilities)
  {
    |caps.decode(m.payload).records| == 1 && caps.decode(m.payload).ok
  }

  /** The four messages of the mapped-attributes batch: same inferred
      schema s, attributes {}, {}, {prop=val} and {prop=val, key=K}, each
      decoding without error to one record. */
  ghost predicate MappedBatch(a: Message, b: Message, c: Message, d: Message, s: Schema, caps: Capabilities)
  {
    && InferredAs(a, s, caps) && InferredAs(b, s, caps) && InferredAs(c, s, caps) && InferredAs(d, s, caps)
    && a.attributes == map[] && b.attributes == map[]
    && c.attributes == map["prop" := "val"]
    && d.attributes == map["prop" := "val", "key" := "K"]
    && OneRecord(a, caps) && OneRecord(b, caps) && OneRecord(c, caps) && OneRecord(d, caps)
  }

  /** The three groups of the mapped-attributes batch have writable schemas
      and each decodes to at least one record, two for A and B. */
  lemma MappedGroupsWritable(a: Message, b: Message, c: Message, d: Message, s: Schema, caps: Capabilities)
    requires MappedBatch(a, b, c, d, s, caps) && caps.canWrite(s)
    ensures var es := [Entry(KeyOf(a, caps), [a, b]), Entry(KeyOf(c, caps), [c]), Entry(KeyOf(d, caps), [d])];
      && Writable(es, caps)
      && (forall i :: 0 <= i < |es| ==> DecodedRecords(es[i].messages, caps) != [])
      && |DecodedRecords([a, b], caps)| == 2
  {
    assert [a, b][1..] == [b] && [b][1..] == [] && [c][1..] == [] && [d][1..] == [];
    assert DecodedRecords([b], caps) == caps.decode(b.payload).records + DecodedRecords([], caps);
    assert DecodedRecords([a, b], caps) == caps.decode(a.payload).records + DecodedRecords([b], caps);
    assert DecodedRecords([c], caps) == caps.decode(c.payload).records + [];
    assert DecodedRecords([d], caps) == caps.decode(d.payload).records + [];
  }

  /** The three groups hold the batch in arrival order, and no message of it
      fails to decode. */
  lemma MappedGroupsFlatten(a: Message, b: Message, c: Message, d: Message, ka: GroupKey, kc: GroupKey, kd: GroupKey,
                            caps: Capabilities)
    requires caps.decode(a.payload).ok && caps.decode(b.payload).ok
    requires caps.decode(c.payload).ok && caps.decode(d.payload).ok
    ensures Flatten([Entry(ka, [a, b]), Entry(kc, [c]), Entry(kd, [d])]) == [a, b, c, d]
    ensures FailedDecodes([a, b, c, d], caps) == []
  {
    var es := [Entry(ka, [a, b]), Entry(kc, [c]), Entry(kd, [d])];
    assert es[1..] == [Entry(kc, [c]), Entry(kd, [d])];
    assert es[1..][1..] == [Entry(kd, [d])];
    assert Flatten(es[1..][1..]) == [d];
    assert Flatten(es[1..]) == [c, d];
    assert [a, b, c, d][1..] == [b, c, d] && [b, c, d][1..] == [c, d] && [c, d][1..] == [d];
    assert FailedDecodes([d], caps) == [];
    assert FailedDecodes([c, d], caps) == [];
    assert FailedDecodes([b, c, d], caps) == [];
  }

  /** The same batch on an exclusive subscription with a writer that
      reports EMPTY exactly for an empty record set: three flow files on
      success, in that order, holding the records of A and B, of C, and of
      D, the first with "record.count" 2. */
  lemma MappedAttributesDelivery(w: World, a: Message, b: Message, c: Message, d: Message, s: Schema,
                                 caps: Capabilities, cfg: Config)
    requires MappedBatch(a, b, c, d, s, caps) && caps.canWrite(s) && HonestWriter(caps)
    ensures var success := Consume(w, [a, b, c, d], caps, cfg).world.session.success;
      && |success| == 3
      && success[0].content == RecordSet(DecodedRecords([a, b], caps))
      && success[1].content == RecordSet(DecodedRecords([c], caps))
      && success[2].content == RecordSet(DecodedRecords([d], caps))
      && CountAttribute in success[0].attributes
      && IsDigits(success[0].attributes[CountAttribute])
      && ParseDecimal(success[0].attributes[CountAttribute]) == 2
  {
    MappedAttributesGrouping(a, b, c, d, s, caps);
    MappedGroupsWritable(a, b, c, d, s, caps);
    EveryGroupDelivered(w, [a, b, c, d], caps, cfg);
  }

  /** The three flow files of the mapped-attributes batch are the outcomes
      of its three groups, in map order. */
  lemma MappedSuccessUnits(w: World, a: Message, b: Message, c: Message, d: Message, s: Schema,
                           caps: Capabilities, cfg: Config)
    requires MappedBatch(a, b, c, d, s, caps) && caps.canWrite(s) && HonestWriter(caps)
    ensures var es := [Entry(KeyOf(a, caps), [a, b]), Entry(KeyOf(c, caps), [c]), Entry(KeyOf(d, caps), [d])];
      var success := Consume(w, [a, b, c, d], caps, cfg).world.session.success;
      && |success| == 3
      && forall i :: 0 <= i < 3 ==> Outcome(es[i], caps).Some? && success[i] == Outcome(es[i], caps).value
  {
    var es := [Entry(KeyOf(a, caps), [a, b]), Entry(KeyOf(c, caps), [c]), Entry(KeyOf(d, caps), [d])];
    MappedAttributesGrouping(a, b, c, d, s, caps);
    MappedGroupsWritable(a, b, c, d, s, caps);
    BatchOutcome(w, [a, b, c, d], caps, cfg);
    forall i | 0 <= i < |es|
      ensures Outcome(es[i], caps).Some?
    {
      HonestOutcome(es[i], caps);
    }
    DeliveredAll([], es, caps);
  }

  /** The attributes the test checks on the three flow files, for a writer
      that reports neither "prop" nor "key": the first (A and B) has
      neither, the second (C) has prop=val and no key, the third (D) has
      prop=val and key=K. */
  lemma MappedAttributesOnFlowFiles(w: World, a: Message, b: Message, c: Message, d: Message, s: Schema,
                                    caps: Capabilities, cfg: Config)
    requires MappedBatch(a, b, c, d, s, caps) && caps.canWrite(s) && HonestWriter(caps)
    requires forall rs :: caps.finish(s, rs).Written? ==>
      "prop" !in caps.finish(s, rs).attributes && "key" !in caps.finish(s, rs).attributes
    ensures var success := Consume(w, [a, b, c, d], caps, cfg).world.session.success;
      && |success| == 3
      && "prop" !in success[0].attributes && "key" !in success[0].attributes
      && "prop" in success[1].attributes && success[1].attributes["prop"] == "val" && "key" !in success[1].attributes
      && "prop" in success[2].attributes && success[2].attributes["prop"] == "val"
      && "key" in success[2].attributes && success[2].attributes["key"] == "K"
  {
    var es := [Entry(KeyOf(a, caps), [a, b]), Entry(KeyOf(c, caps), [c]), Entry(KeyOf(d, caps), [d])];
    MappedSuccessUnits(w, a, b, c, d, s, caps, cfg);
    assert es[0].key.schema == Some(s) && es[1].key.schema == Some(s) && es[2].key.schema == Some(s);
    KeyAttributesKept(es[0], caps, "prop");
    KeyAttributesKept(es[0], caps, "key");
    KeyAttributesKept(es[1], caps, "prop");
    KeyAttributesKept(es[1], caps, "key");
    KeyAttributesKept(es[2], caps, "prop");
    KeyAttributesKept(es[2], caps, "key");
  }

  /** On an exclusive subscription the same batch completes with nothing on
      parse-failure and one cumulative acknowledgement, of D. */
  lemma MappedAttributesAcknowledged(w: World, a: Message, b: Message, c: Message, d: Message, s: Schema,
                                     caps: Capabilities, cfg: Config)
    requires MappedBatch(a, b, c, d, s, caps) && caps.canWrite(s) && !cfg.shared
    ensures var r := Consume(w, [a, b, c, d], caps, cfg);
      && r.status == Completed
      && r.world.session.failure == []
      && r.world.acks == w.acks + [AckEvent(Cumulative, ModeOf(cfg.async), d)]
  {
    MappedAttributesGrouping(a, b, c, d, s, caps);
    MappedGroupsWritable(a, b, c, d, s, caps);
    MappedGroupsFlatten(a, b, c, d, KeyOf(a, caps), KeyOf(c, caps), KeyOf(d, caps), caps);
    BatchOutcome(w, [a, b, c, d], caps, cfg);
    BatchAckPolicy(w, [a, b, c, d], caps, cfg);
  }

  /** The failed-parse test: the same message "msg" fetched twice on an
      exclusive subscription, with a reader that fails on it and a writer
      that reports EMPTY for an empty record set. Nothing reaches success,
      one flow file "msg***msg" reaches parse-failure, and the message is
      acknowledged cumulatively once. */
  lemma FailedParseHandling(w: World, m: Message, s: Schema, caps: Capabilities, cfg: Config)
    requires m.payload == MsgBytes && ResolveSchema(m, caps) == Some(s) && caps.canWrite(s)
    requires caps.decode(MsgBytes) == Decoded([], false)
    requires HonestWriter(caps) && !cfg.shared && cfg.demarcator == Stars
    ensures var r := Consume(w, [m, m], caps, cfg);
      && r.status == Completed
      && r.world.session.success == []
      && r.world.session.failure == [Unit(map[], Raw([0x6D, 0x73, 0x67, 0x2A, 0x2A, 0x2A, 0x6D, 0x73, 0x67]))]
      && r.world.acks == w.acks + [AckEvent(Cumulative, ModeOf(cfg.async), m)]
  {
    GroupedPair(m, m, caps);
    FailingGroup(m, KeyOf(m, caps), s, caps);
    BatchOutcome(w, [m, m], caps, cfg);
    TwoFailuresJoined(m, m);
    BatchAckPolicy(w, [m, m], caps, cfg);
  }

  /** The one group of the failed-parse test is writable, leaves no flow
      file, and queues both messages as failures. */
  lemma FailingGroup(m: Message, k: GroupKey, s: Schema, caps: Capabilities)
    requires k.schema == Some(s) && caps.canWrite(s)
    requires caps.decode(m.payload) == Decoded([], false) && HonestWriter(caps)
    ensures var es := [Entry(k, [m, m])];
      && Writable(es, caps)
      && Delivered([], es, caps) == []
      && Flatten(es) == [m, m]
      && FailedDecodes([m, m], caps) == [m, m]
  {
    var es := [Entry(k, [m, m])];
    assert [m, m][1..] == [m] && [m][1..] == [] && es[1..] == [];
    assert DecodedRecords([m], caps) == [];
    assert DecodedRecords([m, m], caps) == [];
    HonestOutcome(es[0], caps);
    assert FailedDecodes([m], caps) == [m];
  }

  /** On a shared subscription a completed batch issues as many
      acknowledgements as it has messages. */
  lemma SharedAckCount(w: World, batch: seq<Message>, caps: Capabilities, cfg: Config)
    requires cfg.shared && Consume(w, batch, caps, cfg).status == Completed
    ensures |Consume(w, batch, caps, cfg).world.acks| == |w.acks| + |batch|
  {
    BatchAckPolicy(w, batch, caps, cfg);
    var acks := Consume(w, batch, caps, cfg).world.acks;
    assert |multiset(AckedMessages(acks[|w.acks|..]))| == |multiset(batch)|;
  }
}
