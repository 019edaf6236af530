/**
 * Values the consumer pipeline works on, and the capabilities of the
 * collaborators it calls: the broker's messages, the record reader and the
 * record writer. The collaborators are abstracted as total functions, so
 * every property proved about the pipeline holds for every reader and writer.
 */
module Types {

  datatype Option<+T> = None | Some(value: T)

  /** A Pulsar message: its id (the broker's MessageId), raw payload, the
      schema text embedded by the producer if any, and the message's
      attributes after the configured property-to-attribute mapping. */
  datatype Message = Message(
    id: nat,
    payload: seq<bv8>,
    embeddedSchema: Option<string>,
    attributes: map<string, string>)

  /** A record schema: the text it reports (which a schema inferred by a
      reader may lack) and its rendering as a string, used as the
      "avro.schema" attribute. */
  datatype Schema = Schema(text: Option<string>, rendering: string)

  /** One decoded record, opaque to the pipeline. */
  datatype Record = Record(fields: seq<string>)

  /** What reading one message's payload produced: the records the reader
      returned before it stopped, and whether it stopped without an error. */
  datatype Decoded = Decoded(records: seq<Record>, ok: bool)

  /** What a writer reports when its record set is finished. */
  datatype WriteResult = Empty | Written(count: nat, attributes: map<string, string>)

  /** The collaborators of the pipeline, as value-level capabilities.
      - schemaOf: schema inference by the record reader (None stands for the
        error path of getSchema, which yields null);
      - describeEmbedded: the schema built from an embedded schema text;
      - canWrite: whether a record writer can be created for a schema;
      - decode: reading a payload into records;
      - finish: the writer's result once its record set is finished. */
  datatype Capabilities = Capabilities(
    schemaOf: seq<bv8> -> Option<Schema>,
    describeEmbedded: string -> string,
    canWrite: Schema -> bool,
    decode: seq<bv8> -> Decoded,
    finish: (Schema, seq<Record>) -> WriteResult)

  /** A writer that reports EMPTY exactly when nothing was written, and
      otherwise the number of records written. */
  ghost predicate HonestWriter(caps: Capabilities)
  {
    forall s, rs ::
      && (caps.finish(s, rs).Empty? <==> rs == [])
      && (caps.finish(s, rs).Written? ==> caps.finish(s, rs).count == |rs|)
  }

  /** The per-batch settings: subscription sharing, async acknowledgement
      and the demarcator of the failure output. */
  datatype Config = Config(shared: bool, async: bool, demarcator: seq<bv8>)

  /** The demarcator used when none is configured: "\n". */
  const DefaultDemarcator: seq<bv8> := [0x0A]

  /** The batch bound used when none is configured: Integer.MAX_VALUE. */
  const DefaultMaxMessages: int := 0x7FFF_FFFF

  function DemarcatorOf(configured: Option<seq<bv8>>): seq<bv8>
  {
    match configured
    case Some(d) => d
    case None => DefaultDemarcator
  }

  function MaxMessagesOf(configured: Option<int>): int
  {
    match configured
    case Some(n) => n
    case None => DefaultMaxMessages
  }
}
