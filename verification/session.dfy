/**
 * The part of NiFi's process session the pipeline uses: flow files are
 * created, given attributes and content, removed, transferred to a
 * relationship, or all discarded by a rollback. Nothing is committed inside
 * the pipeline, so a rollback discards every unit the session holds.
 */
module Sessions {
  import opened Types

  datatype Relationship = Success | ParseFailure

  datatype Content = RecordSet(records: seq<Record>) | Raw(bytes: seq<bv8>)

  /** One flow file: its attributes and its content. */
  datatype Unit = Unit(attributes: map<string, string>, content: Content)

  /** The session's uncommitted work: flow files created and not yet
      transferred or removed, and those transferred to each relationship. */
  datatype SessionState = SessionState(pending: seq<Unit>, success: seq<Unit>, failure: seq<Unit>)
  {
    /** session.create() followed by putAllAttributes. */
    function Create(attributes: map<string, string>): SessionState
    {
      SessionState(pending + [Unit(attributes, RecordSet([]))], success, failure)
    }

    /** session.putAttribute on the flow file being built (the last one
        created). */
    function PutAttribute(name: string, value: string): SessionState
    {
      if pending == [] then this
      else
        var last := pending[|pending| - 1];
        SessionState(pending[..|pending| - 1] + [Unit(last.attributes[name := value], last.content)], success, failure)
    }

    /** session.remove of the flow file being built (the last one created);
        nothing when it was already removed. */
    function Remove(): SessionState
    {
      if pending == [] then this else SessionState(pending[..|pending| - 1], success, failure)
    }

    /** session.rollback(): all uncommitted work is discarded. */
    function Rollback(): SessionState
    {
      SessionState([], [], [])
    }

    /** Gives the flow file being built its final content and further
        attributes (later ones override) and transfers it. */
    function Transfer(rel: Relationship, attributes: map<string, string>, content: Content): SessionState
    {
      var base := if pending == [] then map[] else pending[|pending| - 1].attributes;
      var unit := Unit(base + attributes, content);
      var rest := if pending == [] then [] else pending[..|pending| - 1];
      match rel
      case Success => SessionState(rest, success + [unit], failure)
      case ParseFailure => SessionState(rest, success, failure + [unit])
    }
  }

  const EmptySession := SessionState([], [], [])

  class Session {
    var pending: seq<Unit>
    var success: seq<Unit>
    var failure: seq<Unit>

    function State(): SessionState
      reads this
    {
      SessionState(pending, success, failure)
    }

    constructor ()
      ensures State() == EmptySession
    {
      pending, success, failure := [], [], [];
    }

    method Create(attributes: map<string, string>)
      modifies this
      ensures State() == old(State()).Create(attributes)
    {
      pending := pending + [Unit(attributes, RecordSet([]))];
    }

    method PutAttribute(name: string, value: string)
      modifies this
      ensures State() == old(State()).PutAttribute(name, value)
    {
      if pending != [] {
        var last := pending[|pending| - 1];
        pending := pending[..|pending| - 1] + [Unit(last.attributes[name := value], last.content)];
      }
    }

    method Remove()
      modifies this
      ensures State() == old(State()).Remove()
    {
      if pending != [] {
        pending := pending[..|pending| - 1];
      }
    }

    method Rollback()
      modifies this
      ensures State() == old(State()).Rollback()
    {
      pending, success, failure := [], [], [];
    }

    method Transfer(rel: Relationship, attributes: map<string, string>, content: Content)
      modifies this
      ensures State() == old(State()).Transfer(rel, attributes, content)
    {
      var base := if pending == [] then map[] else pending[|pending| - 1].attributes;
      var unit := Unit(base + attributes, content);
      if pending != [] {
        pending := pending[..|pending| - 1];
      }
      match rel
      case Success => success := success + [unit];
      case ParseFailure => failure := failure + [unit];
    }
  }
}
