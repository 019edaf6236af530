/**
 * The first pass of consumeMessages: every message of the batch is given a
 * key (its resolved schema and mapped attributes) and appended to that key's
 * list in an insertion-ordered map (a LinkedHashMap filled with
 * computeIfAbsent(key).add(message)).
 */
module Grouping {
  import opened Types
  import opened GroupKeys

  /** The schema a message is grouped under: the embedded schema when the
      producer attached one, otherwise the reader's inference (None when
      inference fails, which the source represents as null). */
  function ResolveSchema(m: Message, caps: Capabilities): Option<Schema>
  {
    match m.embeddedSchema
    case Some(text) => Some(Schema(Some(text), caps.describeEmbedded(text)))
    case None => caps.schemaOf(m.payload)
  }

  function KeyOf(m: Message, caps: Capabilities): GroupKey
  {
    GroupKey(ResolveSchema(m, caps), m.attributes)
  }

  /** What equality of keys looks at, for one message. */
  function IdOf(m: Message, caps: Capabilities): Identity
  {
    IdentityOf(KeyOf(m, caps))
  }

  /** One map entry: the key stored by the first message of the group, and
      the group's messages. */
  datatype Entry = Entry(key: GroupKey, messages: seq<Message>)

  function Identities(store: seq<Entry>): (ids: seq<Identity>)
    ensures |ids| == |store|
    ensures forall i :: 0 <= i < |store| ==> ids[i] == IdentityOf(store[i].key)
  {
    if store == [] then [] else [IdentityOf(store[0].key)] + Identities(store[1..])
  }

  /** The position of the entry whose key equals one with identity id, or
      |store| when there is none. */
  function IndexOf(store: seq<Entry>, id: Identity): (i: nat)
    ensures i <= |store|
    ensures i < |store| ==> IdentityOf(store[i].key) == id
    ensures i == |store| <==> id !in Identities(store)
  {
    if store == [] then 0
    else if IdentityOf(store[0].key) == id then 0
    else
      assert Identities(store) == [IdentityOf(store[0].key)] + Identities(store[1..]);
      1 + IndexOf(store[1..], id)
  }

  /** computeIfAbsent(key, ...).add(m): append m to the entry whose key
      equals key, or add a new entry for key at the end. */
  function Insert(store: seq<Entry>, key: GroupKey, m: Message): seq<Entry>
  {
    var i := IndexOf(store, IdentityOf(key));
    if i < |store| then store[i := Entry(store[i].key, store[i].messages + [m])]
    else store + [Entry(key, [m])]
  }

  /** The map after the whole batch has been inserted, in order. */
  function Grouped(batch: seq<Message>, caps: Capabilities): seq<Entry>
  {
    if batch == [] then []
    else
      var m := batch[|batch| - 1];
      Insert(Grouped(batch[..|batch| - 1], caps), KeyOf(m, caps), m)
  }

  /** The loop of consumeMessages that fills the map. */
  method GroupMessages(batch: seq<Message>, caps: Capabilities) returns (store: seq<Entry>)
    ensures store == Grouped(batch, caps)
  {
    store := [];
    for i := 0 to |batch|
      invariant store == Grouped(batch[..i], caps)
    {
      var message := batch[i];
      var key := GroupKey(ResolveSchema(message, caps), message.attributes);
      store := Insert(store, key, message);
      assert batch[..i + 1][..i] == batch[..i];
    }
    assert batch[..|batch|] == batch;
  }

  // ---------------------------------------------------------------------
  // Reference definitions: the messages of one identity, and where the
  // identity first occurs.

  /** The messages of batch whose key has identity id, in arrival order. */
  function Select(batch: seq<Message>, id: Identity, caps: Capabilities): seq<Message>
  {
    if batch == [] then []
    else
      var m := batch[|batch| - 1];
      Select(batch[..|batch| - 1], id, caps) + (if IdOf(m, caps) == id then [m] else [])
  }

  /** The index of the first message of batch with identity id, or |batch|. */
  function First(batch: seq<Message>, id: Identity, caps: Capabilities): (f: nat)
    ensures f <= |batch|
    ensures f < |batch| ==> IdOf(batch[f], caps) == id
    ensures forall k :: 0 <= k < f ==> IdOf(batch[k], caps) != id
  {
    if batch == [] then 0
    else
      var prefix := batch[..|batch| - 1];
      var f := First(prefix, id, caps);
      if f < |prefix| then f
      else if IdOf(batch[|batch| - 1], caps) == id then |prefix|
      else |batch|
  }

  lemma {:induction false} SelectEmpty(batch: seq<Message>, id: Identity, caps: Capabilities)
    requires forall k :: 0 <= k < |batch| ==> IdOf(batch[k], caps) != id
    ensures Select(batch, id, caps) == []
  {
    if batch != [] {
      SelectEmpty(batch[..|batch| - 1], id, caps);
    }
  }

  lemma SelectSnoc(batch: seq<Message>, m: Message, id: Identity, caps: Capabilities)
    ensures Select(batch + [m], id, caps) == Select(batch, id, caps) + (if IdOf(m, caps) == id then [m] else [])
  {
    assert (batch + [m])[..|batch|] == batch;
  }

  lemma FirstSnoc(batch: seq<Message>, m: Message, id: Identity, caps: Capabilities)
    ensures First(batch + [m], id, caps) ==
      if First(batch, id, caps) < |batch| then First(batch, id, caps)
      else if IdOf(m, caps) == id then |batch| else |batch| + 1
  {
    assert (batch + [m])[..|batch|] == batch;
  }

  /** No two entries have equal keys. */
  ghost predicate DistinctKeys(store: seq<Entry>)
  {
    forall i, j :: 0 <= i < j < |store| ==> IdentityOf(store[i].key) != IdentityOf(store[j].key)
  }

  /** Each entry holds exactly the messages of its key, in arrival order. */
  ghost predicate HoldsItsMessages(store: seq<Entry>, batch: seq<Message>, caps: Capabilities)
  {
    forall i :: 0 <= i < |store| ==> store[i].messages == Select(batch, IdentityOf(store[i].key), caps)
  }

  /** Every message's key has an entry. */
  ghost predicate Covers(store: seq<Entry>, batch: seq<Message>, caps: Capabilities)
  {
    forall k :: 0 <= k < |batch| ==> IdOf(batch[k], caps) in Identities(store)
  }

  /** Each entry keeps the key of the first message that had it. */
  ghost predicate KeepsFirstKey(store: seq<Entry>, batch: seq<Message>, caps: Capabilities)
  {
    forall i :: 0 <= i < |store| ==>
      First(batch, IdentityOf(store[i].key), caps) < |batch| &&
      store[i].key == KeyOf(batch[First(batch, IdentityOf(store[i].key), caps)], caps)
  }

  /** Entries are ordered by the first occurrence of their key. */
  ghost predicate FirstSeenOrder(store: seq<Entry>, batch: seq<Message>, caps: Capabilities)
  {
    forall i, j :: 0 <= i < j < |store| ==>
      First(batch, IdentityOf(store[i].key), caps) < First(batch, IdentityOf(store[j].key), caps)
  }

  /** What the map holds after a batch has been grouped. */
  ghost predicate Grouping(store: seq<Entry>, batch: seq<Message>, caps: Capabilities)
  {
    && DistinctKeys(store)
    && HoldsItsMessages(store, batch, caps)
    && Covers(store, batch, caps)
    && KeepsFirstKey(store, batch, caps)
    && FirstSeenOrder(store, batch, caps)
  }

  lemma InsertKeepsDistinct(store: seq<Entry>, key: GroupKey, m: Message)
    requires DistinctKeys(store)
    ensures DistinctKeys(Insert(store, key, m))
    ensures Identities(Insert(store, key, m)) ==
      if IdentityOf(key) in Identities(store) then Identities(store) else Identities(store) + [IdentityOf(key)]
  {
  }

  lemma InsertKeepsCover(store: seq<Entry>, batch: seq<Message>, m: Message, caps: Capabilities)
    requires Covers(store, batch, caps)
    ensures Covers(Insert(store, KeyOf(m, caps), m), batch + [m], caps)
  {
    var store' := Insert(store, KeyOf(m, caps), m);
    assert Identities(store) <= Identities(store') || forall x :: x in Identities(store) ==> x in Identities(store');
  }

  lemma InsertKeepsMessages(store: seq<Entry>, batch: seq<Message>, m: Message, caps: Capabilities)
    requires DistinctKeys(store) && Covers(store, batch, caps) && HoldsItsMessages(store, batch, caps)
    ensures HoldsItsMessages(Insert(store, KeyOf(m, caps), m), batch + [m], caps)
  {
    var id := IdOf(m, caps);
    var i0 := IndexOf(store, id);
    var store' := Insert(store, KeyOf(m, caps), m);
    forall i | 0 <= i < |store'|
      ensures store'[i].messages == Select(batch + [m], IdentityOf(store'[i].key), caps)
    {
      var idi := IdentityOf(store'[i].key);
      SelectSnoc(batch, m, idi, caps);
      if i0 < |store| {
        if i == i0 {
          assert idi == id;
        } else {
          assert store'[i] == store[i];
          assert idi != id;
        }
      } else if i < |store| {
        assert store'[i] == store[i];
        assert idi in Identities(store);
        assert idi != id;
      } else {
        assert idi == id;
        assert forall k :: 0 <= k < |batch| ==> IdOf(batch[k], caps) != id;
        SelectEmpty(batch, id, caps);
      }
    }
  }

  lemma InsertKeepsOldFirsts(store: seq<Entry>, batch: seq<Message>, m: Message, caps: Capabilities, i: nat)
    requires KeepsFirstKey(store, batch, caps)
    requires i < |store|
    ensures i < |Insert(store, KeyOf(m, caps), m)|
    ensures var store' := Insert(store, KeyOf(m, caps), m);
      && store'[i].key == store[i].key
      && First(batch + [m], IdentityOf(store'[i].key), caps) == First(batch, IdentityOf(store[i].key), caps) < |batch|
      && store'[i].key == KeyOf((batch + [m])[First(batch + [m], IdentityOf(store'[i].key), caps)], caps)
  {
    FirstSnoc(batch, m, IdentityOf(store[i].key), caps);
  }

  lemma InsertNewFirst(store: seq<Entry>, batch: seq<Message>, m: Message, caps: Capabilities)
    requires Covers(store, batch, caps)
    requires IdOf(m, caps) !in Identities(store)
    ensures First(batch + [m], IdOf(m, caps), caps) == |batch|
  {
    var id := IdOf(m, caps);
    assert forall k :: 0 <= k < |batch| ==> IdOf(batch[k], caps) != id;
    FirstSnoc(batch, m, id, caps);
  }

  lemma InsertKeepsFirstKey(store: seq<Entry>, batch: seq<Message>, m: Message, caps: Capabilities)
    requires Covers(store, batch, caps) && KeepsFirstKey(store, batch, caps)
    ensures KeepsFirstKey(Insert(store, KeyOf(m, caps), m), batch + [m], caps)
  {
    var b' := batch + [m];
    var store' := Insert(store, KeyOf(m, caps), m);
    forall i | 0 <= i < |store'|
      ensures First(b', IdentityOf(store'[i].key), caps) < |b'|
      ensures store'[i].key == KeyOf(b'[First(b', IdentityOf(store'[i].key), caps)], caps)
    {
      if i < |store| {
        InsertKeepsOldFirsts(store, batch, m, caps, i);
      } else {
        assert store'[i].key == KeyOf(m, caps);
        InsertNewFirst(store, batch, m, caps);
      }
    }
  }

  lemma InsertKeepsOrder(store: seq<Entry>, batch: seq<Message>, m: Message, caps: Capabilities)
    requires Covers(store, batch, caps) && KeepsFirstKey(store, batch, caps) && FirstSeenOrder(store, batch, caps)
    ensures FirstSeenOrder(Insert(store, KeyOf(m, caps), m), batch + [m], caps)
  {
    var b' := batch + [m];
    var store' := Insert(store, KeyOf(m, caps), m);
    forall i, j | 0 <= i < j < |store'|
      ensures First(b', IdentityOf(store'[i].key), caps) < First(b', IdentityOf(store'[j].key), caps)
    {
      InsertKeepsOldFirsts(store, batch, m, caps, i);
      if j < |store| {
        InsertKeepsOldFirsts(store, batch, m, caps, j);
      } else {
        assert store'[j].key == KeyOf(m, caps);
        InsertNewFirst(store, batch, m, caps);
      }
    }
  }

  lemma InsertPreservesGrouping(store: seq<Entry>, batch: seq<Message>, m: Message, caps: Capabilities)
    requires Grouping(store, batch, caps)
    ensures Grouping(Insert(store, KeyOf(m, caps), m), batch + [m], caps)
  {
    InsertKeepsDistinct(store, KeyOf(m, caps), m);
    InsertKeepsCover(store, batch, m, caps);
    InsertKeepsMessages(store, batch, m, caps);
    InsertKeepsFirstKey(store, batch, m, caps);
    InsertKeepsOrder(store, batch, m, caps);
  }

  /** Grouping a batch yields a map with all the properties of Grouping. */
  lemma {:induction false} GroupedIsGrouping(batch: seq<Message>, caps: Capabilities)
    ensures Grouping(Grouped(batch, caps), batch, caps)
  {
    if batch != [] {
      var prefix, m := batch[..|batch| - 1], batch[|batch| - 1];
      assert prefix + [m] == batch;
      GroupedIsGrouping(prefix, caps);
      assert Grouped(batch, caps) == Insert(Grouped(prefix, caps), KeyOf(m, caps), m);
      InsertPreservesGrouping(Grouped(prefix, caps), prefix, m, caps);
    }
  }

  /** Every message of the batch lies in exactly one group, which holds the
      messages of its key in arrival order. */
  lemma EveryMessageInExactlyOneGroup(batch: seq<Message>, caps: Capabilities, k: nat)
    requires k < |batch|
    ensures var store := Grouped(batch, caps);
      && IndexOf(store, IdOf(batch[k], caps)) < |store|
      && (forall i :: 0 <= i < |store| && IdentityOf(store[i].key) == IdOf(batch[k], caps) ==>
            i == IndexOf(store, IdOf(batch[k], caps)))
      && batch[k] in store[IndexOf(store, IdOf(batch[k], caps))].messages
  {
    GroupedIsGrouping(batch, caps);
    SelectContains(batch, IdOf(batch[k], caps), caps, k);
  }

  lemma {:induction false} SelectContains(batch: seq<Message>, id: Identity, caps: Capabilities, k: nat)
    requires k < |batch| && IdOf(batch[k], caps) == id
    ensures batch[k] in Select(batch, id, caps)
  {
    if k < |batch| - 1 {
      SelectContains(batch[..|batch| - 1], id, caps, k);
    }
  }

  // ---------------------------------------------------------------------
  // The groups, concatenated, are a permutation of the batch.

  function Flatten(store: seq<Entry>): seq<Message>
  {
    if store == [] then [] else store[0].messages + Flatten(store[1..])
  }

  lemma {:induction false} FlattenAppend(a: seq<Entry>, b: seq<Entry>)
    ensures Flatten(a + b) == Flatten(a) + Flatten(b)
  {
    if a == [] {
      assert a + b == b;
    } else {
      assert (a + b)[1..] == a[1..] + b;
      FlattenAppend(a[1..], b);
    }
  }

  lemma {:induction false} FlattenSplit(store: seq<Entry>, i: nat)
    requires i < |store|
    ensures Flatten(store) == Flatten(store[..i]) + store[i].messages + Flatten(store[i + 1..])
    decreases i
  {
    if i == 0 {
      assert store[..0] == [];
      assert store[1..] == store[i + 1..];
    } else {
      var tail := store[1..];
      FlattenSplit(tail, i - 1);
      assert tail[i - 1] == store[i];
      assert tail[i..] == store[i + 1..];
      assert store[..i][0] == store[0];
      assert store[..i][1..] == tail[..i - 1];
      assert Flatten(store[..i]) == store[0].messages + Flatten(tail[..i - 1]);
    }
  }

  lemma InsertAddsOne(store: seq<Entry>, key: GroupKey, m: Message)
    ensures multiset(Flatten(Insert(store, key, m))) == multiset(Flatten(store)) + multiset{m}
  {
    var i := IndexOf(store, IdentityOf(key));
    var store' := Insert(store, key, m);
    if i < |store| {
      var e := store[i];
      assert store'[i].messages == e.messages + [m];
      assert store'[..i] == store[..i];
      assert store'[i + 1..] == store[i + 1..];
      var pre, post := Flatten(store[..i]), Flatten(store[i + 1..]);
      assert Flatten(store) == pre + e.messages + post by { FlattenSplit(store, i); }
      assert Flatten(store') == pre + (e.messages + [m]) + post by { FlattenSplit(store', i); }
      assert multiset(Flatten(store')) == multiset(pre) + multiset(e.messages) + multiset{m} + multiset(post);
    } else {
      assert store' == store + [Entry(key, [m])];
      assert Flatten([Entry(key, [m])]) == [m] by {
        assert [Entry(key, [m])][1..] == [];
      }
      FlattenAppend(store, [Entry(key, [m])]);
    }
  }

  lemma InsertExtendsPermutation(store: seq<Entry>, prefix: seq<Message>, m: Message, caps: Capabilities)
    requires multiset(Flatten(store)) == multiset(prefix)
    ensures multiset(Flatten(Insert(store, KeyOf(m, caps), m))) == multiset(prefix + [m])
  {
    InsertAddsOne(store, KeyOf(m, caps), m);
  }

  /** No message is lost or duplicated by grouping. */
  lemma {:induction false} GroupedIsPermutation(batch: seq<Message>, caps: Capabilities)
    ensures multiset(Flatten(Grouped(batch, caps))) == multiset(batch)
  {
    if batch != [] {
      var prefix := batch[..|batch| - 1];
      var m := batch[|batch| - 1];
      GroupedIsPermutation(prefix, caps);
      InsertExtendsPermutation(Grouped(prefix, caps), prefix, m, caps);
      assert prefix + [m] == batch;
    }
  }
}
