/** The records of a durable queue, and the mutations that the engine applies to them. */
module OutboxRecords {

  const MAX_OUTBOX_ITEMS := 256

  // ---------- records and mutations ----------

  datatype Entry<+B> = Entry(id: string, body: B, submitted: bool)

  datatype Mutation<+B> = Put(entry: Entry<B>) | Mark(id: string) | Drop(id: string)

  /** items.filter((item) => item.id !== id) */
  function Without<B>(items: seq<Entry<B>>, id: string): seq<Entry<B>> {
    if items == [] then []
    else if items[0].id == id then Without(items[1..], id)
    else [items[0]] + Without(items[1..], id)
  }

  function Marked<B>(items: seq<Entry<B>>, id: string): seq<Entry<B>> {
    if items == [] then []
    else [if items[0].id == id then items[0].(submitted := true) else items[0]] + Marked(items[1..], id)
  }

  function Mutate<B>(items: seq<Entry<B>>, m: Mutation<B>): seq<Entry<B>> {
    match m
    case Put(entry) => Without(items, entry.id) + [entry]
    case Mark(id) => Marked(items, id)
    case Drop(id) => Without(items, id)
  }

  /** A queued object is shared with the sender: its `submitted` field is the one at the time of the write. */
  function Resolve<B>(m: Mutation<B>, submitted: bool): Mutation<B> {
    if m.Put? then Put(m.entry.(submitted := submitted)) else m
  }

  // ---------- what the mutations do ----------

  predicate DistinctIds<B>(items: seq<Entry<B>>) {
    forall i, j :: 0 <= i < j < |items| ==> items[i].id != items[j].id
  }

  lemma {:induction false} WithoutMember<B>(items: seq<Entry<B>>, id: string, e: Entry<B>)
    ensures e in Without(items, id) <==> e in items && e.id != id
  {
    if items != [] {
      WithoutMember(items[1..], id, e);
      assert items == [items[0]] + items[1..];
    }
  }

  lemma {:induction false} WithoutDistinct<B>(items: seq<Entry<B>>, id: string)
    requires DistinctIds(items)
    ensures DistinctIds(Without(items, id)) && |Without(items, id)| <= |items|
  {
    if items != [] {
      WithoutDistinct(items[1..], id);
      var tail := Without(items[1..], id);
      forall i | 0 <= i < |tail|
        ensures tail[i].id != items[0].id
      {
        WithoutMember(items[1..], id, tail[i]);
      }
    }
  }

  lemma {:induction false} MarkedExact<B>(items: seq<Entry<B>>, id: string)
    ensures |Marked(items, id)| == |items|
    ensures forall i :: 0 <= i < |items| ==>
      Marked(items, id)[i] == if items[i].id == id then items[i].(submitted := true) else items[i]
  {
    if items != [] {
      MarkedExact(items[1..], id);
    }
  }

  lemma MutateDistinct<B>(items: seq<Entry<B>>, m: Mutation<B>)
    requires DistinctIds(items)
    ensures DistinctIds(Mutate(items, m))
  {
    match m {
      case Put(entry) =>
        WithoutDistinct(items, entry.id);
        var rest := Without(items, entry.id);
        forall i | 0 <= i < |rest|
          ensures rest[i].id != entry.id
        {
          WithoutMember(items, entry.id, rest[i]);
        }
      case Mark(id) => MarkedExact(items, id);
      case Drop(id) => WithoutDistinct(items, id);
    }
  }

  function Target<B>(m: Mutation<B>): string { if m.Put? then m.entry.id else m.id }

  lemma MutateKeeps<B>(items: seq<Entry<B>>, m: Mutation<B>, e: Entry<B>)
    requires e in items && Target(m) != e.id
    ensures e in Mutate(items, m)
  {
    match m {
      case Put(entry) => WithoutMember(items, entry.id, e);
      case Mark(id) =>
        MarkedExact(items, id);
        var k :| 0 <= k < |items| && items[k] == e;
        assert Marked(items, id)[k] == e;
      case Drop(id) => WithoutMember(items, id, e);
    }
  }
}
