/** loadOutbox as a relation: which documents it reads, and as which records. */
module OutboxMeaning {
  import opened Wrappers
  import opened Unicode
  import opened JsonNumbers
  import opened Json
  import opened Validators
  import opened Patterns
  import opened CheckPatterns
  import opened SealedStore
  import opened OutboxStore
  import ContentEvent
  import ContentMeaning
  import ContentRoundTrip

  // ---------- one record ----------

  predicate ReadsId(v: Value, id: Text) { v == Str(id) && Matches(ID_PATTERN, id) }

  predicate ReadsDestination(fields: seq<Field>, d: Option<Destination>) {
    match d
    case None => Get(fields, Lit("partnerAccountId")).Undefined? && Get(fields, Lit("roomId")).Undefined?
    case Some(x) =>
      ReadsId(Get(fields, Lit("partnerAccountId")), x.partnerAccountId)
      && Get(fields, Lit("roomId")) == Str(x.roomId) && Matches(ROOM_ID_PATTERN, x.roomId)
  }

  predicate ReadsHead(parses: Text -> bool, fields: seq<Field>, id: Text, threadId: Text, queuedAt: Text) {
    && Get(fields, Lit("v")) == Num(Dec(false, [1], 1))
    && ReadsId(Get(fields, Lit("id")), id) && ReadsId(Get(fields, Lit("threadId")), threadId)
    && Get(fields, Lit("queuedAt")) == Str(queuedAt) && parses(queuedAt)
  }

  /** Record `p` is what the properties of `v` say. */
  predicate ReadsPending(parses: Text -> bool, v: Value, p: Pending) {
    && v.Obj? && ReadsHead(parses, v.fields, p.id, p.threadId, p.queuedAt) && ReadsDestination(v.fields, p.destination)
    && Get(v.fields, Lit("submitted")) == Bool(p.submitted)
    && ContentMeaning.Reads(parses, Get(v.fields, Lit("event")), p.event)
  }

  predicate ReadsNotice(parses: Text -> bool, v: Value, n: Notice) {
    && v.Obj? && ReadsHead(parses, v.fields, n.id, n.threadId, n.queuedAt)
    && Get(v.fields, Lit("eventId")) == Str(n.eventId) && Matches(EVENT_ID_PATTERN, n.eventId)
  }

  lemma IdText(v: Value, id: Text)
    ensures v.Str? && IsId(v.s) && v.s == id <==> ReadsId(v, id)
  {
    hide IsId, Matches;
    IdIsPattern(id);
  }

  lemma DestinationExact(fields: seq<Field>, d: Option<Destination>)
    ensures ReadDestination(fields) == Some(d) <==> ReadsDestination(fields, d)
  {
    hide Get, IsId, IsRoomId, Matches, Lit;
    if d.Some? {
      IdIsPattern(d.value.partnerAccountId);
      RoomIdIsPattern(d.value.roomId);
    }
  }

  /** A stored record is read exactly as what its properties say. */
  lemma PendingExact(parses: Text -> bool, v: Value, p: Pending)
    requires IsValue(v)
    ensures ReadPending(parses, v) == Some(p) <==> ReadsPending(parses, v, p)
  {
    hide Get, IsId, Matches, Lit, ReadDestination, ReadsDestination, ContentEvent.Normalize, ContentMeaning.Reads, IsValue, ReadsId;
    if v.Obj? {
      var f := v.fields;
      EventIsValue(v);
      ContentMeaning.NormalizeExact(parses, Get(f, K_EVENT), p.event);
      DestinationExact(f, p.destination);
      IdText(Get(f, K_ID), p.id);
      IdText(Get(f, K_THREAD), p.threadId);
    }
  }

  lemma EventIsValue(v: Value)
    requires IsValue(v) && v.Obj?
    ensures IsValue(Get(v.fields, K_EVENT))
  {
    GetIsValue(v.fields, K_EVENT);
  }

  lemma NoticeExact(parses: Text -> bool, v: Value, n: Notice)
    ensures ReadNotice(parses, v) == Some(n) <==> ReadsNotice(parses, v, n)
  {
    hide Get, IsId, IsEventId, Matches, Lit, ReadsId;
    if v.Obj? {
      IdText(Get(v.fields, K_ID), n.id);
      IdText(Get(v.fields, K_THREAD), n.threadId);
      EventIdIsPattern(n.eventId);
    }
  }

  // ---------- the queues ----------

  predicate ReadsAll(parses: Text -> bool, vs: seq<Value>, items: seq<Pending>) {
    |vs| == |items| && forall i :: 0 <= i < |vs| ==> ReadsPending(parses, vs[i], items[i])
  }

  lemma {:induction false} AllExact(parses: Text -> bool, vs: seq<Value>, items: seq<Pending>)
    requires forall i :: 0 <= i < |vs| ==> IsValue(vs[i])
    ensures ReadAllPending(parses, vs) == Some(items) <==> ReadsAll(parses, vs, items)
  {
    hide ReadPending, ReadsPending, IsValue;
    if vs != [] {
      if items != [] {
        PendingExact(parses, vs[0], items[0]);
        AllExact(parses, vs[1..], items[1..]);
        assert items == [items[0]] + items[1..];
        if ReadsAll(parses, vs[1..], items[1..]) && ReadsPending(parses, vs[0], items[0]) {
          forall i | 0 <= i < |vs|
            ensures ReadsPending(parses, vs[i], items[i])
          {
            if i > 0 {
              assert ReadsPending(parses, vs[1..][i - 1], items[1..][i - 1]);
            }
          }
        }
      }
    }
  }

  predicate ReadsAllNotices(parses: Text -> bool, vs: seq<Value>, items: seq<Notice>) {
    |vs| == |items| && forall i :: 0 <= i < |vs| ==> ReadsNotice(parses, vs[i], items[i])
  }

  lemma {:induction false} AllNoticesExact(parses: Text -> bool, vs: seq<Value>, items: seq<Notice>)
    ensures ReadAllNotices(parses, vs) == Some(items) <==> ReadsAllNotices(parses, vs, items)
  {
    hide ReadNotice, ReadsNotice;
    if vs != [] {
      if items != [] {
        NoticeExact(parses, vs[0], items[0]);
        AllNoticesExact(parses, vs[1..], items[1..]);
        assert items == [items[0]] + items[1..];
        if ReadsAllNotices(parses, vs[1..], items[1..]) && ReadsNotice(parses, vs[0], items[0]) {
          forall i | 0 <= i < |vs|
            ensures ReadsNotice(parses, vs[i], items[i])
          {
            if i > 0 {
              assert ReadsNotice(parses, vs[1..][i - 1], items[1..][i - 1]);
            }
          }
        }
      }
    }
  }

  /** The slot is empty, or opens to an array of at most 256 records that are all read. */
  ghost predicate Holds(parses: Text -> bool, aead: Aead, stored: Option<Text>, items: seq<Pending>) {
    if stored.None? then items == []
    else exists vs: seq<Value> ::
      Unseal(aead, stored.value, 524288) == Some(Arr(vs)) && |vs| <= 256 && ReadsAll(parses, vs, items)
  }

  ghost predicate HoldsNotices(parses: Text -> bool, aead: Aead, stored: Option<Text>, items: seq<Notice>) {
    if stored.None? then items == []
    else exists vs: seq<Value> ::
      Unseal(aead, stored.value, 131072) == Some(Arr(vs)) && |vs| <= 256 && ReadsAllNotices(parses, vs, items)
  }

  /** What is in the slot is a document of JavaScript values. */
  predicate OpensToValue(aead: Aead, stored: Option<Text>) {
    stored.Some? && Unseal(aead, stored.value, 524288).Some? ==> IsValue(Unseal(aead, stored.value, 524288).value)
  }

  /** loadOutbox returns a list exactly when the slot holds it, and throws otherwise. */
  lemma LoadExact(parses: Text -> bool, aead: Aead, stored: Option<Text>, items: seq<Pending>)
    requires OpensToValue(aead, stored)
    ensures LoadOutbox(parses, aead, stored) == Some(items) <==> Holds(parses, aead, stored, items)
  {
    hide Unseal, ReadAllPending, ReadsAll;
    if stored.Some? && Unseal(aead, stored.value, 524288).Some? {
      var document := Unseal(aead, stored.value, 524288).value;
      if document.Arr? {
        ItemsAreValues(document);
        AllExact(parses, document.items, items);
      }
    }
  }

  lemma ItemsAreValues(v: Value)
    requires IsValue(v) && v.Arr?
    ensures forall i :: 0 <= i < |v.items| ==> IsValue(v.items[i])
  {
  }

  lemma LoadNoticesExact(parses: Text -> bool, aead: Aead, stored: Option<Text>, items: seq<Notice>)
    ensures LoadNotificationOutbox(parses, aead, stored) == Some(items) <==> HoldsNotices(parses, aead, stored, items)
  {
    hide Unseal, ReadAllNotices, ReadsAllNotices;
    if stored.Some? && Unseal(aead, stored.value, 131072).Some? {
      var document := Unseal(aead, stored.value, 131072).value;
      if document.Arr? {
        AllNoticesExact(parses, document.items, items);
      }
    }
  }
}
