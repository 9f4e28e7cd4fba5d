/** saveOutbox and loadOutbox, and their twins for notifications. */
module OutboxStore {
  import opened Wrappers
  import opened Unicode
  import opened JsonNumbers
  import opened Json
  import opened Validators
  import opened JsonBytes
  import opened OutboxRecords
  import ContentEvent
  import ContentRoundTrip
  import opened SealedStore

  const MAX_OUTBOX_PLAINTEXT_BYTES := 512 * 1024 - 16
  const MAX_OUTBOX_CIPHERTEXT_BYTES := 512 * 1024
  const MAX_NOTIFICATION_OUTBOX_PLAINTEXT_BYTES := 128 * 1024 - 16
  const MAX_NOTIFICATION_OUTBOX_CIPHERTEXT_BYTES := 128 * 1024

  const K_ID: Text := Lit("id")
  const K_THREAD: Text := Lit("threadId")
  const K_PARTNER: Text := Lit("partnerAccountId")
  const K_ROOM: Text := Lit("roomId")
  const K_EVENT: Text := Lit("event")
  const K_QUEUED: Text := Lit("queuedAt")
  const K_SUBMITTED: Text := Lit("submitted")
  const K_EVENT_ID: Text := Lit("eventId")

  // ---------- records ----------

  datatype Destination = Destination(partnerAccountId: Text, roomId: Text)

  /** PendingMatrixSend; records written by old versions have no destination. */
  datatype Pending = Pending(id: Text, threadId: Text, destination: Option<Destination>, event: ContentEvent.Event,
                             queuedAt: Text, submitted: bool)

  /** PendingMatrixNotification */
  datatype Notice = Notice(id: Text, threadId: Text, eventId: Text, queuedAt: Text)

  predicate NoSpace(s: Text, from: nat, to: nat) {
    from <= to <= |s| && forall i :: from <= i < to ==> !IsTrimmed(s[i])
  }

  /** The position of the first colon, or the length of the text. */
  function Colon(s: Text): (k: nat)
    ensures k <= |s| && (k < |s| ==> s[k] == COLON) && forall i :: 0 <= i < k ==> s[i] != COLON
  {
    if s == [] || s[0] == COLON then 0 else 1 + Colon(s[1..])
  }

  /** An exclamation mark, 1 to 255 units without colon or space, a colon, and 1 to 255 units without space. */
  predicate IsRoomId(s: Text) {
    var c := Colon(s);
    && |s| > 0 && s[0] == 0x21 && 2 <= c <= 256 && c < |s| && 1 <= |s| - c - 1 <= 255
    && NoSpace(s, 1, c) && NoSpace(s, c + 1, |s|)
  }

  /** A dollar sign and 1 to 254 units without space. */
  predicate IsEventId(s: Text) {
    2 <= |s| <= 255 && s[0] == 0x24 && NoSpace(s, 1, |s|)
  }

  predicate ValidPending(parses: Text -> bool, p: Pending) {
    && IsId(p.id) && IsId(p.threadId) && parses(p.queuedAt) && ContentRoundTrip.NormalEvent(parses, p.event)
    && (p.destination.Some? ==> IsId(p.destination.value.partnerAccountId) && IsRoomId(p.destination.value.roomId))
  }

  predicate ValidNotice(parses: Text -> bool, n: Notice) {
    IsId(n.id) && IsId(n.threadId) && IsEventId(n.eventId) && parses(n.queuedAt)
  }

  // ---------- records as objects ----------

  function PendingFields(p: Pending): seq<Field> {
    [Field(K_V, Num(ONE)), Field(K_ID, Str(p.id)), Field(K_THREAD, Str(p.threadId))]
    + (match p.destination
       case None => []
       case Some(d) => [Field(K_PARTNER, Str(d.partnerAccountId)), Field(K_ROOM, Str(d.roomId))])
    + [Field(K_EVENT, ContentEvent.EventValue(p.event)), Field(K_QUEUED, Str(p.queuedAt)), Field(K_SUBMITTED, Bool(p.submitted))]
  }

  function NoticeFields(n: Notice): seq<Field> {
    [Field(K_V, Num(ONE)), Field(K_ID, Str(n.id)), Field(K_THREAD, Str(n.threadId)),
     Field(K_EVENT_ID, Str(n.eventId)), Field(K_QUEUED, Str(n.queuedAt))]
  }

  /** Neither property is there, or both are text of the right shape. */
  function ReadDestination(fields: seq<Field>): Option<Option<Destination>> {
    var partner := Get(fields, K_PARTNER);
    var room := Get(fields, K_ROOM);
    if partner.Undefined? && room.Undefined? then Some(None)
    else if partner.Str? && IsId(partner.s) && room.Str? && IsRoomId(room.s) then Some(Some(Destination(partner.s, room.s)))
    else None
  }

  function ReadPending(parses: Text -> bool, v: Value): Option<Pending> {
    if !v.Obj? then None
    else
      var id := Get(v.fields, K_ID);
      var thread := Get(v.fields, K_THREAD);
      var queued := Get(v.fields, K_QUEUED);
      var submitted := Get(v.fields, K_SUBMITTED);
      if Get(v.fields, K_V) != Num(ONE) || !id.Str? || !thread.Str? || !queued.Str? || !submitted.Bool?
         || !IsId(id.s) || !IsId(thread.s) || !parses(queued.s)
      then None
      else
        var destination :- ReadDestination(v.fields);
        match ContentEvent.Normalize(parses, Get(v.fields, K_EVENT))
        case Fail(_) => None
        case Ok(event) => Some(Pending(id.s, thread.s, destination, event, queued.s, submitted.b))
  }

  function ReadNotice(parses: Text -> bool, v: Value): Option<Notice> {
    if !v.Obj? then None
    else
      var id := Get(v.fields, K_ID);
      var thread := Get(v.fields, K_THREAD);
      var event := Get(v.fields, K_EVENT_ID);
      var queued := Get(v.fields, K_QUEUED);
      if Get(v.fields, K_V) != Num(ONE) || !id.Str? || !thread.Str? || !event.Str? || !queued.Str?
         || !IsId(id.s) || !IsId(thread.s) || !IsEventId(event.s) || !parses(queued.s)
      then None
      else Some(Notice(id.s, thread.s, event.s, queued.s))
  }

  // ---------- the lists ----------

  function PendingValues(items: seq<Pending>): seq<Value> {
    seq(|items|, i requires 0 <= i < |items| => Obj(PendingFields(items[i])))
  }

  function NoticeValues(items: seq<Notice>): seq<Value> {
    seq(|items|, i requires 0 <= i < |items| => Obj(NoticeFields(items[i])))
  }

  function ReadAllPending(parses: Text -> bool, vs: seq<Value>): Option<seq<Pending>> {
    if vs == [] then Some([])
    else
      var first :- ReadPending(parses, vs[0]);
      var rest :- ReadAllPending(parses, vs[1..]);
      Some([first] + rest)
  }

  function ReadAllNotices(parses: Text -> bool, vs: seq<Value>): Option<seq<Notice>> {
    if vs == [] then Some([])
    else
      var first :- ReadNotice(parses, vs[0]);
      var rest :- ReadAllNotices(parses, vs[1..]);
      Some([first] + rest)
  }

  /** What the slot holds after a save, `Some(None)` for a removed item; None when the save throws. */
  function SaveOutbox(aead: Aead, nonce: seq<Byte>, items: seq<Pending>): Option<Option<Text>> {
    if items == [] then Some(None)
    else if |items| > MAX_OUTBOX_ITEMS then None
    else
      var text :- Seal(aead, nonce, Arr(PendingValues(items)), MAX_OUTBOX_PLAINTEXT_BYTES);
      Some(Some(text))
  }

  function LoadOutbox(parses: Text -> bool, aead: Aead, stored: Option<Text>): Option<seq<Pending>> {
    if stored.None? then Some([])
    else
      var items :- Unseal(aead, stored.value, MAX_OUTBOX_CIPHERTEXT_BYTES);
      if !items.Arr? || |items.items| > MAX_OUTBOX_ITEMS then None else ReadAllPending(parses, items.items)
  }

  function SaveNotificationOutbox(aead: Aead, nonce: seq<Byte>, items: seq<Notice>): Option<Option<Text>> {
    if items == [] then Some(None)
    else if |items| > MAX_OUTBOX_ITEMS then None
    else
      var text :- Seal(aead, nonce, Arr(NoticeValues(items)), MAX_NOTIFICATION_OUTBOX_PLAINTEXT_BYTES);
      Some(Some(text))
  }

  function LoadNotificationOutbox(parses: Text -> bool, aead: Aead, stored: Option<Text>): Option<seq<Notice>> {
    if stored.None? then Some([])
    else
      var items :- Unseal(aead, stored.value, MAX_NOTIFICATION_OUTBOX_CIPHERTEXT_BYTES);
      if !items.Arr? || |items.items| > MAX_OUTBOX_ITEMS then None else ReadAllNotices(parses, items.items)
  }

  // ---------- one record ----------

  lemma Names()
    ensures |K_V| == 1 && |K_ID| == 2 && |K_THREAD| == 8 && |K_PARTNER| == 16 && |K_ROOM| == 6 && |K_EVENT| == 5
    ensures |K_QUEUED| == 8 && |K_SUBMITTED| == 9 && |K_EVENT_ID| == 7 && K_THREAD != K_QUEUED
  {
    assert K_THREAD[0] == 0x74 && K_QUEUED[0] == 0x71;
  }

  lemma PendingKeys(p: Pending)
    ensures DistinctKeys(PendingFields(p))
  {
    Names();
    hide Lit;
    var f := PendingFields(p);
    assert f[0].key == K_V && f[1].key == K_ID && f[2].key == K_THREAD;
    if p.destination.Some? {
      assert |f| == 8 && f[3].key == K_PARTNER && f[4].key == K_ROOM && f[5].key == K_EVENT && f[6].key == K_QUEUED && f[7].key == K_SUBMITTED;
    } else {
      assert |f| == 6 && f[3].key == K_EVENT && f[4].key == K_QUEUED && f[5].key == K_SUBMITTED;
    }
  }

  /** The properties of a stored record read as what was written. */
  lemma PendingReads(p: Pending)
    ensures var f := PendingFields(p);
      && Get(f, K_V) == Num(ONE) && Get(f, K_ID) == Str(p.id) && Get(f, K_THREAD) == Str(p.threadId)
      && Get(f, K_EVENT) == ContentEvent.EventValue(p.event) && Get(f, K_QUEUED) == Str(p.queuedAt)
      && Get(f, K_SUBMITTED) == Bool(p.submitted)
      && Get(f, K_PARTNER) == (if p.destination.None? then Undefined else Str(p.destination.value.partnerAccountId))
      && Get(f, K_ROOM) == (if p.destination.None? then Undefined else Str(p.destination.value.roomId))
  {
    hide Lit, Get;
    Names();
    PendingKeys(p);
    var f := PendingFields(p);
    var n := |f|;
    ContentRoundTrip.GetAt(f, 0);
    ContentRoundTrip.GetAt(f, 1);
    ContentRoundTrip.GetAt(f, 2);
    ContentRoundTrip.GetAt(f, n - 3);
    ContentRoundTrip.GetAt(f, n - 2);
    ContentRoundTrip.GetAt(f, n - 1);
    if p.destination.None? {
      ContentRoundTrip.GetMissing(f, K_PARTNER);
      ContentRoundTrip.GetMissing(f, K_ROOM);
    } else {
      ContentRoundTrip.GetAt(f, 3);
      ContentRoundTrip.GetAt(f, 4);
    }
  }

  lemma PendingRoundTrip(parses: Text -> bool, p: Pending)
    requires ValidPending(parses, p)
    ensures IsJson(Obj(PendingFields(p))) && ReadPending(parses, Obj(PendingFields(p))) == Some(p)
  {
    hide Lit, Get, IsId, IsRoomId, ContentRoundTrip.NormalBody, ContentEvent.Normalize, ContentEvent.EventValue;
    PendingReads(p);
    PendingKeys(p);
    ContentRoundTrip.EventFixed(parses, p.event);
    ContentRoundTrip.EventIsJson(p.event);
    assert ValidFloat(ONE);
  }

  lemma NoticeRoundTrip(parses: Text -> bool, n: Notice)
    requires ValidNotice(parses, n)
    ensures IsJson(Obj(NoticeFields(n))) && ReadNotice(parses, Obj(NoticeFields(n))) == Some(n)
  {
    hide Lit, Get, IsId, IsEventId;
    Names();
    var f := NoticeFields(n);
    assert f[0].key == K_V && f[1].key == K_ID && f[2].key == K_THREAD && f[3].key == K_EVENT_ID && f[4].key == K_QUEUED;
    assert DistinctKeys(f);
    ContentRoundTrip.GetAt(f, 0);
    ContentRoundTrip.GetAt(f, 1);
    ContentRoundTrip.GetAt(f, 2);
    ContentRoundTrip.GetAt(f, 3);
    ContentRoundTrip.GetAt(f, 4);
    assert ValidFloat(ONE);
  }

  // ---------- the theorems ----------

  lemma {:induction false} PendingListRoundTrip(parses: Text -> bool, items: seq<Pending>)
    requires forall i :: 0 <= i < |items| ==> ValidPending(parses, items[i])
    ensures IsJson(Arr(PendingValues(items))) && ReadAllPending(parses, PendingValues(items)) == Some(items)
  {
    hide ReadPending, ValidPending, PendingFields;
    if items != [] {
      PendingRoundTrip(parses, items[0]);
      PendingListRoundTrip(parses, items[1..]);
      assert PendingValues(items)[1..] == PendingValues(items[1..]);
      assert PendingValues(items) == [Obj(PendingFields(items[0]))] + PendingValues(items[1..]);
      assert items == [items[0]] + items[1..];
    }
  }

  lemma {:induction false} NoticeListRoundTrip(parses: Text -> bool, items: seq<Notice>)
    requires forall i :: 0 <= i < |items| ==> ValidNotice(parses, items[i])
    ensures IsJson(Arr(NoticeValues(items))) && ReadAllNotices(parses, NoticeValues(items)) == Some(items)
  {
    hide ReadNotice, ValidNotice, NoticeFields;
    if items != [] {
      NoticeRoundTrip(parses, items[0]);
      NoticeListRoundTrip(parses, items[1..]);
      assert NoticeValues(items)[1..] == NoticeValues(items[1..]);
      assert NoticeValues(items) == [Obj(NoticeFields(items[0]))] + NoticeValues(items[1..]);
      assert items == [items[0]] + items[1..];
    }
  }

  /** saveOutbox stores a list exactly when it is empty, or has at most 256 records and at most 524272 bytes of JSON;
      it removes the item exactly for the empty list. */
  lemma SaveExact(aead: Aead, nonce: seq<Byte>, items: seq<Pending>)
    ensures SaveOutbox(aead, nonce, items).Some? <==>
      items == [] || (|items| <= 256 && |Bytes(Print(Arr(PendingValues(items))))| <= 524272)
    ensures SaveOutbox(aead, nonce, items) == Some(None) <==> items == []
  {
    hide Bytes, Print;
    SealExact(aead, nonce, Arr(PendingValues(items)), MAX_OUTBOX_PLAINTEXT_BYTES);
  }

  lemma SaveNoticesExact(aead: Aead, nonce: seq<Byte>, items: seq<Notice>)
    ensures SaveNotificationOutbox(aead, nonce, items).Some? <==>
      items == [] || (|items| <= 256 && |Bytes(Print(Arr(NoticeValues(items))))| <= 131056)
    ensures SaveNotificationOutbox(aead, nonce, items) == Some(None) <==> items == []
  {
    hide Bytes, Print;
    SealExact(aead, nonce, Arr(NoticeValues(items)), MAX_NOTIFICATION_OUTBOX_PLAINTEXT_BYTES);
  }

  /** Every list of well-formed records within the two limits is stored by saveOutbox and read back unchanged by
      loadOutbox, whatever the nonce. */
  lemma SaveThenLoad(parses: Text -> bool, aead: Aead, nonce: seq<Byte>, items: seq<Pending>)
    requires Lawful(aead) && |nonce| == NONCE_BYTES
    requires forall i :: 0 <= i < |items| ==> ValidPending(parses, items[i])
    requires |items| <= 256 && |Bytes(Print(Arr(PendingValues(items))))| <= 524272
    ensures SaveOutbox(aead, nonce, items).Some?
    ensures LoadOutbox(parses, aead, SaveOutbox(aead, nonce, items).value) == Some(items)
  {
    hide ReadAllPending, Unseal, Seal, ValidPending, IsJson, PendingFields, Bytes, Print;
    SaveExact(aead, nonce, items);
    if items != [] {
      PendingListRoundTrip(parses, items);
      SealRoundTrip(aead, nonce, Arr(PendingValues(items)), MAX_OUTBOX_PLAINTEXT_BYTES);
    }
  }

  lemma SaveThenLoadNotices(parses: Text -> bool, aead: Aead, nonce: seq<Byte>, items: seq<Notice>)
    requires Lawful(aead) && |nonce| == NONCE_BYTES
    requires forall i :: 0 <= i < |items| ==> ValidNotice(parses, items[i])
    requires |items| <= 256 && |Bytes(Print(Arr(NoticeValues(items))))| <= 131056
    ensures SaveNotificationOutbox(aead, nonce, items).Some?
    ensures LoadNotificationOutbox(parses, aead, SaveNotificationOutbox(aead, nonce, items).value) == Some(items)
  {
    hide ReadAllNotices, Unseal, Seal, ValidNotice, IsJson, NoticeFields, Bytes, Print;
    SaveNoticesExact(aead, nonce, items);
    if items != [] {
      NoticeListRoundTrip(parses, items);
      SealRoundTrip(aead, nonce, Arr(NoticeValues(items)), MAX_NOTIFICATION_OUTBOX_PLAINTEXT_BYTES);
    }
  }

  /** sendContentEvent checks everything of the record that it queues but the id of its thread: the record reads back
      if and only if that is well formed, which the surface controller sees to. */
  lemma QueuedRecordReadsIff(parses: Text -> bool, input: Value, threadId: Text, d: Destination, queuedAt: Text, submitted: bool)
    requires IsValue(input) && ContentEvent.Normalize(parses, input).Ok?
    requires IsId(d.partnerAccountId) && IsRoomId(d.roomId) && parses(queuedAt)
    ensures var e := ContentEvent.Normalize(parses, input).value;
      var p := Pending(e.logicalMessageId, threadId, Some(d), e, queuedAt, submitted);
      && (ValidPending(parses, p) <==> IsId(threadId))
      && ReadPending(parses, Obj(PendingFields(p))) == if IsId(threadId) then Some(p) else None
  {
    hide ContentEvent.Normalize, IsRoomId, IsId, ContentRoundTrip.NormalBody, PendingFields, ReadPending;
    ContentRoundTrip.EventNormal(parses, input);
    var e := ContentEvent.Normalize(parses, input).value;
    var p := Pending(e.logicalMessageId, threadId, Some(d), e, queuedAt, submitted);
    if IsId(threadId) {
      PendingRoundTrip(parses, p);
    } else {
      BadThreadRefused(parses, p);
    }
  }

  lemma BadThreadRefused(parses: Text -> bool, p: Pending)
    requires !IsId(p.threadId)
    ensures ReadPending(parses, Obj(PendingFields(p))) == None
  {
    hide Get, IsId, PendingFields, ContentEvent.Normalize;
    PendingReads(p);
  }

  /** One such record makes the whole queue unreadable. */
  lemma {:induction false} BadThreadBlocksQueue(parses: Text -> bool, items: seq<Pending>, i: nat)
    requires i < |items| && !IsId(items[i].threadId)
    ensures ReadAllPending(parses, PendingValues(items)) == None
  {
    hide ReadPending, PendingFields, IsId;
    assert PendingValues(items)[1..] == PendingValues(items[1..]);
    if i == 0 {
      BadThreadRefused(parses, items[0]);
    } else {
      BadThreadBlocksQueue(parses, items[1..], i - 1);
    }
  }
}
