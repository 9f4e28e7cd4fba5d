/** The single steps of the delivery machine, each with the condition under which it is possible and its effect. */
module DeliveryMoves {
  import opened Wrappers
  import opened OutboxRecords
  import opened Delivery

  /** `step` can be taken and leads to `n`. */
  predicate Leads(s: Client, step: Step, n: Client) { Enabled(s, step) && Next(s, step) == n }

  /** The rooms in which a record finds its own. */
  function ViewOf(b: Body): RoomView
    requires b.destination.Some?
  {
    RoomView(Some(b.destination.value.room), Some((b.thread, b.destination.value.partner)))
  }

  const NO_ROOM := RoomView(None, None)

  // ---------- the life of a process ----------

  lemma Boots(s: Client)
    requires !s.running && Fits(s.sends)
    ensures Leads(s, Boot, s.(running := true, born := |s.records|, records := s.records + Loaded(s.sends), pending := Indexed(s.sends, |s.records|)))
  {
    hide Indexed, Loaded;
  }

  lemma Crashes(s: Client)
    ensures Leads(s, Crash, s.(running := false, born := |s.records|, pending := map[], senders := [], submits := map[],
                               acks := map[], notifying := {}, flushes := [], sendLock := [], noteLock := []))
  {
  }

  // ---------- sends ----------

  lemma Sends(s: Client, id: string, body: Body)
    requires s.running && id !in s.pending && body.destination.Some?
    ensures Leads(s, Send(id, body), s.(records := s.records + [Record(id, body, false)],
                                        senders := s.senders + [Sender(|s.records|, Storing)],
                                        sendLock := s.sendLock + [PutCall(|s.senders|)], calls := s.calls + {(id, body)}))
  {
  }

  lemma Stores(s: Client, k: nat)
    requires s.sendLock != [] && s.sendLock[0] == PutCall(k)
    requires k < |s.senders| && s.senders[k].phase.Storing? && s.senders[k].record < |s.records|
    requires Fits(Mutate(s.sends, Put(EntryOf(s.records[s.senders[k].record], false))))
    ensures var r := s.records[s.senders[k].record];
      Leads(s, StoreSend(k, true, false), s.(senders := s.senders[k := s.senders[k].(phase := Stored)], sendLock := s.sendLock[1..],
                                             sends := Mutate(s.sends, Put(EntryOf(r, false))), enqueued := s.enqueued + {r.id}))
  {
    hide Mutate;
  }

  lemma FailsToStore(s: Client, k: nat)
    requires s.sendLock != [] && s.sendLock[0] == PutCall(k)
    requires k < |s.senders| && s.senders[k].phase.Storing? && s.senders[k].record < |s.records|
    ensures Leads(s, StoreSend(k, false, false), s.(senders := s.senders[k := s.senders[k].(phase := Ended)], sendLock := s.sendLock[1..]))
  {
    hide Mutate;
  }

  lemma Remembers(s: Client, k: nat)
    requires k < |s.senders| && s.senders[k].phase.Stored? && s.senders[k].record < |s.records|
    ensures Leads(s, AfterStore(k, NO_ROOM), s.(senders := s.senders[k := s.senders[k].(phase := Ended)],
                                                pending := s.pending[s.records[s.senders[k].record].id := s.senders[k].record]))
  {
  }

  lemma StartsTask(s: Client, k: nat)
    requires s.running && k < |s.senders| && s.senders[k].phase.Stored? && s.senders[k].record < |s.records|
    requires var r := s.records[s.senders[k].record]; r.body.destination.Some? && !r.submitted && r.id !in s.submits
    ensures var i := s.senders[k].record;
      var r := s.records[i];
      Leads(s, AfterStore(k, ViewOf(r.body)), s.(senders := s.senders[k := s.senders[k].(phase := Ended)],
                                                 pending := s.pending[r.id := i],
                                                 submits := s.submits[r.id := Submit(i, r.body.destination.value.room, Binding)]))
  {
  }

  lemma FlushStarts(s: Client, id: string)
    requires s.running && id in s.pending && s.pending[id] < |s.records| && id !in s.submits
    requires var r := s.records[s.pending[id]]; r.id == id && r.body.destination.Some? && !r.submitted
    ensures var r := s.records[s.pending[id]];
      Leads(s, FlushPending(id, ViewOf(r.body)), s.(submits := s.submits[id := Submit(s.pending[id], r.body.destination.value.room, Binding)]))
  {
  }

  lemma Binds(s: Client, id: string)
    requires id in s.submits && s.submits[id].phase.Binding? && s.submits[id].record < |s.records|
    requires s.records[s.submits[id].record].body.destination.Some?
    ensures var t := s.submits[id];
      Leads(s, Bind(id, true), s.(submits := s.submits[id := t.(phase := Sending(s.records[t.record].body.destination.value.partner))],
                               offered := s.offered + {id}))
  {
  }

  lemma FailsToBind(s: Client, id: string)
    requires id in s.submits && s.submits[id].phase.Binding? && s.submits[id].record < |s.records|
    ensures Leads(s, Bind(id, false), s.(submits := s.submits - {id}))
  {
  }

  lemma Transmits(s: Client, id: string)
    requires id in s.submits && s.submits[id].phase.Sending? && s.submits[id].record < |s.records|
    ensures var t := s.submits[id];
      Leads(s, Transmit(id, true),
            s.(posted := s.posted + [Posted(t.record, id, t.room, t.phase.bound)],
               records := s.records[t.record := s.records[t.record].(submitted := true)],
               pending := s.pending[id := t.record], submits := s.submits[id := t.(phase := Marking)],
               sendLock := s.sendLock + [MarkCall(id)]))
  {
  }

  lemma FailsToTransmit(s: Client, id: string)
    requires id in s.submits && s.submits[id].phase.Sending? && s.submits[id].record < |s.records|
    ensures Leads(s, Transmit(id, false), s.(submits := s.submits - {id}))
  {
  }

  lemma GivesUpMarking(s: Client, id: string)
    requires s.sendLock != [] && s.sendLock[0] == MarkCall(id) && id in s.submits && s.submits[id].phase.Marking?
    ensures Leads(s, MarkSubmitted(id, false), s.(submits := s.submits - {id}, sendLock := s.sendLock[1..]))
  {
    hide Mutate;
  }

  // ---------- acknowledgements ----------

  lemma Echoes(s: Client, id: string, eventId: string)
    requires s.running && id in s.pending && s.pending[id] < |s.records| && id in s.offered && id !in s.acks
    ensures Leads(s, Echo(id, eventId),
                  s.(acks := s.acks[id := Ack(Note(s.records[s.pending[id]].body.thread, eventId), Noting)],
                     noteLock := s.noteLock + [NotePut(id)]))
  {
  }

  lemma StoresNote(s: Client, id: string)
    requires s.noteLock != [] && s.noteLock[0] == NotePut(id)
    requires id in s.acks && s.acks[id].phase.Noting? && Fits(Mutate(s.notes, Put(Entry(id, s.acks[id].note, false))))
    ensures Leads(s, StoreNote(id, true),
                  s.(notes := Mutate(s.notes, Put(Entry(id, s.acks[id].note, false))), noted := s.noted + {id},
                     acks := s.acks[id := s.acks[id].(phase := Dropping)], noteLock := s.noteLock[1..],
                     sendLock := s.sendLock + [DropCall(id)]))
  {
    hide Mutate;
  }

  lemma GivesUpNote(s: Client, id: string)
    requires s.noteLock != [] && s.noteLock[0] == NotePut(id) && id in s.acks && s.acks[id].phase.Noting?
    ensures Leads(s, StoreNote(id, false), s.(acks := s.acks - {id}, noteLock := s.noteLock[1..]))
  {
    hide Mutate;
  }

  lemma DropsSend(s: Client, id: string)
    requires s.sendLock != [] && s.sendLock[0] == DropCall(id)
    requires id in s.acks && s.acks[id].phase.Dropping? && Fits(Mutate(s.sends, Drop(id)))
    ensures Leads(s, DropSend(id, true), s.(sends := Mutate(s.sends, Drop(id)), acks := s.acks[id := s.acks[id].(phase := Dropped)],
                                            sendLock := s.sendLock[1..]))
  {
    hide Mutate;
  }

  lemma GivesUpDrop(s: Client, id: string)
    requires s.sendLock != [] && s.sendLock[0] == DropCall(id) && id in s.acks && s.acks[id].phase.Dropping?
    ensures Leads(s, DropSend(id, false), s.(acks := s.acks - {id}, sendLock := s.sendLock[1..]))
  {
    hide Mutate;
  }

  lemma Forgets(s: Client, id: string)
    requires id in s.acks && s.acks[id].phase.Dropped?
    ensures Leads(s, Forget(id), s.(pending := s.pending - {id}, acks := s.acks - {id}))
  {
  }

  // ---------- notifications ----------

  lemma LoadsNotes(s: Client)
    requires s.running && Fits(s.notes)
    ensures Leads(s, LoadNotes, s.(flushes := s.flushes + [Flush(IdList(s.notes), Between)]))
  {
  }

  lemma Skips(s: Client, f: nat)
    requires s.running && f < |s.flushes| && s.flushes[f].visit.Between? && s.flushes[f].rest != []
    requires s.flushes[f].rest[0] in s.notifying
    ensures Leads(s, Deliver(f), s.(flushes := s.flushes[f := Flush(s.flushes[f].rest[1..], Between)]))
  {
  }

  lemma Delivers(s: Client, f: nat)
    requires s.running && f < |s.flushes| && s.flushes[f].visit.Between? && s.flushes[f].rest != []
    requires s.flushes[f].rest[0] !in s.notifying
    ensures var id := s.flushes[f].rest[0];
      Leads(s, Deliver(f), s.(flushes := s.flushes[f := Flush(s.flushes[f].rest[1..], Requesting(id))], notifying := s.notifying + {id}))
  {
  }

  lemma Notifies(s: Client, f: nat)
    requires f < |s.flushes| && s.flushes[f].visit.Requesting?
    ensures var id := s.flushes[f].visit.id;
      Leads(s, Notify(f, true, true), s.(accepted := s.accepted + {id}, asked := s.asked + multiset{id},
                                         flushes := s.flushes[f := s.flushes[f].(visit := Clearing(id))],
                                         noteLock := s.noteLock + [NoteDrop(f, id)]))
  {
  }

  lemma FailsToNotify(s: Client, f: nat)
    requires f < |s.flushes| && s.flushes[f].visit.Requesting?
    ensures Leads(s, Notify(f, false, false), s.(flushes := s.flushes[f := s.flushes[f].(visit := Between)],
                                                notifying := s.notifying - {s.flushes[f].visit.id}))
  {
  }

  lemma DropsNote(s: Client, f: nat)
    requires f < |s.flushes| && s.flushes[f].visit.Clearing? && Fits(Mutate(s.notes, Drop(s.flushes[f].visit.id)))
    requires s.noteLock != [] && s.noteLock[0] == NoteDrop(f, s.flushes[f].visit.id)
    ensures var id := s.flushes[f].visit.id;
      Leads(s, DropNote(f, true), s.(flushes := s.flushes[f := s.flushes[f].(visit := Between)], notifying := s.notifying - {id},
                                     notes := Mutate(s.notes, Drop(id)), noteLock := s.noteLock[1..]))
  {
    hide Mutate;
  }

  lemma KeepsNote(s: Client, f: nat)
    requires f < |s.flushes| && s.flushes[f].visit.Clearing?
    requires s.noteLock != [] && s.noteLock[0] == NoteDrop(f, s.flushes[f].visit.id)
    ensures Leads(s, DropNote(f, false), s.(flushes := s.flushes[f := s.flushes[f].(visit := Between)],
                                            notifying := s.notifying - {s.flushes[f].visit.id}, noteLock := s.noteLock[1..]))
  {
    hide Mutate;
  }
}
