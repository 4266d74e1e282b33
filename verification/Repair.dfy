/** Operator repair of a compaction that failed after it was prepared. */
module Repair {
  import opened Common
  import opened Domain
  import opened Scripts
  import opened ChatInvariant

  function IntentOf(intent: Option<Digest>): Intent {
    if intent.Some? then Exact(intent.value) else NoIntent
  }

  /** When an abort succeeds, stated on the keys alone. */
  lemma AbortSucceedsExactly(db: Db, now: int, w: Work, session: Binding, id: CheckpointId,
                             expected: CheckpointRecord, next: CheckpointRecord, intent: Option<Digest>)
    requires Coherent(db.chat) && next == expected.(phase := Aborted) && session.chat == db.chat.state.chat
    ensures CheckpointAbort(db, now, w, session, id, expected, next, intent).1 == Done <==>
            && Held(db, w, now) && IsNext(db.chat, w.event.id)
            && db.chat.state.pause == Some(CompactionFailed) && db.chat.state.turn.None? && db.chat.tools == map[]
            && db.chat.state.session == Some(session)
            && db.chat.checkpoint == Some(expected) && expected.phase == Prepared && expected.id == id
            && expected.checkpoint.chat == session.chat && w.streamId in db.chat.stream.pending
            && (match expected.recovery
                case Some(r) => r.event == w.event.id && r.fp == w.Fp() && r.streamId == w.streamId
                    && r.session == session
                case None => intent.Some? && db.chat.lease.intent == intent)
  {
  }

  /** A successful abort keeps the cursor, the session, the pending events, the
      stream and its deliveries, clears only a compaction failure, and marks
      the prepared record aborted with its contents intact. */
  lemma AbortKeepsTheQueue(db: Db, now: int, w: Work, session: Binding, id: CheckpointId,
                           expected: CheckpointRecord, intent: Option<Digest>)
    requires CheckpointAbort(db, now, w, session, id, expected, expected.(phase := Aborted), intent).1 == Done
    ensures var c := db.chat;
            var c' := CheckpointAbort(db, now, w, session, id, expected, expected.(phase := Aborted), intent).0.chat;
            && c.state.pause == Some(CompactionFailed) && c'.state == c.state.(pause := None)
            && c'.events == c.events && c'.seqs == c.seqs && c'.stream == c.stream && c'.tools == c.tools == map[]
            && c.checkpoint == Some(expected) && c'.checkpoint == Some(expected.(phase := Aborted))
            && c'.lease.epoch == c.lease.epoch
  {
  }

  /** After an abort, the next claim by a live application is granted, for the
      same event under the same stream id. */
  lemma ClaimAfterAbort(db: Db, now: int, w: Work, session: Binding, id: CheckpointId, expected: CheckpointRecord,
                        intent: Option<Digest>, later: int, f: Fence, owner: OwnerId, ms: int, gapTimeout: int)
    requires Coherent(db.chat)
    requires CheckpointAbort(db, now, w, session, id, expected, expected.(phase := Aborted), intent).1 == Done
    requires AppAlive(db.app, f, later) && later >= 0 && !TooLong(db.chat.lease.epoch + 1)
    ensures var db' := CheckpointAbort(db, now, w, session, id, expected, expected.(phase := Aborted), intent).0;
            Claim(db', later, f, owner, ms, gapTimeout).1 ==
              Claimed(w.streamId, w.event, db.chat.lease.epoch + 1, later + ms)
  {
    var db' := CheckpointAbort(db, now, w, session, id, expected, expected.(phase := Aborted), intent).0;
    EvidenceIsNext(db.chat, session.chat, IntentOf(intent));
    AbortKeepsTheQueue(db, now, w, session, id, expected, intent);
    assert db'.chat.lease.until == 0;
    assert AllConfirmed(db'.chat.tools);
    assert db.chat.events[w.event.id].raw == w.event;
    hide RepairEvidence, CheckpointAbort, TooLong;
  }

  /** Releasing a repair instead keeps the prepared record and the pause, so no
      claim is granted. */
  lemma ReleaseKeepsThePause(db: Db, now: int, w: Work, session: Binding, later: int, f: Fence, owner: OwnerId,
      ms: int, gapTimeout: int)
    requires db.chat.state.pause.Some?
    ensures var db' := RepairRelease(db, now, w, session).0;
            && db'.chat.checkpoint == db.chat.checkpoint && db'.chat.state == db.chat.state
            && db'.chat.events == db.chat.events && db'.chat.seqs == db.chat.seqs && db'.chat.stream == db.chat.stream
            && !Claim(db', later, f, owner, ms, gapTimeout).1.Claimed?
  {
    hide ClaimGap, ClaimEntry;
  }
}
