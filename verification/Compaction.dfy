/** Settling the latest checkpoint before a turn: what the next worker does with
    whatever a crashed or interrupted compaction left behind. */
module Compaction {
  import opened Common
  import opened Domain
  import opened Scripts
  import Evidence
  import opened Orphan
  import opened Keyspace

  type SessionEntry = Evidence.Entry

  /** Work that nobody else can take over before the clock reads `limit`. */
  ghost predicate Owns(db: Db, w: Work, limit: int) {
    forall now | now < limit :: Held(db, w, now)
  }

  /** Everything the rest of the system may do to the keys between two of our
      own calls: anything at all, unless this is a quiet moment. */
  method Others(k: Keys, quiet: bool)
    modifies k
    ensures quiet ==> k.View() == old(k.View())
  {
    if !quiet {
      k.app, k.identities, k.state, k.lease, k.stream := *, *, *, *, *;
      k.events, k.seqs, k.tools, k.checkpoint := *, *, *, *;
    }
  }

  /** The server clock: any reading, but before the limit in a quiet moment. */
  method Clock(quiet: bool, limit: int) returns (now: int)
    ensures quiet ==> now < limit
  {
    now := *;
    if quiet && now >= limit { now := limit - 1; }
  }

  /** `context.current`: false is the thrown lease_lost. */
  method Current(k: Keys, w: Work, quiet: bool, limit: int) returns (ok: bool)
    requires quiet ==> Owns(k.View(), w, limit)
    modifies k
    ensures quiet ==> ok && k.View() == old(k.View())
  {
    Others(k, quiet);
    var now := Clock(quiet, limit);
    ok := Held(k.View(), w, now);
  }

  method Latest(k: Keys, quiet: bool) returns (r: Option<CheckpointRecord>)
    modifies k
    ensures r == k.checkpoint
    ensures quiet ==> k.View() == old(k.View())
  {
    Others(k, quiet);
    r := k.checkpoint;
  }

  /** The repository's transition: read the record, build its successor, and
      ask the script to swap them. */
  method Transition(k: Keys, w: Work, id: CheckpointId, target: Phase, quiet: bool, limit: int) returns (ok: bool)
    requires target.Compacted? || target.Restored?
    requires quiet ==> Owns(k.View(), w, limit)
    modifies k
    ensures quiet ==>
              && (ok <==> old(k.checkpoint).Some? && old(k.checkpoint).value.id == id
                          && (if target.Compacted? then old(k.checkpoint).value.phase == Prepared
                              else old(k.checkpoint).value.phase == Compacted(target.entry)))
              && (ok ==> k.View() == WithCheckpoint(old(k.View()), old(k.checkpoint).value.(phase := target)))
              && (!ok ==> k.View() == old(k.View()))
  {
    var raw := Latest(k, quiet);
    if raw.None? { return false; }
    Others(k, quiet);
    var now := Clock(quiet, limit);
    var reply := k.CheckpointTransition(now, w, id, target, raw.value, raw.value.(phase := target));
    ok := reply == Done;
  }

  function WithCheckpoint(db: Db, r: CheckpointRecord): Db {
    db.(chat := db.chat.(checkpoint := Some(r)))
  }

  lemma StillOwned(db: Db, w: Work, limit: int, r: CheckpointRecord)
    requires Owns(db, w, limit)
    ensures Owns(WithCheckpoint(db, r), w, limit)
  {
    forall now | now < limit ensures Held(WithCheckpoint(db, r), w, now) {
      assert Held(db, w, now);
    }
  }

  predicate Names(r: Option<CheckpointRecord>, like: CheckpointRecord, phase: Phase) {
    r.Some? && r.value.phase == phase && r.value.id == like.id && r.value.checkpoint == like.checkpoint
  }

  /** The first part of `prepare`.  `seen` is the record it read first, and
      `branch` the active branch as the session file has it on reopening. */
  method Settle(k: Keys, w: Work, binding: Binding, branch: seq<SessionEntry>, readable: bool, quiet: bool, limit: int)
    returns (r: Result<Option<CheckpointRecord>, PauseReason>, ghost seen: Option<CheckpointRecord>)
    requires quiet ==> Owns(k.View(), w, limit)
    modifies k
    // Whatever others do meanwhile: it goes on only over nothing, an aborted
    // record, or the record it read first, restored from its one own entry.
    ensures r.Ok? ==> (r.value.None? <==> seen.None? || seen.value.phase == Aborted)
    ensures r.Ok? && r.value.Some? ==>
              && Reconcile(binding, branch, seen.value, readable).Some?
              && Names(r.value, seen.value, Restored(Reconcile(binding, branch, seen.value, readable).value))
    // Undisturbed: it fails exactly when there is no such entry, and then it
    // changes nothing; otherwise the stored record ends up restored.
    ensures quiet ==> seen == old(k.checkpoint)
    ensures quiet && (seen.None? || seen.value.phase == Aborted) ==> r == Ok(None) && k.View() == old(k.View())
    ensures quiet && seen.Some? && seen.value.phase != Aborted ==>
              (match Reconcile(binding, branch, seen.value, readable)
               case Some(e) => r == Ok(k.checkpoint)
                   && k.View() == WithCheckpoint(old(k.View()), seen.value.(phase := Restored(e)))
               case None => r == Err(RestoreFailed) && k.View() == old(k.View()))
  {
    r := Err(LeaseLost);
    seen := None;
    var ok := Current(k, w, quiet, limit);
    if !ok { return; }
    var settled := Latest(k, quiet);
    seen := settled;
    if settled.None? || settled.value.phase == Aborted { return Ok(None), seen; }
    var original := settled.value;
    ok := Current(k, w, quiet, limit);
    if !ok { return; }
    var recovered := Reconcile(binding, branch, original, readable);
    if recovered.None? { return Err(RestoreFailed), seen; }
    var entry := recovered.value;
    var moved := Forward(k, w, original, entry, quiet, limit);
    if moved.Err? { return Err(moved.error), seen; }
    ok := Current(k, w, quiet, limit);
    if !ok { return; }
    settled := Latest(k, quiet);
    if !Names(settled, original, Restored(entry)) { return Err(RestoreFailed), seen; }
    return Ok(settled), seen;
  }

  /** The transitions from the phase that was read to the restored one. */
  method Forward(k: Keys, w: Work, original: CheckpointRecord, entry: EntryId, quiet: bool, limit: int)
    returns (r: Result<bool, PauseReason>)
    requires original.phase != Aborted
        && (original.phase.Compacted? || original.phase.Restored? ==> original.phase.entry == entry)
    requires quiet ==> Owns(k.View(), w, limit) && k.checkpoint == Some(original)
    modifies k
    ensures quiet ==> r.Ok? && k.View() == WithCheckpoint(old(k.View()), original.(phase := Restored(entry)))
    ensures quiet ==> Owns(k.View(), w, limit)
  {
    r := Ok(true);
    if original.phase == Prepared {
      var ok := Current(k, w, quiet, limit);
      if !ok { return Err(LeaseLost); }
      ok := Transition(k, w, original.id, Compacted(entry), quiet, limit);
      if !ok { return Err(RestoreFailed); }
      if quiet { StillOwned(old(k.View()), w, limit, original.(phase := Compacted(entry))); }
      ok := Current(k, w, quiet, limit);
      if !ok { return Err(LeaseLost); }
      var compacted := Latest(k, quiet);
      if !Names(compacted, original, Compacted(entry)) { return Err(RestoreFailed); }
    }
    if original.phase != Restored(entry) {
      var ok := Current(k, w, quiet, limit);
      if !ok { return Err(LeaseLost); }
      ok := Transition(k, w, original.id, Restored(entry), quiet, limit);
      if !ok { return Err(RestoreFailed); }
    }
    if quiet { StillOwned(old(k.View()), w, limit, original.(phase := Restored(entry))); }
  }

  // ---------------------------------------------------------------- crashes

  /** The entry the armed hook makes the session append. */
  function EntryFor(id: EntryId, parent: Option<EntryId>, time: int, kept: EntryId, t: CheckpointRecord): SessionEntry {
    Evidence.Entry(id, parent, time,
                   Evidence.Compaction(Some(Evidence.Render(t.checkpoint, t.id)), kept, true,
                                       Some(Evidence.Details(1, Some(t.id), Some(t.checkpoint)))))
  }

  /** The script will store this prepared record for this work. */
  predicate MayPrepare(db: Db, w: Work, t: CheckpointRecord, session: Binding) {
    && t.phase == Prepared && db.chat.state.session == Some(session) && db.chat.state.chat == t.checkpoint.chat
    && t.recovery.Some? && t.recovery.value.event == w.event.id && t.recovery.value.fp == w.Fp()
    && t.recovery.value.streamId == w.streamId && t.recovery.value.session == session
    && (db.chat.checkpoint.Some? ==> db.chat.checkpoint.value.id != t.id && Settled(db.chat.checkpoint.value.phase))
  }

  /** The phase stored, and whether the entry is in the file, when a compaction
      stops after so many of its durable effects. */
  function PhaseAfter(stop: int, entry: EntryId): Phase {
    if stop <= 2 then Prepared else if stop == 3 then Compacted(entry) else Restored(entry)
  }

  /** A compaction that crashes after `stop` durable effects.  Reconciliation
      then succeeds exactly if the entry was appended. */
  method CompactUntil(k: Keys, w: Work, session: Binding, t: CheckpointRecord, branch: seq<SessionEntry>,
                      e: SessionEntry, stop: int, limit: int) returns (ok: bool, after: seq<SessionEntry>)
    requires Owns(k.View(), w, limit) && MayPrepare(k.View(), w, t, session) && t.checkpoint.chat == session.chat
    requires exists parent, time, kept :: e == EntryFor(e.id, parent, time, kept, t)
    requires forall i | 0 <= i < |branch| :: !ClaimsId(branch[i], t.id)
    modifies k
    ensures ok && after == if stop >= 2 then branch + [e] else branch
    ensures k.View() == if stop <= 0 then old(k.View())
        else WithCheckpoint(old(k.View()), t.(phase := PhaseAfter(stop, e.id)))
    ensures stop >= 1 ==>
              Reconcile(session, after, k.checkpoint.value, true) == if stop >= 2 then Some(e.id) else None
  {
    ok, after := true, branch;
    if stop <= 0 { return; }
    var now := Clock(true, limit);
    assert Held(k.View(), w, now);
    var reply := k.CheckpointPrepare(now, w, t, session);
    if reply != Done { return false, after; }
    StillOwned(old(k.View()), w, limit, t);
    if stop <= 1 { NoClaims(branch, t.id); return; }
    after := branch + [e];
    OneClaim(after, t.id, |branch|);
    if stop <= 2 { return; }
    ok := Transition(k, w, t.id, Compacted(e.id), true, limit);
    if !ok { return; }
    StillOwned(old(k.View()), w, limit, t.(phase := Compacted(e.id)));
    if Reconcile(session, after, k.checkpoint.value, true) != Some(e.id) { return false, after; }
    if stop <= 3 { return; }
    var current := Latest(k, true);
    if !Names(current, t, Compacted(e.id)) { return false, after; }
    ok := Transition(k, w, t.id, Restored(e.id), true, limit);
  }
}
