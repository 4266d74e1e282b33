/** The script itself: the nine keys it was given, changed in place, field by
    field, as each operation does.  Every method is tied to the function of the
    same operation in Scripts, so what is proved of those functions holds here. */
module Keyspace {
  import opened Common
  import opened Domain
  import opened Scripts

  /** What a claim may do to the keys. */
  ghost predicate ClaimEffect(db: Db, db': Db, reply: Reply, f: Fence) {
    var c, c' := db.chat, db'.chat;
    && c'.state.cursor == c.state.cursor && c'.state.turn == c.state.turn && c'.state.session == c.state.session
    && c'.events == c.events && c'.seqs == c.seqs && c'.stream.entries == c.stream.entries
        && c'.checkpoint == c.checkpoint
    && (if reply.Claimed? then
          && c.state.pause.None? && AllConfirmed(c.tools) && c'.tools == c.tools
          && c.state.cursor + 1 in c.seqs && c'.lease.event == Some(c.seqs[c.state.cursor + 1])
          && c'.lease.tenant == Some(f) && c'.lease.epoch == reply.epoch == c.lease.epoch + 1
        else c'.lease == c.lease)
  }

  lemma ClaimHasEffect(db: Db, now: int, f: Fence, owner: OwnerId, ms: int, gapTimeout: int)
    ensures var (db', reply) := Scripts.Claim(db, now, f, owner, ms, gapTimeout); ClaimEffect(db, db', reply, f)
  {
    hide TooLong, AppAlive, Occupied, AllConfirmed, DoubtAll;
  }

  class Keys {
    var app: AppKey
    var state: StateKey
    var lease: LeaseKey
    var stream: StreamKey
    var events: map<EventId, Event>
    var seqs: map<int, EventId>
    var tools: map<AttemptId, JournalRecord>
    var checkpoint: Option<CheckpointRecord>
    var identities: map<EventId, Identity>

    /** The keys as one value. */
    function View(): Db
      reads this
    {
      Db(app, identities, Chat(state, lease, stream, events, seqs, tools, checkpoint))
    }

    /** Each journal record is filed under its own attempt id. */
    ghost predicate Filed()
      reads this
    {
      forall a | a in tools :: tools[a].state.attempt == a
    }

    constructor (chat: ChatId)
      ensures View() == Db(EMPTY_APP, map[], EmptyChat(chat)) && Filed()
    {
      app := EMPTY_APP;
      identities := map[];
      state, lease, stream := EmptyChat(chat).state, EmptyChat(chat).lease, EmptyChat(chat).stream;
      events, seqs, tools, checkpoint := map[], map[], map[], None;
    }

    // -------------------------------------------------------------- intake

    method Accept(revision: int, identityRevision: int, n: Notification, completed: bool) returns (reply: Reply)
      modifies this
      ensures (View(), reply) == Scripts.Accept(old(View()), revision, identityRevision, n, completed)
      ensures reply != Accepted ==> View() == old(View())
      ensures reply == Accepted ==>
                && n.id !in old(events) && old(state).cursor < n.sequence
                && (n.sequence in old(seqs) ==> old(seqs)[n.sequence] == n.id)
                && (n.id in old(identities) ==> old(identities)[n.id] == Identity(n.chat, Fingerprint(n)))
                && n.id in events && events[n.id].raw == n && n.sequence in seqs && seqs[n.sequence] == n.id
                    && n.id in identities
                && stream.entries == old(stream).entries[events[n.id].id := n.id]
    {
      if state.revision != revision || app.identityRevision != identityRevision { return Retry; }
      var identity := Identity(n.chat, Fingerprint(n));
      if n.id in identities && identities[n.id] != identity { return Conflict; }
      if n.id in events {
        var e := events[n.id];
        if e.fp != Fingerprint(n) || e.sequence != n.sequence { return Conflict; }
        return Duplicate;
      }
      if n.sequence in seqs && seqs[n.sequence] != n.id { return Conflict; }
      if completed { return Duplicate; }
      if n.sequence <= state.cursor { return Conflict; }
      var id := stream.next;
      stream := stream.(entries := stream.entries[id := n.id], next := id + 1);
      events := events[n.id := Event(id, Fingerprint(n), n.sequence, n)];
      seqs := seqs[n.sequence := n.id];
      identities := identities[n.id := identity];
      reply := Accepted;
    }

    // -------------------------------------------------------------- application lease

    method AppAcquire(now: int, owner: OwnerId, ms: int) returns (reply: Reply)
      modifies this`app
      ensures (View(), reply) == Scripts.AppAcquire(old(View()), now, owner, ms)
      ensures old(app).until > now ==> app == old(app) && reply == Busy
      ensures reply.Granted? ==> app.owner == Some(owner) && app.epoch == old(app).epoch + 1 && !TooLong(app.epoch)
      ensures !reply.Granted? ==> app == old(app)
    {
      if app.until > now { return Busy; }
      var epoch := app.epoch + 1;
      if TooLong(epoch) { return Lost; }
      app := app.(owner := Some(owner), epoch := epoch);
      app := app.(until := now + ms);
      reply := Granted(app.epoch, app.until);
    }

    method AppRenew(now: int, f: Fence, ms: int) returns (reply: Reply)
      modifies this`app
      ensures (View(), reply) == Scripts.AppRenew(old(View()), now, f, ms)
      ensures app != old(app) ==> AppAlive(old(app), f, now) && app == old(app).(until := now + ms)
    {
      if !AppAlive(app, f, now) { return Lost; }
      app := app.(until := now + ms);
      reply := Granted(app.epoch, app.until);
    }

    method AppRelease(now: int, f: Fence) returns (reply: Reply)
      modifies this`app
      ensures (View(), reply) == Scripts.AppRelease(old(View()), now, f)
      ensures app.epoch == old(app).epoch && (app != old(app) ==> AppAlive(old(app), f, now) && app.owner.None?)
    {
      if !AppAlive(app, f, now) { return Lost; }
      app := app.(owner := None, until := 0);
      reply := Done;
    }

    // -------------------------------------------------------------- claiming work

    /** Make every unconfirmed attempt uncertain; tell whether there was one. */
    method DoubtJournal() returns (unresolved: bool)
      requires Filed()
      modifies this`tools
      ensures tools == DoubtAll(old(tools)) && Filed()
      ensures unresolved <==> !AllConfirmed(old(tools))
      ensures !unresolved ==> tools == old(tools)
    {
      unresolved := false;
      var journal := tools.Keys;
      while exists a :: a in journal
        invariant journal <= old(tools.Keys) && tools.Keys == old(tools.Keys)
        invariant forall a | a in tools :: tools[a] == if a in journal then old(tools)[a] else Doubt(old(tools)[a])
        invariant unresolved <==> exists a | a in old(tools) && a !in journal :: !old(tools)[a].state.status.Confirmed?
        decreases journal
      {
        var a :| a in journal;
        var record := tools[a];
        if !record.state.status.Confirmed? {
          tools := tools[record.state.attempt := record.(state := record.state.(status := Uncertain))];
          unresolved := true;
        }
        journal := journal - {a};
      }
      assert forall a | a in tools :: tools[a] == Doubt(old(tools)[a]);
      assert unresolved || forall a | a in tools :: tools[a] == old(tools)[a];
    }

    /** A claim grants the next event under a fresh epoch, or leaves the lease
        and the queue as they are. */
    method Claim(now: int, f: Fence, owner: OwnerId, ms: int, gapTimeout: int) returns (reply: Reply)
      requires Filed()
      modifies this
      ensures Filed()
      ensures (View(), reply) == Scripts.Claim(old(View()), now, f, owner, ms, gapTimeout)
      ensures ClaimEffect(old(View()), View(), reply, f)
    {
      ghost var db := View();
      reply := TryClaim(now, f, owner, ms, gapTimeout);
      ClaimHasEffect(db, now, f, owner, ms, gapTimeout);
      hide Scripts.Claim, ClaimEffect;
    }

    method TryClaim(now: int, f: Fence, owner: OwnerId, ms: int, gapTimeout: int) returns (reply: Reply)
      requires Filed()
      modifies this
      ensures Filed()
      ensures (View(), reply) == Scripts.Claim(old(View()), now, f, owner, ms, gapTimeout)
    {
      if !AppAlive(app, f, now) { return Lost; }
      if state.pause.Some? { return PausedReply; }
      if lease.tenant == Some(f) && lease.until > now { return Waiting; }
      var unresolved := DoubtJournal();
      if unresolved {
        state := state.(pause := Some(MutationUncertain));
        return PausedReply;
      }
      var next := state.cursor + 1;
      if next !in seqs {
        if events == map[] {
          state := state.(gap := None);
          return Empty;
        }
        if state.gap.None? { state := state.(gap := Some(now)); }
        if now - state.gap.value >= gapTimeout {
          state := state.(pause := Some(SequenceGap));
          return PausedReply;
        }
        return Waiting;
      }
      reply := ClaimEvent(now, f, owner, ms, seqs[next]);
    }

    method ClaimEvent(now: int, f: Fence, owner: OwnerId, ms: int, event: EventId) returns (reply: Reply)
      requires state.cursor + 1 in seqs && event == seqs[state.cursor + 1]
      modifies this`stream, this`lease, this`state
      ensures (View(), reply) == ClaimEntry(old(View()), now, f, owner, ms, old(state.cursor) + 1)
      ensures reply.Claimed? ==>
                && lease.event == Some(event) && lease.tenant == Some(f)
                && lease.epoch == reply.epoch == old(lease).epoch + 1
                && reply.streamId in stream.entries && stream.entries == old(stream).entries
      ensures !reply.Claimed? ==> lease == old(lease) && state == old(state)
    {
      if event !in events { return Lost; }
      var e := events[event];
      var epoch := lease.epoch + 1;
      if TooLong(epoch) { return Lost; }
      if e.id !in stream.entries {
        stream := stream.(pending := stream.pending - {e.id});
        return Lost;
      }
      stream := stream.(pending := stream.pending[e.id := owner]);
      lease := lease.(owner := Some(owner), epoch := epoch, tenant := Some(f), event := Some(event));
      state := state.(gap := None);
      lease := lease.(until := now + ms);
      reply := Claimed(e.id, e.raw, lease.epoch, lease.until);
    }

    // -------------------------------------------------------------- compaction repair

    method RepairIntent(now: int, f: Fence, owner: OwnerId, ms: int, chat: ChatId) returns (reply: Reply)
      modifies this`lease
      ensures (View(), reply) == Scripts.RepairIntent(old(View()), now, f, owner, ms, chat)
      ensures reply.RepairClaimed? ==>
                && checkpoint == Some(reply.record) && reply.record.phase == Prepared && reply.record.recovery.None?
                && lease.epoch == reply.epoch == old(lease).epoch + 1 && lease.intent.None?
      ensures !reply.RepairClaimed? ==> lease == old(lease)
    {
      if !AppAlive(app, f, now) { return Lost; }
      if Occupied(lease, f, now) { return Busy; }
      var proof := RepairEvidence(View().chat, chat, Generate);
      if proof.Err? { return proof.error; }
      var p := proof.value;
      if p.record.recovery.Some? { return Ineligible; }
      var epoch := lease.epoch + 1;
      if TooLong(epoch) { return Lost; }
      lease := lease.(owner := Some(owner), epoch := epoch, tenant := Some(f), event := Some(p.event));
      lease := lease.(intent := None);
      lease := lease.(until := now + ms);
      reply := RepairClaimed(p.entry.id, p.entry.raw, p.session, p.record, lease.epoch, lease.until);
    }

    method RepairClaim(now: int, f: Fence, owner: OwnerId, ms: int, chat: ChatId, intent: Option<Digest>)
      returns (reply: Reply)
      modifies this`lease
      ensures (View(), reply) == Scripts.RepairClaim(old(View()), now, f, owner, ms, chat, intent)
      ensures reply.RepairClaimed? ==>
                && checkpoint == Some(reply.record) && reply.record.phase == Prepared
                    && state.pause == Some(CompactionFailed)
                && state.cursor + 1 in seqs && lease.event == Some(seqs[state.cursor + 1])
                    && reply.streamId in stream.pending
                && (reply.record.recovery.None? ==> intent.Some? && lease.intent == intent)
                && lease.epoch == reply.epoch == old(lease).epoch + 1
      ensures !reply.RepairClaimed? ==> lease == old(lease)
    {
      if !AppAlive(app, f, now) { return Lost; }
      if Occupied(lease, f, now) { return Busy; }
      var proof := RepairEvidence(View().chat, chat, if intent.Some? then Exact(intent.value) else NoIntent);
      if proof.Err? { return proof.error; }
      var p := proof.value;
      var epoch := lease.epoch + 1;
      if TooLong(epoch) { return Lost; }
      lease := lease.(owner := Some(owner), epoch := epoch, tenant := Some(f), event := Some(p.event));
      if p.record.recovery.Some? {
        lease := lease.(intent := None);
      } else {
        lease := lease.(intent := intent);
      }
      lease := lease.(until := now + ms);
      reply := RepairClaimed(p.entry.id, p.entry.raw, p.session, p.record, lease.epoch, lease.until);
    }

    method RepairReleaseFence(now: int, f: Fence, held: Fence) returns (reply: Reply)
      modifies this`lease
      ensures (View(), reply) == Scripts.RepairReleaseFence(old(View()), now, f, held)
      ensures lease != old(lease) ==>
                && AppAlive(app, f, now) && old(lease).owner == Some(held.owner) && old(lease).epoch == held.epoch
                && old(lease).tenant == Some(f)
      ensures lease.epoch == old(lease).epoch && (reply == Done ==> lease.owner.None? && lease.event.None?)
    {
      if !AppAlive(app, f, now) || lease.owner != Some(held.owner) || lease.epoch != held.epoch
          || lease.tenant != Some(f) {
        return Lost;
      }
      lease := lease.(owner := None, until := 0, event := None, intent := None);
      reply := Done;
    }

    method RepairRelease(now: int, w: Work, session: Binding) returns (reply: Reply)
      modifies this`lease
      ensures (View(), reply) == Scripts.RepairRelease(old(View()), now, w, session)
      ensures lease != old(lease) ==> Held(old(View()), w, now) && state.session == Some(session)
      ensures lease.epoch == old(lease).epoch && (reply == Done ==> lease.owner.None? && lease.event.None?)
    {
      if !Held(View(), w, now) { return Lost; }
      if state.session != Some(session) { return Lost; }
      lease := lease.(owner := None, until := 0, event := None, intent := None);
      reply := Done;
    }

    // -------------------------------------------------------------- one turn

    method BeginTurn(now: int, w: Work) returns (reply: Reply)
      modifies this`state
      ensures (View(), reply) == Scripts.BeginTurn(old(View()), now, w)
      ensures old(state).turn.Some? ==> state == old(state) && reply != Done
      ensures reply == Done ==> Held(old(View()), w, now) && state == old(state).(turn := Some(w.event.id))
    {
      if !Held(View(), w, now) { return Lost; }
      if state.turn.Some? { return Started; }
      state := state.(turn := Some(w.event.id));
      reply := Done;
    }

    method Renew(now: int, w: Work, ms: int) returns (reply: Reply)
      modifies this`lease
      ensures (View(), reply) == Scripts.Renew(old(View()), now, w, ms)
      ensures lease != old(lease) ==> Held(old(View()), w, now) && lease == old(lease).(until := now + ms)
    {
      if !Held(View(), w, now) { return Lost; }
      lease := lease.(until := now + ms);
      reply := Granted(lease.epoch, lease.until);
    }

    method Pause(now: int, w: Work, reason: PauseReason) returns (reply: Reply)
      modifies this`state
      ensures (View(), reply) == Scripts.Pause(old(View()), now, w, reason)
      ensures state != old(state) ==> Held(old(View()), w, now) && state == old(state).(pause := Some(reason))
    {
      if !Held(View(), w, now) { return Lost; }
      state := state.(pause := Some(reason));
      reply := Done;
    }

    method Bind(now: int, w: Work, session: Binding) returns (reply: Reply)
      modifies this`state
      ensures (View(), reply) == Scripts.Bind(old(View()), now, w, session)
      ensures old(state).session.Some? ==> state.session == old(state).session
      ensures state != old(state) ==> Held(old(View()), w, now) && state == old(state).(session := Some(session))
    {
      if !Held(View(), w, now) { return Lost; }
      if state.session.Some? && state.session.value != session { return Lost; }
      state := state.(session := Some(session));
      reply := Done;
    }

    /** Whether every journal record is a confirmed send of this event that the
        proof lists. */
    method JournalAccounted(w: Work, sends: seq<Send>) returns (ok: bool)
      ensures ok <==> AllAccounted(tools, w, sends)
    {
      var journal := tools.Keys;
      while exists a :: a in journal
        invariant journal <= tools.Keys
        invariant forall a | a in tools && a !in journal :: Accounted(tools[a], w, sends)
        decreases journal
      {
        var a :| a in journal;
        var t := tools[a].state;
        if !t.status.Confirmed? || t.event != w.event.id || tools[a].fp != w.Fp() { return false; }
        var matched := false;
        for i := 0 to |sends|
          invariant matched <==> exists j | 0 <= j < i :: sends[j] == Send(t.destination, t.status.messageId)
        {
          if sends[i].destination == t.destination && sends[i].messageId == t.status.messageId { matched := true; }
        }
        if !matched {
          assert !Accounted(tools[a], w, sends);
          return false;
        }
        journal := journal - {a};
      }
      ok := true;
    }

    method Complete(now: int, w: Work, session: Binding, sends: seq<Send>) returns (reply: Reply)
      modifies this
      ensures (View(), reply) == Scripts.Complete(old(View()), now, w, session, sends)
      ensures reply == Done ==>
                && state == old(state).(cursor := old(state).cursor + 1, revision := old(state).revision + 1,
                    turn := None)
                && app.identityRevision == old(app).identityRevision + 1
                && w.event.id !in events && state.cursor !in seqs && w.event.id !in identities && tools == map[]
                && old(AllAccounted(tools, w, sends))
      ensures reply != Done ==> View() == old(View())
    {
      hide AllAccounted, Accounted;
      if !Held(View(), w, now) { return Lost; }
      var e := events[w.event.id];
      hide Held;
      if e.sequence != state.cursor + 1 || state.session != Some(session) { return Lost; }
      var accounted := JournalAccounted(w, sends);
      if !accounted { return Lost; }
      Retire(w, e);
      reply := Done;
    }

    /** Take the event out of every table and move on. */
    method Retire(w: Work, e: Event)
      requires e.sequence == state.cursor + 1
      modifies this
      ensures state == old(state).(cursor := e.sequence, revision := old(state).revision + 1, turn := None)
      ensures app == old(app).(identityRevision := old(app).identityRevision + 1)
      ensures stream == old(stream).(entries := old(stream).entries - {e.id}, pending := old(stream).pending - {e.id})
      ensures events == old(events) - {w.event.id} && seqs == old(seqs) - {e.sequence} && tools == map[]
      ensures identities == old(identities) - {w.event.id} && lease == FreeLease(old(lease))
      ensures unchanged(this`checkpoint)
    {
      state := state.(cursor := e.sequence);
      state := state.(revision := state.revision + 1);
      app := app.(identityRevision := app.identityRevision + 1);
      stream := stream.(pending := stream.pending - {e.id});
      stream := stream.(entries := stream.entries - {e.id});
      events := events - {w.event.id};
      seqs := seqs - {e.sequence};
      identities := identities - {w.event.id};
      tools := map[];
      lease := lease.(owner := None, until := 0, event := None);
      state := state.(turn := None);
    }

    // -------------------------------------------------------------- mutation journal

    method JournalBegin(now: int, w: Work, attempt: AttemptId, record: JournalRecord, session: Binding)
      returns (reply: Reply)
      requires Filed()
      modifies this`tools
      ensures Filed()
      ensures (View(), reply) == Scripts.JournalBegin(old(View()), now, w, attempt, record, session)
      ensures reply == Done ==>
                && state.turn == Some(w.event.id) && attempt !in old(tools) && tools == old(tools)[attempt := record]
                && forall a | a in old(tools) ::
                     old(tools)[a].state.event != w.event.id || old(tools)[a].state.toolCall != record.state.toolCall
      ensures reply != Done ==> tools == old(tools)
    {
      if !Held(View(), w, now) { return Lost; }
      if state.turn != Some(w.event.id) || state.session != Some(session) { return Lost; }
      var t := record.state;
      if record.fp != w.Fp() || t.event != w.event.id || t.attempt != attempt || t.status != Attempting { return Lost; }
      if attempt in tools { return Lost; }
      var journal := tools.Keys;
      while exists a :: a in journal
        invariant journal <= tools.Keys
        invariant forall a | a in tools && a !in journal ::
            !(tools[a].state.event == w.event.id && tools[a].state.toolCall == t.toolCall)
        decreases journal
      {
        var a :| a in journal;
        if tools[a].state.event == w.event.id && tools[a].state.toolCall == t.toolCall { return Lost; }
        journal := journal - {a};
      }
      tools := tools[attempt := record];
      reply := Done;
    }

    method JournalTransition(now: int, w: Work, attempt: AttemptId, status: Status) returns (reply: Reply)
      requires Filed()
      modifies this`tools, this`state
      ensures Filed()
      ensures (View(), reply) == Scripts.JournalTransition(old(View()), now, w, attempt, status)
      ensures reply == Done ==>
                && attempt in old(tools) && old(tools)[attempt].state.status == Attempting
                && attempt in tools && tools[attempt].state.status == (if status.Confirmed? then status else Uncertain)
                && (forall a | a in tools && a != attempt :: a in old(tools) && tools[a] == old(tools)[a])
                && (!status.Confirmed? ==> state.pause == Some(MutationUncertain))
      ensures reply != Done ==> tools == old(tools) && state == old(state)
    {
      if !Held(View(), w, now) || attempt !in tools { return Lost; }
      var record := tools[attempt];
      if record.fp != w.Fp() || record.state.event != w.event.id || record.state.status != Attempting { return Lost; }
      if status.Confirmed? {
        record := record.(state := record.state.(status := status));
      } else {
        record := record.(state := record.state.(status := Uncertain));
        state := state.(pause := Some(MutationUncertain));
      }
      tools := tools[attempt := record];
      reply := Done;
    }

    // -------------------------------------------------------------- checkpoints

    method CheckpointPrepare(now: int, w: Work, t: CheckpointRecord, session: Binding) returns (reply: Reply)
      modifies this`checkpoint
      ensures (View(), reply) == Scripts.CheckpointPrepare(old(View()), now, w, t, session)
      ensures checkpoint != old(checkpoint) ==> checkpoint == Some(t)
      ensures checkpoint != old(checkpoint) && old(checkpoint).Some? ==>
          Settled(old(checkpoint).value.phase) && old(checkpoint).value.id != t.id
    {
      if !Held(View(), w, now) { return Lost; }
      if state.session != Some(session) || state.chat != t.checkpoint.chat || t.recovery.None? { return Lost; }
      var r := t.recovery.value;
      if r.event != w.event.id || r.fp != w.Fp() || r.streamId != w.streamId || r.session != session { return Lost; }
      if checkpoint.Some? {
        var p := checkpoint.value;
        if p.id == t.id {
          if p != t { return Lost; }
        } else if !p.phase.Restored? && !p.phase.Aborted? {
          return Lost;
        }
      }
      checkpoint := Some(t);
      reply := Done;
    }

    method CheckpointTransition(now: int, w: Work, id: CheckpointId, target: Phase,
                                expected: CheckpointRecord, next: CheckpointRecord) returns (reply: Reply)
      modifies this`checkpoint
      ensures (View(), reply) == Scripts.CheckpointTransition(old(View()), now, w, id, target, expected, next)
      ensures checkpoint != old(checkpoint) ==>
                && old(checkpoint) == Some(expected) && expected.id == id && checkpoint == Some(next)
                && (target.Compacted? ==> expected.phase == Prepared)
                && (target.Restored? ==> expected.phase == Compacted(target.entry))
    {
      if !Held(View(), w, now) || checkpoint.None? { return Lost; }
      var t := checkpoint.value;
      if t.id != id { return Lost; }
      if target.Compacted? && t.phase != Prepared { return Lost; }
      if target.Restored? && (!t.phase.Compacted? || t.phase.entry != target.entry) { return Lost; }
      if t != expected { return Lost; }
      checkpoint := Some(next);
      reply := Done;
    }

    method CheckpointAbort(now: int, w: Work, session: Binding, id: CheckpointId,
                           expected: CheckpointRecord, next: CheckpointRecord, intent: Option<Digest>)
      returns (reply: Reply)
      modifies this`checkpoint, this`state, this`lease
      ensures (View(), reply) == Scripts.CheckpointAbort(old(View()), now, w, session, id, expected, next, intent)
      ensures reply == Done ==>
                && old(checkpoint) == Some(expected) && expected.phase == Prepared && checkpoint == Some(next)
                    && next.phase == Aborted
                && old(state).pause == Some(CompactionFailed) && state == old(state).(pause := None)
                && lease.owner.None? && lease.event.None? && lease.epoch == old(lease).epoch
      ensures reply != Done ==> View() == old(View())
    {
      if !Held(View(), w, now) { return Lost; }
      var proof := RepairEvidence(View().chat, session.chat, if intent.Some? then Exact(intent.value) else NoIntent);
      if proof.Err? { return Lost; }
      var p := proof.value;
      if p.event != w.event.id || p.entry.id != w.streamId || p.entry.fp != w.Fp() || p.session != session
          || p.record != expected {
        return Lost;
      }
      if p.record.id != id || next.phase != Aborted || next.id != id { return Lost; }
      if p.record.recovery.None? && (intent.None? || lease.intent != intent) { return Lost; }
      checkpoint := Some(next);
      state := state.(pause := None);
      lease := lease.(owner := None, until := 0, event := None, intent := None);
      reply := Done;
    }
  }
}
