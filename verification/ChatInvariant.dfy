/** What every script call keeps true of one chat's keys, and the three kinds
    of change a call can make to them. */
module ChatInvariant {
  import opened Common
  import opened Domain
  import opened Scripts

  /** `e` is the event the chat must complete next. */
  ghost predicate IsNext(c: Chat, e: EventId) {
    e in c.events && c.events[e].sequence == c.state.cursor + 1
  }

  /** Events and sequences are mutually inverse, and lie above the cursor. */
  ghost predicate Ordered(c: Chat) {
    && (forall e | e in c.events :: c.events[e].sequence in c.seqs && c.seqs[c.events[e].sequence] == e)
    && (forall q | q in c.seqs :: c.seqs[q] in c.events && c.events[c.seqs[q]].sequence == q && q > c.state.cursor)
  }

  /** Stream entries are exactly the pending events; only they are deliverable. */
  ghost predicate Streamed(c: Chat) {
    && (forall e | e in c.events :: c.events[e].id in c.stream.entries && c.stream.entries[c.events[e].id] == e)
    && (forall id | id in c.stream.entries ::
          c.stream.entries[id] in c.events && c.events[c.stream.entries[id]].id == id && id < c.stream.next)
    && c.stream.pending.Keys <= c.stream.entries.Keys
  }

  /** Every event record describes the notification stored with it. */
  ghost predicate Described(c: Chat) {
    forall e | e in c.events ::
      var n := c.events[e].raw;
      c.events[e].fp == Fingerprint(n) && n.id == e && n.chat == c.state.chat && n.sequence == c.events[e].sequence
  }

  /** The lease and the turn mark only ever name the next event. */
  ghost predicate Focused(c: Chat) {
    && (c.lease.event.Some? ==> IsNext(c, c.lease.event.value))
    && (c.state.turn.Some? ==> IsNext(c, c.state.turn.value))
  }

  /** Journal records belong to the event whose turn is marked. */
  ghost predicate Journaled(c: Chat) {
    forall a | a in c.tools ::
      var r := c.tools[a];
      r.state.attempt == a && c.state.turn == Some(r.state.event) && r.state.event in c.events
          && r.fp == c.events[r.state.event].fp
  }

  ghost predicate Coherent(c: Chat) {
    Ordered(c) && Streamed(c) && Described(c) && Focused(c) && Journaled(c)
  }

  /** A journal record is immutable but for leaving `Attempting` once. */
  ghost predicate Evolves(r: JournalRecord, r': JournalRecord) {
    r' == r || (r.state.status == Attempting && r'.state.status != Attempting
        && r' == r.(state := r.state.(status := r'.state.status)))
  }

  /** A change that neither admits nor completes an event. */
  ghost predicate Quiet(c: Chat, c': Chat) {
    && c'.state.chat == c.state.chat && c'.state.cursor == c.state.cursor && c'.state.revision == c.state.revision
    && c'.events == c.events && c'.seqs == c.seqs
    && (c.state.turn.Some? ==> c'.state.turn == c.state.turn)
    && (c.state.session.Some? ==> c'.state.session == c.state.session)
    && (forall a | a in c.tools :: a in c'.tools && Evolves(c.tools[a], c'.tools[a]))
  }

  /** The change an accepted notification makes to its chat. */
  ghost predicate Admits(c: Chat, c': Chat, n: Notification) {
    && c'.state == c.state && c'.lease == c.lease && c'.tools == c.tools && c'.checkpoint == c.checkpoint
    && n.id !in c.events && n.sequence !in c.seqs && n.sequence > c.state.cursor
    && n.id in c'.events && c'.events[n.id].fp == Fingerprint(n) && c'.events[n.id].sequence == n.sequence
    && c'.events.Keys == c.events.Keys + {n.id}
    && (forall e | e in c.events :: c'.events[e] == c.events[e])
  }

  /** The change a completion makes to its chat. */
  ghost predicate Finishes(c: Chat, c': Chat, w: Work, session: Binding, sends: seq<Send>) {
    && IsNext(c, w.event.id) && c.events[w.event.id].fp == w.Fp()
    && c.state.session == Some(session) && AllAccounted(c.tools, w, sends)
    && c'.state == c.state.(cursor := c.state.cursor + 1, revision := c.state.revision + 1, turn := None)
    && c'.events == c.events - {w.event.id} && c'.tools == map[] && c'.checkpoint == c.checkpoint
    && c'.lease.event == None
  }

  lemma AcceptKeepsCoherence(db: Db, revision: int, identityRevision: int, n: Notification, completed: bool)
    requires Coherent(db.chat) && n.chat == db.chat.state.chat
    requires Accept(db, revision, identityRevision, n, completed).1 == Accepted
    ensures Coherent(Accept(db, revision, identityRevision, n, completed).0.chat)
    ensures Admits(db.chat, Accept(db, revision, identityRevision, n, completed).0.chat, n)
  {
    var c, c' := db.chat, Accept(db, revision, identityRevision, n, completed).0.chat;
    assert n.sequence !in c.seqs;
    assert Admits(c, c', n);
    assert Ordered(c');
    AcceptedEntryIsNew(c, c', n);
  }

  lemma AcceptedEntryIsNew(c: Chat, c': Chat, n: Notification)
    requires Streamed(c) && n.id !in c.events
    requires c'.stream == c.stream.(entries := c.stream.entries[c.stream.next := n.id], next := c.stream.next + 1)
    requires c'.events.Keys == c.events.Keys + {n.id} && c'.events[n.id].id == c.stream.next
    requires forall e | e in c.events :: c'.events[e] == c.events[e]
    ensures Streamed(c')
  {
    assert c.stream.next !in c.stream.entries;
  }

  lemma CompleteKeepsCoherence(db: Db, now: int, w: Work, session: Binding, sends: seq<Send>)
    requires Coherent(db.chat) && Complete(db, now, w, session, sends).1 == Done
    ensures Coherent(Complete(db, now, w, session, sends).0.chat)
    ensures Finishes(db.chat, Complete(db, now, w, session, sends).0.chat, w, session, sends)
  {
    var c, c' := db.chat, Complete(db, now, w, session, sends).0.chat;
    var e := c.events[w.event.id];
    assert forall q | q in c.seqs && q != e.sequence :: c.seqs[q] != w.event.id;
    assert forall id | id in c.stream.entries && id != e.id :: c.stream.entries[id] != w.event.id;
    assert Ordered(c') && Streamed(c') && Described(c') && Focused(c') && Journaled(c');
  }

  /** A change that keeps the pending events and puts nothing but the next
      event into the lease and the turn mark keeps coherence. */
  lemma FrameCoherence(c: Chat, c': Chat)
    requires Coherent(c)
    requires c'.state.chat == c.state.chat && c'.state.cursor == c.state.cursor && c'.events == c.events
        && c'.seqs == c.seqs
    requires c'.stream.entries == c.stream.entries && c'.stream.next == c.stream.next
        && c'.stream.pending.Keys <= c.stream.entries.Keys
    requires Focused(c') && Journaled(c')
    ensures Coherent(c')
  {
  }

  /** Neither an acceptance nor a completion. */
  ghost predicate Other(call: Call) {
    match call
    case Intake(_, _, _, _) => false
    case WorkCall(_, act) => !act.CompleteEvent?
    case _ => true
  }

  /** The common conclusion about every other call. */
  ghost predicate QuietStep(db: Db, db': Db) {
    && Coherent(db'.chat) && Quiet(db.chat, db'.chat)
    && db'.identities == db.identities && db'.app.identityRevision == db.app.identityRevision
  }

  lemma ClaimEntryIsQuiet(db: Db, now: int, f: Fence, owner: OwnerId, ms: int)
    requires Coherent(db.chat) && db.chat.state.cursor + 1 in db.chat.seqs
    ensures QuietStep(db, ClaimEntry(db, now, f, owner, ms, db.chat.state.cursor + 1).0)
  {
    hide TooLong;
    FrameCoherence(db.chat, ClaimEntry(db, now, f, owner, ms, db.chat.state.cursor + 1).0.chat);
  }

  lemma ClaimGapIsQuiet(db: Db, now: int, gapTimeout: int)
    requires Coherent(db.chat)
    ensures QuietStep(db, ClaimGap(db, now, gapTimeout).0)
  {
    FrameCoherence(db.chat, ClaimGap(db, now, gapTimeout).0.chat);
  }

  lemma DoubtedIsQuiet(db: Db)
    requires Coherent(db.chat)
    ensures QuietStep(db, Doubted(db)) && QuietStep(db, db)
  {
    FrameCoherence(db.chat, Doubted(db).chat);
  }

  lemma ClaimIsQuiet(db: Db, now: int, f: Fence, owner: OwnerId, ms: int, gapTimeout: int)
    requires Coherent(db.chat)
    ensures QuietStep(db, Claim(db, now, f, owner, ms, gapTimeout).0)
  {
    hide Occupied, AppAlive, ClaimGap, ClaimEntry, QuietStep, Coherent, Doubted, AllConfirmed;
    DoubtedIsQuiet(db);
    ClaimGapIsQuiet(db, now, gapTimeout);
    if db.chat.state.cursor + 1 in db.chat.seqs {
      ClaimEntryIsQuiet(db, now, f, owner, ms);
    }
  }

  /** No pending entry is ever found deleted, so recovery never raises a gap. */
  lemma RecoverPendingIsQuiet(db: Db, now: int, f: Fence, consumer: OwnerId, visited: set<StreamId>)
    requires Coherent(db.chat)
    ensures var (db', r) := RecoverPending(db, now, f, consumer, visited);
            QuietStep(db, db') && (r.Recovered? ==> r.deleted == {} && db'.chat.state == db.chat.state)
  {
    var (db', r) := RecoverPending(db, now, f, consumer, visited);
    assert r.Recovered? ==> r.deleted == {};
    FrameCoherence(db.chat, db'.chat);
  }

  /** Repair evidence names the next event, which is deliverable. */
  lemma EvidenceIsNext(c: Chat, chat: ChatId, intent: Intent)
    requires RepairEvidence(c, chat, intent).Ok?
    ensures var p := RepairEvidence(c, chat, intent).value;
            && IsNext(c, p.event) && p.entry == c.events[p.event] && c.seqs[c.state.cursor + 1] == p.event
            && p.entry.id in c.stream.entries && p.entry.id in c.stream.pending
            && c.state.pause == Some(CompactionFailed) && c.state.turn == None && c.tools == map[]
            && c.checkpoint == Some(p.record) && p.record.phase == Prepared && c.state.session == Some(p.session)
  {
  }

  lemma IntendRepairIsQuiet(db: Db, now: int, f: Fence, owner: OwnerId, ms: int, chat: ChatId)
    requires Coherent(db.chat)
    ensures QuietStep(db, RepairIntent(db, now, f, owner, ms, chat).0)
  {
    var (db', r) := RepairIntent(db, now, f, owner, ms, chat);
    if r.RepairClaimed? {
      EvidenceIsNext(db.chat, chat, Generate);
    }
    FrameCoherence(db.chat, db'.chat);
  }

  lemma ClaimRepairIsQuiet(db: Db, now: int, f: Fence, owner: OwnerId, ms: int, chat: ChatId, intent: Option<Digest>)
    requires Coherent(db.chat)
    ensures QuietStep(db, RepairClaim(db, now, f, owner, ms, chat, intent).0)
  {
    var (db', r) := RepairClaim(db, now, f, owner, ms, chat, intent);
    if r.RepairClaimed? {
      EvidenceIsNext(db.chat, chat, if intent.Some? then Exact(intent.value) else NoIntent);
    }
    FrameCoherence(db.chat, db'.chat);
  }

  lemma DropRepairIsQuiet(db: Db, now: int, f: Fence, lease: Fence)
    requires Coherent(db.chat)
    ensures QuietStep(db, RepairReleaseFence(db, now, f, lease).0)
  {
    FrameCoherence(db.chat, RepairReleaseFence(db, now, f, lease).0.chat);
  }

  lemma AppLeaseIsQuiet(db: Db, now: int, f: Fence, owner: OwnerId, ms: int)
    requires Coherent(db.chat)
    ensures QuietStep(db, AppRenew(db, now, f, ms).0) && QuietStep(db, AppRelease(db, now, f).0)
    ensures QuietStep(db, AppAcquire(db, now, owner, ms).0)
  {
  }

  lemma AppCallsAreQuiet(db: Db, now: int, f: Fence, act: AppAct)
    requires Coherent(db.chat)
    ensures QuietStep(db, ApplyApp(db, now, f, act).0)
  {
    hide QuietStep, Coherent, Claim, RecoverPending, RepairIntent, RepairClaim, RepairReleaseFence, AppRenew,
        AppRelease;
    match act
    case RenewApp(ms) => AppLeaseIsQuiet(db, now, f, 0, ms);
    case ReleaseApp => AppLeaseIsQuiet(db, now, f, 0, 0);
    case ClaimNext(owner, ms, gapTimeout) => ClaimIsQuiet(db, now, f, owner, ms, gapTimeout);
    case Recover(owner, visited) => RecoverPendingIsQuiet(db, now, f, owner, visited);
    case IntendRepair(owner, ms, chat) => IntendRepairIsQuiet(db, now, f, owner, ms, chat);
    case ClaimRepair(owner, ms, chat, intent) => ClaimRepairIsQuiet(db, now, f, owner, ms, chat, intent);
    case DropRepair(lease) => DropRepairIsQuiet(db, now, f, lease);
  }

  lemma BeginTurnIsQuiet(db: Db, now: int, w: Work)
    requires Coherent(db.chat)
    ensures QuietStep(db, BeginTurn(db, now, w).0)
  {
    FrameCoherence(db.chat, BeginTurn(db, now, w).0.chat);
  }

  lemma LeaseIsQuiet(db: Db, now: int, w: Work, ms: int, session: Binding)
    requires Coherent(db.chat)
    ensures QuietStep(db, CheckWork(db, now, w).0) && QuietStep(db, TurnState(db, now, w).0)
    ensures QuietStep(db, Renew(db, now, w, ms).0) && QuietStep(db, RepairRelease(db, now, w, session).0)
  {
    hide Held;
    FrameCoherence(db.chat, Renew(db, now, w, ms).0.chat);
    FrameCoherence(db.chat, RepairRelease(db, now, w, session).0.chat);
  }

  lemma PauseIsQuiet(db: Db, now: int, w: Work, reason: PauseReason)
    requires Coherent(db.chat)
    ensures QuietStep(db, Pause(db, now, w, reason).0)
  {
    hide Held;
    FrameCoherence(db.chat, Pause(db, now, w, reason).0.chat);
  }

  lemma BindIsQuiet(db: Db, now: int, w: Work, session: Binding)
    requires Coherent(db.chat)
    ensures QuietStep(db, Bind(db, now, w, session).0)
  {
    hide Held;
    FrameCoherence(db.chat, Bind(db, now, w, session).0.chat);
  }

  lemma JournalBeginIsQuiet(db: Db, now: int, w: Work, attempt: AttemptId, r: JournalRecord, session: Binding)
    requires Coherent(db.chat)
    ensures QuietStep(db, JournalBegin(db, now, w, attempt, r, session).0)
  {
    FrameCoherence(db.chat, JournalBegin(db, now, w, attempt, r, session).0.chat);
  }

  lemma JournalTransitionIsQuiet(db: Db, now: int, w: Work, attempt: AttemptId, status: Status)
    requires Coherent(db.chat)
    ensures QuietStep(db, JournalTransition(db, now, w, attempt, status).0)
  {
    FrameCoherence(db.chat, JournalTransition(db, now, w, attempt, status).0.chat);
  }

  lemma PrepareIsQuiet(db: Db, now: int, w: Work, t: CheckpointRecord, session: Binding)
    requires Coherent(db.chat)
    ensures QuietStep(db, CheckpointPrepare(db, now, w, t, session).0)
  {
    hide Held;
    FrameCoherence(db.chat, CheckpointPrepare(db, now, w, t, session).0.chat);
  }

  lemma AdvanceIsQuiet(db: Db, now: int, w: Work, id: CheckpointId, target: Phase,
                       expected: CheckpointRecord, next: CheckpointRecord)
    requires Coherent(db.chat)
    ensures QuietStep(db, CheckpointTransition(db, now, w, id, target, expected, next).0)
  {
    hide Held;
    FrameCoherence(db.chat, CheckpointTransition(db, now, w, id, target, expected, next).0.chat);
  }

  lemma AbortIsQuiet(db: Db, now: int, w: Work, session: Binding, id: CheckpointId,
                     expected: CheckpointRecord, next: CheckpointRecord, intent: Option<Digest>)
    requires Coherent(db.chat)
    ensures QuietStep(db, CheckpointAbort(db, now, w, session, id, expected, next, intent).0)
  {
    hide RepairEvidence;
    FrameCoherence(db.chat, CheckpointAbort(db, now, w, session, id, expected, next, intent).0.chat);
  }

  lemma WorkCallsAreQuiet(db: Db, now: int, w: Work, act: WorkAct)
    requires Coherent(db.chat) && !act.CompleteEvent?
    ensures QuietStep(db, ApplyWork(db, now, w, act).0)
  {
    hide QuietStep, Coherent, CheckWork, TurnState, BeginTurn, Renew, Pause, Bind, Complete, JournalBegin,
         JournalTransition, CheckpointPrepare, CheckpointTransition, CheckpointAbort, RepairRelease;
    match act
    case BeginMutation(attempt, record, session) => JournalBeginIsQuiet(db, now, w, attempt, record, session);
    case SettleMutation(attempt, status) => JournalTransitionIsQuiet(db, now, w, attempt, status);
    case Prepare(t, session) => PrepareIsQuiet(db, now, w, t, session);
    case Advance(id, target, expected, next) => AdvanceIsQuiet(db, now, w, id, target, expected, next);
    case Abort(session, id, expected, next, intent) => AbortIsQuiet(db, now, w, session, id, expected, next, intent);
    case Check => LeaseIsQuiet(db, now, w, 0, Binding(0, 0, 0));
    case ReadTurn => LeaseIsQuiet(db, now, w, 0, Binding(0, 0, 0));
    case StartTurn => BeginTurnIsQuiet(db, now, w);
    case RenewLease(ms) => LeaseIsQuiet(db, now, w, ms, Binding(0, 0, 0));
    case PauseChat(reason) => PauseIsQuiet(db, now, w, reason);
    case BindSession(session) => BindIsQuiet(db, now, w, session);
    case ReleaseRepair(session) => LeaseIsQuiet(db, now, w, 0, session);
  }

  lemma DeliverIsQuiet(db: Db, consumer: OwnerId, id: StreamId)
    requires Coherent(db.chat)
    ensures QuietStep(db, DeliverEntry(db, consumer, id).0)
  {
    FrameCoherence(db.chat, DeliverEntry(db, consumer, id).0.chat);
  }

  /** Every call keeps the chat's keys coherent, and every call other than an
      acceptance or a completion changes neither the pending events, the
      cursor, the identities nor the identity revision. */
  lemma OtherCallsAreQuiet(db: Db, now: int, call: Call)
    requires Coherent(db.chat) && Other(call)
    ensures QuietStep(db, Apply(db, now, call).0)
  {
    hide QuietStep, Coherent, ApplyApp, ApplyWork, DeliverEntry, AppAcquire;
    match call
    case AppCall(f, act) => AppCallsAreQuiet(db, now, f, act);
    case WorkCall(w, act) => WorkCallsAreQuiet(db, now, w, act);
    case Deliver(consumer, id) => DeliverIsQuiet(db, consumer, id);
    case Acquire(owner, ms) => AppLeaseIsQuiet(db, now, Fence(0, 0), owner, ms);
  }
}
