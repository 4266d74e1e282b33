/** The atomic operations of the session controller's store, as functions from
    the nine keys they may touch to the new keys and a reply.  `now` is the
    server clock as this one call read it; nothing relates two readings. */
module Scripts {
  import opened Common
  import opened Domain
  import Decimal

  // ---------------------------------------------------------------- keys

  /** `until == 0` is an absent expiry: it is never in the future. */
  datatype AppKey = AppKey(owner: Option<OwnerId>, epoch: int, until: int, identityRevision: int)

  datatype StateKey = StateKey(
    chat: ChatId, cursor: int, revision: int, session: Option<Binding>,
    pause: Option<PauseReason>, gap: Option<int>, turn: Option<EventId>)

  /** `tenant` is the application fence under which the chat lease was granted. */
  datatype LeaseKey = LeaseKey(
    owner: Option<OwnerId>, epoch: int, tenant: Option<Fence>, until: int,
    event: Option<EventId>, intent: Option<Digest>)

  /** Stream entries, the consumer group's pending entries, and the next id. */
  datatype StreamKey = StreamKey(entries: map<StreamId, EventId>, pending: map<StreamId, OwnerId>, next: StreamId)

  datatype Event = Event(id: StreamId, fp: Fingerprint, sequence: int, raw: Notification)

  datatype Identity = Identity(chat: ChatId, fp: Fingerprint)

  datatype Chat = Chat(
    state: StateKey, lease: LeaseKey, stream: StreamKey, events: map<EventId, Event>, seqs: map<int, EventId>,
    tools: map<AttemptId, JournalRecord>, checkpoint: Option<CheckpointRecord>)

  /** What one script call sees: the application key, the active-identity key
      shared by all chats, and the keys of one chat. */
  datatype Db = Db(app: AppKey, identities: map<EventId, Identity>, chat: Chat)

  datatype Reply =
    | Done | Lost | Retry | Conflict | Duplicate | Accepted | Busy | PausedReply | Waiting | Empty | Started
    | Ineligible | Unsafe | IntentRequired
    | Granted(epoch: int, until: int)
    | Claimed(streamId: StreamId, raw: Notification, epoch: int, until: int)
    | RepairClaimed(streamId: StreamId, raw: Notification, session: Binding, record: CheckpointRecord, epoch: int,
        until: int)
    | Recovered(claimed: set<StreamId>, deleted: set<StreamId>)
    | Current(appUntil: int, leaseUntil: int)
    | Turn(event: Option<EventId>)

  function EmptyChat(chat: ChatId): Chat {
    Chat(StateKey(chat, 0, 0, None, None, None, None), LeaseKey(None, 0, None, 0, None, None),
         StreamKey(map[], map[], 0), map[], map[], map[], None)
  }

  const EMPTY_APP := AppKey(None, 0, 0, 0)

  // ---------------------------------------------------------------- fences

  /** An epoch of more than 32 digits is never granted. */
  predicate TooLong(epoch: int) {
    epoch >= Decimal.Pow10(Decimal.MAX_EPOCH_DIGITS)
  }

  predicate AppAlive(app: AppKey, f: Fence, now: int) {
    app.owner == Some(f.owner) && app.epoch == f.epoch && app.until > now
  }

  predicate LeaseAlive(lease: LeaseKey, f: Fence, now: int) {
    lease.owner == Some(f.owner) && lease.epoch == f.epoch && lease.until > now
  }

  /** `fence`: both leases are the caller's, unexpired, and belong together. */
  predicate Fenced(db: Db, w: Work, now: int) {
    && AppAlive(db.app, w.app, now)
    && LeaseAlive(db.chat.lease, w.lease, now)
    && db.chat.lease.tenant == Some(w.app)
  }

  /** `work`: the fence holds and the tuple names the leased, still active event. */
  predicate Held(db: Db, w: Work, now: int) {
    && Fenced(db, w, now)
    && w.event.id in db.chat.events
    && db.chat.events[w.event.id].id == w.streamId
    && db.chat.events[w.event.id].fp == w.Fp()
    && db.chat.lease.event == Some(w.event.id)
  }

  /** The same application already holds an unexpired chat lease. */
  predicate Occupied(lease: LeaseKey, f: Fence, now: int) {
    lease.tenant == Some(f) && lease.until > now
  }

  // ---------------------------------------------------------------- intake

  function Accept(db: Db, revision: int, identityRevision: int, n: Notification, completed: bool): (Db, Reply) {
    var c := db.chat;
    var fp := Fingerprint(n);
    var identity := Identity(n.chat, fp);
    if c.state.revision != revision || db.app.identityRevision != identityRevision then (db, Retry)
    else if n.id in db.identities && db.identities[n.id] != identity then (db, Conflict)
    else if n.id in c.events then
      (db, if c.events[n.id].fp != fp || c.events[n.id].sequence != n.sequence then Conflict else Duplicate)
    else if n.sequence in c.seqs && c.seqs[n.sequence] != n.id then (db, Conflict)
    else if completed then (db, Duplicate)
    else if n.sequence <= c.state.cursor then (db, Conflict)
    else
      var id := c.stream.next;
      var stream := c.stream.(entries := c.stream.entries[id := n.id], next := id + 1);
      var chat := c.(stream := stream,
                     events := c.events[n.id := Event(id, fp, n.sequence, n)],
                     seqs := c.seqs[n.sequence := n.id]);
      (db.(identities := db.identities[n.id := identity], chat := chat), Accepted)
  }

  // ---------------------------------------------------------------- application lease

  function AppAcquire(db: Db, now: int, owner: OwnerId, ms: int): (Db, Reply) {
    if db.app.until > now then (db, Busy)
    else if TooLong(db.app.epoch + 1) then (db, Lost)
    else
      var app := db.app.(owner := Some(owner), epoch := db.app.epoch + 1, until := now + ms);
      (db.(app := app), Granted(app.epoch, app.until))
  }

  function AppRenew(db: Db, now: int, f: Fence, ms: int): (Db, Reply) {
    if !AppAlive(db.app, f, now) then (db, Lost)
    else (db.(app := db.app.(until := now + ms)), Granted(db.app.epoch, now + ms))
  }

  function AppRelease(db: Db, now: int, f: Fence): (Db, Reply) {
    if !AppAlive(db.app, f, now) then (db, Lost)
    else (db.(app := db.app.(owner := None, until := 0)), Done)
  }

  // ---------------------------------------------------------------- claiming work

  predicate AllConfirmed(tools: map<AttemptId, JournalRecord>) {
    forall a | a in tools :: tools[a].state.status.Confirmed?
  }

  function Doubt(r: JournalRecord): JournalRecord {
    if r.state.status.Confirmed? then r else r.(state := r.state.(status := Uncertain))
  }

  /** Every attempt that is not confirmed becomes uncertain. */
  function DoubtAll(tools: map<AttemptId, JournalRecord>): map<AttemptId, JournalRecord> {
    map a | a in tools :: Doubt(tools[a])
  }

  function Doubted(db: Db): Db {
    db.(chat := db.chat.(tools := DoubtAll(db.chat.tools), state := db.chat.state.(pause := Some(MutationUncertain))))
  }

  /** A fresh chat lease for the claimed event. */
  function GrantLease(lease: LeaseKey, now: int, f: Fence, owner: OwnerId, ms: int, event: EventId): LeaseKey {
    lease.(owner := Some(owner), epoch := lease.epoch + 1, tenant := Some(f), until := now + ms, event := Some(event))
  }

  function Claim(db: Db, now: int, f: Fence, owner: OwnerId, ms: int, gapTimeout: int): (Db, Reply) {
    var c := db.chat;
    var next := c.state.cursor + 1;
    if !AppAlive(db.app, f, now) then (db, Lost)
    else if c.state.pause.Some? then (db, PausedReply)
    else if Occupied(c.lease, f, now) then (db, Waiting)
    else if !AllConfirmed(c.tools) then (Doubted(db), PausedReply)
    else if next !in c.seqs then ClaimGap(db, now, gapTimeout)
    else ClaimEntry(db, now, f, owner, ms, next)
  }

  /** The next event is there: take its stream entry and lease the chat. */
  function ClaimEntry(db: Db, now: int, f: Fence, owner: OwnerId, ms: int, next: int): (Db, Reply)
    requires next in db.chat.seqs
  {
    var c := db.chat;
    if c.seqs[next] !in c.events || TooLong(c.lease.epoch + 1) then (db, Lost)
    else
      var event := c.seqs[next];
      var e := c.events[event];
      if e.id !in c.stream.entries then
        (db.(chat := c.(stream := c.stream.(pending := c.stream.pending - {e.id}))), Lost)
      else
        var lease := GrantLease(c.lease, now, f, owner, ms, event);
        var chat := c.(stream := c.stream.(pending := c.stream.pending[e.id := owner]),
                       lease := lease, state := c.state.(gap := None));
        (db.(chat := chat), Claimed(e.id, e.raw, lease.epoch, lease.until))
  }

  /** The next sequence has not arrived: wait, then pause. */
  function ClaimGap(db: Db, now: int, gapTimeout: int): (Db, Reply) {
    var c := db.chat;
    if c.events == map[] then
      (db.(chat := c.(state := c.state.(gap := None))), Empty)
    else
      var gap := if c.state.gap.Some? then c.state.gap.value else now;
      var state := c.state.(gap := Some(gap));
      if now - gap >= gapTimeout then
        (db.(chat := c.(state := state.(pause := Some(SequenceGap)))), PausedReply)
      else
        (db.(chat := c.(state := state)), Waiting)
  }

  /** One bounded scan of the pending entries, of which `visited` were looked
      at: surviving ones change consumer, deleted ones are dropped. */
  function RecoverPending(db: Db, now: int, f: Fence, consumer: OwnerId, visited: set<StreamId>): (Db, Reply) {
    var c := db.chat;
    if !AppAlive(db.app, f, now) then (db, Lost)
    else if Occupied(c.lease, f, now) then (db, Busy)
    else if c.state.pause.Some? then (db, PausedReply)
    else
      var claimed := set id | id in visited && id in c.stream.pending && id in c.stream.entries;
      var deleted := set id | id in visited && id in c.stream.pending && id !in c.stream.entries;
      var pending := map id | id in c.stream.pending && id !in deleted ::
        if id in claimed then consumer else c.stream.pending[id];
      var state := if deleted != {} then c.state.(pause := Some(SequenceGap)) else c.state;
      (db.(chat := c.(stream := c.stream.(pending := pending), state := state)), Recovered(claimed, deleted))
  }

  /** A plain group read hands an entry to a consumer; it grants no lease. */
  function DeliverEntry(db: Db, consumer: OwnerId, id: StreamId): (Db, Reply) {
    var c := db.chat;
    if id in c.stream.entries then
      (db.(chat := c.(stream := c.stream.(pending := c.stream.pending[id := consumer]))), Done)
    else (db, Empty)
  }

  // ---------------------------------------------------------------- compaction repair

  datatype Intent = Generate | NoIntent | Exact(digest: Digest)

  datatype Evidence = Evidence(event: EventId, entry: Event, session: Binding, record: CheckpointRecord)

  /** `repairEvidence`: a prepared compaction that failed, and nothing else in
      flight but the event it was preparing for. */
  function RepairEvidence(c: Chat, chat: ChatId, intent: Intent): Result<Evidence, Reply> {
    var next := c.state.cursor + 1;
    if c.state.chat != chat || c.state.pause != Some(CompactionFailed) || c.checkpoint.None? then Err(Ineligible)
    else
      var p := c.checkpoint.value;
      if p.phase != Prepared || p.checkpoint.chat != chat then Err(Ineligible)
      else if c.state.turn.Some? || c.tools != map[] then Err(Unsafe)
      else if c.state.session.None? || c.state.session.value.chat != chat then Err(Unsafe)
      else if next !in c.seqs || c.seqs[next] !in c.events then Err(Unsafe)
      else
        var event := c.seqs[next];
        var e := c.events[event];
        var session := c.state.session.value;
        if e.sequence != next then Err(Unsafe)
        else if e.id !in c.stream.entries || c.stream.entries[e.id] != event then Err(Unsafe)
        else if e.id !in c.stream.pending then Err(Unsafe)
        else if p.recovery.Some? then
          var r := p.recovery.value;
          if r.event != event || r.fp != e.fp || r.streamId != e.id || r.session != session then Err(Unsafe)
          else Ok(Evidence(event, e, session, p))
        else if intent.NoIntent? then Err(IntentRequired)
        else Ok(Evidence(event, e, session, p))
  }

  function RepairIntent(db: Db, now: int, f: Fence, owner: OwnerId, ms: int, chat: ChatId): (Db, Reply) {
    var c := db.chat;
    if !AppAlive(db.app, f, now) then (db, Lost)
    else if Occupied(c.lease, f, now) then (db, Busy)
    else
      match RepairEvidence(c, chat, Generate)
      case Err(reason) => (db, reason)
      case Ok(p) =>
        if p.record.recovery.Some? then (db, Ineligible)
        else if TooLong(c.lease.epoch + 1) then (db, Lost)
        else
          var lease := GrantLease(c.lease, now, f, owner, ms, p.event).(intent := None);
          (db.(chat := c.(lease := lease)),
           RepairClaimed(p.entry.id, p.entry.raw, p.session, p.record, lease.epoch, lease.until))
  }

  function RepairClaim(db: Db, now: int, f: Fence, owner: OwnerId, ms: int, chat: ChatId, intent: Option<Digest>): (Db,
      Reply) {
    var c := db.chat;
    if !AppAlive(db.app, f, now) then (db, Lost)
    else if Occupied(c.lease, f, now) then (db, Busy)
    else
      match RepairEvidence(c, chat, if intent.Some? then Exact(intent.value) else NoIntent)
      case Err(reason) => (db, reason)
      case Ok(p) =>
        if TooLong(c.lease.epoch + 1) then (db, Lost)
        else
          var lease := GrantLease(c.lease, now, f, owner, ms, p.event).
            (intent := if p.record.recovery.Some? then None else intent);
          (db.(chat := c.(lease := lease)),
           RepairClaimed(p.entry.id, p.entry.raw, p.session, p.record, lease.epoch, lease.until))
  }

  function FreeLease(lease: LeaseKey): LeaseKey {
    lease.(owner := None, until := 0, event := None)
  }

  function RepairReleaseFence(db: Db, now: int, f: Fence, lease: Fence): (Db, Reply) {
    var l := db.chat.lease;
    if !AppAlive(db.app, f, now) || l.owner != Some(lease.owner) || l.epoch != lease.epoch
        || l.tenant != Some(f) then (db, Lost)
    else (db.(chat := db.chat.(lease := FreeLease(l).(intent := None))), Done)
  }

  function RepairRelease(db: Db, now: int, w: Work, session: Binding): (Db, Reply) {
    if !Held(db, w, now) || db.chat.state.session != Some(session) then (db, Lost)
    else (db.(chat := db.chat.(lease := FreeLease(db.chat.lease).(intent := None))), Done)
  }

  // ---------------------------------------------------------------- one turn

  function CheckWork(db: Db, now: int, w: Work): (Db, Reply) {
    if !Held(db, w, now) then (db, Lost) else (db, Current(db.app.until, db.chat.lease.until))
  }

  function TurnState(db: Db, now: int, w: Work): (Db, Reply) {
    if !Held(db, w, now) then (db, Lost) else (db, Turn(db.chat.state.turn))
  }

  function BeginTurn(db: Db, now: int, w: Work): (Db, Reply) {
    if !Held(db, w, now) then (db, Lost)
    else if db.chat.state.turn.Some? then (db, Started)
    else (db.(chat := db.chat.(state := db.chat.state.(turn := Some(w.event.id)))), Done)
  }

  function Renew(db: Db, now: int, w: Work, ms: int): (Db, Reply) {
    if !Held(db, w, now) then (db, Lost)
    else (db.(chat := db.chat.(lease := db.chat.lease.(until := now + ms))), Granted(db.chat.lease.epoch, now + ms))
  }

  function Pause(db: Db, now: int, w: Work, reason: PauseReason): (Db, Reply) {
    if !Held(db, w, now) then (db, Lost)
    else (db.(chat := db.chat.(state := db.chat.state.(pause := Some(reason)))), Done)
  }

  function Bind(db: Db, now: int, w: Work, session: Binding): (Db, Reply) {
    var bound := db.chat.state.session;
    if !Held(db, w, now) || (bound.Some? && bound.value != session) then (db, Lost)
    else (db.(chat := db.chat.(state := db.chat.state.(session := Some(session)))), Done)
  }

  /** The record is a confirmed send of exactly this event, and it is listed. */
  predicate Accounted(r: JournalRecord, w: Work, sends: seq<Send>) {
    && r.state.status.Confirmed?
    && r.state.event == w.event.id
    && r.fp == w.Fp()
    && Send(r.state.destination, r.state.status.messageId) in sends
  }

  predicate AllAccounted(tools: map<AttemptId, JournalRecord>, w: Work, sends: seq<Send>) {
    forall a | a in tools :: Accounted(tools[a], w, sends)
  }

  function Complete(db: Db, now: int, w: Work, session: Binding, sends: seq<Send>): (Db, Reply) {
    var c := db.chat;
    if !Held(db, w, now) then (db, Lost)
    else
      var e := c.events[w.event.id];
      if e.sequence != c.state.cursor + 1 || c.state.session != Some(session) then (db, Lost)
      else if !AllAccounted(c.tools, w, sends) then (db, Lost)
      else
        var chat := c.(
          state := c.state.(cursor := e.sequence, revision := c.state.revision + 1, turn := None),
          lease := FreeLease(c.lease),
          stream := c.stream.(entries := c.stream.entries - {e.id}, pending := c.stream.pending - {e.id}),
          events := c.events - {w.event.id},
          seqs := c.seqs - {e.sequence},
          tools := map[]);
        (Db(db.app.(identityRevision := db.app.identityRevision + 1), db.identities - {w.event.id}, chat), Done)
  }

  // ---------------------------------------------------------------- mutation journal

  function JournalBegin(db: Db, now: int, w: Work, attempt: AttemptId, r: JournalRecord, session: Binding): (Db,
      Reply) {
    var c := db.chat;
    if !Held(db, w, now) || c.state.turn != Some(w.event.id) || c.state.session != Some(session) then (db, Lost)
    else if r.fp != w.Fp() || r.state.event != w.event.id || r.state.attempt != attempt
        || r.state.status != Attempting then (db, Lost)
    else if attempt in c.tools then (db, Lost)
    else if exists a | a in c.tools ::
        c.tools[a].state.event == w.event.id && c.tools[a].state.toolCall == r.state.toolCall then (db, Lost)
    else (db.(chat := c.(tools := c.tools[attempt := r])), Done)
  }

  /** `status` is a confirmation, or Uncertain for anything else. */
  function JournalTransition(db: Db, now: int, w: Work, attempt: AttemptId, status: Status): (Db, Reply) {
    var c := db.chat;
    if !Held(db, w, now) || attempt !in c.tools then (db, Lost)
    else
      var r := c.tools[attempt];
      if r.fp != w.Fp() || r.state.event != w.event.id || r.state.status != Attempting then (db, Lost)
      else
        var confirmed := status.Confirmed?;
        var state := if confirmed then c.state else c.state.(pause := Some(MutationUncertain));
        var next := r.(state := r.state.(status := if confirmed then status else Uncertain));
        (db.(chat := c.(state := state, tools := c.tools[attempt := next])), Done)
  }

  // ---------------------------------------------------------------- checkpoints

  predicate Settled(p: Phase) {
    p.Restored? || p.Aborted?
  }

  function CheckpointPrepare(db: Db, now: int, w: Work, t: CheckpointRecord, session: Binding): (Db, Reply) {
    var c := db.chat;
    if !Held(db, w, now) || c.state.session != Some(session) || c.state.chat != t.checkpoint.chat
        || t.recovery.None? then (db, Lost)
    else
      var r := t.recovery.value;
      if r.event != w.event.id || r.fp != w.Fp() || r.streamId != w.streamId || r.session != session then (db, Lost)
      else if c.checkpoint.Some? && c.checkpoint.value.id == t.id && c.checkpoint.value != t then (db, Lost)
      else if c.checkpoint.Some? && c.checkpoint.value.id != t.id && !Settled(c.checkpoint.value.phase) then (db, Lost)
      else (db.(chat := c.(checkpoint := Some(t))), Done)
  }

  /** `target` carries the phase and the compaction entry the caller names;
      `expected` is the record it read and `next` what it wants stored. */
  function CheckpointTransition(db: Db, now: int, w: Work, id: CheckpointId, target: Phase,
                                expected: CheckpointRecord, next: CheckpointRecord): (Db, Reply) {
    var c := db.chat;
    if !Held(db, w, now) || c.checkpoint.None? || c.checkpoint.value.id != id then (db, Lost)
    else
      var t := c.checkpoint.value;
      if target.Compacted? && t.phase != Prepared then (db, Lost)
      else if target.Restored? && t.phase != Compacted(target.entry) then (db, Lost)
      else if t != expected then (db, Lost)
      else (db.(chat := c.(checkpoint := Some(next))), Done)
  }

  function CheckpointAbort(db: Db, now: int, w: Work, session: Binding, id: CheckpointId,
                           expected: CheckpointRecord, next: CheckpointRecord, intent: Option<Digest>): (Db, Reply) {
    var c := db.chat;
    if !Held(db, w, now) then (db, Lost)
    else
      match RepairEvidence(c, session.chat, if intent.Some? then Exact(intent.value) else NoIntent)
      case Err(_) => (db, Lost)
      case Ok(p) =>
        if p.event != w.event.id || p.entry.id != w.streamId || p.entry.fp != w.Fp() || p.session != session
            || p.record != expected then (db, Lost)
        else if p.record.id != id || next.phase != Aborted || next.id != id then (db, Lost)
        else if p.record.recovery.None? && (intent.None? || c.lease.intent != intent) then (db, Lost)
        else
          (db.(chat := c.(checkpoint := Some(next), state := c.state.(pause := None),
                          lease := FreeLease(c.lease).(intent := None))), Done)
  }

  // ---------------------------------------------------------------- dispatch

  /** What a caller may ask for under its application fence alone. */
  datatype AppAct =
    | RenewApp(ms: int)
    | ReleaseApp
    | ClaimNext(owner: OwnerId, ms: int, gapTimeout: int)
    | Recover(owner: OwnerId, visited: set<StreamId>)
    | IntendRepair(owner: OwnerId, ms: int, chat: ChatId)
    | ClaimRepair(owner: OwnerId, ms: int, chat: ChatId, intent: Option<Digest>)
    | DropRepair(lease: Fence)

  /** What a caller may ask for under a full work tuple. */
  datatype WorkAct =
    | Check
    | ReadTurn
    | StartTurn
    | RenewLease(ms: int)
    | PauseChat(reason: PauseReason)
    | BindSession(session: Binding)
    | CompleteEvent(session: Binding, sends: seq<Send>)
    | BeginMutation(attempt: AttemptId, record: JournalRecord, session: Binding)
    | SettleMutation(attempt: AttemptId, status: Status)
    | Prepare(t: CheckpointRecord, session: Binding)
    | Advance(id: CheckpointId, target: Phase, expected: CheckpointRecord, next: CheckpointRecord)
    | Abort(session: Binding, id: CheckpointId, expected: CheckpointRecord, next: CheckpointRecord,
        intent: Option<Digest>)
    | ReleaseRepair(session: Binding)

  /** One script call with its arguments. */
  datatype Call =
    | Intake(revision: int, identityRevision: int, n: Notification, completed: bool)
    | Acquire(owner: OwnerId, ms: int)
    | Deliver(consumer: OwnerId, streamId: StreamId)
    | AppCall(f: Fence, app: AppAct)
    | WorkCall(w: Work, work: WorkAct)

  function ApplyApp(db: Db, now: int, f: Fence, act: AppAct): (Db, Reply) {
    match act
    case RenewApp(ms) => AppRenew(db, now, f, ms)
    case ReleaseApp => AppRelease(db, now, f)
    case ClaimNext(owner, ms, gapTimeout) => Claim(db, now, f, owner, ms, gapTimeout)
    case Recover(owner, visited) => RecoverPending(db, now, f, owner, visited)
    case IntendRepair(owner, ms, chat) => RepairIntent(db, now, f, owner, ms, chat)
    case ClaimRepair(owner, ms, chat, intent) => RepairClaim(db, now, f, owner, ms, chat, intent)
    case DropRepair(lease) => RepairReleaseFence(db, now, f, lease)
  }

  function ApplyWork(db: Db, now: int, w: Work, act: WorkAct): (Db, Reply) {
    match act
    case Check => CheckWork(db, now, w)
    case ReadTurn => TurnState(db, now, w)
    case StartTurn => BeginTurn(db, now, w)
    case RenewLease(ms) => Renew(db, now, w, ms)
    case PauseChat(reason) => Pause(db, now, w, reason)
    case BindSession(session) => Bind(db, now, w, session)
    case CompleteEvent(session, sends) => Complete(db, now, w, session, sends)
    case BeginMutation(attempt, record, session) => JournalBegin(db, now, w, attempt, record, session)
    case SettleMutation(attempt, status) => JournalTransition(db, now, w, attempt, status)
    case Prepare(t, session) => CheckpointPrepare(db, now, w, t, session)
    case Advance(id, target, expected, next) => CheckpointTransition(db, now, w, id, target, expected, next)
    case Abort(session, id, expected, next, intent) => CheckpointAbort(db, now, w, session, id, expected, next, intent)
    case ReleaseRepair(session) => RepairRelease(db, now, w, session)
  }

  function Apply(db: Db, now: int, call: Call): (Db, Reply) {
    match call
    case Intake(revision, identityRevision, n, completed) => Accept(db, revision, identityRevision, n, completed)
    case Acquire(owner, ms) => AppAcquire(db, now, owner, ms)
    case Deliver(consumer, streamId) => DeliverEntry(db, consumer, streamId)
    case AppCall(f, act) => ApplyApp(db, now, f, act)
    case WorkCall(w, act) => ApplyWork(db, now, w, act)
  }
}
