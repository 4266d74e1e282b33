/** Any number of controllers, workers, intake attempts and repair runs over
    one store.  Every step is one atomic effect: a script call, an append to a
    session file, or a read.  Any client may stop between any two of its steps,
    and any client may make any script call its wrapper permits, so a reply that
    never arrives and a lease that is lost are ordinary runs. */
module Controller {
  import opened Common
  import opened Domain
  import opened Scripts
  import opened ChatInvariant

  // ---------------------------------------------------------------- state

  /** One pass of the intake loop: a snapshot, then one lookup per chat. */
  datatype Attempt = Attempt(
    n: Notification, revision: int, identityRevision: int, mapped: Option<map<ChatId, Binding>>,
    looked: set<ChatId>, completed: bool)

  datatype Pc =
    | Leased                                    // lease granted
    | Checked                                   // cursor and pause read
    | Unmarked                                  // no durable marker found
    | Fresh                                     // no turn mark found
    | Classified(own: bool)                     // own: the event is a confirmed send of ours
    | Bound(own: bool, session: Binding)        // session mapping durable
    | Begun(session: Binding)                   // turn mark set by this worker
    | Finished(own: bool, session: Binding)     // prompt settled, or none needed
    | Proven(proof: Proof)                      // a durable marker is at hand

  datatype Worker = Worker(work: Work, pc: Pc)

  datatype Archived = Archived(send: Send, proof: Proof)

  /** `accepted`, `done`, `order`, `begun`, `prompts` and `archive` are history:
      which ids were answered accepted, the proof each id completed with, the
      completion order of each chat, the ids whose turn began, the prompts
      issued, and the sends whose journal record a completion deleted. */
  datatype World = World(
    app: AppKey, identities: map<EventId, Identity>, chats: map<ChatId, Chat>, log: set<Proof>,
    attempts: map<int, Attempt>, workers: map<int, Worker>,
    accepted: seq<EventId>, done: map<EventId, Proof>, order: map<ChatId, seq<EventId>>,
    begun: set<EventId>, prompts: seq<EventId>, archive: map<(ChatId, AttemptId), Archived>)

  function Keys(g: World, chat: ChatId): Db
    requires chat in g.chats
  {
    Db(g.app, g.identities, g.chats[chat])
  }

  function Store(g: World, chat: ChatId, db: Db): World {
    g.(app := db.app, identities := db.identities, chats := g.chats[chat := db.chat])
  }

  /** The session mappings as one read of all chats returns them. */
  function Mappings(g: World): map<ChatId, Binding> {
    map c | c in g.chats && g.chats[c].state.session.Some? :: g.chats[c].state.session.value
  }

  /** A marker is found only in the file its chat is mapped to. */
  predicate Findable(p: Proof, mapped: map<ChatId, Binding>, chat: ChatId, event: EventId) {
    p.marker.chat == chat && p.marker.event == event && chat in mapped && mapped[chat] == p.session
  }

  // ---------------------------------------------------------------- steps

  datatype Step =
    | Script(chat: ChatId, now: int, call: Call)
    | Snapshot(k: int, n: Notification)
    | ReadMappings(k: int)
    | Lookup(k: int, chat: ChatId, found: Option<Proof>)
    | Commit(k: int, now: int)
    | Spawn(k: int, chat: ChatId, now: int, f: Fence, owner: OwnerId, ms: int, gapTimeout: int)
    | ReadChat(k: int)
    | FindMarker(k: int, found: Option<Proof>)
    | FindTurn(k: int, now: int)
    | Classify(k: int, own: bool)
    | Map(k: int, now: int, session: Binding)
    | Begin(k: int, now: int)
    | Prompt(k: int)
    | SkipPrompt(k: int)
    | Append(k: int, entry: EntryId, sends: seq<Send>)
    | Finish(chat: ChatId, now: int, w: Work, proof: Proof)
    | Crash(k: int)
    | Abandon(k: int)

  /** What the repository lets a client ask of the scripts directly.  Intake
      and completion have steps of their own. */
  predicate Permitted(g: World, chat: ChatId, call: Call) {
    match call
    case Intake(_, _, _, _) => false
    case Acquire(_, _) => true
    case Deliver(_, _) => true
    case AppCall(_, act) =>
      (match act
       case IntendRepair(_, _, c) => c == chat
       case ClaimRepair(_, _, c, _) => c == chat
       case _ => true)
    case WorkCall(w, act) =>
      w.event.chat == chat &&
      (match act
       case CompleteEvent(_, _) => false
       case BindSession(session) => session.chat == chat
       case BeginMutation(attempt, r, session) =>
         r.session == session && r.state.chat == chat && (chat, attempt) !in g.archive
       case Prepare(t, _) => t.phase == Prepared && t.checkpoint.lastCompleted == w.event.sequence - 1
       case Advance(_, target, expected, next) =>
         (target.Compacted? || target.Restored?) && next == expected.(phase := target)
       case Abort(_, _, expected, next, _) => expected.phase == Prepared && next == expected.(phase := Aborted)
       case _ => true)
  }

  /** The marker the caller re-read names exactly the work it completes. */
  predicate Proves(p: Proof, w: Work) {
    && p.marker.event == w.event.id && p.marker.chat == w.event.chat
    && p.marker.sequence == w.event.sequence && p.marker.fp == w.Fp()
  }

  function MarkerFor(n: Notification, own: bool, sends: seq<Send>): Marker {
    Marker(n.id, Fingerprint(n), n.chat, n.sequence, own, sends)
  }

  predicate Enabled(g: World, s: Step) {
    match s
    case Script(chat, _, call) => chat in g.chats && Permitted(g, chat, call)
    case Snapshot(k, n) => n.chat in g.chats && k !in g.attempts
    case ReadMappings(k) => k in g.attempts && g.attempts[k].mapped.None?
    case Lookup(k, chat, found) =>
      && k in g.attempts && g.attempts[k].mapped.Some? && chat in g.chats && chat !in g.attempts[k].looked
      && (var a := g.attempts[k];
          match found
          case None => forall p | p in g.log :: !Findable(p, a.mapped.value, chat, a.n.id)
          case Some(p) =>
            && p in g.log && Findable(p, a.mapped.value, chat, a.n.id)
            && chat == a.n.chat && p.marker.sequence == a.n.sequence && p.marker.fp == Fingerprint(a.n))
    case Commit(k, _) => k in g.attempts && g.attempts[k].n.chat in g.chats && g.attempts[k].looked == g.chats.Keys
    case Spawn(k, chat, _, _, _, _, _) => chat in g.chats && k !in g.workers
    case ReadChat(k) =>
      && k in g.workers && g.workers[k].pc == Leased && g.workers[k].work.event.chat in g.chats
      && (var c := g.chats[g.workers[k].work.event.chat];
          c.state.cursor + 1 == g.workers[k].work.event.sequence && c.state.pause.None?)
    case FindMarker(k, found) =>
      && k in g.workers && g.workers[k].pc == Checked
      && (found.Some? ==> found.value in g.log && Proves(found.value, g.workers[k].work))
    case FindTurn(k, now) =>
      && k in g.workers && g.workers[k].pc == Unmarked && g.workers[k].work.event.chat in g.chats
      && TurnState(Keys(g, g.workers[k].work.event.chat), now, g.workers[k].work).1 == Turn(None)
    case Classify(k, own) => k in g.workers && g.workers[k].pc == Fresh && (own ==> g.workers[k].work.event.fromMe)
    case Map(k, now, session) =>
      && k in g.workers && g.workers[k].pc.Classified? && g.workers[k].work.event.chat in g.chats
      && session.chat == g.workers[k].work.event.chat
    case Begin(k, now) =>
      k in g.workers && g.workers[k].pc.Bound? && !g.workers[k].pc.own && g.workers[k].work.event.chat in g.chats
    case Prompt(k) => k in g.workers && g.workers[k].pc.Begun?
    case SkipPrompt(k) => k in g.workers && g.workers[k].pc.Bound? && g.workers[k].pc.own
    case Append(k, entry, sends) => k in g.workers && g.workers[k].pc.Finished?
    case Finish(chat, now, w, proof) =>
      chat in g.chats && w.event.chat == chat && proof in g.log && Proves(proof, w)
    case Crash(k) => k in g.workers
    case Abandon(k) => k in g.attempts
  }

  /** A script call by anyone; a turn that begins is recorded. */
  function RunScript(g: World, chat: ChatId, now: int, call: Call): World
    requires chat in g.chats
  {
    var (db, reply) := Apply(Keys(g, chat), now, call);
    var begun := if call.WorkCall? && call.work.StartTurn? && reply == Done then {call.w.event.id} else {};
    Store(g, chat, db).(begun := g.begun + begun)
  }

  function RunCommit(g: World, k: int): World
    requires k in g.attempts && g.attempts[k].n.chat in g.chats
  {
    var a := g.attempts[k];
    var (db, reply) := Accept(Keys(g, a.n.chat), a.revision, a.identityRevision, a.n, a.completed);
    Store(g, a.n.chat, db).(attempts := g.attempts - {k},
                            accepted := if reply == Accepted then g.accepted + [a.n.id] else g.accepted)
  }

  function Settle(tools: map<AttemptId, JournalRecord>, chat: ChatId,
      proof: Proof): map<(ChatId, AttemptId), Archived> {
    map a | a in tools && tools[a].state.status.Confirmed? ::
      (chat, a) := Archived(Send(tools[a].state.destination, tools[a].state.status.messageId), proof)
  }

  /** The ids a chat has completed, in order. */
  function Completed(g: World, chat: ChatId): seq<EventId> {
    if chat in g.order then g.order[chat] else []
  }

  function RunFinish(g: World, chat: ChatId, now: int, w: Work, proof: Proof): World
    requires chat in g.chats
  {
    var (db, reply) := Complete(Keys(g, chat), now, w, proof.session, proof.marker.sends);
    if reply != Done then g
    else Store(g, chat, db).(done := g.done[w.event.id := proof],
                             order := g.order[chat := Completed(g, chat) + [w.event.id]],
                             archive := g.archive + Settle(g.chats[chat].tools, chat, proof))
  }

  function Move(g: World, k: int, pc: Pc): World
    requires k in g.workers
  {
    g.(workers := g.workers[k := g.workers[k].(pc := pc)])
  }

  function Next(g: World, s: Step): World
    requires Enabled(g, s)
  {
    match s
    case Script(chat, now, call) => RunScript(g, chat, now, call)
    case Snapshot(k, n) =>
      g.(attempts := g.attempts[k :=
          Attempt(n, g.chats[n.chat].state.revision, g.app.identityRevision, None, {}, false)])
    case ReadMappings(k) => g.(attempts := g.attempts[k := g.attempts[k].(mapped := Some(Mappings(g)))])
    case Lookup(k, chat, found) =>
      var a := g.attempts[k];
      g.(attempts := g.attempts[k :=
          a.(mapped := None, looked := a.looked + {chat}, completed := a.completed || found.Some?)])
    case Commit(k, _) => RunCommit(g, k)
    case Spawn(k, chat, now, f, owner, ms, gapTimeout) =>
      var reply := Claim(Keys(g, chat), now, f, owner, ms, gapTimeout).1;
      var g' := RunScript(g, chat, now, AppCall(f, ClaimNext(owner, ms, gapTimeout)));
      if reply.Claimed? then
        g'.(workers := g'.workers[k := Worker(Work(f, Fence(owner, reply.epoch), reply.streamId, reply.raw), Leased)])
      else g'
    case ReadChat(k) => Move(g, k, Checked)
    case FindMarker(k, found) => Move(g, k, if found.Some? then Proven(found.value) else Unmarked)
    case FindTurn(k, _) => Move(g, k, Fresh)
    case Classify(k, own) => Move(g, k, Classified(own))
    case Map(k, now, session) =>
      var w := g.workers[k];
      var reply := Bind(Keys(g, w.work.event.chat), now, w.work, session).1;
      var g' := RunScript(g, w.work.event.chat, now, WorkCall(w.work, BindSession(session)));
      if reply == Done then Move(g', k, Bound(w.pc.own, session)) else g'.(workers := g'.workers - {k})
    case Begin(k, now) =>
      var w := g.workers[k];
      var reply := BeginTurn(Keys(g, w.work.event.chat), now, w.work).1;
      var g' := RunScript(g, w.work.event.chat, now, WorkCall(w.work, StartTurn));
      if reply == Done then Move(g', k, Begun(w.pc.session)) else g'.(workers := g'.workers - {k})
    case Prompt(k) =>
      Move(g, k, Finished(false, g.workers[k].pc.session)).(prompts := g.prompts + [g.workers[k].work.event.id])
    case SkipPrompt(k) => Move(g, k, Finished(true, g.workers[k].pc.session))
    case Append(k, entry, sends) =>
      var w := g.workers[k];
      var p := Proof(MarkerFor(w.work.event, w.pc.own, sends), entry, w.pc.session);
      Move(g, k, Proven(p)).(log := g.log + {p})
    case Finish(chat, now, w, proof) => RunFinish(g, chat, now, w, proof)
    case Crash(k) => g.(workers := g.workers - {k})
    case Abandon(k) => g.(attempts := g.attempts - {k})
  }

  /** A store initialised for the configured chats, with nothing in it. */
  function Start(chats: set<ChatId>): World {
    World(EMPTY_APP, map[], map c | c in chats :: EmptyChat(c), {}, map[], map[],
          [], map[], map c | c in chats :: [], {}, [], map[])
  }

  // ---------------------------------------------------------------- invariant

  ghost predicate Distinct(s: seq<EventId>) {
    forall i, j | 0 <= i < j < |s| :: s[i] != s[j]
  }

  ghost predicate ChatsOk(g: World) {
    forall c | c in g.chats :: g.chats[c].state.chat == c && Coherent(g.chats[c])
  }

  /** The identities are exactly the pending events of all chats. */
  ghost predicate IdentitiesOk(g: World) {
    && (forall id | id in g.identities ::
          var i := g.identities[id];
          i.chat in g.chats && id in g.chats[i.chat].events && g.chats[i.chat].events[id].fp == i.fp)
    && (forall c, id | c in g.chats && id in g.chats[c].events ::
          id in g.identities && g.identities[id].chat == c)
  }

  /** Accepted ids are distinct, and each is either pending or completed. */
  ghost predicate HistoryOk(g: World) {
    && Distinct(g.accepted)
    && (forall id :: id in g.accepted <==> id in g.identities || id in g.done)
    && (forall id | id in g.done :: id !in g.identities)
  }

  /** The marker describes the notification its fingerprint was taken of. */
  ghost predicate Describes(m: Marker) {
    var n := m.fp.of;
    n.id == m.event && n.chat == m.chat && n.sequence == m.sequence
  }

  /** Each completed id has a durable marker and its place in its chat's
      order, and each chat completed 1, 2, 3, ... */
  ghost predicate Booked(done: map<EventId, Proof>, order: map<ChatId, seq<EventId>>, log: set<Proof>) {
    && (forall id | id in done ::
          var m := done[id].marker;
          && done[id] in log && m.event == id && Describes(m) && m.chat in order
          && 1 <= m.sequence <= |order[m.chat]| && order[m.chat][m.sequence - 1] == id)
    && (forall c, i | c in order && 0 <= i < |order[c]| ::
          order[c][i] in done && done[order[c][i]].marker.chat == c && done[order[c][i]].marker.sequence == i + 1)
  }

  ghost predicate DoneOk(g: World) {
    && Booked(g.done, g.order, g.log)
    && Counted(g.order, g.chats)
  }

  ghost predicate Counted(order: map<ChatId, seq<EventId>>, chats: map<ChatId, Chat>) {
    order.Keys == chats.Keys && forall c | c in chats :: |order[c]| == chats[c].state.cursor
  }

  /** The notification is completed, or is what its chat must complete next. */
  ghost predicate DoneOrNext(g: World, n: Notification) {
    && n.chat in g.chats
    && ((n.id in g.done && g.done[n.id].marker.fp == Fingerprint(n))
        || (IsNext(g.chats[n.chat], n.id) && g.chats[n.chat].events[n.id].fp == Fingerprint(n)))
  }

  /** Every durable marker describes a completed event or the next one. */
  ghost predicate LogOk(g: World) {
    forall p | p in g.log ::
      && Describes(p.marker) && DoneOrNext(g, p.marker.fp.of)
      && g.chats[p.marker.chat].state.session == Some(p.session)
  }

  ghost predicate AttemptOk(g: World, a: Attempt) {
    && a.n.chat in g.chats && a.looked <= g.chats.Keys && a.identityRevision <= g.app.identityRevision
    && (a.identityRevision == g.app.identityRevision && a.n.id in g.done ==>
          var c := g.done[a.n.id].marker.chat;
          && (a.mapped.Some? ==> c in a.mapped.value && a.mapped.value[c] == g.done[a.n.id].session)
          && (c in a.looked ==> a.completed))
  }

  ghost predicate AttemptsOk(g: World) {
    forall k | k in g.attempts :: AttemptOk(g, g.attempts[k])
  }

  ghost predicate WorkerOk(g: World, w: Worker) {
    var n := w.work.event;
    && DoneOrNext(g, n)
    && (match w.pc
        case Bound(_, session) => g.chats[n.chat].state.session == Some(session)
        case Begun(session) => g.chats[n.chat].state.session == Some(session) && n.id in g.begun && n.id !in g.prompts
        case Finished(_, session) => g.chats[n.chat].state.session == Some(session)
        case Proven(p) => p in g.log && Proves(p, w.work)
        case _ => true)
  }

  ghost predicate WorkersOk(g: World) {
    && (forall k | k in g.workers :: WorkerOk(g, g.workers[k]))
    && (forall k, l | k in g.workers && l in g.workers && k != l && g.workers[k].pc.Begun? && g.workers[l].pc.Begun? ::
          g.workers[k].work.event.id != g.workers[l].work.event.id)
  }

  /** The id carries its chat's turn mark. */
  ghost predicate Marked(g: World, id: EventId) {
    && id in g.identities && g.identities[id].chat in g.chats
    && g.chats[g.identities[id].chat].state.turn == Some(id)
  }

  /** A begun turn stays marked until its event completes. */
  ghost predicate TurnsOk(g: World) {
    && Distinct(g.prompts)
    && (forall id | id in g.prompts :: id in g.begun)
    && (forall id | id in g.begun :: id in g.done || Marked(g, id))
  }

  /** Every send whose record was deleted is listed in a durable marker. */
  ghost predicate ArchiveOk(g: World) {
    && (forall key | key in g.archive ::
          g.archive[key].proof in g.log && g.archive[key].send in g.archive[key].proof.marker.sends)
    && (forall c, a | c in g.chats && a in g.chats[c].tools :: (c, a) !in g.archive)
  }

  ghost predicate Inv(g: World) {
    && ChatsOk(g) && IdentitiesOk(g) && HistoryOk(g) && DoneOk(g) && LogOk(g)
    && AttemptsOk(g) && WorkersOk(g) && TurnsOk(g) && ArchiveOk(g)
  }

  lemma WorkerFrame(g: World, g': World, w: Worker)
    requires WorkerOk(g, w) && DoneOrNext(g', w.work.event) && g'.chats.Keys == g.chats.Keys
    requires forall c | c in g.chats && g.chats[c].state.session.Some? ::
        g'.chats[c].state.session == g.chats[c].state.session
    requires g.log <= g'.log && g.begun <= g'.begun && g'.prompts == g.prompts
    ensures WorkerOk(g', w)
  {
  }

  // ---------------------------------------------------------------- quiet script calls

  /** A script call that admits and completes nothing. */
  ghost predicate QuietWorld(g: World, g': World, chat: ChatId) {
    && chat in g.chats && g'.chats.Keys == g.chats.Keys
    && (forall c | c in g.chats && c != chat :: g'.chats[c] == g.chats[c])
    && Quiet(g.chats[chat], g'.chats[chat]) && Coherent(g'.chats[chat])
    && g'.identities == g.identities && g'.app.identityRevision == g.app.identityRevision
    && g'.log == g.log && g'.attempts == g.attempts && g'.workers == g.workers && g'.accepted == g.accepted
    && g'.done == g.done && g'.order == g.order && g'.prompts == g.prompts && g'.archive == g.archive
    && g.begun <= g'.begun
    && (forall id | id in g'.begun && id !in g.begun ::
        id in g.chats[chat].events && g'.chats[chat].state.turn == Some(id))
    && (forall a | a in g'.chats[chat].tools && a !in g.chats[chat].tools :: (chat, a) !in g.archive)
  }

  lemma ScriptIsQuiet(g: World, chat: ChatId, now: int, call: Call)
    requires ChatsOk(g) && chat in g.chats && Permitted(g, chat, call)
    ensures QuietWorld(g, RunScript(g, chat, now, call), chat)
  {
    var db := Keys(g, chat);
    var (db', reply) := Apply(db, now, call);
    OtherCallsAreQuiet(db, now, call);
    NewRecordsAreFresh(g, chat, now, call);
    TurnBegins(db, now, call);
  }

  lemma NewRecordsAreFresh(g: World, chat: ChatId, now: int, call: Call)
    requires chat in g.chats && Permitted(g, chat, call)
    ensures forall a | a in Apply(Keys(g, chat), now, call).0.chat.tools && a !in g.chats[chat].tools ::
        (chat, a) !in g.archive
  {
  }

  lemma TurnBegins(db: Db, now: int, call: Call)
    ensures var (db', reply) := Apply(db, now, call);
            call.WorkCall? && call.work.StartTurn? && reply == Done ==>
              call.w.event.id in db.chat.events && db.chat.state.turn.None?
                  && db'.chat.state.turn == Some(call.w.event.id)
  {
  }

  lemma QuietDoneOrNext(g: World, g': World, chat: ChatId, n: Notification)
    requires QuietWorld(g, g', chat) && DoneOrNext(g, n)
    ensures DoneOrNext(g', n)
  {
  }

  lemma QuietTables(g: World, g': World, chat: ChatId)
    requires ChatsOk(g) && IdentitiesOk(g) && HistoryOk(g) && DoneOk(g) && QuietWorld(g, g', chat)
    ensures ChatsOk(g') && IdentitiesOk(g') && HistoryOk(g') && DoneOk(g')
  {
  }

  lemma QuietLog(g: World, g': World, chat: ChatId)
    requires LogOk(g) && ArchiveOk(g) && QuietWorld(g, g', chat)
    ensures LogOk(g') && ArchiveOk(g')
  {
    forall p | p in g'.log ensures DoneOrNext(g', p.marker.fp.of) {
      QuietDoneOrNext(g, g', chat, p.marker.fp.of);
    }
  }

  lemma QuietProcesses(g: World, g': World, chat: ChatId)
    requires AttemptsOk(g) && WorkersOk(g) && QuietWorld(g, g', chat)
    ensures AttemptsOk(g') && WorkersOk(g')
  {
    forall k | k in g'.workers ensures WorkerOk(g', g'.workers[k]) {
      QuietDoneOrNext(g, g', chat, g.workers[k].work.event);
    }
  }

  lemma QuietTurns(g: World, g': World, chat: ChatId)
    requires ChatsOk(g) && IdentitiesOk(g) && TurnsOk(g) && QuietWorld(g, g', chat)
    ensures TurnsOk(g')
  {
    forall id | id in g'.begun ensures id in g'.done || Marked(g', id) {
      if id in g.begun {
        assert id in g.done || Marked(g, id);
      } else {
        assert g.identities[id].chat == chat;
      }
    }
  }

  lemma QuietKeepsInv(g: World, g': World, chat: ChatId)
    requires Inv(g) && QuietWorld(g, g', chat)
    ensures Inv(g')
  {
    hide QuietWorld, ChatsOk, IdentitiesOk, HistoryOk, DoneOk, LogOk, AttemptsOk, WorkersOk, TurnsOk, ArchiveOk;
    QuietTables(g, g', chat);
    QuietLog(g, g', chat);
    QuietProcesses(g, g', chat);
    QuietTurns(g, g', chat);
  }

  // ---------------------------------------------------------------- acceptance

  /** A notification joins its chat. */
  ghost predicate AdmitWorld(g: World, g': World, n: Notification, k: int) {
    && n.chat in g.chats && g'.chats.Keys == g.chats.Keys
    && (forall c | c in g.chats && c != n.chat :: g'.chats[c] == g.chats[c])
    && Admits(g.chats[n.chat], g'.chats[n.chat], n) && Coherent(g'.chats[n.chat])
    && g'.identities == g.identities[n.id := Identity(n.chat, Fingerprint(n))]
    && n.id !in g.identities && n.id !in g.done
    && g'.app == g.app && g'.log == g.log && g'.workers == g.workers && g'.attempts == g.attempts - {k}
    && g'.accepted == g.accepted + [n.id] && g'.done == g.done && g'.order == g.order
    && g'.begun == g.begun && g'.prompts == g.prompts && g'.archive == g.archive
  }

  /** Unchanged revisions mean the lookups saw every completed id, and the
      identities show every pending one, so an accepted id is new. */
  lemma AcceptedIdIsNew(g: World, k: int)
    requires IdentitiesOk(g) && DoneOk(g) && AttemptsOk(g) && k in g.attempts
    requires g.attempts[k].n.chat in g.chats && g.attempts[k].looked == g.chats.Keys
    requires var a := g.attempts[k];
             Accept(Keys(g, a.n.chat), a.revision, a.identityRevision, a.n, a.completed).1 == Accepted
    ensures g.attempts[k].n.id !in g.identities && g.attempts[k].n.id !in g.done
  {
    assert AttemptOk(g, g.attempts[k]);
  }

  lemma CommitAdmits(g: World, k: int)
    requires ChatsOk(g) && IdentitiesOk(g) && DoneOk(g) && AttemptsOk(g) && k in g.attempts
    requires g.attempts[k].n.chat in g.chats && g.attempts[k].looked == g.chats.Keys
    requires var a := g.attempts[k];
             Accept(Keys(g, a.n.chat), a.revision, a.identityRevision, a.n, a.completed).1 == Accepted
    ensures AdmitWorld(g, RunCommit(g, k), g.attempts[k].n, k)
  {
    var a := g.attempts[k];
    AcceptedIdIsNew(g, k);
    AcceptKeepsCoherence(Keys(g, a.n.chat), a.revision, a.identityRevision, a.n, a.completed);
  }

  lemma AdmitDoneOrNext(g: World, g': World, n: Notification, k: int, m: Notification)
    requires AdmitWorld(g, g', n, k) && DoneOrNext(g, m)
    ensures DoneOrNext(g', m)
  {
  }

  lemma AdmitTables(g: World, g': World, n: Notification, k: int)
    requires ChatsOk(g) && IdentitiesOk(g) && AdmitWorld(g, g', n, k)
    ensures ChatsOk(g') && IdentitiesOk(g')
  {
    hide Coherent;
  }

  lemma AdmitHistory(g: World, g': World, n: Notification, k: int)
    requires HistoryOk(g) && DoneOk(g) && AdmitWorld(g, g', n, k)
    ensures HistoryOk(g') && DoneOk(g')
  {
    hide Coherent;
    assert n.id !in g.accepted;
  }

  lemma AdmitRest(g: World, g': World, n: Notification, k: int)
    requires LogOk(g) && ArchiveOk(g) && AttemptsOk(g) && WorkersOk(g) && TurnsOk(g) && AdmitWorld(g, g', n, k)
    ensures LogOk(g') && ArchiveOk(g') && AttemptsOk(g') && WorkersOk(g') && TurnsOk(g')
  {
    forall m | DoneOrNext(g, m) ensures DoneOrNext(g', m) {
      AdmitDoneOrNext(g, g', n, k, m);
    }
    forall j | j in g'.attempts ensures AttemptOk(g', g'.attempts[j]) {
      assert AttemptOk(g, g.attempts[j]);
    }
    forall j | j in g'.workers ensures WorkerOk(g', g'.workers[j]) {
      assert WorkerOk(g, g.workers[j]);
    }
    forall id | id in g'.begun ensures id in g'.done || Marked(g', id) {
      assert id in g.done || Marked(g, id);
    }
  }

  lemma AdmitKeepsInv(g: World, g': World, n: Notification, k: int)
    requires Inv(g) && AdmitWorld(g, g', n, k)
    ensures Inv(g')
  {
    hide AdmitWorld, ChatsOk, IdentitiesOk, HistoryOk, DoneOk, LogOk, AttemptsOk, WorkersOk, TurnsOk, ArchiveOk;
    AdmitTables(g, g', n, k);
    AdmitHistory(g, g', n, k);
    AdmitRest(g, g', n, k);
  }

  // ---------------------------------------------------------------- completion

  ghost predicate FinishWorld(g: World, g': World, chat: ChatId, w: Work, proof: Proof) {
    && chat in g.chats && w.event.chat == chat && Proves(proof, w) && proof in g.log
    && g'.chats.Keys == g.chats.Keys
    && (forall c | c in g.chats && c != chat :: g'.chats[c] == g.chats[c])
    && Finishes(g.chats[chat], g'.chats[chat], w, proof.session, proof.marker.sends) && Coherent(g'.chats[chat])
    && g'.identities == g.identities - {w.event.id} && g'.app.identityRevision == g.app.identityRevision + 1
    && g'.log == g.log && g'.workers == g.workers && g'.attempts == g.attempts && g'.accepted == g.accepted
    && g'.done == g.done[w.event.id := proof] && g'.order == g.order[chat := Completed(g, chat) + [w.event.id]]
    && g'.begun == g.begun && g'.prompts == g.prompts
    && g'.archive == g.archive + Settle(g.chats[chat].tools, chat, proof)
  }

  lemma FinishCompletes(g: World, chat: ChatId, now: int, w: Work, proof: Proof)
    requires ChatsOk(g) && chat in g.chats && w.event.chat == chat && Proves(proof, w) && proof in g.log
    requires Complete(Keys(g, chat), now, w, proof.session, proof.marker.sends).1 == Done
    ensures FinishWorld(g, RunFinish(g, chat, now, w, proof), chat, w, proof)
  {
    CompleteKeepsCoherence(Keys(g, chat), now, w, proof.session, proof.marker.sends);
  }

  /** In a coherent chat only one event is next. */
  lemma NextIsUnique(c: Chat, e: EventId, f: EventId)
    requires Ordered(c) && IsNext(c, e) && IsNext(c, f)
    ensures e == f
  {
    assert c.seqs[c.events[e].sequence] == e;
  }

  lemma FinishedHere(g: World, g': World, chat: ChatId, w: Work, proof: Proof, m: Notification)
    requires FinishWorld(g, g', chat, w, proof) && m.chat == chat && Ordered(g.chats[chat])
    requires IsNext(g.chats[chat], m.id) && g.chats[chat].events[m.id].fp == Fingerprint(m)
    ensures DoneOrNext(g', m)
  {
    NextIsUnique(g.chats[chat], m.id, w.event.id);
    hide Coherent, Settle, Ordered;
  }

  lemma FinishDoneOrNext(g: World, g': World, chat: ChatId, w: Work, proof: Proof, m: Notification)
    requires ChatsOk(g) && IdentitiesOk(g) && HistoryOk(g) && FinishWorld(g, g', chat, w, proof) && DoneOrNext(g, m)
    ensures DoneOrNext(g', m)
  {
    FinishedIsNew(g, g', chat, w, proof);
    if m.id !in g.done && m.chat == chat {
      assert Coherent(g.chats[chat]);
      FinishedHere(g, g', chat, w, proof, m);
    }
    hide ChatsOk, IdentitiesOk, HistoryOk, Settle, Coherent, Finishes, IsNext;
  }

  lemma FinishedIsNew(g: World, g': World, chat: ChatId, w: Work, proof: Proof)
    requires IdentitiesOk(g) && HistoryOk(g) && FinishWorld(g, g', chat, w, proof)
    ensures w.event.id in g.identities && w.event.id !in g.done
  {
    hide ChatsOk, Settle, Coherent;
  }

  lemma FinishChats(g: World, g': World, chat: ChatId, w: Work, proof: Proof)
    requires ChatsOk(g) && FinishWorld(g, g', chat, w, proof)
    ensures ChatsOk(g')
  {
    hide Coherent;
  }

  lemma FinishIdentities(g: World, g': World, chat: ChatId, w: Work, proof: Proof)
    requires IdentitiesOk(g) && FinishWorld(g, g', chat, w, proof)
    ensures IdentitiesOk(g')
  {
    hide Coherent, Settle;
    assert g.identities[w.event.id].chat == chat;
  }

  lemma FinishHistory(g: World, g': World, chat: ChatId, w: Work, proof: Proof)
    requires IdentitiesOk(g) && HistoryOk(g) && FinishWorld(g, g', chat, w, proof)
    ensures HistoryOk(g')
  {
    hide Coherent, Settle;
    assert w.event.id in g.identities;
  }

  lemma FinishTables(g: World, g': World, chat: ChatId, w: Work, proof: Proof)
    requires ChatsOk(g) && IdentitiesOk(g) && HistoryOk(g) && FinishWorld(g, g', chat, w, proof)
    ensures ChatsOk(g') && IdentitiesOk(g') && HistoryOk(g')
  {
    hide FinishWorld, ChatsOk, IdentitiesOk, HistoryOk;
    FinishChats(g, g', chat, w, proof);
    FinishIdentities(g, g', chat, w, proof);
    FinishHistory(g, g', chat, w, proof);
  }

  /** The completed event is the chat's next one, under the next sequence. */
  lemma FinishedEvent(g: World, g': World, chat: ChatId, w: Work, proof: Proof)
    requires ChatsOk(g) && IdentitiesOk(g) && HistoryOk(g) && FinishWorld(g, g', chat, w, proof)
    ensures w.event.id in g.identities && g.identities[w.event.id].chat == chat && w.event.id !in g.done
    ensures proof.marker.event == w.event.id && Describes(proof.marker) && proof.marker.chat == chat
    ensures proof.marker.sequence == g.chats[chat].state.cursor + 1
  {
    var c := g.chats[chat];
    assert c.events[w.event.id].raw == w.event;
  }

  lemma FinishFrame(g: World, g': World, chat: ChatId, w: Work, proof: Proof)
    requires FinishWorld(g, g', chat, w, proof)
    ensures g'.chats[chat].state.cursor == g.chats[chat].state.cursor + 1
    ensures forall c | c in g.chats :: g'.chats[c].state.session == g.chats[c].state.session
  {
  }

  lemma BookNext(done: map<EventId, Proof>, order: map<ChatId, seq<EventId>>, log: set<Proof>, p: Proof)
    requires Booked(done, order, log) && p in log && Describes(p.marker)
    requires p.marker.chat in order && p.marker.sequence == |order[p.marker.chat]| + 1 && p.marker.event !in done
    ensures var m := p.marker; Booked(done[m.event := p], order[m.chat := order[m.chat] + [m.event]], log)
  {
  }

  lemma CountNext(order: map<ChatId, seq<EventId>>, chats: map<ChatId, Chat>, chats': map<ChatId, Chat>, chat: ChatId,
      id: EventId)
    requires Counted(order, chats) && chat in chats && chats'.Keys == chats.Keys
    requires forall c | c in chats && c != chat :: chats'[c] == chats[c]
    requires chats'[chat].state.cursor == chats[chat].state.cursor + 1
    ensures Counted(order[chat := order[chat] + [id]], chats')
  {
  }

  lemma FinishDone(g: World, g': World, chat: ChatId, w: Work, proof: Proof)
    requires ChatsOk(g) && IdentitiesOk(g) && HistoryOk(g) && DoneOk(g) && FinishWorld(g, g', chat, w, proof)
    ensures DoneOk(g')
  {
    FinishedEvent(g, g', chat, w, proof);
    FinishFrame(g, g', chat, w, proof);
    BookNext(g.done, g.order, g.log, proof);
    CountNext(g.order, g.chats, g'.chats, chat, w.event.id);
    hide ChatsOk, IdentitiesOk, HistoryOk, Coherent, Describes, Booked, Counted, Finishes, Settle;
  }

  lemma FinishLog(g: World, g': World, chat: ChatId, w: Work, proof: Proof)
    requires ChatsOk(g) && IdentitiesOk(g) && HistoryOk(g) && FinishWorld(g, g', chat, w, proof) && LogOk(g)
    ensures LogOk(g')
  {
    hide ChatsOk, IdentitiesOk, HistoryOk, Coherent;
    forall p | p in g'.log ensures DoneOrNext(g', p.marker.fp.of) {
      FinishDoneOrNext(g, g', chat, w, proof, p.marker.fp.of);
    }
  }

  lemma FinishWorker(g: World, g': World, chat: ChatId, w: Work, proof: Proof, worker: Worker)
    requires ChatsOk(g) && IdentitiesOk(g) && HistoryOk(g) && FinishWorld(g, g', chat, w, proof) && WorkerOk(g, worker)
    ensures WorkerOk(g', worker)
  {
    FinishDoneOrNext(g, g', chat, w, proof, worker.work.event);
    FinishFrame(g, g', chat, w, proof);
    WorkerFrame(g, g', worker);
  }

  lemma FinishWorkers(g: World, g': World, chat: ChatId, w: Work, proof: Proof)
    requires ChatsOk(g) && IdentitiesOk(g) && HistoryOk(g) && FinishWorld(g, g', chat, w, proof) && WorkersOk(g)
    ensures WorkersOk(g')
  {
    hide ChatsOk, IdentitiesOk, HistoryOk, WorkerOk, Coherent, Finishes, Settle;
    forall k | k in g'.workers ensures WorkerOk(g', g'.workers[k]) {
      FinishWorker(g, g', chat, w, proof, g.workers[k]);
    }
  }

  lemma FinishAttempts(g: World, g': World, chat: ChatId, w: Work, proof: Proof)
    requires FinishWorld(g, g', chat, w, proof) && AttemptsOk(g)
    ensures AttemptsOk(g')
  {
  }

  lemma FinishTurns(g: World, g': World, chat: ChatId, w: Work, proof: Proof)
    requires ChatsOk(g) && IdentitiesOk(g) && HistoryOk(g) && FinishWorld(g, g', chat, w, proof) && TurnsOk(g)
    ensures TurnsOk(g')
  {
    assert w.event.id in g.identities && g.identities[w.event.id].chat == chat;
    forall id | id in g'.begun && id !in g'.done ensures Marked(g', id) {
      assert Marked(g, id);
      if g.identities[id].chat == chat {
        NextIsUnique(g.chats[chat], id, w.event.id);
      }
    }
  }

  lemma FinishArchive(g: World, g': World, chat: ChatId, w: Work, proof: Proof)
    requires ArchiveOk(g) && FinishWorld(g, g', chat, w, proof)
    ensures ArchiveOk(g')
  {
    var tools := g.chats[chat].tools;
    forall key | key in g'.archive
      ensures g'.archive[key].proof in g'.log && g'.archive[key].send in g'.archive[key].proof.marker.sends
    {
      if key in Settle(tools, chat, proof) {
        assert Accounted(tools[key.1], w, proof.marker.sends);
      }
    }
  }

  lemma FinishKeepsInv(g: World, g': World, chat: ChatId, w: Work, proof: Proof)
    requires Inv(g) && FinishWorld(g, g', chat, w, proof)
    ensures Inv(g')
  {
    hide FinishWorld, ChatsOk, IdentitiesOk, HistoryOk, DoneOk, LogOk, AttemptsOk, WorkersOk, TurnsOk, ArchiveOk;
    FinishTables(g, g', chat, w, proof);
    FinishDone(g, g', chat, w, proof);
    FinishLog(g, g', chat, w, proof);
    FinishWorkers(g, g', chat, w, proof);
    FinishAttempts(g, g', chat, w, proof);
    FinishTurns(g, g', chat, w, proof);
    FinishArchive(g, g', chat, w, proof);
  }
}
