/** Deciding whether an own-account message is one of the controller's sends,
    while the evidence moves from journal to marker under the reader's feet. */
module Ownership {
  import opened Common
  import opened Domain
  import opened Scripts
  import opened ChatInvariant
  import opened Controller
  import opened Runs

  datatype Verdict = Own | Manual | Unsure

  /** Where one classification stands.  The journals are read chat by chat, the
      markers in one scan under mappings read earlier. */
  datatype Progress =
    | First(seen: set<ChatId>, hit: bool)
    | Mapping(first: bool)
    | Scanning(first: bool, mapped: map<ChatId, Binding>)
    | Last(first: bool, indexed: bool, seen: set<ChatId>, hit: bool)
    | Remapping
    | Rescanning(mapped: map<ChatId, Binding>)
    | Answer(verdict: Verdict)

  /** A classification of the message (destination, messageId).  `chat` and
      `attempt` name a journal record for that destination that existed when
      the classification began. */
  datatype Query = Query(destination: Address, messageId: MessageId, chat: ChatId, attempt: AttemptId, at: Progress)

  datatype QueryStep =
    | ReadJournal(chat: ChatId)
    | EndRead
    | ReadSessions
    | Scan(unresolved: bool)

  /** An unsettled attempt on the destination: its outcome decides nothing yet. */
  predicate Unresolved(c: Chat, q: Query) {
    exists a | a in c.tools :: c.tools[a].state.destination == q.destination && !c.tools[a].state.status.Confirmed?
  }

  predicate Journalled(c: Chat, q: Query) {
    exists a | a in c.tools :: Reports(c.tools[a], q)
  }

  predicate Reports(r: JournalRecord, q: Query) {
    r.state.destination == q.destination && r.state.status.Confirmed? && r.state.status.messageId == q.messageId
  }

  /** A marker the scan can see lists the message. */
  predicate Listed(g: World, mapped: map<ChatId, Binding>, q: Query) {
    exists p | p in g.log :: ListedIn(p, mapped, q)
  }

  predicate ListedIn(p: Proof, mapped: map<ChatId, Binding>, q: Query) {
    && Findable(p, mapped, p.marker.chat, p.marker.event)
    && Send(q.destination, q.messageId) in p.marker.sends
  }

  predicate QueryEnabled(g: World, q: Query, s: QueryStep) {
    match s
    case ReadJournal(chat) => (q.at.First? || q.at.Last?) && chat in g.chats && chat !in q.at.seen
    case EndRead => (q.at.First? || q.at.Last?) && q.at.seen == g.chats.Keys
    case ReadSessions => q.at.Mapping? || q.at.Remapping?
    case Scan(_) => q.at.Scanning? || q.at.Rescanning?
  }

  function QueryNext(g: World, q: Query, s: QueryStep): Query
    requires QueryEnabled(g, q, s)
  {
    match s
    case ReadJournal(chat) =>
      var c := g.chats[chat];
      if Unresolved(c, q) then q.(at := Answer(Unsure))
      else q.(at := q.at.(seen := q.at.seen + {chat}, hit := q.at.hit || Journalled(c, q)))
    case EndRead =>
      if q.at.First? then q.(at := Mapping(q.at.hit))
      else if q.at.hit || q.at.indexed then q.(at := Answer(Own))
      else if q.at.first then q.(at := Remapping)
      else q.(at := Answer(Manual))
    case ReadSessions =>
      q.(at := if q.at.Mapping? then Scanning(q.at.first, Mappings(g)) else Rescanning(Mappings(g)))
    case Scan(unresolved) =>
      // The scan is bracketed by two more journal reads of its own.
      if unresolved then q.(at := Answer(Unsure))
      else
        var found := Listed(g, q.at.mapped, q);
        if q.at.Scanning? then q.(at := Last(q.at.first, found, {}, false))
        else q.(at := Answer(if found then Own else Unsure))
  }

  /** The message id of the watched send, once it is known: from its confirmed
      record, or from the completion that deleted the record. */
  ghost function KnownId(g: World, q: Query): Option<MessageId> {
    if (q.chat, q.attempt) in g.archive then Some(g.archive[(q.chat, q.attempt)].send.messageId)
    else if q.chat in g.chats && q.attempt in g.chats[q.chat].tools
        && g.chats[q.chat].tools[q.attempt].state.status.Confirmed?
    then Some(g.chats[q.chat].tools[q.attempt].state.status.messageId)
    else None
  }

  /** The watched send is still journalled, or archived under its destination. */
  ghost predicate Watched(g: World, q: Query) {
    var key := (q.chat, q.attempt);
    if key in g.archive then g.archive[key].send.destination == q.destination
    else q.chat in g.chats && q.attempt in g.chats[q.chat].tools
         && g.chats[q.chat].tools[q.attempt].state.destination == q.destination
  }

  ghost predicate Archivedly(g: World, q: Query) {
    (q.chat, q.attempt) in g.archive
  }

  /** Having read the watched chat's journal, the reader has seen the message
      or the completion had already moved it into a marker. */
  ghost predicate Noticed(g: World, q: Query, hit: bool) {
    KnownId(g, q).Some? && (KnownId(g, q) == Some(q.messageId) ==> hit || Archivedly(g, q))
  }

  /** Mappings read after the send was archived lead to its marker. */
  ghost predicate Reaches(g: World, q: Query, mapped: map<ChatId, Binding>) {
    Archivedly(g, q) ==>
      var p := g.archive[(q.chat, q.attempt)].proof;
      p.marker.chat in mapped && mapped[p.marker.chat] == p.session
  }

  ghost predicate QueryOk(g: World, q: Query) {
    && Watched(g, q)
    && (match q.at
        case First(seen, hit) => q.chat in seen ==> Noticed(g, q, hit)
        case Mapping(first) => Noticed(g, q, first)
        case Scanning(first, mapped) =>
          Noticed(g, q, first) && (KnownId(g, q) == Some(q.messageId) && !first ==> Reaches(g, q, mapped))
        case Last(first, indexed, _, _) =>
          Noticed(g, q, first) && (KnownId(g, q) == Some(q.messageId) ==> first || indexed)
        case Answer(verdict) => verdict == Manual ==> KnownId(g, q).Some? && KnownId(g, q) != Some(q.messageId)
        case _ => true)
  }

  // ---------------------------------------------------------------- the world moves

  /** What a step of the world may do to a watched send. */
  ghost predicate Carries(g: World, g': World, q: Query) {
    && (Archivedly(g, q) ==> Archivedly(g', q) && g'.archive[(q.chat, q.attempt)] == g.archive[(q.chat, q.attempt)])
    && (Watched(g, q) ==> Watched(g', q))
    && (KnownId(g, q).Some? ==> KnownId(g', q) == KnownId(g, q))
    && g.log <= g'.log && g'.chats.Keys == g.chats.Keys
  }

  lemma QuietCarries(g: World, g': World, chat: ChatId, q: Query)
    requires QuietWorld(g, g', chat)
    ensures Carries(g, g', q)
  {
    hide Coherent;
  }

  /** A completion archives the chat's journal and nothing else. */
  lemma FinishArchives(g: World, g': World, chat: ChatId, w: Work, proof: Proof, c: ChatId, a: AttemptId)
    requires FinishWorld(g, g', chat, w, proof) && ArchiveOk(g)
    ensures (c, a) in g.archive ==> (c, a) in g'.archive && g'.archive[(c, a)] == g.archive[(c, a)]
    ensures c == chat && a in g.chats[chat].tools ==>
              var r := g.chats[chat].tools[a].state;
              r.status.Confirmed? && (c, a) in g'.archive
                  && g'.archive[(c, a)].send == Send(r.destination, r.status.messageId)
    ensures (c, a) in g'.archive && (c, a) !in g.archive ==> c == chat && a in g.chats[chat].tools
  {
    hide Coherent, Proves;
    var tools := g.chats[chat].tools;
    if a in tools {
      assert Accounted(tools[a], w, proof.marker.sends);
      assert (chat, a) in Settle(tools, chat, proof);
    }
  }

  lemma FinishCarries(g: World, g': World, chat: ChatId, w: Work, proof: Proof, q: Query)
    requires FinishWorld(g, g', chat, w, proof) && ArchiveOk(g)
    ensures Carries(g, g', q)
  {
    FinishArchives(g, g', chat, w, proof, q.chat, q.attempt);
    hide Coherent, Settle, Finishes, Proves;
  }

  lemma AdmitCarries(g: World, g': World, n: Notification, k: int, q: Query)
    requires AdmitWorld(g, g', n, k)
    ensures Carries(g, g', q)
  {
    hide Coherent;
  }

  lemma ScriptCarries(g: World, chat: ChatId, now: int, call: Call, q: Query)
    requires ChatsOk(g) && chat in g.chats && Permitted(g, chat, call)
    ensures Carries(g, RunScript(g, chat, now, call), q)
  {
    hide RunScript, Permitted;
    ScriptIsQuiet(g, chat, now, call);
    QuietCarries(g, RunScript(g, chat, now, call), chat, q);
  }

  /** Worlds a classification cannot tell apart. */
  ghost predicate SameEvidence(g: World, g': World) {
    g'.chats == g.chats && g'.log == g.log && g'.archive == g.archive
  }

  lemma WorkerStepIsScript(g: World, s: Step)
    requires Enabled(g, s) && (s.Script? || s.Spawn? || s.Map? || s.Begin?)
    ensures var c := CallOf(g, s).value;
            c.0 in g.chats && Permitted(g, c.0, c.2) && SameEvidence(RunScript(g, c.0, c.1, c.2), Next(g, s))
  {
    hide Apply, Claim, BeginTurn, Bind, TurnState, RunScript;
  }

  lemma SameCarries(g: World, g': World, q: Query)
    requires SameEvidence(g, g')
    ensures Carries(g, g', q)
  {
  }

  lemma CarriesThenSame(g: World, h: World, g': World, q: Query)
    requires Carries(g, h, q) && SameEvidence(h, g')
    ensures Carries(g, g', q)
  {
  }

  lemma InvHasChats(g: World)
    requires Inv(g)
    ensures ChatsOk(g) && IdentitiesOk(g) && DoneOk(g) && AttemptsOk(g) && ArchiveOk(g)
  {
    hide ChatsOk, IdentitiesOk, DoneOk, AttemptsOk, ArchiveOk;
  }

  lemma WorkerScriptCarries(g: World, s: Step, q: Query)
    requires Inv(g) && Enabled(g, s) && (s.Script? || s.Spawn? || s.Map? || s.Begin?)
    ensures Carries(g, Next(g, s), q)
  {
    InvHasChats(g);
    WorkerStepIsScript(g, s);
    hide RunScript, Next, CallOf, Inv, Enabled, Permitted, Carries, SameEvidence;
    var c := CallOf(g, s).value;
    ScriptCarries(g, c.0, c.1, c.2, q);
    CarriesThenSame(g, RunScript(g, c.0, c.1, c.2), Next(g, s), q);
  }

  lemma RefusedCommit(g: World, k: int)
    requires k in g.attempts && g.attempts[k].n.chat in g.chats
    requires var a := g.attempts[k];
             Accept(Keys(g, a.n.chat), a.revision, a.identityRevision, a.n, a.completed).1 != Accepted
    ensures SameEvidence(g, RunCommit(g, k))
  {
  }

  lemma RunCommitCarries(g: World, k: int, q: Query)
    requires Inv(g) && k in g.attempts && g.attempts[k].n.chat in g.chats && g.attempts[k].looked == g.chats.Keys
    ensures Carries(g, RunCommit(g, k), q)
  {
    InvHasChats(g);
    hide RunCommit, Inv, Accept, Carries, SameEvidence, AdmitWorld;
    var a := g.attempts[k];
    if Accept(Keys(g, a.n.chat), a.revision, a.identityRevision, a.n, a.completed).1 == Accepted {
      CommitAdmits(g, k);
      AdmitCarries(g, RunCommit(g, k), a.n, k, q);
    } else {
      RefusedCommit(g, k);
      SameCarries(g, RunCommit(g, k), q);
    }
  }

  lemma CommitCarries(g: World, k: int, now: int, q: Query)
    requires Inv(g) && Enabled(g, Commit(k, now))
    ensures Carries(g, Next(g, Commit(k, now)), q)
  {
    hide RunCommit, Inv, Carries;
    RunCommitCarries(g, k, q);
  }

  lemma RunFinishCarries(g: World, chat: ChatId, now: int, w: Work, proof: Proof, q: Query)
    requires Inv(g) && chat in g.chats && w.event.chat == chat && proof in g.log && Proves(proof, w)
    ensures Carries(g, RunFinish(g, chat, now, w, proof), q)
  {
    InvHasChats(g);
    hide Inv, Complete, Carries, FinishWorld, SameEvidence, Proves;
    if Complete(Keys(g, chat), now, w, proof.session, proof.marker.sends).1 == Done {
      FinishCompletes(g, chat, now, w, proof);
      hide RunFinish;
      FinishCarries(g, RunFinish(g, chat, now, w, proof), chat, w, proof, q);
    } else {
      assert RunFinish(g, chat, now, w, proof) == g;
      hide RunFinish;
      NothingCarries(g, q);
    }
  }

  lemma NothingCarries(g: World, q: Query)
    ensures Carries(g, g, q)
  {
  }

  lemma FinishStepCarries(g: World, chat: ChatId, now: int, w: Work, proof: Proof, q: Query)
    requires Inv(g) && Enabled(g, Finish(chat, now, w, proof))
    ensures Carries(g, Next(g, Finish(chat, now, w, proof)), q)
  {
    hide RunFinish, Inv, Carries, Proves;
    RunFinishCarries(g, chat, now, w, proof, q);
  }

  lemma LocalCarries(g: World, s: Step, q: Query)
    requires Enabled(g, s) && CallOf(g, s).None?
    ensures Carries(g, Next(g, s), q)
  {
    hide TurnState, Permitted;
    assert Next(g, s).chats == g.chats && Next(g, s).archive == g.archive && g.log <= Next(g, s).log;
    hide Next;
  }

  lemma StepCarries(g: World, s: Step, q: Query)
    requires Inv(g) && Enabled(g, s)
    ensures Carries(g, Next(g, s), q)
  {
    hide Next, Inv, Enabled, Carries;
    match s
    case Commit(k, now) => CommitCarries(g, k, now, q);
    case Finish(chat, now, w, proof) => FinishStepCarries(g, chat, now, w, proof, q);
    case Script(_, _, _) => WorkerScriptCarries(g, s, q);
    case Spawn(_, _, _, _, _, _, _) => WorkerScriptCarries(g, s, q);
    case Map(_, _, _) => WorkerScriptCarries(g, s, q);
    case Begin(_, _) => WorkerScriptCarries(g, s, q);
    case _ => LocalCarries(g, s, q);
  }

  lemma CarriedQuery(g: World, g': World, q: Query)
    requires Carries(g, g', q) && QueryOk(g, q)
    ensures QueryOk(g', q)
  {
  }

  lemma WorldKeepsQuery(g: World, s: Step, q: Query)
    requires Inv(g) && Enabled(g, s) && QueryOk(g, q)
    ensures QueryOk(Next(g, s), q)
  {
    hide Inv, Enabled, Next, Carries, QueryOk;
    StepCarries(g, s, q);
    CarriedQuery(g, Next(g, s), q);
  }

  // ---------------------------------------------------------------- the reader moves

  lemma ReadKeepsQuery(g: World, q: Query, chat: ChatId)
    requires QueryOk(g, q) && QueryEnabled(g, q, ReadJournal(chat))
    ensures QueryOk(g, QueryNext(g, q, ReadJournal(chat)))
  {
    var c := g.chats[chat];
    if chat == q.chat && !Unresolved(c, q) && q.attempt in c.tools
        && c.tools[q.attempt].state.destination == q.destination {
      assert c.tools[q.attempt].state.status.Confirmed?;
      assert Reports(c.tools[q.attempt], q) ==> Journalled(c, q);
    }
  }

  lemma ScanKeepsQuery(g: World, q: Query, unresolved: bool)
    requires ArchiveOk(g) && QueryOk(g, q) && QueryEnabled(g, q, Scan(unresolved))
    ensures QueryOk(g, QueryNext(g, q, Scan(unresolved)))
  {
    if !unresolved && q.at.Scanning? && KnownId(g, q) == Some(q.messageId) && !q.at.first {
      var p := g.archive[(q.chat, q.attempt)].proof;
      assert g.archive[(q.chat, q.attempt)].send == Send(q.destination, q.messageId);
      assert ListedIn(p, q.at.mapped, q);
    }
  }

  lemma MappingsReach(g: World, q: Query)
    requires LogOk(g) && ArchiveOk(g)
    ensures Reaches(g, q, Mappings(g))
  {
  }

  lemma ReaderKeepsQuery(g: World, q: Query, s: QueryStep)
    requires Inv(g) && QueryOk(g, q) && QueryEnabled(g, q, s) && q.chat in g.chats
    ensures QueryOk(g, QueryNext(g, q, s))
  {
    match s
    case ReadJournal(chat) => ReadKeepsQuery(g, q, chat);
    case EndRead =>
    case ReadSessions => MappingsReach(g, q);
    case Scan(unresolved) => ScanKeepsQuery(g, q, unresolved);
  }

  // ---------------------------------------------------------------- whole runs

  datatype Move = WorldMove(s: Step) | QueryMove(qs: QueryStep)

  ghost predicate Joint(g: World, q: Query, moves: seq<Move>)
    decreases |moves|
  {
    |moves| == 0 ||
    match moves[0]
    case WorldMove(s) => Enabled(g, s) && Joint(Next(g, s), q, moves[1..])
    case QueryMove(qs) => QueryEnabled(g, q, qs) && Joint(g, QueryNext(g, q, qs), moves[1..])
  }

  ghost function AfterMoves(g: World, q: Query, moves: seq<Move>): (World, Query)
    requires Joint(g, q, moves)
    decreases |moves|
  {
    if |moves| == 0 then (g, q) else
    match moves[0]
    case WorldMove(s) => AfterMoves(Next(g, s), q, moves[1..])
    case QueryMove(qs) => AfterMoves(g, QueryNext(g, q, qs), moves[1..])
  }

  lemma {:induction false} MovesKeepQuery(g: World, q: Query, moves: seq<Move>)
    requires Inv(g) && QueryOk(g, q) && q.chat in g.chats && Joint(g, q, moves)
    ensures var (g', q') := AfterMoves(g, q, moves);
            QueryOk(g', q') && q' == q.(at := q'.at)
    decreases |moves|
  {
    hide Inv, QueryOk, Enabled, Next, QueryEnabled;
    if |moves| > 0 {
      match moves[0]
      case WorldMove(s) =>
        StepKeepsInv(g, s);
        WorldKeepsQuery(g, s, q);
        StepCarries(g, s, q);
        MovesKeepQuery(Next(g, s), q, moves[1..]);
      case QueryMove(qs) =>
        ReaderKeepsQuery(g, q, qs);
        MovesKeepQuery(g, QueryNext(g, q, qs), moves[1..]);
    }
  }

  /** A classification never answers `manual` for a message the controller sent,
      if the send was journalled before the classification began: however the
      record is confirmed, listed in a marker and deleted while it is read. */
  lemma NeverManualForOwnSend(g: World, q: Query, moves: seq<Move>)
    requires Inv(g) && q.at == First({}, false) && Joint(g, q, moves)
    requires q.chat in g.chats && q.attempt in g.chats[q.chat].tools
    requires g.chats[q.chat].tools[q.attempt].state.destination == q.destination
    ensures var (g', q') := AfterMoves(g, q, moves);
            q'.at == Answer(Manual) ==> KnownId(g', q') != Some(q.messageId)
  {
    assert QueryOk(g, q);
    hide Inv;
    MovesKeepQuery(g, q, moves);
  }
}
