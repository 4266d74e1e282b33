/** Every run of the controller world keeps its invariant; the claims about
    whole runs follow from it. */
module Runs {
  import opened Common
  import opened Domain
  import opened Scripts
  import opened ChatInvariant
  import opened Controller

  // ---------------------------------------------------------------- one step

  lemma AttemptsChange(g: World, attempts: map<int, Attempt>)
    requires Inv(g) && forall k | k in attempts :: AttemptOk(g, attempts[k])
    ensures Inv(g.(attempts := attempts))
  {
    var g' := g.(attempts := attempts);
    assert AttemptsOk(g') by {
      forall k | k in attempts ensures AttemptOk(g', attempts[k]) {
        assert AttemptOk(g, attempts[k]);
      }
    }
    SameLedger(g, g');
    SameProcesses(g, g');
  }

  lemma SameProcesses(g: World, g': World)
    requires WorkersOk(g) && TurnsOk(g)
    requires g'.identities == g.identities && g'.chats == g.chats && g'.log == g.log && g'.workers == g.workers
    requires g'.done == g.done && g'.begun == g.begun && g'.prompts == g.prompts
    ensures WorkersOk(g') && TurnsOk(g')
  {
    forall k | k in g'.workers ensures WorkerOk(g', g'.workers[k]) {
      assert WorkerOk(g, g.workers[k]);
    }
    forall id | id in g'.begun && id !in g'.done ensures Marked(g', id) {
      assert Marked(g, id);
    }
  }

  /** Nothing a process holds matters to the store's own invariants. */
  lemma SameLedger(g: World, g': World)
    requires ChatsOk(g) && IdentitiesOk(g) && HistoryOk(g) && DoneOk(g) && LogOk(g) && ArchiveOk(g)
    requires g'.identities == g.identities && g'.chats == g.chats && g'.log == g.log && g'.accepted == g.accepted
    requires g'.done == g.done && g'.order == g.order && g'.archive == g.archive
    ensures ChatsOk(g') && IdentitiesOk(g') && HistoryOk(g') && DoneOk(g') && LogOk(g') && ArchiveOk(g')
  {
    forall p | p in g'.log ensures DoneOrNext(g', p.marker.fp.of) {
      assert DoneOrNext(g, p.marker.fp.of);
    }
  }

  lemma WorkersChange(g: World, workers: map<int, Worker>)
    requires Inv(g) && WorkersOk(g.(workers := workers))
    ensures Inv(g.(workers := workers))
  {
    var g' := g.(workers := workers);
    assert AttemptsOk(g') by {
      forall k | k in g'.attempts ensures AttemptOk(g', g'.attempts[k]) {
        assert AttemptOk(g, g.attempts[k]);
      }
    }
    assert TurnsOk(g') by {
      forall id | id in g'.begun && id !in g'.done ensures Marked(g', id) {
        assert Marked(g, id);
      }
    }
    SameLedger(g, g');
  }

  lemma MoveKeepsInv(g: World, k: int, pc: Pc)
    requires Inv(g) && k in g.workers && !pc.Begun? && WorkerOk(g, g.workers[k].(pc := pc))
    ensures Inv(Move(g, k, pc))
  {
    var g' := Move(g, k, pc);
    forall l | l in g'.workers ensures WorkerOk(g', g'.workers[l]) {
      assert WorkerOk(g, if l == k then g.workers[k].(pc := pc) else g.workers[l]);
    }
    WorkersChange(g, g'.workers);
  }

  lemma CrashKeepsInv(g: World, k: int)
    requires Inv(g)
    ensures Inv(g.(workers := g.workers - {k}))
  {
    var g' := g.(workers := g.workers - {k});
    forall l | l in g'.workers ensures WorkerOk(g', g'.workers[l]) {
      assert WorkerOk(g, g.workers[l]);
    }
    WorkersChange(g, g'.workers);
  }

  lemma ScriptKeepsInv(g: World, chat: ChatId, now: int, call: Call)
    requires Inv(g) && chat in g.chats && Permitted(g, chat, call)
    ensures Inv(RunScript(g, chat, now, call)) && QuietWorld(g, RunScript(g, chat, now, call), chat)
  {
    hide Permitted, RunScript;
    ScriptIsQuiet(g, chat, now, call);
    QuietKeepsInv(g, RunScript(g, chat, now, call), chat);
  }

  lemma AbandonKeepsInv(g: World, k: int)
    requires Inv(g)
    ensures Inv(g.(attempts := g.attempts - {k}))
  {
    AttemptsChange(g, g.attempts - {k});
  }

  lemma AttemptMoves(g: World, k: int, a: Attempt)
    requires Inv(g) && AttemptOk(g, a)
    ensures Inv(g.(attempts := g.attempts[k := a]))
  {
    hide ChatsOk, IdentitiesOk, HistoryOk, DoneOk, LogOk, WorkersOk, TurnsOk, ArchiveOk, AttemptOk;
    AttemptsChange(g, g.attempts[k := a]);
  }

  lemma SnapshotKeepsInv(g: World, k: int, n: Notification)
    requires Inv(g) && Enabled(g, Snapshot(k, n))
    ensures Inv(Next(g, Snapshot(k, n)))
  {
    hide Inv;
    AttemptMoves(g, k, Attempt(n, g.chats[n.chat].state.revision, g.app.identityRevision, None, {}, false));
  }

  /** The mappings of all chats show every completed id's session. */
  lemma MappedAttempt(g: World, a: Attempt)
    requires DoneOk(g) && LogOk(g) && AttemptOk(g, a)
    ensures AttemptOk(g, a.(mapped := Some(Mappings(g))))
  {
    if a.n.id in g.done {
      assert g.done[a.n.id] in g.log;
    }
  }

  lemma ReadMappingsKeepsInv(g: World, k: int)
    requires Inv(g) && Enabled(g, ReadMappings(k))
    ensures Inv(Next(g, ReadMappings(k)))
  {
    hide ChatsOk, IdentitiesOk, HistoryOk, DoneOk, LogOk, WorkersOk, TurnsOk, ArchiveOk, AttemptOk;
    MappedAttempt(g, g.attempts[k]);
    AttemptMoves(g, k, g.attempts[k].(mapped := Some(Mappings(g))));
  }

  /** A lookup that finds no marker proves the id was not completed there
      before the mappings were read. */
  lemma LookedUpAttempt(g: World, a: Attempt, chat: ChatId, found: Option<Proof>)
    requires DoneOk(g) && AttemptOk(g, a) && a.mapped.Some? && chat in g.chats
    requires found.None? ==> forall p | p in g.log :: !Findable(p, a.mapped.value, chat, a.n.id)
    ensures AttemptOk(g, a.(mapped := None, looked := a.looked + {chat}, completed := a.completed || found.Some?))
  {
    if a.identityRevision == g.app.identityRevision && a.n.id in g.done && g.done[a.n.id].marker.chat == chat {
      assert Findable(g.done[a.n.id], a.mapped.value, chat, a.n.id);
    }
  }

  lemma LookupKeepsInv(g: World, k: int, chat: ChatId, found: Option<Proof>)
    requires Inv(g) && Enabled(g, Lookup(k, chat, found))
    ensures Inv(Next(g, Lookup(k, chat, found)))
  {
    hide ChatsOk, IdentitiesOk, HistoryOk, DoneOk, LogOk, WorkersOk, TurnsOk, ArchiveOk, AttemptOk, Findable;
    var a := g.attempts[k];
    LookedUpAttempt(g, a, chat, found);
    AttemptMoves(g, k, a.(mapped := None, looked := a.looked + {chat}, completed := a.completed || found.Some?));
  }

  lemma RefusedCommitIsAbandon(g: World, k: int)
    requires k in g.attempts && g.attempts[k].n.chat in g.chats
    requires var a := g.attempts[k];
             Accept(Keys(g, a.n.chat), a.revision, a.identityRevision, a.n, a.completed).1 != Accepted
    ensures RunCommit(g, k) == g.(attempts := g.attempts - {k})
  {
    var chat := g.attempts[k].n.chat;
    assert Store(g, chat, Keys(g, chat)) == g;
  }

  lemma RunCommitKeepsInv(g: World, k: int)
    requires Inv(g) && k in g.attempts && g.attempts[k].n.chat in g.chats && g.attempts[k].looked == g.chats.Keys
    ensures Inv(RunCommit(g, k))
  {
    hide RunCommit, Accept, ChatsOk, IdentitiesOk, HistoryOk, DoneOk, LogOk, AttemptsOk, WorkersOk, TurnsOk, ArchiveOk,
        AdmitWorld;
    var a := g.attempts[k];
    if Accept(Keys(g, a.n.chat), a.revision, a.identityRevision, a.n, a.completed).1 == Accepted {
      CommitAdmits(g, k);
      hide Inv;
      AdmitKeepsInv(g, RunCommit(g, k), a.n, k);
    } else {
      hide Inv;
      RefusedCommitIsAbandon(g, k);
      AbandonKeepsInv(g, k);
    }
  }

  lemma CommitKeepsInv(g: World, k: int, now: int)
    requires Inv(g) && Enabled(g, Commit(k, now))
    ensures Inv(Next(g, Commit(k, now)))
  {
    hide RunCommit, Inv;
    RunCommitKeepsInv(g, k);
  }

  /** A granted claim hands out the event the chat must complete next. */
  lemma ClaimGrantsNext(db: Db, now: int, f: Fence, owner: OwnerId, ms: int, gapTimeout: int)
    requires Coherent(db.chat)
    ensures var (db', r) := Claim(db, now, f, owner, ms, gapTimeout);
            r.Claimed? ==>
              && r.raw.chat == db.chat.state.chat && IsNext(db.chat, r.raw.id)
              && db.chat.events[r.raw.id].fp == Fingerprint(r.raw)
  {
    hide TooLong, Occupied, AppAlive, AllConfirmed, DoubtAll, Doubted;
  }

  /** A worker joins with work that is completed or next. */
  lemma JoinKeepsInv(g: World, k: int, work: Work)
    requires Inv(g) && DoneOrNext(g, work.event) && k !in g.workers
    ensures Inv(g.(workers := g.workers[k := Worker(work, Leased)]))
  {
    var g' := g.(workers := g.workers[k := Worker(work, Leased)]);
    hide ChatsOk, IdentitiesOk, HistoryOk, DoneOk, LogOk, AttemptsOk, TurnsOk, ArchiveOk, DoneOrNext;
    forall l | l in g'.workers ensures WorkerOk(g', g'.workers[l]) {
      if l != k { assert WorkerOk(g, g.workers[l]); }
      SameDoneOrNext(g, g', g'.workers[l].work.event);
    }
    WorkersChange(g, g'.workers);
  }

  lemma SameDoneOrNext(g: World, g': World, n: Notification)
    requires g'.chats == g.chats && g'.done == g.done
    ensures DoneOrNext(g', n) <==> DoneOrNext(g, n)
  {
  }

  lemma GrantedIsNext(g: World, chat: ChatId, now: int, f: Fence, owner: OwnerId, ms: int, gapTimeout: int)
    requires ChatsOk(g) && chat in g.chats
    ensures var r := Claim(Keys(g, chat), now, f, owner, ms, gapTimeout).1;
            r.Claimed? ==> DoneOrNext(g, r.raw)
  {
    ClaimGrantsNext(Keys(g, chat), now, f, owner, ms, gapTimeout);
    hide Claim;
  }

  lemma SpawnKeepsInv(g: World, k: int, chat: ChatId, now: int, f: Fence, owner: OwnerId, ms: int, gapTimeout: int)
    requires Inv(g) && Enabled(g, Spawn(k, chat, now, f, owner, ms, gapTimeout))
    ensures Inv(Next(g, Spawn(k, chat, now, f, owner, ms, gapTimeout)))
  {
    hide Claim, RunScript, ChatsOk, IdentitiesOk, HistoryOk, DoneOk, LogOk, AttemptsOk, WorkersOk, TurnsOk, ArchiveOk,
        Quiet, Coherent, DoneOrNext;
    var call := AppCall(f, ClaimNext(owner, ms, gapTimeout));
    var reply := Claim(Keys(g, chat), now, f, owner, ms, gapTimeout).1;
    var g' := RunScript(g, chat, now, call);
    GrantedIsNext(g, chat, now, f, owner, ms, gapTimeout);
    ScriptKeepsInv(g, chat, now, call);
    assert g'.workers == g.workers;
    if reply.Claimed? {
      QuietDoneOrNext(g, g', chat, reply.raw);
      hide Inv, QuietWorld;
      JoinKeepsInv(g', k, Work(f, Fence(owner, reply.epoch), reply.streamId, reply.raw));
    }
  }

  lemma BoundSession(g: World, chat: ChatId, now: int, w: Work, session: Binding)
    requires chat in g.chats && Bind(Keys(g, chat), now, w, session).1 == Done
    ensures RunScript(g, chat, now, WorkCall(w, BindSession(session))).chats[chat].state.session == Some(session)
  {
    hide Held;
  }

  lemma MapKeepsInv(g: World, k: int, now: int, session: Binding)
    requires Inv(g) && Enabled(g, Map(k, now, session))
    ensures Inv(Next(g, Map(k, now, session)))
  {
    hide Bind, RunScript, ChatsOk, IdentitiesOk, HistoryOk, DoneOk, LogOk, AttemptsOk, TurnsOk, ArchiveOk, Quiet,
        Coherent, DoneOrNext;
    var w := g.workers[k];
    var chat := w.work.event.chat;
    var call := WorkCall(w.work, BindSession(session));
    var reply := Bind(Keys(g, chat), now, w.work, session).1;
    var g' := RunScript(g, chat, now, call);
    ScriptKeepsInv(g, chat, now, call);
    assert g'.workers == g.workers;
    hide QuietWorld;
    if reply == Done {
      BoundSession(g, chat, now, w.work, session);
      assert WorkerOk(g', g'.workers[k]);
      MoveKeepsInv(g', k, Bound(w.pc.own, session));
    } else {
      CrashKeepsInv(g', k);
    }
  }

  /** A turn that begins was not begun before: otherwise its event would be
      completed, or the chat would still carry its mark. */
  lemma BegunIsNew(g: World, k: int, now: int)
    requires ChatsOk(g) && IdentitiesOk(g) && HistoryOk(g) && TurnsOk(g) && Enabled(g, Begin(k, now))
    requires BeginTurn(Keys(g, g.workers[k].work.event.chat), now, g.workers[k].work).1 == Done
    ensures g.workers[k].work.event.id !in g.begun && g.workers[k].work.event.id !in g.prompts
  {
    var id := g.workers[k].work.event.id;
    assert id in g.identities && g.identities[id].chat == g.workers[k].work.event.chat;
    assert id !in g.done && !Marked(g, id);
  }

  /** A worker whose turn began joins, alone with its event. */
  lemma BegunWorkers(g: World, k: int)
    requires WorkersOk(g) && k in g.workers && g.workers[k].pc.Bound?
    requires var id := g.workers[k].work.event.id; id in g.begun && id !in g.prompts
    requires forall l | l in g.workers && g.workers[l].pc.Begun? ::
        g.workers[l].work.event.id != g.workers[k].work.event.id
    ensures WorkersOk(Move(g, k, Begun(g.workers[k].pc.session)))
  {
    var g' := Move(g, k, Begun(g.workers[k].pc.session));
    forall l | l in g'.workers ensures WorkerOk(g', g'.workers[l]) {
      assert WorkerOk(g, g.workers[l]);
    }
  }

  lemma OthersBegan(g: World, k: int)
    requires WorkersOk(g) && k in g.workers && g.workers[k].work.event.id !in g.begun
    ensures forall l | l in g.workers && g.workers[l].pc.Begun? ::
        g.workers[l].work.event.id != g.workers[k].work.event.id
  {
    forall l | l in g.workers && g.workers[l].pc.Begun? ensures g.workers[l].work.event.id in g.begun {
      assert WorkerOk(g, g.workers[l]);
    }
  }

  lemma BegunInRun(g: World, chat: ChatId, now: int, w: Work)
    requires chat in g.chats && BeginTurn(Keys(g, chat), now, w).1 == Done
    ensures w.event.id in RunScript(g, chat, now, WorkCall(w, StartTurn)).begun
  {
    hide Held;
  }

  lemma StartedKeepsInv(g: World, k: int)
    requires Inv(g) && k in g.workers && g.workers[k].pc.Bound?
    requires var id := g.workers[k].work.event.id; id in g.begun && id !in g.prompts
    requires forall l | l in g.workers && g.workers[l].pc.Begun? ::
        g.workers[l].work.event.id != g.workers[k].work.event.id
    ensures Inv(Move(g, k, Begun(g.workers[k].pc.session)))
  {
    hide ChatsOk, IdentitiesOk, HistoryOk, DoneOk, LogOk, AttemptsOk, WorkersOk, TurnsOk, ArchiveOk;
    BegunWorkers(g, k);
    WorkersChange(g, Move(g, k, Begun(g.workers[k].pc.session)).workers);
  }

  lemma BeginKeepsInv(g: World, k: int, now: int)
    requires Inv(g) && Enabled(g, Begin(k, now))
    ensures Inv(Next(g, Begin(k, now)))
  {
    hide ChatsOk, IdentitiesOk, HistoryOk, DoneOk, LogOk, AttemptsOk, WorkersOk, TurnsOk, ArchiveOk, Quiet, Coherent,
        BeginTurn, RunScript;
    var w := g.workers[k];
    var chat := w.work.event.chat;
    var reply := BeginTurn(Keys(g, chat), now, w.work).1;
    var g' := RunScript(g, chat, now, WorkCall(w.work, StartTurn));
    ScriptKeepsInv(g, chat, now, WorkCall(w.work, StartTurn));
    assert g'.workers == g.workers && g'.prompts == g.prompts;
    hide QuietWorld;
    if reply == Done {
      BegunIsNew(g, k, now);
      OthersBegan(g, k);
      BegunInRun(g, chat, now, w.work);
      hide Inv;
      StartedKeepsInv(g', k);
    } else {
      hide Inv;
      CrashKeepsInv(g', k);
    }
  }

  lemma PromptWorkers(g: World, k: int)
    requires WorkersOk(g) && k in g.workers && g.workers[k].pc.Begun?
    ensures WorkersOk(Next(g, Prompt(k)))
  {
    var g' := Next(g, Prompt(k));
    forall l | l in g'.workers ensures WorkerOk(g', g'.workers[l]) {
      assert WorkerOk(g, g.workers[l]);
    }
  }

  lemma SameAttempts(g: World, g': World)
    requires AttemptsOk(g) && g'.attempts == g.attempts && g'.chats == g.chats && g'.done == g.done && g'.app == g.app
    ensures AttemptsOk(g')
  {
    forall l | l in g'.attempts ensures AttemptOk(g', g'.attempts[l]) {
      assert AttemptOk(g, g.attempts[l]);
    }
  }

  /** The first prompt of its event: it was begun and not yet prompted. */
  lemma PromptKeepsInv(g: World, k: int)
    requires Inv(g) && Enabled(g, Prompt(k))
    ensures Inv(Next(g, Prompt(k)))
  {
    hide ChatsOk, IdentitiesOk, HistoryOk, DoneOk, LogOk, AttemptsOk, WorkersOk, TurnsOk, ArchiveOk;
    var g' := Next(g, Prompt(k));
    PromptWorkers(g, k);
    SameLedger(g, g');
    PromptTurns(g, k);
    SameAttempts(g, g');
  }

  lemma PromptTurns(g: World, k: int)
    requires WorkersOk(g) && TurnsOk(g) && Enabled(g, Prompt(k))
    ensures TurnsOk(Next(g, Prompt(k)))
  {
    var g' := Next(g, Prompt(k));
    assert WorkerOk(g, g.workers[k]);
    forall e | e in g'.begun && e !in g'.done ensures Marked(g', e) {
      assert Marked(g, e);
    }
  }

  lemma AppendKeepsInv(g: World, k: int, entry: EntryId, sends: seq<Send>)
    requires Inv(g) && Enabled(g, Append(k, entry, sends))
    ensures Inv(Next(g, Append(k, entry, sends)))
  {
    var w := g.workers[k];
    assert WorkerOk(g, w);
    var p := Proof(MarkerFor(w.work.event, w.pc.own, sends), entry, w.pc.session);
    var h := g.(log := g.log + {p});
    LogGrows(g, p);
    MoveKeepsInv(h, k, Proven(p));
    assert Next(g, Append(k, entry, sends)) == Move(h, k, Proven(p));
  }

  lemma LogGrows(g: World, p: Proof)
    requires Inv(g) && Describes(p.marker) && DoneOrNext(g, p.marker.fp.of)
    requires g.chats[p.marker.chat].state.session == Some(p.session)
    ensures Inv(g.(log := g.log + {p}))
  {
    hide ChatsOk, IdentitiesOk, HistoryOk, DoneOk, LogOk, ArchiveOk, AttemptsOk, WorkersOk, TurnsOk, DoneOrNext,
        Describes;
    LogGrowsLedger(g, p);
    LogGrowsProcesses(g, g.(log := g.log + {p}));
  }

  lemma LogGrowsProcesses(g: World, h: World)
    requires AttemptsOk(g) && WorkersOk(g) && TurnsOk(g) && g.log <= h.log && h == g.(log := h.log)
    ensures AttemptsOk(h) && WorkersOk(h) && TurnsOk(h)
  {
    SameAttempts(g, h);
    forall l | l in h.workers ensures WorkerOk(h, h.workers[l]) {
      SameDoneOrNext(g, h, g.workers[l].work.event);
      WorkerFrame(g, h, g.workers[l]);
    }
    hide AttemptsOk, DoneOrNext;
    forall e | e in h.begun && e !in h.done ensures Marked(h, e) {
      assert Marked(g, e);
    }
  }

  lemma LogGrowsLedger(g: World, p: Proof)
    requires ChatsOk(g) && IdentitiesOk(g) && HistoryOk(g) && DoneOk(g) && LogOk(g) && ArchiveOk(g)
    requires Describes(p.marker) && DoneOrNext(g, p.marker.fp.of)
    requires g.chats[p.marker.chat].state.session == Some(p.session)
    ensures var h := g.(log := g.log + {p});
            ChatsOk(h) && IdentitiesOk(h) && HistoryOk(h) && DoneOk(h) && LogOk(h) && ArchiveOk(h)
  {
    var h := g.(log := g.log + {p});
    hide Coherent;
    forall q | q in h.log ensures DoneOrNext(h, q.marker.fp.of) {
      SameDoneOrNext(g, h, q.marker.fp.of);
    }
    hide DoneOrNext;
  }

  lemma RunFinishKeepsInv(g: World, chat: ChatId, now: int, w: Work, proof: Proof)
    requires Inv(g) && chat in g.chats && w.event.chat == chat && proof in g.log && Proves(proof, w)
    ensures Inv(RunFinish(g, chat, now, w, proof))
  {
    hide Complete, IdentitiesOk, HistoryOk, DoneOk, LogOk, AttemptsOk, WorkersOk, TurnsOk, ArchiveOk, ChatsOk,
        FinishWorld, Proves;
    if Complete(Keys(g, chat), now, w, proof.session, proof.marker.sends).1 == Done {
      FinishCompletes(g, chat, now, w, proof);
      hide RunFinish, Inv;
      FinishKeepsInv(g, RunFinish(g, chat, now, w, proof), chat, w, proof);
    }
  }

  lemma FinishStepKeepsInv(g: World, chat: ChatId, now: int, w: Work, proof: Proof)
    requires Inv(g) && Enabled(g, Finish(chat, now, w, proof))
    ensures Inv(Next(g, Finish(chat, now, w, proof)))
  {
    hide Inv, RunFinish, Proves;
    RunFinishKeepsInv(g, chat, now, w, proof);
  }

  /** Steps that only move one worker forward. */
  lemma LocalPc(g: World, s: Step) returns (pc: Pc)
    requires WorkersOk(g) && Enabled(g, s)
    requires s.ReadChat? || s.FindMarker? || s.FindTurn? || s.Classify? || s.SkipPrompt?
    ensures s.k in g.workers && !pc.Begun? && WorkerOk(g, g.workers[s.k].(pc := pc)) && Next(g, s) == Move(g, s.k, pc)
  {
    hide DoneOrNext, TurnState;
    assert WorkerOk(g, g.workers[s.k]);
    match s
    case ReadChat(k) => pc := Checked;
    case FindMarker(k, found) => pc := if found.Some? then Proven(found.value) else Unmarked;
    case FindTurn(k, _) => pc := Fresh;
    case Classify(k, own) => pc := Classified(own);
    case SkipPrompt(k) => pc := Finished(true, g.workers[k].pc.session);
  }

  lemma LocalKeepsInv(g: World, s: Step)
    requires Inv(g) && Enabled(g, s)
    requires s.ReadChat? || s.FindMarker? || s.FindTurn? || s.Classify? || s.SkipPrompt?
    ensures Inv(Next(g, s))
  {
    hide ChatsOk, IdentitiesOk, HistoryOk, DoneOk, LogOk, AttemptsOk, WorkersOk, TurnsOk, ArchiveOk, Next, Enabled,
        WorkerOk;
    var pc := LocalPc(g, s);
    MoveKeepsInv(g, s.k, pc);
  }

  lemma CallKeepsInv(g: World, s: Step)
    requires Inv(g) && Enabled(g, s) && (s.Script? || s.Crash? || s.Abandon?)
    ensures Inv(Next(g, s))
  {
    hide Inv;
    match s
    case Script(chat, now, call) => ScriptKeepsInv(g, chat, now, call);
    case Crash(k) => CrashKeepsInv(g, k);
    case Abandon(k) => AbandonKeepsInv(g, k);
  }

  /** Whatever happens next, the invariant stands. */
  lemma StepKeepsInv(g: World, s: Step)
    requires Inv(g) && Enabled(g, s)
    ensures Inv(Next(g, s))
  {
    hide Inv, Next, Enabled;
    match s
    case Snapshot(k, n) => SnapshotKeepsInv(g, k, n);
    case ReadMappings(k) => ReadMappingsKeepsInv(g, k);
    case Lookup(k, chat, found) => LookupKeepsInv(g, k, chat, found);
    case Commit(k, now) => CommitKeepsInv(g, k, now);
    case Spawn(k, chat, now, f, owner, ms, gapTimeout) => SpawnKeepsInv(g, k, chat, now, f, owner, ms, gapTimeout);
    case Map(k, now, session) => MapKeepsInv(g, k, now, session);
    case Begin(k, now) => BeginKeepsInv(g, k, now);
    case Prompt(k) => PromptKeepsInv(g, k);
    case Append(k, entry, sends) => AppendKeepsInv(g, k, entry, sends);
    case Finish(chat, now, w, proof) => FinishStepKeepsInv(g, chat, now, w, proof);
    case Script(_, _, _) => CallKeepsInv(g, s);
    case Crash(_) => CallKeepsInv(g, s);
    case Abandon(_) => CallKeepsInv(g, s);
    case _ => LocalKeepsInv(g, s);
  }

  // ---------------------------------------------------------------- the store's part of a step

  /** The one script call a step makes, if it makes one. */
  function CallOf(g: World, s: Step): Option<(ChatId, int, Call)>
    requires Enabled(g, s)
  {
    match s
    case Script(chat, now, call) => Some((chat, now, call))
    case Spawn(k, chat, now, f, owner, ms,
        gapTimeout) => Some((chat, now, AppCall(f, ClaimNext(owner, ms, gapTimeout))))
    case Map(k, now,
        session) => Some((g.workers[k].work.event.chat, now, WorkCall(g.workers[k].work, BindSession(session))))
    case Begin(k, now) => Some((g.workers[k].work.event.chat, now, WorkCall(g.workers[k].work, StartTurn)))
    case Commit(k, now) =>
      var a := g.attempts[k];
      Some((a.n.chat, now, Intake(a.revision, a.identityRevision, a.n, a.completed)))
    case Finish(chat, now, w, proof) => Some((chat, now, WorkCall(w, CompleteEvent(proof.session, proof.marker.sends))))
    case _ => None
  }

  /** The store in g' is the store in g after the call. */
  ghost predicate CallMakes(g: World, g': World, c: (ChatId, int, Call)) {
    && c.0 in g.chats
    && (var db := Apply(Keys(g, c.0), c.1, c.2).0;
        g'.app == db.app && g'.identities == db.identities && g'.chats == g.chats[c.0 := db.chat])
  }

  ghost predicate SameStore(g: World, g': World) {
    g'.app == g.app && g'.identities == g.identities && g'.chats == g.chats
  }

  lemma ScriptMakesCall(g: World, chat: ChatId, now: int, call: Call)
    requires chat in g.chats
    ensures CallMakes(g, RunScript(g, chat, now, call), (chat, now, call))
  {
    hide Apply;
  }

  lemma WorkerMakesCall(g: World, s: Step)
    requires Enabled(g, s) && (s.Script? || s.Spawn? || s.Map? || s.Begin?)
    ensures CallMakes(g, Next(g, s), CallOf(g, s).value)
  {
    hide Apply, Claim, BeginTurn, Bind, TurnState, Permitted, RunScript;
    var c := CallOf(g, s).value;
    ScriptMakesCall(g, c.0, c.1, c.2);
  }

  lemma CommitMakesCall(g: World, k: int)
    requires k in g.attempts && g.attempts[k].n.chat in g.chats
    ensures var a := g.attempts[k];
            CallMakes(g, RunCommit(g, k), (a.n.chat, 0, Intake(a.revision, a.identityRevision, a.n, a.completed)))
  {
    hide Accept;
  }

  lemma RefusedCompletion(db: Db, now: int, w: Work, session: Binding, sends: seq<Send>)
    ensures Complete(db, now, w, session, sends).1 != Done ==> Complete(db, now, w, session, sends).0 == db
  {
    hide Held, AllAccounted;
  }

  lemma FinishMakesCall(g: World, chat: ChatId, now: int, w: Work, proof: Proof)
    requires chat in g.chats
    ensures CallMakes(g, RunFinish(g, chat, now, w, proof),
        (chat, now, WorkCall(w, CompleteEvent(proof.session, proof.marker.sends))))
  {
    RefusedCompletion(Keys(g, chat), now, w, proof.session, proof.marker.sends);
    hide Complete, Settle;
    assert g.chats[chat := g.chats[chat]] == g.chats;
  }

  lemma OtherStepsKeepStore(g: World, s: Step)
    requires Enabled(g, s) && CallOf(g, s).None?
    ensures SameStore(g, Next(g, s))
  {
    hide Permitted, TurnState;
  }

  lemma StepMakesCall(g: World, s: Step)
    requires Enabled(g, s)
    ensures if CallOf(g, s).None? then SameStore(g, Next(g, s)) else CallMakes(g, Next(g, s), CallOf(g, s).value)
  {
    hide CallMakes, SameStore, RunCommit, RunFinish, RunScript, Permitted, TurnState, Claim, Bind, BeginTurn;
    match s
    case Script(_, _, _) => WorkerMakesCall(g, s);
    case Spawn(_, _, _, _, _, _, _) => WorkerMakesCall(g, s);
    case Map(_, _, _) => WorkerMakesCall(g, s);
    case Begin(_, _) => WorkerMakesCall(g, s);
    case Commit(k, now) => CommitMakesCall(g, k); IntakeIgnoresClock(g, k, now);
    case Finish(chat, now, w, proof) => FinishMakesCall(g, chat, now, w, proof);
    case _ => OtherStepsKeepStore(g, s);
  }

  lemma IntakeIgnoresClock(g: World, k: int, now: int)
    requires k in g.attempts && g.attempts[k].n.chat in g.chats
    ensures var a := g.attempts[k];
            var call := Intake(a.revision, a.identityRevision, a.n, a.completed);
            CallMakes(g, RunCommit(g, k), (a.n.chat, 0, call)) ==> CallMakes(g, RunCommit(g, k), (a.n.chat, now, call))
  {
    hide RunCommit, Accept;
  }

  // ---------------------------------------------------------------- whole runs

  ghost predicate Path(g: World, steps: seq<Step>)
    decreases |steps|
  {
    |steps| == 0 || (Enabled(g, steps[0]) && Path(Next(g, steps[0]), steps[1..]))
  }

  ghost function After(g: World, steps: seq<Step>): World
    requires Path(g, steps)
    decreases |steps|
  {
    if |steps| == 0 then g else After(Next(g, steps[0]), steps[1..])
  }

  lemma StartKeepsInv(chats: set<ChatId>)
    ensures Inv(Start(chats))
  {
  }

  lemma {:induction false} RunKeepsInv(g: World, steps: seq<Step>)
    requires Inv(g) && Path(g, steps)
    ensures Inv(After(g, steps))
    decreases |steps|
  {
    hide Inv, Enabled, Next;
    if |steps| > 0 {
      StepKeepsInv(g, steps[0]);
      RunKeepsInv(Next(g, steps[0]), steps[1..]);
    }
  }

  /** No event is ever prompted twice: not by two workers, not after a crash,
      not after redelivery under another sequence or in another chat. */
  lemma PromptedAtMostOnce(chats: set<ChatId>, steps: seq<Step>)
    requires Path(Start(chats), steps)
    ensures Distinct(After(Start(chats), steps).prompts)
  {
    StartKeepsInv(chats);
    RunKeepsInv(Start(chats), steps);
  }

  /** No event id is ever answered `accepted` twice, in any chat. */
  lemma AcceptedAtMostOnce(chats: set<ChatId>, steps: seq<Step>)
    requires Path(Start(chats), steps)
    ensures Distinct(After(Start(chats), steps).accepted)
  {
    StartKeepsInv(chats);
    RunKeepsInv(Start(chats), steps);
  }

  /** The pending events of all chats. */
  ghost predicate Pending(g: World, id: EventId) {
    exists c :: c in g.chats && id in g.chats[c].events
  }

  /** What every reachable store looks like. */
  lemma ReachableStore(chats: set<ChatId>, steps: seq<Step>)
    requires Path(Start(chats), steps)
    ensures var g := After(Start(chats), steps);
            && (forall c | c in g.chats :: Ordered(g.chats[c]) && Streamed(g.chats[c]) && Focused(g.chats[c]))
            && (forall id :: id in g.identities <==> Pending(g, id))
            && (forall id :: id in g.accepted <==> Pending(g, id) || id in g.done)
            && (forall id | id in g.done :: !Pending(g, id))
  {
    StartKeepsInv(chats);
    RunKeepsInv(Start(chats), steps);
    var g := After(Start(chats), steps);
    hide Path, After, DoneOk, LogOk, AttemptsOk, WorkersOk, TurnsOk, ArchiveOk;
    forall c | c in g.chats ensures Ordered(g.chats[c]) && Streamed(g.chats[c]) && Focused(g.chats[c]) {
      hide Ordered, Streamed, Focused;
      assert Coherent(g.chats[c]);
    }
    hide Coherent;
    PendingIsIdentified(g);
    hide Pending;
  }

  lemma PendingIsIdentified(g: World)
    requires IdentitiesOk(g)
    ensures forall id :: id in g.identities <==> Pending(g, id)
  {
    forall id ensures id in g.identities <==> Pending(g, id) {
      if id in g.identities {
        assert id in g.chats[g.identities[id].chat].events;
      }
    }
  }

  /** Each chat completes exactly the sequences 1, 2, ..., cursor, every one of
      them with a durable marker, and no marker is further ahead than the next
      sequence. */
  lemma CompletionsAreGapless(chats: set<ChatId>, steps: seq<Step>)
    requires Path(Start(chats), steps)
    ensures var g := After(Start(chats), steps);
            && g.order.Keys == g.chats.Keys
            && (forall c | c in g.chats ::
                  && |g.order[c]| == g.chats[c].state.cursor && Distinct(g.order[c])
                  && forall i | 0 <= i < |g.order[c]| ::
                       var id := g.order[c][i];
                       id in g.done && g.done[id] in g.log && g.done[id].marker.event == id
                           && g.done[id].marker.chat == c
                       && g.done[id].marker.sequence == i + 1)
            && (forall p | p in g.log ::
                p.marker.chat in g.chats && 1 <= p.marker.sequence <= g.chats[p.marker.chat].state.cursor + 1)
  {
    StartKeepsInv(chats);
    RunKeepsInv(Start(chats), steps);
    var g := After(Start(chats), steps);
    hide Path, After, ChatsOk, DoneOk, LogOk, AttemptsOk, WorkersOk, TurnsOk, ArchiveOk, IdentitiesOk;
    forall p | p in g.log
        ensures p.marker.chat in g.chats && 1 <= p.marker.sequence <= g.chats[p.marker.chat].state.cursor + 1 {
      MarkerIsNotAhead(g, p);
    }
  }

  lemma MarkerIsNotAhead(g: World, p: Proof)
    requires ChatsOk(g) && DoneOk(g) && LogOk(g) && p in g.log
    ensures p.marker.chat in g.chats && 1 <= p.marker.sequence <= g.chats[p.marker.chat].state.cursor + 1
  {
    var n := p.marker.fp.of;
    assert DoneOrNext(g, n);
    if n.id !in g.done {
      assert Described(g.chats[n.chat]);
    }
  }

  /** Redelivering a pending id answers `duplicate` exactly when nothing about
      the notification changed, and `conflict` otherwise, whichever chat and
      sequence it now claims. */
  lemma RedeliveryOfPending(g: World, n: Notification, completed: bool)
    requires Inv(g) && n.chat in g.chats && n.id in g.identities
    ensures var c := g.identities[n.id].chat;
            var reply := Accept(Keys(g, n.chat), g.chats[n.chat].state.revision, g.app.identityRevision, n,
                completed).1;
            reply == if g.chats[c].events[n.id].raw == n then Duplicate else Conflict
  {
    var c := g.identities[n.id].chat;
    assert Described(g.chats[c]) && g.chats[c].state.chat == c;
  }
}
