/** A send whose outcome is unknown stops its chat for good. */
module Uncertainty {
  import opened Common
  import opened Domain
  import opened Scripts
  import opened ChatInvariant
  import opened Controller
  import opened Runs

  ghost predicate Doubtful(c: Chat, a: AttemptId) {
    a in c.tools && c.tools[a].state.status == Uncertain
  }

  /** What an uncertain record freezes. */
  ghost predicate Frozen(c: Chat, c': Chat, a: AttemptId) {
    && a in c.tools && Doubtful(c', a) && c'.tools[a] == c.tools[a]
    && c'.state.cursor == c.state.cursor && c'.state.turn == c.state.turn
  }

  /** A claim that finds an unconfirmed record makes it uncertain and pauses. */
  lemma ClaimDoubts(db: Db, now: int, f: Fence, owner: OwnerId, ms: int, gapTimeout: int, a: AttemptId)
    requires AppAlive(db.app, f, now) && db.chat.state.pause.None? && !Occupied(db.chat.lease, f, now)
    requires a in db.chat.tools && !db.chat.tools[a].state.status.Confirmed?
    ensures var (db', reply) := Claim(db, now, f, owner, ms, gapTimeout);
            && reply == PausedReply && db'.chat.state.pause == Some(MutationUncertain) && Doubtful(db'.chat, a)
            && (forall b | b in db.chat.tools && db.chat.tools[b].state.status.Confirmed? ::
                  b in db'.chat.tools && db'.chat.tools[b] == db.chat.tools[b])
  {
    hide ClaimGap, ClaimEntry;
  }

  /** No claim, completion, turn, repair or abort gets past an uncertain record. */
  lemma DoubtBlocks(db: Db, now: int, a: AttemptId, f: Fence, owner: OwnerId, ms: int, gapTimeout: int, chat: ChatId,
                    w: Work, session: Binding, sends: seq<Send>)
    requires Coherent(db.chat) && Doubtful(db.chat, a)
    ensures !Claim(db, now, f, owner, ms, gapTimeout).1.Claimed?
    ensures Complete(db, now, w, session, sends) == (db, Lost)
    ensures BeginTurn(db, now, w).0 == db
    ensures forall intent :: RepairEvidence(db.chat, chat, intent).Err?
  {
    assert !Accounted(db.chat.tools[a], w, sends);
    assert db.chat.tools != map[];
    hide ClaimGap, ClaimEntry, TooLong, Held, Fenced;
  }

  /** An abort is refused as well, because its evidence is. */
  lemma DoubtBlocksAbort(db: Db, now: int, a: AttemptId, w: Work, session: Binding, id: CheckpointId,
                         expected: CheckpointRecord, next: CheckpointRecord, intent: Option<Digest>)
    requires Coherent(db.chat) && Doubtful(db.chat, a)
    ensures CheckpointAbort(db, now, w, session, id, expected, next, intent) == (db, Lost)
  {
    DoubtBlocks(db, now, a, w.app, 0, 0, 0, session.chat, w, session, []);
    hide RepairEvidence, Held;
  }

  lemma CallKeepsDoubt(db: Db, now: int, call: Call, a: AttemptId)
    requires Coherent(db.chat) && Doubtful(db.chat, a)
    ensures Frozen(db.chat, Apply(db, now, call).0.chat, a)
  {
    if Other(call) {
      OtherCallsAreQuiet(db, now, call);
      hide Apply, Coherent;
      assert db.chat.state.turn.Some? by {
        assert Journaled(db.chat);
      }
    } else {
      match call
      case WorkCall(w, act) => DoubtBlocks(db, now, a, w.app, 0, 0, 0, 0, w, act.session, act.sends);
      case Intake(_, _, _, _) =>
    }
  }

  lemma StepKeepsDoubt(g: World, s: Step, c: ChatId, a: AttemptId)
    requires Inv(g) && Enabled(g, s) && c in g.chats && Doubtful(g.chats[c], a)
    ensures c in Next(g, s).chats && Frozen(g.chats[c], Next(g, s).chats[c], a)
  {
    StepMakesCall(g, s);
    var call := CallOf(g, s);
    if call.Some? && call.value.0 == c {
      CallKeepsDoubt(Keys(g, c), call.value.1, call.value.2, a);
    }
    hide Next, Enabled, Apply, CallOf, Inv;
  }

  /** Once a record is uncertain, no run ever moves the chat's cursor or its
      turn mark again, and the record stays as it is. */
  lemma {:induction false} DoubtIsForever(g: World, steps: seq<Step>, c: ChatId, a: AttemptId)
    requires Inv(g) && Path(g, steps) && c in g.chats && Doubtful(g.chats[c], a)
    ensures c in After(g, steps).chats && Frozen(g.chats[c], After(g, steps).chats[c], a)
    decreases |steps|
  {
    hide Enabled, Next, Inv;
    if |steps| > 0 {
      StepKeepsInv(g, steps[0]);
      StepKeepsDoubt(g, steps[0], c, a);
      DoubtIsForever(Next(g, steps[0]), steps[1..], c, a);
    }
  }

  /** A completion deletes only confirmed sends of its own event that its proof
      lists. */
  lemma CompletionAccountsForEverySend(db: Db, now: int, w: Work, session: Binding, sends: seq<Send>, a: AttemptId)
    requires Complete(db, now, w, session, sends).1 == Done && a in db.chat.tools
    ensures var r := db.chat.tools[a];
            && r.state.status.Confirmed? && r.state.event == w.event.id && r.fp == w.Fp()
            && Send(r.state.destination, r.state.status.messageId) in sends
  {
    assert Accounted(db.chat.tools[a], w, sends);
  }
}
