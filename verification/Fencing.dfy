/** Fencing rests on epochs alone: clock readings are arbitrary at every call. */
module Fencing {
  import opened Common
  import opened Domain
  import opened Scripts
  import opened ChatInvariant
  import opened Controller
  import opened Runs

  /** The call carries an application or chat epoch older than the one granted. */
  ghost predicate Stale(db: Db, call: Call) {
    match call
    case AppCall(f, act) => f.epoch < db.app.epoch || (act.DropRepair? && act.lease.epoch < db.chat.lease.epoch)
    case WorkCall(w, _) => w.app.epoch < db.app.epoch || w.lease.epoch < db.chat.lease.epoch
    case _ => false
  }

  lemma StaleWorkIsLost(db: Db, now: int, w: Work, act: WorkAct)
    requires w.app.epoch < db.app.epoch || w.lease.epoch < db.chat.lease.epoch
    ensures ApplyWork(db, now, w, act) == (db, Lost)
  {
    assert !Held(db, w, now);
    hide Held, RepairEvidence, AllAccounted, FreeLease, Settled;
  }

  lemma StaleAppIsLost(db: Db, now: int, f: Fence, act: AppAct)
    requires f.epoch < db.app.epoch || (act.DropRepair? && act.lease.epoch < db.chat.lease.epoch)
    ensures ApplyApp(db, now, f, act) == (db, Lost)
  {
    hide RepairEvidence, AllConfirmed, Doubted, ClaimGap, ClaimEntry, Occupied, TooLong, GrantLease, FreeLease;
  }

  lemma StaleIsLost(db: Db, now: int, call: Call)
    requires Stale(db, call)
    ensures Apply(db, now, call) == (db, Lost)
  {
    hide ApplyApp, ApplyWork;
    match call
    case AppCall(f, act) => StaleAppIsLost(db, now, f, act);
    case WorkCall(w, act) => StaleWorkIsLost(db, now, w, act);
  }

  /** Epochs only grow, and whoever is granted a lease gets a new one. */
  ghost predicate EpochsAdvance(db: Db, db': Db, reply: Reply) {
    && db'.app.epoch >= db.app.epoch && db'.chat.lease.epoch >= db.chat.lease.epoch
    && (reply.Claimed? || reply.RepairClaimed? ==>
          db'.chat.lease.epoch == reply.epoch == db.chat.lease.epoch + 1)
  }

  lemma AppCallsAdvanceEpochs(db: Db, now: int, f: Fence, act: AppAct)
    ensures EpochsAdvance(db, ApplyApp(db, now, f, act).0, ApplyApp(db, now, f, act).1)
  {
    hide AllConfirmed, DoubtAll, Occupied, TooLong, AppAlive;
  }

  lemma WorkCallsAdvanceEpochs(db: Db, now: int, w: Work, act: WorkAct)
    ensures EpochsAdvance(db, ApplyWork(db, now, w, act).0, ApplyWork(db, now, w, act).1)
  {
    hide Held, RepairEvidence, AllAccounted, Settled;
  }

  lemma CallsAdvanceEpochs(db: Db, now: int, call: Call)
    ensures var (db', reply) := Apply(db, now, call);
            EpochsAdvance(db, db', reply) && (call.Acquire? && reply.Granted? ==> db'.app.epoch == db.app.epoch + 1)
  {
    hide ApplyApp, ApplyWork, TooLong;
    match call
    case AppCall(f, act) => AppCallsAdvanceEpochs(db, now, f, act);
    case WorkCall(w, act) => WorkCallsAdvanceEpochs(db, now, w, act);
    case _ =>
  }

  /** Epochs do not go back from one world to the next. */
  ghost predicate Newer(g: World, g': World) {
    g'.app.epoch >= g.app.epoch && forall c | c in g.chats ::
        c in g'.chats && g'.chats[c].lease.epoch >= g.chats[c].lease.epoch
  }

  lemma StepIsNewer(g: World, s: Step)
    requires Enabled(g, s)
    ensures Newer(g, Next(g, s))
  {
    StepMakesCall(g, s);
    var c := CallOf(g, s);
    if c.Some? {
      CallsAdvanceEpochs(Keys(g, c.value.0), c.value.1, c.value.2);
    }
    hide Next, Enabled, Apply, CallOf;
  }

  lemma {:induction false} RunIsNewer(g: World, steps: seq<Step>)
    requires Path(g, steps)
    ensures Newer(g, After(g, steps))
    decreases |steps|
  {
    hide Enabled, Next;
    if |steps| > 0 {
      StepIsNewer(g, steps[0]);
      RunIsNewer(Next(g, steps[0]), steps[1..]);
    }
  }

  /** Once a newer application or chat epoch is granted, every later call that
      still carries the older one is answered `lost` and changes nothing, at
      any clock reading and after any run. */
  lemma FencedForever(g: World, steps: seq<Step>, chat: ChatId, now: int, call: Call)
    requires Path(g, steps) && chat in g.chats && Stale(Keys(g, chat), call)
    ensures var g' := After(g, steps);
            chat in g'.chats && Apply(Keys(g', chat), now, call) == (Keys(g', chat), Lost)
  {
    RunIsNewer(g, steps);
    StaleIsLost(Keys(After(g, steps), chat), now, call);
  }

  /** When a chat can be claimed: an unexpired lease stands in the way only of
      the application that holds it, so another live application preempts it. */
  lemma ClaimGrantedExactly(db: Db, now: int, f: Fence, owner: OwnerId, ms: int, gapTimeout: int)
    requires Coherent(db.chat)
    ensures Claim(db, now, f, owner, ms, gapTimeout).1.Claimed? <==>
              && AppAlive(db.app, f, now)
              && db.chat.state.pause.None? && AllConfirmed(db.chat.tools)
              && (db.chat.lease.tenant != Some(f) || db.chat.lease.until <= now)
              && db.chat.state.cursor + 1 in db.chat.seqs && !TooLong(db.chat.lease.epoch + 1)
  {
    hide TooLong;
  }
}
