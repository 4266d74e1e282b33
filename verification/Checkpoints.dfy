/** The life of the one checkpoint record a chat keeps. */
module Checkpoints {
  import opened Common
  import opened Domain
  import opened Scripts
  import opened ChatInvariant
  import opened Controller
  import opened Runs

  /** Phases move prepared, compacted, restored, or prepared, aborted; nothing
      else about a record changes. */
  ghost predicate Advances(r: CheckpointRecord, r': CheckpointRecord) {
    || r' == r
    || (r.phase == Prepared && (r'.phase.Compacted? || r'.phase == Aborted) && r' == r.(phase := r'.phase))
    || (r.phase.Compacted? && r'.phase == Restored(r.phase.entry) && r' == r.(phase := r'.phase))
  }

  /** One legal change of a chat's checkpoint key. */
  ghost predicate Legal(before: Option<CheckpointRecord>, after: Option<CheckpointRecord>) {
    || after == before
    || (before.Some? && after.Some? && Advances(before.value, after.value))
    || (after.Some? && after.value.phase == Prepared && after.value.recovery.Some?
        && (before.Some? ==> Settled(before.value.phase) && before.value.id != after.value.id))
  }

  lemma AppCallsKeepCheckpoint(db: Db, now: int, f: Fence, act: AppAct)
    ensures ApplyApp(db, now, f, act).0.chat.checkpoint == db.chat.checkpoint
  {
    hide RepairEvidence, AllConfirmed, DoubtAll, Occupied, TooLong, AppAlive;
  }

  /** How the repository builds the records it asks the script to store. */
  predicate Built(act: WorkAct) {
    match act
    case Prepare(t, _) => t.phase == Prepared
    case Advance(_, target, expected, next) => (target.Compacted? || target.Restored?)
        && next == expected.(phase := target)
    case Abort(_, _, expected, next, _) => expected.phase == Prepared && next == expected.(phase := Aborted)
    case _ => true
  }

  lemma WorkCallsAreLegal(db: Db, now: int, w: Work, act: WorkAct)
    requires Built(act)
    ensures Legal(db.chat.checkpoint, ApplyWork(db, now, w, act).0.chat.checkpoint)
  {
    hide Held, AllAccounted;
    if act.Abort? {
      AbortedFromPrepared(db.chat, act.session.chat, if act.intent.Some? then Exact(act.intent.value) else NoIntent);
      hide RepairEvidence;
    }
  }

  lemma AbortedFromPrepared(c: Chat, chat: ChatId, intent: Intent)
    ensures RepairEvidence(c, chat, intent).Ok? ==> c.checkpoint == Some(RepairEvidence(c, chat, intent).value.record)
  {
  }

  lemma StepIsLegal(g: World, s: Step, c: ChatId)
    requires Enabled(g, s) && c in g.chats
    ensures c in Next(g, s).chats && Legal(g.chats[c].checkpoint, Next(g, s).chats[c].checkpoint)
  {
    StepMakesCall(g, s);
    var made := CallOf(g, s);
    if made.Some? && made.value.0 == c {
      var (chat, now, call) := made.value;
      hide ApplyApp, ApplyWork, Next;
      match call
      case AppCall(f, act) => AppCallsKeepCheckpoint(Keys(g, c), now, f, act);
      case WorkCall(w, act) => WorkCallsAreLegal(Keys(g, c), now, w, act);
      case _ =>
    }
    hide Next, Enabled, Apply, CallOf;
  }

  /** A record and what became of it: same id, same contents, and the
      compaction entry, once named, never changes. */
  ghost predicate Descends(r: CheckpointRecord, r': CheckpointRecord) {
    && r' == r.(phase := r'.phase)
    && match r.phase
       case Prepared => true
       case Compacted(e) => r'.phase == Compacted(e) || r'.phase == Restored(e)
       case Restored(e) => r'.phase == Restored(e)
       case Aborted => r'.phase == Aborted
  }

  /** In every run, an unsettled record is either still there, further along,
      or was settled at some moment before another record took its place. */
  lemma {:induction false} UnsettledUntilSettled(g: World, steps: seq<Step>, c: ChatId, r: CheckpointRecord)
    requires Path(g, steps) && c in g.chats && g.chats[c].checkpoint == Some(r)
    ensures c in After(g, steps).chats
    ensures var last := After(g, steps).chats[c].checkpoint;
            || (last.Some? && Descends(r, last.value))
            || (exists k :: 0 <= k <= |steps| && SettledAt(g, steps, k, c, r))
    decreases |steps|
  {
    hide Enabled, Next;
    if |steps| > 0 {
      var g' := Next(g, steps[0]);
      StepIsLegal(g, steps[0], c);
      var s := g'.chats[c].checkpoint.value;
      UnsettledUntilSettled(g', steps[1..], c, s);
      if Settled(r.phase) {
        assert SettledAt(g, steps, 0, c, r);
      } else {
        assert Descends(r, s);
        if k :| 0 <= k <= |steps| - 1 && SettledAt(g', steps[1..], k, c, s) {
          PrefixShift(g, steps, k);
          assert SettledAt(g, steps, k + 1, c, r);
        }
      }
    }
  }

  /** After k steps of the run, the descendant of r in chat c was settled. */
  ghost predicate SettledAt(g: World, steps: seq<Step>, k: int, c: ChatId, r: CheckpointRecord) {
    && 0 <= k <= |steps| && Path(g, steps[..k])
    && (var h := After(g, steps[..k]);
        c in h.chats && h.chats[c].checkpoint.Some? && Descends(r, h.chats[c].checkpoint.value)
            && Settled(h.chats[c].checkpoint.value.phase))
  }

  lemma PrefixShift(g: World, steps: seq<Step>, k: int)
    requires |steps| > 0 && 0 <= k < |steps| && Enabled(g, steps[0]) && Path(Next(g, steps[0]), steps[1..][..k])
    ensures Path(g, steps[..k + 1]) && After(g, steps[..k + 1]) == After(Next(g, steps[0]), steps[1..][..k])
  {
    assert steps[..k + 1][1..] == steps[1..][..k];
  }
}
