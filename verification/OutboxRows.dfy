/** One outbox row from its insertion to its removal. */
module OutboxRows {
  import opened Common
  import opened Outbox
  import opened OutboxRuns

  function Rank(s: Status): int {
    match s
    case Leased => 2
    case Pending => 1
    case _ => 0
  }

  /** What a row has left: attempts, then the way to a final state. */
  function Remaining(n: Notice, max: int): int {
    3 * (max - n.attempts) + Rank(n.status)
  }

  /** Every claim allows at most so many attempts. */
  predicate Within(s: Step, max: int) {
    s.ClaimStep? ==> s.max <= max
  }

  /** A step that changes a row uses up some of what it has left; a row that is
      done changes no more; attempts stay within the claims' limit. */
  lemma RowMoves(t: Tables, s: Step, e: NoticeId, max: int)
    requires e in t.outbox && t.outbox[e].attempts <= max && Within(s, max) && e in Next(t, s).outbox
    ensures var n, n' := t.outbox[e], Next(t, s).outbox[e];
            && (n' == n || Remaining(n', max) < Remaining(n, max))
            && n'.attempts <= max && (Terminal(n.status) ==> n' == n)
  {
    if s.SaveStep? && s.request.Some?
        && Notify(t.(messages := Upserted(t.messages, s.m)), s.m, s.request.value, s.event).Some? {
      NotifyAdds(t.(messages := Upserted(t.messages, s.m)), s.m, s.request.value, s.event, e);
    }
    hide Noticed, Insertable, ValidRequest, Notify, Redundant, AgedOut;
  }

  lemma NotifyAdds(t: Tables, m: Message, q: Request, event: NoticeId, e: NoticeId)
    requires e in t.outbox && Notify(t, m, q, event).Some?
    ensures e in Notify(t, m, q, event).value.outbox && Notify(t, m, q, event).value.outbox[e] == t.outbox[e]
  {
  }

  /** How often a run changes a row while it exists. */
  ghost function Changes(t: Tables, steps: seq<Step>, e: NoticeId): int
    decreases |steps|
  {
    if |steps| == 0 || e !in t.outbox || e !in Next(t, steps[0]).outbox then 0
    else Changes(Next(t, steps[0]), steps[1..], e) + if Next(t, steps[0]).outbox[e] != t.outbox[e] then 1 else 0
  }

  /** Every row comes to rest: no run changes it more than three times per
      attempt it has left, and a row that is done is never changed. */
  lemma {:induction false} RowsComeToRest(t: Tables, steps: seq<Step>, e: NoticeId, max: int)
    requires e in t.outbox && t.outbox[e].attempts <= max && forall s | s in steps :: Within(s, max)
    ensures 0 <= Changes(t, steps, e) <= Remaining(t.outbox[e], max)
    ensures Terminal(t.outbox[e].status) ==> Changes(t, steps, e) == 0
    decreases |steps|
  {
    if |steps| > 0 && e in Next(t, steps[0]).outbox {
      assert steps[0] in steps;
      RowMoves(t, steps[0], e, max);
      RowsComeToRest(Next(t, steps[0]), steps[1..], e, max);
    }
    hide Next;
  }

  /** A row that is not done is never removed. */
  lemma OnlyDoneRowsGo(t: Tables, s: Step, e: NoticeId)
    requires e in t.outbox && e !in Next(t, s).outbox
    ensures s.MaintainStep?
    ensures var n := Retire(t.outbox, s.policy, s.sweep.retire, s.sweep.rows)[e];
            Terminal(n.status) && n.terminal.Some? && n.terminal.value <= s.sweep.prune - s.retentionMs * US_PER_MS
  {
    hide Noticed, Insertable, ValidRequest, Retired, Due;
  }

  /** The step prunes the message's row: maintenance picks it, done, and done
      longer ago than the retention. */
  ghost predicate Pruned(t: Tables, s: Step, key: Key) {
    && s.MaintainStep? && 1 <= s.limit <= 1000 && 1 <= s.retentionMs
    && exists e :: e in t.outbox && t.outbox[e].key == key && e in s.sweep.settled
         && Prunable(Retire(t.outbox, s.policy, s.sweep.retire, s.sweep.rows)[e],
             s.sweep.prune - s.retentionMs * US_PER_MS)
  }

  /** A message loses its row exactly by such a step. */
  lemma RemovedExactly(t: Tables, log: seq<Issue>, s: Step, key: Key)
    requires Orderly(t, log)
    ensures Removes(t, s, key) <==> Pruned(t, s, key)
  {
    if Noticed(t.outbox, key) {
      var e :| e in t.outbox && t.outbox[e].key == key;
      TheMessagesRow(t, log, s, key, e);
    }
  }

  lemma TheMessagesRow(t: Tables, log: seq<Issue>, s: Step, key: Key, e: NoticeId)
    requires Orderly(t, log) && e in t.outbox && t.outbox[e].key == key
    ensures Removes(t, s, key) <==> Pruned(t, s, key)
  {
    forall f | f in t.outbox && t.outbox[f].key == key ensures f == e { assert Distinct(t.outbox); }
    RowGoes(t, s, e);
    if e in Next(t, s).outbox {
      assert Next(t, s).outbox[e].key == key;
    } else {
      forall f | f in Next(t, s).outbox ensures Next(t, s).outbox[f].key != key { KeysStay(t, s, f); }
    }
    hide Next, Orderly, Prunable, Retire;
  }

  lemma RowGoes(t: Tables, s: Step, e: NoticeId)
    requires e in t.outbox
    ensures e in Next(t, s).outbox ==> Next(t, s).outbox[e].key == t.outbox[e].key
    ensures e !in Next(t, s).outbox <==>
            && s.MaintainStep? && 1 <= s.limit <= 1000 && 1 <= s.retentionMs && e in s.sweep.settled
            && Prunable(Retire(t.outbox, s.policy, s.sweep.retire, s.sweep.rows)[e],
                s.sweep.prune - s.retentionMs * US_PER_MS)
  {
    if s.SaveStep? && s.request.Some?
        && Notify(t.(messages := Upserted(t.messages, s.m)), s.m, s.request.value, s.event).Some? {
      NotifyAdds(t.(messages := Upserted(t.messages, s.m)), s.m, s.request.value, s.event, e);
    }
    hide ValidRequest, Insertable, Noticed, Notify, Due, Hopeless, Redundant, AgedOut, Claimable;
  }

  /** A message is notified a second time in no run but one that pruned its row
      on the way, done for the whole retention. */
  lemma SecondNoticeNeedsPruning(steps: seq<Step>, key: Key) returns (k: int)
    requires Notified(LogAfter(EMPTY, steps, []), key) >= 2
    ensures 0 <= k < |steps| && Pruned(After(EMPTY, steps[..k]), steps[k], key)
  {
    NotifiedExactly(steps, key);
    StartIsOk();
    k := SomeRemoval(EMPTY, steps, [], key);
  }

  lemma {:induction false} SomeRemoval(t: Tables, steps: seq<Step>, log: seq<Issue>, key: Key) returns (k: int)
    requires Orderly(t, log) && Removals(t, steps, key) > 0
    ensures 0 <= k < |steps| && Pruned(After(t, steps[..k]), steps[k], key)
    decreases |steps|
  {
    hide Next, Logged, Removes, Pruned, Orderly;
    if Removes(t, steps[0], key) {
      k := 0;
      RemovedExactly(t, log, steps[0], key);
    } else {
      StepKeepsOk(t, log, steps[0]);
      var rest := SomeRemoval(Next(t, steps[0]), steps[1..], Logged(t, steps[0], log), key);
      k := rest + 1;
      assert steps[..k][1..] == steps[1..][..rest];
    }
  }

  /** The token does not hold the row at this clock reading: the row is gone,
      held under another token or none, or its lease has run out. */
  predicate Spent(t: Tables, e: NoticeId, token: Token, now: int) {
    e in t.outbox && t.outbox[e].token == Some(token) ==> t.outbox[e].until.Some? && t.outbox[e].until.value <= now
  }

  lemma TokenStaysSpent(t: Tables, s: Step, e: NoticeId, token: Token, now: int)
    requires Spent(t, e, token, now) && !(s.ClaimStep? && s.token == token)
    ensures Spent(Next(t, s), e, token, now)
  {
    hide Noticed, Insertable, ValidRequest, Claimable, Due, Hopeless, Prunable;
  }

  /** Once a lease token is lost, whether the row was finished, recovered or
      claimed again, or once its lease has run out by the finish's clock, a
      finish that carries it changes nothing, in this state and in any later
      one. */
  lemma {:induction false} StaleFinishes(t: Tables, steps: seq<Step>, e: NoticeId, token: Token,
                                         status: Status, reason: Reason, next: int, now: int)
    requires Spent(t, e, token, now)
    requires forall s | s in steps :: !(s.ClaimStep? && s.token == token)
    ensures Finish(After(t, steps), e, token, status, reason, next, now) == (After(t, steps), false)
    decreases |steps|
  {
    if |steps| > 0 {
      assert steps[0] in steps;
      TokenStaysSpent(t, steps[0], e, token, now);
      StaleFinishes(Next(t, steps[0]), steps[1..], e, token, status, reason, next, now);
    }
    hide Next;
  }

  // ---------------------------------------------------------------- a false promise

  const CHAT := Jid(GroupChat, 1)
  const MESSAGE := Message(Key(1, CHAT), false, false, true, 0)
  const REQUEST := Request(Some(0), MAX_AGE, CHAT, Jid(PrivateChat, 2), None, GroupKind, false)

  const SEVEN_DAYS_MS := 7 * 24 * 3600 * 1000
  const LATER := SEVEN_DAYS_MS * US_PER_MS + 2

  const DELIVERED := [
    SaveStep(MESSAGE, Some(REQUEST), 1, 0), ClaimStep(1, {CHAT}, 5, 30000, 7, 1),
    FinishStep(1, 7, Accepted, NoReason, 2, 2),
    MaintainStep(Policy(true, {CHAT}, 5), SEVEN_DAYS_MS, 250, Sweep(LATER, LATER, LATER, LATER, {}, {1}, {}, {}))]

  const ROW := NewNotice(MESSAGE, REQUEST, 1)
  const SAVED := Tables(map[MESSAGE.key := MessageRow(false, 0, false)], map[], map[CHAT := 1], map[])

  lemma FirstIsDelivered()
    ensures Next(EMPTY, DELIVERED[0]) == SAVED.(outbox := map[1 := ROW])
    ensures After(EMPTY, DELIVERED[..3]) ==
        SAVED.(outbox := map[1 := Settle(Claimed(ROW, 7, 30000001), Accepted, NoReason, 2, 2)])
  {
    var t1 := Next(EMPTY, DELIVERED[0]);
    assert t1 == SAVED.(outbox := map[1 := ROW]);
    var t2 := Next(t1, DELIVERED[1]);
    assert t2 == SAVED.(outbox := map[1 := Claimed(ROW, 7, 30000001)]);
    var steps := DELIVERED[..3];
    assert steps[1..] == [DELIVERED[1], DELIVERED[2]] && steps[1..][1..] == [DELIVERED[2]] && [DELIVERED[2]][1..] == [];
    assert After(t1, steps[1..]) == After(t2, [DELIVERED[2]]);
    assert After(t2, [DELIVERED[2]]) == After(Next(t2, DELIVERED[2]), []);
  }

  lemma ThenPruned()
    ensures Next(SAVED.(outbox := map[1 := Settle(Claimed(ROW, 7, 30000001), Accepted, NoReason, 2, 2)]),
        DELIVERED[3]) == SAVED
  {
  }

  /** A live event that comes again after its delivered row was pruned, at the
      default retention of seven days, notifies a second time, under the next
      sequence; SaveNotifiesExactly and NotifiedExactly say when. */
  lemma PrunedRowsNotifyAgain()
    ensures var first := Next(EMPTY, DELIVERED[0]);
            var t := Next(After(EMPTY, DELIVERED[..3]), DELIVERED[3]);
            var (u, result) :=
                Save(t, MESSAGE, Some(REQUEST.(received := Some((LATER + 1) * NS_PER_US))), 2, LATER + 1);
            && 1 in first.outbox && first.outbox[1].key == MESSAGE.key && first.outbox[1].sequence == 1
            && 2 in u.outbox && u.outbox[2].key == MESSAGE.key && u.outbox[2].sequence == 2
            && result == Updated
  {
    FirstIsDelivered();
    ThenPruned();
    hide After, Next;
  }
}
