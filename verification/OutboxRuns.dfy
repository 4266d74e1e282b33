/** What every run of the outbox keeps, over any order of transactions, any
    clock readings and any choice of rows by the bounded statements. */
module OutboxRuns {
  import opened Common
  import opened Outbox

  // ---------------------------------------------------------------- sequences

  /** What was ever inserted in the outbox, in order. */
  datatype Issue = Issue(chat: Jid, sequence: int, key: Key)

  ghost function Count(log: seq<Issue>, chat: Jid): nat {
    if |log| == 0 then 0 else Count(log[..|log| - 1], chat) + if log[|log| - 1].chat == chat then 1 else 0
  }

  predicate Issued(log: seq<Issue>, chat: Jid, sequence: int) {
    exists i :: 0 <= i < |log| && log[i].chat == chat && log[i].sequence == sequence
  }

  /** Each sequence is the number of insertions for its chat so far. */
  ghost predicate Gapless(log: seq<Issue>) {
    forall i | 0 <= i < |log| :: log[i].sequence == Count(log[..i + 1], log[i].chat)
  }

  lemma {:induction false} CountGrows(log: seq<Issue>, i: int, j: int, chat: Jid)
    requires 0 <= i <= j <= |log|
    ensures Count(log[..i], chat) <= Count(log[..j], chat)
    ensures i < j && log[j - 1].chat == chat ==> Count(log[..i], chat) < Count(log[..j], chat)
    decreases j - i
  {
    if i < j {
      CountGrows(log, i, j - 1, chat);
      assert log[..j][..j - 1] == log[..j - 1];
    }
  }

  lemma {:induction false} Reaches(log: seq<Issue>, chat: Jid, n: int) returns (i: int)
    requires Gapless(log) && 1 <= n <= Count(log, chat)
    ensures 0 <= i < |log| && log[i].chat == chat && log[i].sequence == n
    decreases |log|
  {
    var last := |log| - 1;
    if log[last].chat == chat && Count(log, chat) == n {
      i := last;
      assert log[..last + 1] == log;
    } else {
      forall k | 0 <= k < last ensures log[..last][k].sequence == Count(log[..last][..k + 1], log[..last][k].chat) {
        assert log[..last][..k + 1] == log[..k + 1];
      }
      i := Reaches(log[..last], chat, n);
    }
  }

  lemma InRange(log: seq<Issue>, i: int)
    requires Gapless(log) && 0 <= i < |log|
    ensures 1 <= log[i].sequence <= Count(log, log[i].chat)
  {
    assert log[..|log|] == log;
    CountGrows(log, 0, i + 1, log[i].chat);
    CountGrows(log, i + 1, |log|, log[i].chat);
  }

  /** The sequences ever inserted for a chat are exactly 1 to its count. */
  lemma SequencesAreExact(log: seq<Issue>, chat: Jid, n: int)
    requires Gapless(log)
    ensures Issued(log, chat, n) <==> 1 <= n <= Count(log, chat)
  {
    if 1 <= n <= Count(log, chat) { var i := Reaches(log, chat, n); }
    if i :| 0 <= i < |log| && log[i].chat == chat && log[i].sequence == n { InRange(log, i); }
  }

  /** None is inserted twice. */
  lemma SequencesAreFresh(log: seq<Issue>, i: int, j: int)
    requires Gapless(log) && 0 <= i < j < |log|
    ensures log[i].chat == log[j].chat ==> log[i].sequence != log[j].sequence
  {
    CountGrows(log, i + 1, j + 1, log[j].chat);
  }

  lemma CountOneMore(log: seq<Issue>, issue: Issue, chat: Jid)
    ensures Count(log + [issue], chat) == Count(log, chat) + if issue.chat == chat then 1 else 0
  {
    assert (log + [issue])[..|log|] == log;
  }

  lemma GaplessOneMore(log: seq<Issue>, issue: Issue)
    requires Gapless(log) && issue.sequence == Count(log, issue.chat) + 1
    ensures Gapless(log + [issue])
  {
    var more := log + [issue];
    assert more[..|more|] == more;
    CountOneMore(log, issue, issue.chat);
    forall i | 0 <= i < |log| ensures more[i].sequence == Count(more[..i + 1], more[i].chat) {
      assert more[..i + 1] == log[..i + 1];
    }
  }

  // ---------------------------------------------------------------- the invariant

  /** At most one row per message, and one per chat and sequence. */
  ghost predicate Distinct(outbox: map<NoticeId, Notice>) {
    forall e, f | e in outbox && f in outbox && e != f ::
      outbox[e].key != outbox[f].key
          && (outbox[e].canonical != outbox[f].canonical || outbox[e].sequence != outbox[f].sequence)
  }

  /** Lease fields are set exactly when leased, the terminal time exactly when
      the row is done. */
  ghost predicate Fielded(n: Notice) {
    && (n.status == Leased <==> n.token.Some?) && (n.status == Leased <==> n.until.Some?)
    && (Terminal(n.status) <==> n.terminal.Some?)
    && 0 <= n.attempts && n.received < n.expires && 0 < n.sequence
  }

  function IssueOf(n: Notice): Issue {
    Issue(n.canonical, n.sequence, n.key)
  }

  ghost predicate RowsOk(outbox: map<NoticeId, Notice>, messages: map<Key, MessageRow>, log: seq<Issue>) {
    && Distinct(outbox)
    && forall e | e in outbox ::
         Fielded(outbox[e]) && outbox[e].key in messages && IssueOf(outbox[e]) in log
  }

  ghost predicate Counted(sequences: map<Jid, int>, log: seq<Issue>) {
    Gapless(log) && forall c :: LastSequence(sequences, c) == Count(log, c)
  }

  ghost predicate Orderly(t: Tables, log: seq<Issue>) {
    && RowsOk(t.outbox, t.messages, log) && Counted(t.sequences, log)
    && forall k | k in t.origins && t.origins[k].observed.Some? :: t.origins[k].created <= t.origins[k].observed.value
  }

  /** The log after a step: a row that was not there before was inserted. */
  ghost function Logged(t: Tables, s: Step, log: seq<Issue>): seq<Issue> {
    if s.SaveStep? && s.event !in t.outbox && s.event in Next(t, s).outbox then
      log + [IssueOf(Next(t, s).outbox[s.event])]
    else log
  }

  lemma StartIsOk()
    ensures Orderly(EMPTY, [])
  {
  }

  /** In an orderly state the constraints on an inserted row can only fail on
      a reused id, an existing row for the message, or a maximum age below the
      clock's resolution. */
  lemma InsertableExactly(t: Tables, log: seq<Issue>, m: Message, q: Request, event: NoticeId)
    requires Orderly(t, log) && ValidRequest(m, q) && m.key in t.messages
    ensures var n := NewNotice(m, q, LastSequence(t.sequences, q.canonical) + 1);
            Insertable(t, event, n) <==> event !in t.outbox && !Noticed(t.outbox, m.key) && q.maxAge >= NS_PER_US
  {
    var n := NewNotice(m, q, LastSequence(t.sequences, q.canonical) + 1);
    SequencesAreExact(log, q.canonical, n.sequence);
    assert n.sequence == Count(log, q.canonical) + 1;
    forall e | e in t.outbox ensures t.outbox[e].canonical != n.canonical || t.outbox[e].sequence != n.sequence {
      assert IssueOf(t.outbox[e]) in log;
      if t.outbox[e].canonical == n.canonical { RowsAreIssued(t, log, e); }
    }
    MicrosecondsApart(n.received, q.maxAge);
    hide Count, Gapless;
  }

  lemma RowsAreIssued(t: Tables, log: seq<Issue>, e: NoticeId)
    requires Orderly(t, log) && e in t.outbox
    ensures 1 <= t.outbox[e].sequence <= Count(log, t.outbox[e].canonical)
  {
    var i :| 0 <= i < |log| && log[i] == IssueOf(t.outbox[e]);
    InRange(log, i);
  }

  lemma MicrosecondsApart(received: int, age: int)
    requires age > 0
    ensures (received * NS_PER_US + age) / NS_PER_US > received <==> age >= NS_PER_US
  {
  }

  lemma CountedNext(sequences: map<Jid, int>, log: seq<Issue>, issue: Issue)
    requires Counted(sequences, log) && issue.sequence == LastSequence(sequences, issue.chat) + 1
    ensures Counted(sequences[issue.chat := issue.sequence], log + [issue])
  {
    GaplessOneMore(log, issue);
    hide Gapless, Count;
    forall c ensures LastSequence(sequences[issue.chat := issue.sequence], c) == Count(log + [issue], c) {
      CountOneMore(log, issue, c);
    }
  }

  lemma RowsNext(outbox: map<NoticeId, Notice>, messages: map<Key, MessageRow>, log: seq<Issue>, event: NoticeId,
      n: Notice)
    requires RowsOk(outbox, messages, log) && Fielded(n) && n.key in messages && event !in outbox
    requires !Noticed(outbox, n.key)
    requires forall e | e in outbox :: outbox[e].canonical != n.canonical || outbox[e].sequence != n.sequence
    ensures RowsOk(outbox[event := n], messages, log + [IssueOf(n)])
  {
    assert (log + [IssueOf(n)])[|log|] == IssueOf(n);
    hide Fielded;
    forall e | e in outbox ensures IssueOf(outbox[e]) in log + [IssueOf(n)] {}
  }

  lemma NotifyKeepsOk(t: Tables, log: seq<Issue>, m: Message, q: Request, event: NoticeId)
    requires Orderly(t, log) && Notify(t, m, q, event).Some?
    ensures var u := Notify(t, m, q, event).value;
            Orderly(u, log + [IssueOf(u.outbox[event])])
  {
    var n := Notify(t, m, q, event).value.outbox[event];
    CountedNext(t.sequences, log, IssueOf(n));
    RowsNext(t.outbox, t.messages, log, event, n);
    hide RowsOk, Counted, ValidRequest;
  }

  lemma MoreMessages(outbox: map<NoticeId, Notice>, messages: map<Key, MessageRow>, more: map<Key, MessageRow>,
      log: seq<Issue>)
    requires RowsOk(outbox, messages, log) && messages.Keys <= more.Keys
    ensures RowsOk(outbox, more, log)
  {
    forall e | e in outbox ensures outbox[e].key in more { assert outbox[e].key in messages.Keys; }
  }

  lemma SaveKeepsOk(t: Tables, log: seq<Issue>, s: Step)
    requires Orderly(t, log) && s.SaveStep?
    ensures Orderly(Next(t, s), Logged(t, s, log))
  {
    var u := t.(messages := Upserted(t.messages, s.m));
    assert t.messages.Keys <= u.messages.Keys;
    MoreMessages(t.outbox, t.messages, u.messages, log);
    if s.m.key in t.origins { MoreMessages(u.outbox, u.messages, Matched(u, s.m.key, s.now).messages, log); }
    if s.request.Some? && Notify(u, s.m, s.request.value, s.event).Some? {
      NotifyKeepsOk(u, log, s.m, s.request.value, s.event);
    }
    hide RowsOk, Counted, Noticed, Insertable, ValidRequest;
  }

  /** Rows change their bookkeeping only: identity and place in the log stay. */
  ghost predicate SameIdentity(n: Notice, n': Notice) {
    n'.key == n.key && n'.canonical == n.canonical && n'.sequence == n.sequence && n'.received == n.received
        && n'.expires == n.expires
  }

  lemma RowsKept(outbox: map<NoticeId, Notice>, outbox': map<NoticeId, Notice>, messages: map<Key, MessageRow>,
      log: seq<Issue>)
    requires RowsOk(outbox, messages, log)
    requires forall e | e in outbox' :: e in outbox && SameIdentity(outbox[e], outbox'[e]) && Fielded(outbox'[e])
    ensures RowsOk(outbox', messages, log)
  {
  }

  lemma RowStaysFielded(n: Notice, p: Policy, now: int, token: Token, until: int, status: Status, reason: Reason,
      next: int)
    requires Fielded(n)
    ensures Fielded(Claimed(n, token, until)) <== !Terminal(n.status)
    ensures status != Leased ==> Fielded(Settle(n, status, reason, next, now))
    ensures Fielded(Retired(n, p, now))
  {
  }

  lemma DeliveryKeepsOk(t: Tables, log: seq<Issue>, s: Step)
    requires Orderly(t, log) && (s.ClaimStep? || s.FinishStep?)
    ensures Orderly(Next(t, s), log)
  {
    hide Counted, Gapless;
    RowsKept(t.outbox, Next(t, s).outbox, t.messages, log);
    hide RowsOk;
  }

  lemma MaintainKeepsOk(t: Tables, log: seq<Issue>, s: Step)
    requires Orderly(t, log) && s.MaintainStep?
    ensures Orderly(Next(t, s), log)
  {
    hide Counted, Gapless, Retired, Due, Prunable, Redundant, AgedOut;
    var a := Retire(t.outbox, s.policy, s.sweep.retire, s.sweep.rows);
    forall e | e in a ensures SameIdentity(t.outbox[e], a[e]) && Fielded(a[e]) {
      RowStaysFielded(t.outbox[e], s.policy, s.sweep.retire, 0, 0, Dead, NoReason, 0);
      RetiredIsSame(t.outbox[e], s.policy, s.sweep.retire);
    }
    RowsKept(t.outbox, a, t.messages, log);
    RowsKept(a, Prune(a, s.sweep.prune - s.retentionMs * US_PER_MS, s.sweep.settled), t.messages, log);
    hide RowsOk;
  }

  lemma RetiredIsSame(n: Notice, p: Policy, now: int)
    ensures SameIdentity(n, Retired(n, p, now))
  {
  }

  lemma StepKeepsOk(t: Tables, log: seq<Issue>, s: Step)
    requires Orderly(t, log)
    ensures Orderly(Next(t, s), Logged(t, s, log))
  {
    match s
    case SaveStep(_, _, _, _) => SaveKeepsOk(t, log, s);
    case RegisterStep(_, _, _) => hide RowsOk, Counted;
    case MaintainStep(_, _, _, _) => MaintainKeepsOk(t, log, s);
    case _ => DeliveryKeepsOk(t, log, s);
  }

  // ---------------------------------------------------------------- runs

  ghost function After(t: Tables, steps: seq<Step>): Tables
    decreases |steps|
  {
    if |steps| == 0 then t else After(Next(t, steps[0]), steps[1..])
  }

  ghost function LogAfter(t: Tables, steps: seq<Step>, log: seq<Issue>): seq<Issue>
    decreases |steps|
  {
    if |steps| == 0 then log else LogAfter(Next(t, steps[0]), steps[1..], Logged(t, steps[0], log))
  }

  lemma {:induction false} RunKeepsOk(t: Tables, steps: seq<Step>, log: seq<Issue>)
    requires Orderly(t, log)
    ensures Orderly(After(t, steps), LogAfter(t, steps, log))
    decreases |steps|
  {
    if |steps| > 0 {
      StepKeepsOk(t, log, steps[0]);
      RunKeepsOk(Next(t, steps[0]), steps[1..], Logged(t, steps[0], log));
    }
  }

  /** In every run from empty tables: what was ever inserted for a chat is
      exactly 1 to its counter, no message has two rows, every row has its
      message, and lease and terminal fields agree with the state. */
  lemma EveryRun(steps: seq<Step>, chat: Jid, n: int, e: NoticeId, f: NoticeId)
    ensures var t := After(EMPTY, steps);
            && (Issued(LogAfter(EMPTY, steps, []), chat, n) <==> 1 <= n <= LastSequence(t.sequences, chat))
            && (e in t.outbox ==> Fielded(t.outbox[e]) && t.outbox[e].key in t.messages
                                  && 1 <= t.outbox[e].sequence <= LastSequence(t.sequences, t.outbox[e].canonical))
            && (e in t.outbox && f in t.outbox && t.outbox[e].key == t.outbox[f].key ==> e == f)
  {
    StartIsOk();
    RunKeepsOk(EMPTY, steps, []);
    var t, log := After(EMPTY, steps), LogAfter(EMPTY, steps, []);
    hide After, LogAfter, Count, Gapless;
    SequencesAreExact(log, chat, n);
    if e in t.outbox { RowsAreIssued(t, log, e); }
  }

  // ---------------------------------------------------------------- what a save does

  ghost predicate OriginNow(t: Tables, m: Message) {
    || (m.key in t.messages && t.messages[m.key].bridgeOrigin)
    || (m.fromMe && m.key in t.origins)
  }

  /** A save notifies exactly when the message is a live one, not the bridge's
      own, and has no row now; it fails exactly for invalid metadata, a reused
      id, an age below the clock's resolution or a marker from the future. */
  lemma SaveNotifiesExactly(t: Tables, log: seq<Issue>, m: Message, request: Option<Request>, event: NoticeId, now: int)
    requires Orderly(t, log) && !m.blank && event !in t.outbox
    ensures var (u, result) := Save(t, m, request, event, now);
            var wanted := request.Some? && !OriginNow(t, m) && !Noticed(t.outbox, m.key);
            && (result == Failed <==>
                  || (wanted && !(ValidRequest(m, request.value) && request.value.maxAge >= NS_PER_US))
                  || (m.fromMe && m.key in t.origins && t.origins[m.key].observed.None?
                      && now < t.origins[m.key].created
                      && !(m.key in t.messages && t.messages[m.key].bridgeOrigin)))
            && (event in u.outbox <==> wanted && result != Failed)
            && (result == Failed ==> u == t)
            && (event in u.outbox ==> u.outbox[event].key == m.key && u.outbox[event].status == Pending
                                      && u.outbox[event].sequence ==
                                          LastSequence(t.sequences, request.value.canonical) + 1)
            && (event !in u.outbox ==> u.outbox == t.outbox && u.sequences == t.sequences)
  {
    var u := t.(messages := Upserted(t.messages, m));
    MoreMessages(t.outbox, t.messages, u.messages, log);
    if m.key !in t.messages && Noticed(t.outbox, m.key) {
      assert false;
    }
    if request.Some? && ValidRequest(m, request.value) {
      InsertableExactly(u, log, m, request.value, event);
    }
    hide RowsOk, Counted, Noticed, Insertable, ValidRequest;
  }

  /** Just below the clock's resolution, a valid request is undone. */
  lemma TinyAgeIsUndone()
    ensures var m := Message(Key(1, Jid(GroupChat, 1)), false, false, true, 0);
            var q := Request(Some(0), NS_PER_US - 1, Jid(GroupChat, 1), Jid(PrivateChat, 2), None, GroupKind, false);
            ValidRequest(m, q) && Save(EMPTY, m, Some(q), 1, 0) == (EMPTY, Failed)
  {
  }

  // ---------------------------------------------------------------- how often a message is notified

  /** How many rows were ever inserted for a message. */
  ghost function Notified(log: seq<Issue>, key: Key): int {
    if |log| == 0 then 0 else Notified(log[..|log| - 1], key) + if log[|log| - 1].key == key then 1 else 0
  }

  /** The step takes the message's row away. */
  predicate Removes(t: Tables, s: Step, key: Key) {
    Noticed(t.outbox, key) && !Noticed(Next(t, s).outbox, key)
  }

  /** How many steps of a run do. */
  ghost function Removals(t: Tables, steps: seq<Step>, key: Key): int
    decreases |steps|
  {
    if |steps| == 0 then 0
    else Removals(Next(t, steps[0]), steps[1..], key) + if Removes(t, steps[0], key) then 1 else 0
  }

  function Present(t: Tables, key: Key): int {
    if Noticed(t.outbox, key) then 1 else 0
  }

  lemma NotifyingIsNew(t: Tables, m: Message, q: Request, event: NoticeId, key: Key)
    requires Notify(t, m, q, event).Some?
    ensures var u := Notify(t, m, q, event).value;
            && event !in t.outbox && event in u.outbox && u.outbox[event].key == m.key
            && !Noticed(t.outbox, m.key) && Noticed(u.outbox, m.key)
            && (key != m.key ==> (Noticed(u.outbox, key) <==> Noticed(t.outbox, key)))
  {
    var u := Notify(t, m, q, event).value;
    assert u.outbox[event].key == m.key;
    if e :| e in t.outbox && t.outbox[e].key == key { assert u.outbox[e].key == key; }
    hide ValidRequest;
  }

  /** A step inserts a row for a message exactly when it had none and has one
      afterwards. */
  lemma InsertsWhenNew(t: Tables, s: Step, log: seq<Issue>, key: Key)
    ensures Notified(Logged(t, s, log), key) ==
              Notified(log, key) + if !Noticed(t.outbox, key) && Noticed(Next(t, s).outbox, key) then 1 else 0
  {
    var u := Next(t, s);
    if s.SaveStep? {
      SavesWhenNew(t, s, key);
      if Logged(t, s, log) != log {
        var more := Logged(t, s, log);
        assert more[..|log|] == log;
      }
      hide Next;
    } else {
      forall e | e in u.outbox ensures e in t.outbox && u.outbox[e].key == t.outbox[e].key {
        KeysStay(t, s, e);
      }
      hide Next;
    }
  }

  lemma KeysStay(t: Tables, s: Step, e: NoticeId)
    requires !s.SaveStep? && e in Next(t, s).outbox
    ensures e in t.outbox && Next(t, s).outbox[e].key == t.outbox[e].key
  {
    hide Claimable, Due, Hopeless, Prunable;
  }

  lemma SavesWhenNew(t: Tables, s: Step, key: Key)
    requires s.SaveStep?
    ensures var u := Next(t, s);
            if s.event !in t.outbox && s.event in u.outbox
            then
              && (u.outbox[s.event].key == key ==> !Noticed(t.outbox, key) && Noticed(u.outbox, key))
              && (u.outbox[s.event].key != key ==> (Noticed(u.outbox, key) <==> Noticed(t.outbox, key)))
            else Noticed(u.outbox, key) <==> Noticed(t.outbox, key)
  {
    var u := t.(messages := Upserted(t.messages, s.m));
    if s.request.Some? && Notify(u, s.m, s.request.value, s.event).Some? {
      NotifyingIsNew(u, s.m, s.request.value, s.event, key);
    }
    hide Noticed, Insertable, ValidRequest, Notify;
  }

  lemma {:induction false} InsertedAndRemoved(t: Tables, steps: seq<Step>, log: seq<Issue>, key: Key)
    ensures Notified(LogAfter(t, steps, log), key) + Present(t, key) ==
            Notified(log, key) + Removals(t, steps, key) + Present(After(t, steps), key)
    decreases |steps|
  {
    if |steps| > 0 {
      InsertsWhenNew(t, steps[0], log, key);
      InsertedAndRemoved(Next(t, steps[0]), steps[1..], Logged(t, steps[0], log), key);
      hide Next, Logged, Noticed;
    }
  }

  /** In every run a message is notified exactly as often as its row was taken
      away, and once more if it has one now: at most once, then, if no row was
      taken away.  OutboxRows.SecondNoticeNeedsPruning says which steps do. */
  lemma NotifiedExactly(steps: seq<Step>, key: Key)
    ensures var times := Notified(LogAfter(EMPTY, steps, []), key);
            && times == Removals(EMPTY, steps, key) + Present(After(EMPTY, steps), key)
            && (Removals(EMPTY, steps, key) == 0 ==> times <= 1)
  {
    InsertedAndRemoved(EMPTY, steps, [], key);
  }
}
