/** The bridge's own messages: registered before they are sent, they never
    notify, and tidying their markers away never shows. */
module OutboxEchoes {
  import opened Common
  import opened Outbox
  import opened OutboxRuns

  predicate Classified(t: Tables, k: Key) {
    k in t.messages && t.messages[k].bridgeOrigin
  }

  // ---------------------------------------------------------------- suppression

  /** No row, and the message is classified or its marker still waits for it. */
  predicate Guarded(t: Tables, k: Key, created: int) {
    && !Noticed(t.outbox, k)
    && if k in t.messages then t.messages[k].bridgeOrigin else k in t.origins && t.origins[k] == Origin(created, None)
  }

  /** Saves of this key are of an own message, and no sweep finds its marker
      past the retention of unobserved ones. */
  predicate Benign(s: Step, k: Key, created: int) {
    && (s.SaveStep? && s.m.key == k ==> s.m.fromMe)
    && (s.MaintainStep? ==> created > s.sweep.unobserved - UNOBSERVED_RETENTION)
  }

  lemma RegisteringGuards(t: Tables, log: seq<Issue>, id: int, chats: seq<Jid>, created: Jid -> int, c: Jid)
    requires Orderly(t, log) && Register(t, Some(id), chats, created).1 && c in chats && Key(id, c) !in t.messages
    ensures Guarded(Register(t, Some(id), chats, created).0, Key(id, c), created(c))
  {
    assert Key(id, c) in KeysFor(id, chats);
    hide Counted, Distinct;
  }

  lemma SaveGuards(t: Tables, s: Step, k: Key, created: int)
    requires Guarded(t, k, created) && Benign(s, k, created) && s.SaveStep?
    ensures Guarded(Next(t, s), k, created)
  {
    var u := t.(messages := Upserted(t.messages, s.m));
    if s.m.key != k && s.request.Some? && Notify(u, s.m, s.request.value, s.event).Some? {
      OnlyItsKey(u, s.m, s.request.value, s.event, k);
    }
    hide Noticed, Insertable, ValidRequest, Notify;
  }

  lemma OnlyItsKey(t: Tables, m: Message, q: Request, event: NoticeId, k: Key)
    requires Notify(t, m, q, event).Some? && k != m.key
    ensures var u := Notify(t, m, q, event).value;
            (Noticed(u.outbox, k) <==> Noticed(t.outbox, k)) && u.messages == t.messages && u.origins == t.origins
  {
    var u := Notify(t, m, q, event).value;
    if e :| e in t.outbox && t.outbox[e].key == k { assert u.outbox[e].key == k; }
    hide Insertable, ValidRequest;
  }

  lemma OthersGuard(t: Tables, s: Step, k: Key, created: int)
    requires Guarded(t, k, created) && Benign(s, k, created) && !s.SaveStep?
    ensures Guarded(Next(t, s), k, created)
  {
    hide Claimable, Due, Hopeless, Prunable;
    var u := Next(t, s);
    forall e | e in u.outbox ensures u.outbox[e].key != k {
      KeysStay(t, s, e);
    }
    assert !Noticed(u.outbox, k);
  }

  /** No run of live saves, history saves, duplicates, deliveries and sweeps
      notifies for a message whose marker was registered before it arrived,
      as long as that marker has not aged out. */
  lemma {:induction false} NoEchoNotifies(t: Tables, steps: seq<Step>, k: Key, created: int)
    requires Guarded(t, k, created) && forall s | s in steps :: Benign(s, k, created)
    ensures Guarded(After(t, steps), k, created)
    decreases |steps|
  {
    if |steps| > 0 {
      assert steps[0] in steps;
      if steps[0].SaveStep? { SaveGuards(t, steps[0], k, created); } else { OthersGuard(t, steps[0], k, created); }
      NoEchoNotifies(Next(t, steps[0]), steps[1..], k, created);
    }
    hide Next, Guarded, Benign;
  }

  // ---------------------------------------------------------------- tombstones

  /** The same, but for the markers of messages already classified. */
  ghost predicate Same(a: Tables, b: Tables) {
    && a.messages == b.messages && a.outbox == b.outbox && a.sequences == b.sequences
    && forall k :: !Classified(a, k) ==>
        (k in a.origins <==> k in b.origins) && (k in a.origins ==> a.origins[k] == b.origins[k])
  }

  lemma PruningIsSame(t: Tables, cutoff: int, some: set<Key>)
    ensures Same(t, PruneObserved(t, cutoff, some))
  {
  }

  /** Nobody registers an id again for a message that is already classified. */
  predicate Fresh(t: Tables, s: Step) {
    s.RegisterStep? && s.id.Some? ==> forall c | c in s.chats :: !Classified(t, Key(s.id.value, c))
  }

  lemma UpsertSame(a: Tables, b: Tables, m: Message)
    requires Same(a, b)
    ensures Same(a.(messages := Upserted(a.messages, m)), b.(messages := Upserted(b.messages, m)))
  {
  }

  lemma MatchedSame(a: Tables, b: Tables, k: Key, now: int)
    requires Same(a, b) && k in a.messages && k in a.origins && k in b.origins && !Classified(a, k)
    ensures Same(Matched(a, k, now), Matched(b, k, now))
  {
  }

  lemma SaveSame(a: Tables, b: Tables, m: Message, request: Option<Request>, event: NoticeId, now: int)
    requires Same(a, b)
    ensures Same(Save(a, m, request, event, now).0, Save(b, m, request, event, now).0)
    ensures Save(a, m, request, event, now).1 == Save(b, m, request, event, now).1
  {
    if !m.blank {
      var u, v := a.(messages := Upserted(a.messages, m)), b.(messages := Upserted(b.messages, m));
      UpsertSame(a, b, m);
      assert Classified(u, m.key) <==> Classified(a, m.key);
      if m.fromMe && !Classified(u, m.key) && m.key in a.origins { MatchedSame(u, v, m.key, now); }
      if request.Some? { NotifySame(u, v, m, request.value, event); }
      hide Noticed, Insertable, ValidRequest, Notify, Matched, Upserted;
    }
  }

  lemma NotifySame(a: Tables, b: Tables, m: Message, q: Request, event: NoticeId)
    requires a.messages == b.messages && a.outbox == b.outbox && a.sequences == b.sequences
    ensures Notify(a, m, q, event).Some? <==> Notify(b, m, q, event).Some?
    ensures Notify(a, m, q, event).Some? ==>
              Notify(a, m, q, event).value.(origins := map[]) == Notify(b, m, q, event).value.(origins := map[])
              && Notify(a, m, q, event).value.origins == a.origins && Notify(b, m, q, event).value.origins == b.origins
              && Notify(a, m, q, event).value.messages == a.messages
  {
  }

  lemma RegisterSame(a: Tables, b: Tables, s: Step)
    requires Same(a, b) && Fresh(a, s) && s.RegisterStep?
    ensures Same(Next(a, s), Next(b, s))
  {
  }

  lemma DeliverySame(a: Tables, b: Tables, s: Step)
    requires Same(a, b) && (s.ClaimStep? || s.FinishStep?)
    ensures Same(Next(a, s), Next(b, s))
  {
    hide Claimable, HeldBy;
  }

  lemma MaintainSame(a: Tables, b: Tables, s: Step)
    requires Same(a, b) && s.MaintainStep?
    ensures Same(Next(a, s), Next(b, s))
  {
    hide Retire, Prune;
  }

  lemma StepSame(a: Tables, b: Tables, s: Step)
    requires Same(a, b) && Fresh(a, s)
    ensures Same(Next(a, s), Next(b, s))
  {
    match s
    case SaveStep(m, request, event, now) => SaveSame(a, b, m, request, event, now); hide Same;
    case RegisterStep(_, _, _) => RegisterSame(a, b, s);
    case MaintainStep(_, _, _, _) => MaintainSame(a, b, s);
    case _ => DeliverySame(a, b, s);
  }

  ghost predicate AllFresh(t: Tables, steps: seq<Step>)
    decreases |steps|
  {
    |steps| == 0 || (Fresh(t, steps[0]) && AllFresh(Next(t, steps[0]), steps[1..]))
  }

  lemma {:induction false} RunSame(a: Tables, b: Tables, steps: seq<Step>)
    requires Same(a, b) && AllFresh(a, steps)
    ensures Same(After(a, steps), After(b, steps))
    decreases |steps|
  {
    if |steps| > 0 {
      StepSame(a, b, steps[0]);
      RunSame(Next(a, steps[0]), Next(b, steps[0]), steps[1..]);
    }
    hide Next, Same;
  }

  /** Deleting observed markers never changes what any later save answers, nor
      the messages, rows and sequences it leaves. */
  lemma PruningNeverShows(t: Tables, cutoff: int, some: set<Key>, steps: seq<Step>, m: Message,
      request: Option<Request>, event: NoticeId, now: int)
    requires AllFresh(t, steps)
    ensures var a, b := Save(After(t, steps), m, request, event, now),
        Save(After(PruneObserved(t, cutoff, some), steps), m, request, event, now);
            a.1 == b.1 && a.0.messages == b.0.messages && a.0.outbox == b.0.outbox && a.0.sequences == b.0.sequences
  {
    PruningIsSame(t, cutoff, some);
    RunSame(t, PruneObserved(t, cutoff, some), steps);
    SaveSame(After(t, steps), After(PruneObserved(t, cutoff, some), steps), m, request, event, now);
    hide Save, After, AllFresh;
  }
}
