/** The same transactions as the bridge runs them: statement by statement on
    the tables, undone when one of them fails. */
module Database {
  import opened Common
  import opened Outbox
  import Picking

  lemma AddOne(before: map<Key, Origin>, id: int, chats: seq<Jid>, c: Jid, created: Jid -> int)
    ensures before + Added(id, chats + [c], created) ==
        (before + Added(id, chats, created))[Key(id, c) := Origin(created(c), None)]
  {
    assert KeysFor(id, chats + [c]) == KeysFor(id, chats) + {Key(id, c)};
    hide KeysFor;
  }

  class Store {
    var messages: map<Key, MessageRow>
    var outbox: map<NoticeId, Notice>
    var sequences: map<Jid, int>
    var origins: map<Key, Origin>

    function View(): Tables
      reads this
    {
      Tables(messages, outbox, sequences, origins)
    }

    constructor ()
      ensures View() == EMPTY
    {
      messages, outbox, sequences, origins := map[], map[], map[], map[];
    }

    method Rollback(before: Tables)
      modifies this
      ensures View() == before
    {
      messages, outbox, sequences, origins := before.messages, before.outbox, before.sequences, before.origins;
    }

    // -------------------------------------------------------------- messages

    method SaveMessage(m: Message, request: Option<Request>, event: NoticeId, now: int) returns (result: Saved)
      modifies this
      ensures (View(), result) == Save(old(View()), m, request, event, now)
      ensures result == Failed || result == Skipped ==> View() == old(View())
      ensures forall k | k in old(messages) ::
          k in messages && (old(messages)[k].bridgeOrigin ==> messages[k].bridgeOrigin)
      ensures forall e | e in old(outbox) :: e in outbox && outbox[e] == old(outbox)[e]
      ensures forall e | e in outbox && e !in old(outbox) ::
                e == event && request.Some? && !messages[m.key].bridgeOrigin && !Noticed(old(outbox), m.key)
    {
      if m.blank { return Skipped; }
      var before := View();
      var inserted := m.key !in messages;
      var bridgeOrigin := false;
      if inserted {
        messages := messages[m.key := MessageRow(m.fromMe, m.body, false)];
        result := Inserted;
      } else {
        messages := messages[m.key := messages[m.key].(fromMe := m.fromMe, body := m.body)];
        bridgeOrigin := messages[m.key].bridgeOrigin;
        result := Updated;
      }
      if m.fromMe && !bridgeOrigin {
        var matched := ConsumeOutboundOrigin(m.key, now);
        if matched.None? {
          Rollback(before);
          return Failed;
        }
        if matched.value {
          messages := messages[m.key := messages[m.key].(bridgeOrigin := true)];
          bridgeOrigin := true;
        }
      }
      if request.None? || bridgeOrigin { return; }
      if !inserted && exists e | e in outbox :: outbox[e].key == m.key { return; }
      var ok := InsertNotification(m, request.value, event);
      if !ok {
        Rollback(before);
        return Failed;
      }
    }

    /** None: the marker would be observed before it was created. */
    method ConsumeOutboundOrigin(key: Key, now: int) returns (matched: Option<bool>)
      modifies this`origins
      ensures key !in old(origins) ==> matched == Some(false) && origins == old(origins)
      ensures key in old(origins) && old(origins)[key].observed.None? && now < old(origins)[key].created ==>
                matched == None && origins == old(origins)
      ensures key in old(origins) && !(old(origins)[key].observed.None? && now < old(origins)[key].created) ==>
                matched == Some(true)
                    && (key in messages ==> View() == Matched(old(View()), key, now).(messages := messages))
    {
      if key !in origins { return Some(false); }
      var observed := if origins[key].observed.Some? then origins[key].observed.value else now;
      if origins[key].observed.None? && observed < origins[key].created { return None; }
      origins := origins[key := origins[key].(observed := Some(observed))];
      matched := Some(true);
    }

    method InsertNotification(m: Message, q: Request, event: NoticeId) returns (ok: bool)
      requires m.key in messages
      modifies this`sequences, this`outbox
      ensures ok <==> Notify(old(View()), m, q, event).Some?
      ensures ok ==> View() == Notify(old(View()), m, q, event).value
    {
      if !ValidRequest(m, q) { return false; }
      var sequence := if q.canonical in sequences then sequences[q.canonical] + 1 else 1;
      var n := NewNotice(m, q, sequence);
      ok := Insertable(View(), event, n);
      if ok {
        sequences := sequences[q.canonical := sequence];
        outbox := outbox[event := n];
      }
    }

    // -------------------------------------------------------------- origins

    method RegisterOutboundOrigins(id: Option<int>, chats: seq<Jid>, created: Jid -> int) returns (ok: bool)
      modifies this`origins
      ensures (View(), ok) == Register(old(View()), id, chats, created)
      ensures ok ==> forall c | c in chats ::
                id.Some? && Key(id.value, c) !in old(origins) && Key(id.value, c) in origins
      ensures !ok ==> origins == old(origins)
    {
      if id.None? || chats == [] { return false; }
      var unique: seq<Jid> := [];
      var seen: set<Jid> := {};
      for i := 0 to |chats|
        invariant seen == set c | c in chats[..i]
        invariant forall c :: c in unique <==> c in seen
        invariant forall j, k | 0 <= j < k < |unique| :: unique[j] != unique[k]
        invariant forall c | c in chats[..i] :: Storable(c)
      {
        var c := chats[i];
        assert chats[..i + 1] == chats[..i] + [c];
        if !Storable(c) { assert c in chats; return false; }
        if c !in seen {
          seen := seen + {c};
          unique := unique + [c];
        }
      }
      assert chats[..|chats|] == chats;
      ok := InsertOrigins(id.value, unique, created);
      assert KeysFor(id.value, unique) == KeysFor(id.value, chats);
    }

    method InsertOrigins(id: int, unique: seq<Jid>, created: Jid -> int) returns (ok: bool)
      requires forall j, k | 0 <= j < k < |unique| :: unique[j] != unique[k]
      modifies this`origins
      ensures ok <==> forall c | c in unique :: Key(id, c) !in old(origins)
      ensures origins == if ok then old(origins) + Added(id, unique, created) else old(origins)
    {
      var before := origins;
      assert before + Added(id, unique[..0], created) == before;
      for i := 0 to |unique|
        invariant origins == before + Added(id, unique[..i], created)
        invariant forall c | c in unique[..i] :: Key(id, c) !in before
      {
        var c := unique[i];
        assert unique[..i + 1] == unique[..i] + [c];
        assert c !in unique[..i];
        assert Key(id, c) in origins <==> Key(id, c) in before;
        if Key(id, c) in origins {
          origins := before;
          return false;
        }
        AddOne(before, id, unique[..i], c, created);
        hide Added;
        origins := origins[Key(id, c) := Origin(created(c), None)];
      }
      assert unique[..|unique|] == unique;
      ok := true;
    }

    // -------------------------------------------------------------- delivery

    /** Lease the first row that may be claimed and that no other transaction
        has locked; nothing exactly when there is none.  The claim counts as an
        attempt even if nothing is ever sent. */
    method ClaimNotification(now: int, allowed: set<Jid>, max: int, ms: int, token: Token, locked: set<NoticeId>)
      returns (n: Option<Notice>, pick: NoticeId)
      modifies this`outbox
      ensures n.None? <==> max < 1 || ms < 1 || Claimables(old(outbox), now, allowed, max, locked) == {}
      ensures n.None? ==> outbox == old(outbox)
      ensures n.Some? ==>
                && (View(), n) == Claim(old(View()), now, allowed, max, ms, token, pick)
                && Picking.FirstFew(Claimables(old(outbox), now, allowed, max, locked), NextAndReceived(old(outbox)),
                    1, {pick})
                && pick in old(outbox) && Claimable(old(outbox)[pick], now, allowed, max)
                && n.value.status == Leased && n.value.token == Some(token) && n.value.attempts <= max
                && outbox == old(outbox)[pick := n.value]
    {
      n, pick := None, 0;
      if allowed == {} {
        NothingAllowed(outbox, now, max, locked);
        return;
      }
      if max < 1 || ms < 1 { return; }
      var candidates := Claimables(outbox, now, allowed, max, locked);
      RanksAreDistinct(candidates, {}, outbox, Received(outbox), Created(origins));
      var picked := Picking.Pick(candidates, NextAndReceived(outbox), 1);
      var found := TheOne(picked);
      if found.None? { return; }
      pick := found.value;
      var row := outbox[pick];
      row := row.(status := Leased, token := Some(token), until := Some(now + ms * 1000));
      row := row.(attempts := row.attempts + 1);
      outbox := outbox[pick := row];
      n := Some(row);
    }

    /** A finish takes effect exactly under the row's current lease, before it
        runs out, and settles that row and no other. */
    method FinishNotification(event: NoticeId, token: Token, status: Status, reason: Reason, next: int, now: int)
      returns (changed: bool)
      modifies this`outbox
      ensures (View(), changed) == Finish(old(View()), event, token, status, reason, next, now)
      ensures changed ==>
                && event in old(outbox) && old(outbox)[event].token == Some(token)
                    && old(outbox)[event].status == Leased
                && event in outbox && outbox[event].token.None? && outbox[event].until.None?
                    && outbox[event].status == status
                && outbox.Keys == old(outbox).Keys && forall e | e in outbox && e != event ::
                    outbox[e] == old(outbox)[e]
      ensures !changed ==> outbox == old(outbox)
    {
      if status == Leased { return false; }
      if event !in outbox || !HeldBy(outbox[event], token, now) { return false; }
      var row := outbox[event].(status := status, reason := reason, next := next);
      row := row.(terminal := if status == Pending then None else Some(now), token := None, until := None);
      outbox := outbox[event := row];
      changed := true;
    }

    // -------------------------------------------------------------- maintenance

    /** Expired leases return to pending; hopeless rows die.  Nothing else
        about a row changes. */
    method RetireRows(p: Policy, now: int, limit: nat, locked: set<NoticeId>) returns (picked: set<NoticeId>)
      modifies this`outbox
      ensures outbox == Retire(old(outbox), p, now, picked) && outbox.Keys == old(outbox).Keys
      ensures Picking.FirstFew(DueRows(old(outbox), p, now, locked), ByRow(Received(old(outbox))), limit, picked)
      ensures forall e | e in outbox :: outbox[e] == old(outbox)[e] || (e in picked && Due(old(outbox)[e], p, now))
    {
      var due := DueRows(outbox, p, now, locked);
      RanksAreDistinct(due, {}, outbox, Received(outbox), Created(origins));
      picked := Picking.Pick(due, ByRow(Received(outbox)), limit);
      hide Due, Retired;
      outbox := Retire(outbox, p, now, picked);
    }

    /** Finished rows past the cutoff go; the others stay as they are. */
    method PruneRows(cutoff: int, limit: nat, locked: set<NoticeId>) returns (picked: set<NoticeId>)
      modifies this`outbox
      ensures outbox == Prune(old(outbox), cutoff, picked)
      ensures Picking.FirstFew(PrunableRows(old(outbox), cutoff, locked), ByRow(Ended(old(outbox))), limit, picked)
      ensures forall e | e in outbox :: e in old(outbox) && outbox[e] == old(outbox)[e]
      ensures forall e | e in old(outbox) && e !in outbox :: Prunable(old(outbox)[e], cutoff)
    {
      var done := PrunableRows(outbox, cutoff, locked);
      RanksAreDistinct(done, {}, outbox, Ended(outbox), Created(origins));
      picked := Picking.Pick(done, ByRow(Ended(outbox)), limit);
      hide Prunable;
      outbox := Prune(outbox, cutoff, picked);
    }

    /** Observed markers go only when their message records its origin. */
    method PruneObservedOrigins(cutoff: int, limit: nat, locked: set<Key>) returns (picked: set<Key>)
      modifies this`origins
      ensures View() == PruneObserved(old(View()), cutoff, picked)
      ensures Picking.FirstFew(RedundantKeys(old(View()), cutoff, locked), ByKey(Observed(old(origins))), limit, picked)
      ensures forall k | k in old(origins) && k !in origins :: k in messages && messages[k].bridgeOrigin
    {
      var spare := RedundantKeys(View(), cutoff, locked);
      RanksAreDistinct({}, spare, outbox, Received(outbox), Observed(origins));
      picked := Picking.Pick(spare, ByKey(Observed(origins)), limit);
      origins := PruneObserved(View(), cutoff, picked).origins;
    }

    /** Unobserved markers go only when they have aged out. */
    method PruneUnobservedOrigins(cutoff: int, limit: nat, locked: set<Key>) returns (picked: set<Key>)
      modifies this`origins
      ensures View() == PruneUnobserved(old(View()), cutoff, picked)
      ensures Picking.FirstFew(AgedKeys(old(origins), cutoff, locked), ByKey(Created(old(origins))), limit, picked)
      ensures forall k | k in old(origins) && k !in origins :: AgedOut(old(origins)[k], cutoff)
    {
      var aged := AgedKeys(origins, cutoff, locked);
      RanksAreDistinct({}, aged, outbox, Received(outbox), Created(origins));
      picked := Picking.Pick(aged, ByKey(Created(origins)), limit);
      origins := PruneUnobserved(View(), cutoff, picked).origins;
    }

    method MaintainRows(p: Policy, now: int, cutoff: int, limit: nat, locked: set<NoticeId>)
      returns (retired: set<NoticeId>, settled: set<NoticeId>)
      modifies this`outbox
      ensures var a := Retire(old(outbox), p, now, retired);
              && outbox == Prune(a, cutoff, settled)
              && Picking.FirstFew(DueRows(old(outbox), p, now, locked), ByRow(Received(old(outbox))), limit, retired)
              && Picking.FirstFew(PrunableRows(a, cutoff, locked), ByRow(Ended(a)), limit, settled)
      ensures forall e | e in outbox :: e in old(outbox) && (outbox[e] == old(outbox)[e] || Due(old(outbox)[e], p, now))
    {
      hide Retire, Prune, DueRows, PrunableRows, Due, ByRow, Received, Ended, Picking.FirstFew;
      retired := RetireRows(p, now, limit, locked);
      settled := PruneRows(cutoff, limit, locked);
    }

    method MaintainOrigins(observed: int, unobserved: int, limit: nat, locked: set<Key>)
      returns (tombstones: set<Key>, stale: set<Key>)
      modifies this`origins
      ensures var c := PruneObserved(old(View()), observed, tombstones);
              && View() == PruneUnobserved(c, unobserved, stale)
              && Picking.FirstFew(RedundantKeys(old(View()), observed, locked), ByKey(Observed(old(origins))), limit,
                  tombstones)
              && Picking.FirstFew(AgedKeys(c.origins, unobserved, locked), ByKey(Created(c.origins)), limit, stale)
    {
      hide PruneObserved, PruneUnobserved, RedundantKeys, AgedKeys, ByKey, Observed, Created, Picking.FirstFew;
      tombstones := PruneObservedOrigins(observed, limit, locked);
      stale := PruneUnobservedOrigins(unobserved, limit, locked);
    }

    /** The four statements, each at its own clock reading (those of `clocks`)
        and on the first few of its candidates; `s` says which they picked. */
    method MaintainNotifications(p: Policy, retentionMs: int, limit: int, clocks: Sweep,
                                 rows: set<NoticeId>, keys: set<Key>) returns (ok: bool, s: Sweep)
      modifies this`outbox, this`origins
      ensures (View(), ok) == Maintain(old(View()), p, retentionMs, limit, s)
      ensures s == clocks.(rows := s.rows, settled := s.settled, tombstones := s.tombstones, stale := s.stale)
      ensures ok ==> Fair(old(View()), p, retentionMs, limit, s, rows, keys)
      ensures forall e | e in outbox ::
          e in old(outbox) && (outbox[e] == old(outbox)[e] || Due(old(outbox)[e], p, s.retire))
    {
      hide Retire, Prune, PruneObserved, PruneUnobserved, DueRows, PrunableRows, RedundantKeys, AgedKeys, Due,
        ByRow, ByKey, Received, Ended, Observed, Created, Picking.FirstFew, Fair;
      s := clocks;
      if limit < 1 || limit > 1000 || retentionMs < 1 { return false, s; }
      hide Maintain;
      ghost var before := View();
      var retired, settled := MaintainRows(p, s.retire, s.prune - retentionMs * US_PER_MS, limit, rows);
      ghost var between := View();
      var tombstones, stale :=
          MaintainOrigins(s.observed - OBSERVED_RETENTION, s.unobserved - UNOBSERVED_RETENTION, limit, keys);
      s := s.(rows := retired, settled := settled, tombstones := tombstones, stale := stale);
      MaintainsFairly(before, between, View(), p, retentionMs, limit, s, rows, keys);
      ok := true;
    }
  }

  lemma MaintainsFairly(t: Tables, u: Tables, v: Tables, p: Policy, retentionMs: int, limit: int, s: Sweep,
                        rows: set<NoticeId>, keys: set<Key>)
    requires 1 <= limit <= 1000 && retentionMs >= 1
    requires var a, cutoff := Retire(t.outbox, p, s.retire, s.rows), s.prune - retentionMs * US_PER_MS;
             && u == t.(outbox := Prune(a, cutoff, s.settled))
             && Picking.FirstFew(DueRows(t.outbox, p, s.retire, rows), ByRow(Received(t.outbox)), limit, s.rows)
             && Picking.FirstFew(PrunableRows(a, cutoff, rows), ByRow(Ended(a)), limit, s.settled)
    requires var c := PruneObserved(u, s.observed - OBSERVED_RETENTION, s.tombstones);
             && v == PruneUnobserved(c, s.unobserved - UNOBSERVED_RETENTION, s.stale)
             && Picking.FirstFew(RedundantKeys(u, s.observed - OBSERVED_RETENTION, keys), ByKey(Observed(u.origins)),
                 limit, s.tombstones)
             && Picking.FirstFew(AgedKeys(c.origins, s.unobserved - UNOBSERVED_RETENTION, keys),
                 ByKey(Created(c.origins)), limit, s.stale)
    ensures (v, true) == Maintain(t, p, retentionMs, limit, s) && Fair(t, p, retentionMs, limit, s, rows, keys)
  {
    hide Retire, Prune, PruneObserved, PruneUnobserved, DueRows, PrunableRows, RedundantKeys, AgedKeys,
      ByRow, ByKey, Received, Ended, Observed, Created, Picking.FirstFew;
    SameMarkers(t, u, s.observed - OBSERVED_RETENTION, s.tombstones, keys);
  }

  /** Rows have no part in which markers are redundant. */
  lemma SameMarkers(a: Tables, b: Tables, cutoff: int, some: set<Key>, locked: set<Key>)
    requires a.messages == b.messages && a.origins == b.origins
    ensures PruneObserved(a, cutoff, some).origins == PruneObserved(b, cutoff, some).origins
    ensures RedundantKeys(a, cutoff, locked) == RedundantKeys(b, cutoff, locked)
  {
  }

  method TheOne<T(==)>(s: set<T>) returns (x: Option<T>)
    requires |s| <= 1
    ensures x.None? <==> s == {}
    ensures x.Some? ==> s == {x.value}
  {
    x := None;
    if s != {} {
      var y :| y in s;
      assert |s - {y}| == 0;
      assert s == {y};
      x := Some(y);
    }
  }
}
