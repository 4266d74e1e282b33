/** The confirmed outcomes of a session's active branch: every attempt must be
    begun, confirmed and completed in that order, and every completed event's
    sends must be exactly its attempts. */
module History {
  import opened Common
  import opened Domain
  import opened Evidence

  const MAX_ENTRIES := 4096
  const MAX_OUTCOMES := 256

  type Outcomes = map<AttemptId, Outcome>

  // ---------------------------------------------------------------- outcomes by attempt

  ghost function Attempts(items: seq<Outcome>): set<AttemptId> {
    set i | 0 <= i < |items| :: items[i].attempt
  }

  /** No attempt is given two different outcomes. */
  ghost predicate Agree(items: seq<Outcome>) {
    forall i, j | 0 <= i < j < |items| && items[i].attempt == items[j].attempt :: items[i] == items[j]
  }

  /** The map holds exactly the items, one outcome per attempt. */
  ghost predicate Holds(all: Outcomes, items: seq<Outcome>) {
    && (forall i | 0 <= i < |items| :: items[i].attempt in all && all[items[i].attempt] == items[i])
    && (forall a | a in all :: exists i :: 0 <= i < |items| && items[i].attempt == a)
  }

  lemma SubsetSize<T>(a: set<T>, b: set<T>)
    requires a <= b
    ensures |a| <= |b|
  {
    if x :| x in a {
      SubsetSize(a - {x}, b - {x});
    }
  }

  lemma HeldKeys(all: Outcomes, items: seq<Outcome>)
    requires Holds(all, items)
    ensures all.Keys == Attempts(items) && Agree(items)
  {
    assert forall a :: a in all.Keys <==> a in Attempts(items);
  }

  lemma HoldsOneMore(all: Outcomes, items: seq<Outcome>, o: Outcome)
    requires Holds(all, items)
    ensures Agree(items + [o]) ==> o.attempt in all ==> all[o.attempt] == o
    ensures (o.attempt in all ==> all[o.attempt] == o) ==> Holds(all[o.attempt := o], items + [o])
  {
    var more := items + [o];
    if o.attempt in all {
      var i :| 0 <= i < |items| && items[i].attempt == o.attempt;
      assert more[i] == items[i] && more[|items|] == o;
    }
    forall a | a in all ensures exists i :: 0 <= i < |more| && more[i].attempt == a {
      var i :| 0 <= i < |items| && items[i].attempt == a;
      assert more[i].attempt == a;
    }
    assert more[|items|].attempt == o.attempt;
  }

  lemma PrefixFacts(items: seq<Outcome>, k: int)
    requires 0 <= k <= |items|
    ensures Agree(items) ==> Agree(items[..k])
    ensures Attempts(items[..k]) <= Attempts(items) && |Attempts(items[..k])| <= |Attempts(items)|
  {
    forall a | a in Attempts(items[..k]) ensures a in Attempts(items) {
      var i :| 0 <= i < k && items[..k][i].attempt == a;
      assert items[i].attempt == a;
    }
    SubsetSize(Attempts(items[..k]), Attempts(items));
  }

  /** `add`: one outcome per attempt, at most 256 of them. */
  method Add(have: Outcomes, o: Outcome) returns (r: Option<Outcomes>)
    ensures r.Some? <==> (o.attempt in have ==> have[o.attempt] == o) && |have[o.attempt := o]| <= MAX_OUTCOMES
    ensures r.Some? ==> r.value == have[o.attempt := o]
  {
    if o.attempt in have && have[o.attempt] != o { return None; }
    var all := have[o.attempt := o];
    if |all| > MAX_OUTCOMES { return None; }
    r := Some(all);
  }

  lemma AddMeans(all: Outcomes, items: seq<Outcome>, k: int)
    requires 0 <= k < |items| && Holds(all, items[..k])
    ensures var o := items[k];
            var fits := (o.attempt in all ==> all[o.attempt] == o) && |all[o.attempt := o]| <= MAX_OUTCOMES;
            && (fits ==> Holds(all[o.attempt := o], items[..k + 1]))
            && (Agree(items) && |Attempts(items)| <= MAX_OUTCOMES ==> fits)
  {
    var o := items[k];
    assert items[..k + 1] == items[..k] + [o];
    HoldsOneMore(all, items[..k], o);
    PrefixFacts(items, k + 1);
    if o.attempt in all ==> all[o.attempt] == o { HeldKeys(all[o.attempt := o], items[..k + 1]); }
    hide Holds, Agree, Attempts;
    assert |all[o.attempt := o].Keys| == |all[o.attempt := o]|;
  }

  method Collect(items: seq<Outcome>) returns (r: Option<Outcomes>)
    ensures r.Some? <==> Agree(items) && |Attempts(items)| <= MAX_OUTCOMES
    ensures r.Some? ==> Holds(r.value, items) && |r.value| <= MAX_OUTCOMES
  {
    r := Some(map[]);
    for k := 0 to |items|
      invariant r.Some? && Holds(r.value, items[..k]) && |r.value| <= MAX_OUTCOMES
    {
      AddMeans(r.value, items, k);
      r := Add(r.value, items[k]);
      if r.None? { return; }
    }
    assert items[..|items|] == items;
    HeldKeys(r.value, items);
    assert |r.value.Keys| == |r.value|;
  }

  /** `mergeOutcomes`: the conflict-free union of both sources, or nothing. */
  method MergeOutcomes(historical: seq<Outcome>, native: seq<Outcome>) returns (r: Option<Outcomes>)
    ensures r.Some? <==> Agree(historical + native) && |Attempts(historical + native)| <= MAX_OUTCOMES
    ensures r.Some? ==> Holds(r.value, historical + native)
  {
    r := Collect(historical + native);
  }

  // ---------------------------------------------------------------- what the branch says

  /** The last journal record of each attempt. */
  ghost function Latest(entries: seq<Entry>): map<AttemptId, JournalRecord> {
    if |entries| == 0 then map[]
    else
      var front, last := Latest(entries[..|entries| - 1]), entries[|entries| - 1].body;
      if last.Mutate? then front[last.record.state.attempt := last.record] else front
  }

  ghost predicate Finishes(entries: seq<Entry>, k: int, event: EventId) {
    0 <= k < |entries| && entries[k].body.Completed? && entries[k].body.marker.event == event
  }

  ghost predicate Finished(entries: seq<Entry>, event: EventId) {
    exists k :: Finishes(entries, k, event)
  }

  ghost predicate Bound(entries: seq<Entry>) {
    exists k :: 0 <= k < |entries| && entries[k].body.Bind?
  }

  predicate SameAttempt(a: JournalRecord, b: JournalRecord) {
    a.fp == b.fp && a.state == b.state.(status := a.state.status)
  }

  /** The attempt's record is a send the marker accounts for. */
  predicate Listed(r: JournalRecord, m: Marker) {
    && r.fp == m.fp && r.state.status.Confirmed?
    && Send(r.state.destination, r.state.status.messageId) in m.sends
  }

  predicate Sends(r: JournalRecord, event: EventId, s: Send) {
    r.state.event == event && r.state.status.Confirmed? && r.state.destination == s.destination
        && r.state.status.messageId == s.messageId
  }

  ghost predicate SentOnce(records: map<AttemptId, JournalRecord>, event: EventId, s: Send) {
    exists a :: a in records && Sends(records[a], event, s)
                && forall b | b in records && Sends(records[b], event, s) :: b == a
  }

  /** The event's attempts and the marker's sends are in bijection. */
  ghost predicate Accounts(records: map<AttemptId, JournalRecord>, m: Marker) {
    && (forall a | a in records && records[a].state.event == m.event :: Listed(records[a], m))
    && (forall i | 0 <= i < |m.sends| :: SentOnce(records, m.event, m.sends[i]))
  }

  /** What an entry may be after the entries before it. */
  ghost predicate Follows(binding: Binding, last: int, before: seq<Entry>, e: Entry) {
    match e.body
    case Bind(b) => !Bound(before) && b == binding
    case Mutate(r) =>
      && Bound(before) && r.session == binding && r.state.chat == binding.chat && !Finished(before, r.state.event)
      && (if r.state.attempt !in Latest(before) then r.state.status == Attempting
          else
            var p := Latest(before)[r.state.attempt];
            p.state.status == Attempting && r.state.status.Confirmed? && SameAttempt(p, r))
    case Completed(m) =>
      && Bound(before) && m.chat == binding.chat && m.sequence <= last && !Finished(before, m.event)
      && Accounts(Latest(before), m)
    case OtherController(_) => false
    case _ => true
  }

  ghost predicate Ordered(binding: Binding, last: int, entries: seq<Entry>) {
    forall i | 0 <= i < |entries| :: Follows(binding, last, entries[..i], entries[i])
  }

  function OutcomeOf(r: JournalRecord): Outcome
    requires r.state.status.Confirmed?
  {
    Outcome(r.state.attempt, r.state.tool, r.state.destination, r.state.status.messageId)
  }

  ghost predicate AllFinished(entries: seq<Entry>) {
    forall a | a in Latest(entries) ::
        Latest(entries)[a].state.status.Confirmed? && Finished(entries, Latest(entries)[a].state.event)
  }

  /** When the history is accepted. */
  ghost predicate Sound(binding: Binding, last: int, prior: Option<Checkpoint>, entries: seq<Entry>) {
    && 0 <= last && |entries| <= MAX_ENTRIES
    && (prior.Some? ==> prior.value.chat == binding.chat && prior.value.lastCompleted <= last)
    && Ordered(binding, last, entries) && Bound(entries) && AllFinished(entries)
    && Agree(Prior(prior))
    && (forall a, i | a in Latest(entries) && 0 <= i < |Prior(prior)| && Prior(prior)[i].attempt == a ::
          Prior(prior)[i] == OutcomeOf(Latest(entries)[a]))
    && |Attempts(Prior(prior)) + Latest(entries).Keys| <= MAX_OUTCOMES
  }

  function Prior(c: Option<Checkpoint>): seq<Outcome> {
    if c.Some? then c.value.outcomes else []
  }

  // ---------------------------------------------------------------- facts about orderly branches

  /** Each record is filed under its own attempt and comes from the branch. */
  lemma {:induction false} LatestIsLast(entries: seq<Entry>, a: AttemptId) returns (j: int)
    requires a in Latest(entries)
    ensures 0 <= j < |entries| && entries[j].body == Mutate(Latest(entries)[a]) && Latest(entries)[a].state.attempt == a
    ensures forall i | j < i < |entries| && entries[i].body.Mutate? :: entries[i].body.record.state.attempt != a
    ensures a in Latest(entries[..j + 1]) && Latest(entries[..j + 1])[a] == Latest(entries)[a]
    decreases |entries|
  {
    var n := |entries| - 1;
    if entries[n].body.Mutate? && entries[n].body.record.state.attempt == a {
      j := n;
      assert entries[..j + 1] == entries;
    } else {
      j := LatestIsLast(entries[..n], a);
      assert entries[..n][..j + 1] == entries[..j + 1];
    }
  }

  lemma {:induction false} LatestHasAll(entries: seq<Entry>, i: int)
    requires 0 <= i < |entries| && entries[i].body.Mutate?
    ensures entries[i].body.record.state.attempt in Latest(entries)
    decreases |entries|
  {
    var n := |entries| - 1;
    if i < n { LatestHasAll(entries[..n], i); }
  }

  lemma FinishedLater(entries: seq<Entry>, k: int, event: EventId)
    requires 0 <= k <= |entries| && Finished(entries[..k], event)
    ensures Finished(entries, event)
  {
    var i :| Finishes(entries[..k], i, event);
    assert Finishes(entries, i, event);
  }

  /** Once its event is completed, an attempt's record never changes. */
  lemma {:induction false} Frozen(binding: Binding, last: int, entries: seq<Entry>, k: int, a: AttemptId)
    requires Ordered(binding, last, entries) && 0 <= k <= |entries|
    requires a in Latest(entries[..k])
    ensures a in Latest(entries)
    ensures Finished(entries[..k], Latest(entries[..k])[a].state.event) ==>
        Latest(entries)[a] == Latest(entries[..k])[a]
    decreases |entries| - k
  {
    if k == |entries| {
      assert entries[..k] == entries;
    } else {
      var now, next := entries[..k], entries[..k + 1];
      assert next[..k] == now && Follows(binding, last, now, entries[k]);
      var event := Latest(now)[a].state.event;
      if Finished(now, event) { FinishedLater(next, k, event); }
      Frozen(binding, last, entries, k + 1, a);
    }
  }

  /** Every attempt of an accepted branch was begun at one entry, confirmed at a
      later one that changes nothing else, and completed after that, by a marker
      that lists its send; no other entry journals it. */
  lemma AttemptsRunInOrder(binding: Binding, last: int, entries: seq<Entry>, a: AttemptId)
    returns (i: int, j: int, k: int)
    requires Ordered(binding, last, entries) && AllFinished(entries) && a in Latest(entries)
    ensures 0 <= i < j < k < |entries|
    ensures var r := Latest(entries)[a];
            && entries[j].body == Mutate(r) && entries[i].body == Mutate(r.(state := r.state.(status := Attempting)))
            && Finishes(entries, k, r.state.event) && Listed(r, entries[k].body.marker)
    ensures forall n | 0 <= n < |entries| && entries[n].body.Mutate? && entries[n].body.record.state.attempt == a ::
        n == i || n == j
  {
    i, j := BegunAndConfirmed(binding, last, entries, a);
    var r := Latest(entries)[a];
    k :| Finishes(entries, k, r.state.event);
    CompletedOnce(binding, last, entries, k, j);
    KnownAtCompletion(binding, last, entries, k, a);
    assert Follows(binding, last, entries[..k], entries[k]);
    hide Ordered, AllFinished, Latest;
  }

  lemma BegunAndConfirmed(binding: Binding, last: int, entries: seq<Entry>, a: AttemptId) returns (i: int, j: int)
    requires Ordered(binding, last, entries) && AllFinished(entries) && a in Latest(entries)
    ensures 0 <= i < j < |entries|
    ensures var r := Latest(entries)[a];
            entries[j].body == Mutate(r) && entries[i].body == Mutate(r.(state := r.state.(status := Attempting)))
    ensures forall n | 0 <= n < |entries| && entries[n].body.Mutate? && entries[n].body.record.state.attempt == a ::
        n == i || n == j
  {
    j := LatestIsLast(entries, a);
    assert Follows(binding, last, entries[..j], entries[j]);
    i := LatestIsLast(entries[..j], a);
    assert Follows(binding, last, entries[..i], entries[i]);
    assert entries[..j][..i] == entries[..i];
    forall n | 0 <= n < i && entries[n].body.Mutate? ensures entries[n].body.record.state.attempt != a {
      LatestHasAll(entries[..i], n);
    }
    hide Ordered, Finished, Latest;
  }

  /** An event is completed once, after all its journal records. */
  lemma CompletedOnce(binding: Binding, last: int, entries: seq<Entry>, k: int, n: int)
    requires Ordered(binding, last, entries) && 0 <= k < |entries| && entries[k].body.Completed? && 0 <= n < |entries|
    ensures Finishes(entries, n, entries[k].body.marker.event) ==> n == k
    ensures entries[n].body.Mutate? && entries[n].body.record.state.event == entries[k].body.marker.event ==> n < k
  {
    var event := entries[k].body.marker.event;
    assert Follows(binding, last, entries[..k], entries[k]) && Follows(binding, last, entries[..n], entries[n]);
    if k < n { assert Finishes(entries[..n], k, event); }
    if n < k && entries[n].body.Completed? && entries[n].body.marker.event == event {
      assert Finishes(entries[..k], n, event);
    }
  }

  lemma KnownAtCompletion(binding: Binding, last: int, entries: seq<Entry>, k: int, a: AttemptId)
    requires Ordered(binding, last, entries) && 0 <= k < |entries| && entries[k].body.Completed?
    requires a in Latest(entries) && Latest(entries)[a].state.event == entries[k].body.marker.event
    ensures a in Latest(entries[..k]) && Latest(entries[..k])[a] == Latest(entries)[a]
  {
    hide Latest, Follows, Finishes;
    var j := LatestIsLast(entries, a);
    CompletedOnce(binding, last, entries, k, j);
    hide Ordered;
    var before := entries[..k];
    assert before[j] == entries[j];
    LatestHasAll(before, j);
    var n := LatestIsLast(before, a);
    assert before[n] == entries[n];
  }

  /** In an orderly branch, each completion's sends and its event's attempts
      are in bijection, over all attempts of the whole branch. */
  lemma SendsAreAttempts(binding: Binding, last: int, entries: seq<Entry>, k: int)
    requires Ordered(binding, last, entries) && 0 <= k < |entries| && entries[k].body.Completed?
    ensures Accounts(Latest(entries), entries[k].body.marker)
  {
    var m, before, all := entries[k].body.marker, Latest(entries[..k]), Latest(entries);
    assert Follows(binding, last, entries[..k], entries[k]);
    forall a | a in all && all[a].state.event == m.event ensures a in before && before[a] == all[a] {
      KnownAtCompletion(binding, last, entries, k, a);
    }
    forall a | a in before && before[a].state.event == m.event ensures a in all && all[a] == before[a] {
      Settled(binding, last, entries, k, a);
    }
    SameAccounts(before, all, m);
  }

  lemma SameAccounts(before: map<AttemptId, JournalRecord>, all: map<AttemptId, JournalRecord>, m: Marker)
    requires Accounts(before, m)
    requires forall a | a in all && all[a].state.event == m.event :: a in before && before[a] == all[a]
    requires forall a | a in before && before[a].state.event == m.event :: a in all && all[a] == before[a]
    ensures Accounts(all, m)
  {
    forall i | 0 <= i < |m.sends| ensures SentOnce(all, m.event, m.sends[i]) {
      assert SentOnce(before, m.event, m.sends[i]);
      var a :| a in before && Sends(before[a], m.event, m.sends[i]) && forall b | b in before
          && Sends(before[b], m.event, m.sends[i]) :: b == a;
      assert Sends(all[a], m.event, m.sends[i]);
    }
  }

  /** An attempt of the event a marker completes is final at that marker. */
  lemma Settled(binding: Binding, last: int, entries: seq<Entry>, k: int, a: AttemptId)
    requires Ordered(binding, last, entries) && 0 <= k < |entries| && entries[k].body.Completed?
    requires a in Latest(entries[..k]) && Latest(entries[..k])[a].state.event == entries[k].body.marker.event
    ensures a in Latest(entries) && Latest(entries)[a] == Latest(entries[..k])[a]
  {
    var next := entries[..k + 1];
    assert next[..k] == entries[..k] && Finishes(next, k, entries[k].body.marker.event);
    Frozen(binding, last, entries, k + 1, a);
  }

  // ---------------------------------------------------------------- the validator

  /** Outcomes of the completed attempts. */
  ghost function Done(entries: seq<Entry>): Outcomes {
    map a | a in Latest(entries) && Latest(entries)[a].state.status.Confirmed?
        && Finished(entries, Latest(entries)[a].state.event) ::
      OutcomeOf(Latest(entries)[a])
  }

  function SentFor(records: map<AttemptId, JournalRecord>, event: EventId): Outcomes {
    map a | a in records && records[a].state.event == event && records[a].state.status.Confirmed? ::
        OutcomeOf(records[a])
  }

  ghost predicate Filed(records: map<AttemptId, JournalRecord>) {
    forall a | a in records :: records[a].state.attempt == a
  }

  /** No key has two values. */
  ghost predicate Compatible<K, V>(have: map<K, V>, more: map<K, V>) {
    forall a | a in have && a in more :: have[a] == more[a]
  }

  /** Nothing stands in the way of adding these to the outcomes. */
  ghost predicate Fits<K, V>(have: map<K, V>, more: map<K, V>) {
    Compatible(have, more) && |have.Keys + more.Keys| <= MAX_OUTCOMES
  }

  /** `now` holds all of `have`, and of `more` all but the rest. */
  ghost predicate Covers<K(!new), V>(have: map<K, V>, more: map<K, V>, rest: set<K>, now: map<K, V>) {
    && (forall a :: a in now <==> a in have || (a in more && a !in rest))
    && (forall a | a in have :: now[a] == have[a])
    && (forall a | a in more && a !in rest :: now[a] == more[a])
  }

  lemma CoversOneMore<K(!new), V>(have: map<K, V>, more: map<K, V>, rest: set<K>, now: map<K, V>, a: K)
    requires Covers(have, more, rest, now) && a in rest
    ensures a !in more ==> Covers(have, more, rest - {a}, now)
    ensures a in more && (a in now ==> now[a] == more[a]) ==> Covers(have, more, rest - {a}, now[a := more[a]])
    ensures a in more && Fits(have, more) ==> a in now ==> now[a] == more[a]
  {
  }

  /** A map that grows inside a bounded set of keys stays within the bound. */
  lemma KeysBound<K, V>(now: map<K, V>, keys: set<K>)
    requires forall a | a in now :: a in keys
    ensures |now| <= |keys|
  {
    SubsetSize(now.Keys, keys);
    assert |now.Keys| == |now|;
  }

  lemma CoversWithin<K(!new), V>(have: map<K, V>, more: map<K, V>, rest: set<K>, now: map<K, V>)
    requires Covers(have, more, rest, now)
    ensures forall a | a in now :: a in have.Keys + more.Keys
  {
  }

  /** One more addition, when it fits and only then. */
  lemma CoversNext<K(!new), V>(have: map<K, V>, more: map<K, V>, rest: set<K>, now: map<K, V>, a: K)
    requires Covers(have, more, rest, now) && a in rest && a in more
    ensures var fits := (a in now ==> now[a] == more[a]) && |now[a := more[a]]| <= MAX_OUTCOMES;
            (fits ==> Covers(have, more, rest - {a}, now[a := more[a]])) && (Fits(have, more) ==> fits)
  {
    var next := now[a := more[a]];
    CoversOneMore(have, more, rest, now, a);
    hide Covers;
    if Covers(have, more, rest - {a}, next) {
      CoversWithin(have, more, rest - {a}, next);
      KeysBound(next, have.Keys + more.Keys);
    }
  }

  lemma CoversAll<K(!new), V>(have: map<K, V>, more: map<K, V>, now: map<K, V>)
    requires Covers(have, more, {}, now)
    ensures Compatible(have, more)
    ensures now == have + more
  {
    assert forall a :: a in have + more <==> a in have || a in more;
  }

  lemma SentForOne(records: map<AttemptId, JournalRecord>, event: EventId, a: AttemptId)
    requires a in records
    ensures a in SentFor(records, event) <==> records[a].state.event == event && records[a].state.status.Confirmed?
    ensures a in SentFor(records, event) ==> SentFor(records, event)[a] == OutcomeOf(records[a])
  {
  }

  /** The loop over all attempts when a marker completes their event. */
  method AddAttempts(records: map<AttemptId, JournalRecord>, m: Marker, have: Outcomes) returns (r: Option<Outcomes>)
    requires Filed(records) && |have| <= MAX_OUTCOMES
    ensures r.Some? <==>
              && (forall a | a in records && records[a].state.event == m.event :: Listed(records[a], m))
              && Fits(have, SentFor(records, m.event))
    ensures r.Some? ==> r.value == have + SentFor(records, m.event)
  {
    ghost var all := SentFor(records, m.event);
    var rest := records.Keys;
    r := Some(have);
    assert Covers(have, all, rest, have);
    hide SentFor, Fits, Covers, OutcomeOf, Compatible;
    while exists a :: a in rest
      invariant rest <= records.Keys && r.Some? && Covers(have, all, rest, r.value) && |r.value| <= MAX_OUTCOMES
      invariant forall a | a in records && a !in rest && records[a].state.event == m.event :: Listed(records[a], m)
      decreases rest
    {
      var a :| a in rest;
      var record := records[a];
      SentForOne(records, m.event, a);
      if record.state.event == m.event {
        if !Listed(record, m) { return None; }
        hide Listed;
        CoversNext(have, all, rest, r.value, a);
        r := Add(r.value, OutcomeOf(record));
        if r.None? { return; }
      } else {
        CoversOneMore(have, all, rest, r.value, a);
      }
      rest := rest - {a};
    }
    CoversAll(have, all, r.value);
    AllFit(have, all, r.value);
  }

  lemma AllFit<K(!new), V>(have: map<K, V>, more: map<K, V>, now: map<K, V>)
    requires Compatible(have, more) && now == have + more && |now| <= MAX_OUTCOMES
    ensures Fits(have, more)
  {
    assert now.Keys == have.Keys + more.Keys;
    assert |now.Keys| == |now|;
  }

  lemma TheOne<T>(s: set<T>) returns (a: T)
    requires |s| == 1
    ensures a in s && forall b | b in s :: b == a
  {
    a :| a in s;
    assert |s - {a}| == 0;
  }

  lemma OnlyOne<T>(s: set<T>, a: T)
    requires a in s && forall b | b in s :: b == a
    ensures |s| == 1
  {
    assert s == {a};
  }

  lemma MatchesOnce(records: map<AttemptId, JournalRecord>, event: EventId, s: Send)
    ensures SentOnce(records, event, s) <==> |set a | a in records && Sends(records[a], event, s)| == 1
  {
    var matches := set a | a in records && Sends(records[a], event, s);
    assert forall a :: a in matches <==> a in records && Sends(records[a], event, s);
    hide Sends;
    if SentOnce(records, event, s) {
      var a :| a in records && Sends(records[a], event, s) && forall b | b in records && Sends(records[b], event, s) ::
          b == a;
      OnlyOne(matches, a);
    }
    if |matches| == 1 {
      var a := TheOne(matches);
      assert a in records && Sends(records[a], event, s);
    }
  }

  /** The loop over the marker's sends: each matches exactly one attempt. */
  method MatchSends(records: map<AttemptId, JournalRecord>, m: Marker) returns (ok: bool)
    ensures ok <==> forall i | 0 <= i < |m.sends| :: SentOnce(records, m.event, m.sends[i])
  {
    for i := 0 to |m.sends|
      invariant forall j | 0 <= j < i :: SentOnce(records, m.event, m.sends[j])
    {
      var matches := set a | a in records && Sends(records[a], m.event, m.sends[i]);
      MatchesOnce(records, m.event, m.sends[i]);
      if |matches| != 1 { return false; }
    }
    ok := true;
  }

  /** The validator's local variables. */
  datatype Progress = Progress(
    bound: bool, transitions: map<AttemptId, JournalRecord>, completed: set<EventId>, outcomes: Outcomes)

  /** They say what the entries so far contain; `p` is the prior checkpoint's. */
  ghost predicate Reached(p: Outcomes, before: seq<Entry>, s: Progress) {
    && (s.bound <==> Bound(before))
    && s.transitions == Latest(before) && Filed(s.transitions)
    && (forall e :: e in s.completed <==> Finished(before, e))
    && Tallied(p, Done(before), s.outcomes)
  }

  /** The conflict-free union of both, within the limit. */
  ghost predicate Tallied<K(!new), V>(p: map<K, V>, done: map<K, V>, all: map<K, V>) {
    && all == p + done && |all| <= MAX_OUTCOMES
    && (forall a | a in p && a in done :: p[a] == done[a])
  }

  lemma OneMoreEntry(before: seq<Entry>, e: Entry)
    ensures Latest(before + [e]) == if e.body.Mutate? then Latest(before)[e.body.record.state.attempt := e.body.record]
        else Latest(before)
    ensures Bound(before + [e]) <==> Bound(before) || e.body.Bind?
    ensures forall x :: Finished(before + [e], x) <==>
        Finished(before, x) || (e.body.Completed? && e.body.marker.event == x)
  {
    var all := before + [e];
    assert all[..|all| - 1] == before && all[|before|] == e;
    forall x ensures Finished(all, x) <==> Finished(before, x) || (e.body.Completed? && e.body.marker.event == x) {
      if k :| Finishes(before, k, x) { assert Finishes(all, k, x); }
      if k :| Finishes(all, k, x) { assert k < |before| ==> Finishes(before, k, x); }
      if e.body.Completed? && e.body.marker.event == x { assert Finishes(all, |before|, x); }
    }
    if k :| 0 <= k < |before| && before[k].body.Bind? { assert all[k].body.Bind?; }
    if e.body.Bind? { assert all[|before|].body.Bind?; }
  }

  lemma DoneAfterMutate(binding: Binding, last: int, before: seq<Entry>, e: Entry)
    requires Follows(binding, last, before, e) && e.body.Mutate?
    ensures Done(before + [e]) == Done(before)
  {
    OneMoreEntry(before, e);
    hide Latest, Finished, Bound;
  }

  lemma DoneAfterCompletion(binding: Binding, last: int, before: seq<Entry>, e: Entry)
    requires Follows(binding, last, before, e) && e.body.Completed?
    ensures Done(before + [e]) == Done(before) + SentFor(Latest(before), e.body.marker.event)
    ensures Done(before).Keys !! SentFor(Latest(before), e.body.marker.event).Keys
  {
    OneMoreEntry(before, e);
    hide Latest, Finished, Bound, Listed, SentOnce;
  }

  method Consider(binding: Binding, last: int, s: Progress, e: Entry, ghost p: Outcomes, ghost before: seq<Entry>)
    returns (r: Option<Progress>)
    requires Reached(p, before, s)
    ensures r.Some? <==>
              && Follows(binding, last, before, e)
              && (e.body.Completed? ==> Fits(s.outcomes, SentFor(Latest(before), e.body.marker.event)))
    ensures r.Some? ==> Reached(p, before + [e], r.value)
  {
    OneMoreEntry(before, e);
    r := None;
    match e.body {
      case Bind(b) =>
        if s.bound || b != binding { return; }
        r := Some(s.(bound := true));
        assert Done(before + [e]) == Done(before);
      case Mutate(record) =>
        r := ConsiderRecord(binding, last, s, record, p, before, e);
      case Completed(m) =>
        r := ConsiderCompletion(binding, last, s, m, p, before, e);
      case OtherController(_) =>
      case _ =>
        r := Some(s);
        assert Done(before + [e]) == Done(before);
    }
    hide Latest, Finished, Bound;
  }

  method ConsiderRecord(binding: Binding, last: int, s: Progress, record: JournalRecord, ghost p: Outcomes,
      ghost before: seq<Entry>, ghost e: Entry)
    returns (r: Option<Progress>)
    requires Reached(p, before, s) && e.body == Mutate(record)
    ensures r.Some? <==> Follows(binding, last, before, e)
    ensures r.Some? ==> Reached(p, before + [e], r.value)
  {
    OneMoreEntry(before, e);
    hide Latest, Finished, Bound, Done;
    r := None;
    if !s.bound || record.session != binding || record.state.chat != binding.chat || record.state.event in s.completed {
      return;
    }
    var a := record.state.attempt;
    if a !in s.transitions {
      if record.state.status != Attempting { return; }
    } else {
      var prior := s.transitions[a];
      if prior.state.status != Attempting || !record.state.status.Confirmed? || !SameAttempt(prior, record) { return; }
    }
    DoneAfterMutate(binding, last, before, e);
    r := Some(s.(transitions := s.transitions[a := record]));
  }

  method ConsiderCompletion(binding: Binding, last: int, s: Progress, m: Marker, ghost p: Outcomes,
      ghost before: seq<Entry>, ghost e: Entry)
    returns (r: Option<Progress>)
    requires Reached(p, before, s) && e.body == Completed(m)
    ensures r.Some? <==> Follows(binding, last, before, e) && Fits(s.outcomes, SentFor(Latest(before), m.event))
    ensures r.Some? ==> Reached(p, before + [e], r.value)
  {
    hide Latest, Finished, Bound, Done, Listed, SentOnce, Fits, SentFor;
    r := None;
    if !s.bound || m.chat != binding.chat || m.sequence > last || m.event in s.completed { return; }
    var outcomes := AddAttempts(s.transitions, m, s.outcomes);
    if outcomes.None? { return; }
    var ok := MatchSends(s.transitions, m);
    if !ok { return; }
    ReachedAfterCompletion(binding, last, p, before, s, e, m);
    r := Some(s.(completed := s.completed + {m.event}, outcomes := outcomes.value));
  }

  lemma ReachedAfterCompletion(binding: Binding, last: int, p: Outcomes, before: seq<Entry>, s: Progress, e: Entry,
      m: Marker)
    requires Reached(p, before, s) && e.body == Completed(m) && Follows(binding, last, before, e)
    requires Fits(s.outcomes, SentFor(Latest(before), m.event))
    ensures Reached(p, before + [e],
        s.(completed := s.completed + {m.event}, outcomes := s.outcomes + SentFor(Latest(before), m.event)))
  {
    hide Latest, Finished, Bound, Done, Fits, SentFor, Follows, Tallied;
    OneMoreEntry(before, e);
    DoneAfterCompletion(binding, last, before, e);
    TalliedNext(p, Done(before), SentFor(Latest(before), m.event), s.outcomes);
  }

  lemma TalliedNext<K(!new), V>(p: map<K, V>, done: map<K, V>, more: map<K, V>, all: map<K, V>)
    requires Tallied(p, done, all) && Fits(all, more) && done.Keys !! more.Keys
    ensures Tallied(p, done + more, all + more)
  {
    SumsAssociate(p, done, more);
    FittingSize(all, more);
    StillAgrees(p, done, more);
  }

  lemma SumsAssociate<K(!new), V>(p: map<K, V>, done: map<K, V>, more: map<K, V>)
    ensures p + done + more == p + (done + more)
  {
  }

  lemma FittingSize<K(!new), V>(have: map<K, V>, more: map<K, V>)
    requires Fits(have, more)
    ensures |have + more| <= MAX_OUTCOMES
  {
    assert (have + more).Keys == have.Keys + more.Keys;
    assert |(have + more).Keys| == |have + more|;
  }

  lemma StillAgrees<K(!new), V>(p: map<K, V>, done: map<K, V>, more: map<K, V>)
    requires Fits(p + done, more) && done.Keys !! more.Keys && (forall a | a in p && a in done :: p[a] == done[a])
    ensures forall a | a in p && a in done + more :: p[a] == (done + more)[a]
  {
    forall a | a in p && a in done + more ensures p[a] == (done + more)[a] {
      assert a in p + done;
    }
  }

  /** An accepted branch never stops the loop half way. */
  lemma SoundGoesOn(binding: Binding, last: int, prior: Option<Checkpoint>, entries: seq<Entry>, p: Outcomes, k: int,
      s: Progress)
    requires Sound(binding, last, prior, entries) && Holds(p, Prior(prior)) && 0 <= k < |entries|
    requires Reached(p, entries[..k], s)
    ensures Follows(binding, last, entries[..k], entries[k])
    ensures entries[k].body.Completed? ==> Fits(s.outcomes, SentFor(Latest(entries[..k]), entries[k].body.marker.event))
  {
    assert Follows(binding, last, entries[..k], entries[k]);
    if entries[k].body.Completed? {
      var m, before := entries[k].body.marker, entries[..k];
      NewSendsAgree(binding, last, prior, entries, p, k);
      DoneAfterCompletion(binding, last, before, entries[k]);
      hide Follows, Finished, Bound, Holds;
      WithinAll(binding, last, prior, entries, p, k, s);
      hide Sound, Latest, Done, SentFor, Attempts, Compatible;
      UnionAgrees(p, Done(before), SentFor(Latest(before), m.event));
    }
  }

  lemma WithinAll(binding: Binding, last: int, prior: Option<Checkpoint>, entries: seq<Entry>, p: Outcomes, k: int,
      s: Progress)
    requires Sound(binding, last, prior, entries) && Holds(p, Prior(prior)) && 0 <= k < |entries|
        && entries[k].body.Completed?
    requires Reached(p, entries[..k], s)
    ensures |s.outcomes.Keys + SentFor(Latest(entries[..k]), entries[k].body.marker.event).Keys| <= MAX_OUTCOMES
  {
    var before := entries[..k];
    forall a | a in Latest(before) ensures a in Latest(entries) { Frozen(binding, last, entries, k, a); }
    HeldKeys(p, Prior(prior));
    hide Holds, Follows, Finished, Bound, Latest, Agree, Attempts;
    var more, all := SentFor(Latest(before), entries[k].body.marker.event),
        Attempts(Prior(prior)) + Latest(entries).Keys;
    assert more.Keys <= Latest(before).Keys && Done(before).Keys <= Latest(before).Keys <= Latest(entries).Keys;
    hide Done, SentFor;
    assert s.outcomes.Keys == p.Keys + Done(before).Keys;
    SubsetSize(s.outcomes.Keys + more.Keys, all);
  }

  lemma UnionAgrees<K(!new), V>(p: map<K, V>, done: map<K, V>, more: map<K, V>)
    requires done.Keys !! more.Keys && Compatible(p, more)
    ensures Compatible(p + done, more)
  {
  }

  lemma NewSendsAgree(binding: Binding, last: int, prior: Option<Checkpoint>, entries: seq<Entry>, p: Outcomes, k: int)
    requires Sound(binding, last, prior, entries) && Holds(p, Prior(prior)) && 0 <= k < |entries|
        && entries[k].body.Completed?
    ensures Compatible(p, SentFor(Latest(entries[..k]), entries[k].body.marker.event))
  {
    var m, before := entries[k].body.marker, entries[..k];
    forall a | a in p && a in SentFor(Latest(before), m.event) ensures p[a] == SentFor(Latest(before), m.event)[a] {
      Settled(binding, last, entries, k, a);
      var i :| 0 <= i < |Prior(prior)| && Prior(prior)[i].attempt == a;
    }
  }

  /** The result: the prior outcomes and those of the branch's attempts. */
  ghost predicate Exactly(all: Outcomes, prior: seq<Outcome>, records: map<AttemptId, JournalRecord>) {
    && (forall a :: a in all <==> a in Attempts(prior) || a in records)
    && (forall i | 0 <= i < |prior| :: prior[i].attempt in all && all[prior[i].attempt] == prior[i])
    && (forall a | a in records :: records[a].state.status.Confirmed? && all[a] == OutcomeOf(records[a]))
  }

  lemma AllDone(entries: seq<Entry>)
    requires AllFinished(entries)
    ensures forall a | a in Latest(entries) :: Latest(entries)[a].state.status.Confirmed?
    ensures Done(entries) == SentOf(Latest(entries))
  {
    hide Latest, Finished;
    forall a ensures a in Done(entries) <==> a in SentOf(Latest(entries)) {}
  }

  ghost function SentOf(records: map<AttemptId, JournalRecord>): Outcomes {
    map a | a in records && records[a].state.status.Confirmed? :: OutcomeOf(records[a])
  }

  lemma KeysOfAll<K(!new), V>(p: map<K, V>, done: map<K, V>, all: map<K, V>)
    requires Tallied(p, done, all)
    ensures all.Keys == p.Keys + done.Keys && |all.Keys| <= MAX_OUTCOMES
    ensures forall a | a in p :: a in all && all[a] == p[a]
    ensures forall a | a in done :: a in all && all[a] == done[a]
  {
    assert |all.Keys| == |all|;
  }

  lemma SentOfAll(records: map<AttemptId, JournalRecord>)
    requires forall a | a in records :: records[a].state.status.Confirmed?
    ensures SentOf(records).Keys == records.Keys
    ensures forall a | a in records :: a in SentOf(records) && SentOf(records)[a] == OutcomeOf(records[a])
  {
    hide OutcomeOf;
    forall a ensures a in SentOf(records).Keys <==> a in records.Keys {}
  }

  lemma TalliedExactly(prior: seq<Outcome>, p: Outcomes, records: map<AttemptId, JournalRecord>, all: Outcomes)
    requires Tallied(p, SentOf(records), all) && Holds(p, prior)
    requires forall a | a in records :: records[a].state.status.Confirmed?
    ensures Exactly(all, prior, records) && |Attempts(prior) + records.Keys| <= MAX_OUTCOMES
  {
    HeldKeys(p, prior);
    SentOfAll(records);
    hide Tallied, SentOf, OutcomeOf, Attempts, Agree;
    KeysOfAll(p, SentOf(records), all);
    assert all.Keys == Attempts(prior) + records.Keys;
    forall a ensures a in all <==> a in Attempts(prior) || a in records {
      assert a in all <==> a in all.Keys;
    }
  }

  lemma SoundAtTheEnd(prior: seq<Outcome>, entries: seq<Entry>, p: Outcomes, s: Progress)
    requires Reached(p, entries, s) && Holds(p, prior) && AllFinished(entries)
    ensures Exactly(s.outcomes, prior, Latest(entries))
    ensures |Attempts(prior) + Latest(entries).Keys| <= MAX_OUTCOMES
    ensures forall a, i | a in Latest(entries) && 0 <= i < |prior| && prior[i].attempt == a ::
        prior[i] == OutcomeOf(Latest(entries)[a])
  {
    hide Latest, Done, Finished, Bound, OutcomeOf, AllFinished, Attempts, Tallied, Holds, SentOf, Filed;
    AllDone(entries);
    TalliedExactly(prior, p, Latest(entries), s.outcomes);
    hide Reached;
  }

  lemma PriorIsCollected(binding: Binding, last: int, prior: Option<Checkpoint>, entries: seq<Entry>)
    ensures Sound(binding, last, prior, entries) ==>
        Agree(Prior(prior)) && |Attempts(Prior(prior))| <= MAX_OUTCOMES
  {
    hide Ordered, Bound, AllFinished, Agree;
    SubsetSize(Attempts(Prior(prior)), Attempts(Prior(prior)) + Latest(entries).Keys);
  }

  method ConfirmedHistory(entries: seq<Entry>, binding: Binding, last: int, prior: Option<Checkpoint>)
    returns (r: Option<Outcomes>)
    ensures r.Some? <==> Sound(binding, last, prior, entries)
    ensures r.Some? ==> Exactly(r.value, Prior(prior), Latest(entries))
  {
    r := None;
    if last < 0 || |entries| > MAX_ENTRIES { return; }
    if prior.Some? && (prior.value.chat != binding.chat || prior.value.lastCompleted > last) { return; }
    var known := Collect(Prior(prior));
    PriorIsCollected(binding, last, prior, entries);
    if known.None? { return; }
    HeldKeys(known.value, Prior(prior));
    hide Holds, Reached, Follows, Attempts, Agree, Latest, Bound, Finished, Fits, SentFor, AllFinished, Exactly,
        OutcomeOf;
    var s := Replay(entries, binding, last, prior, known.value);
    if s.None? { return; }
    var done := AllTransitionsDone(entries, known.value, s.value);
    if !s.value.bound || !done { return; }
    SoundAtTheEnd(Prior(prior), entries, known.value, s.value);
    r := Some(s.value.outcomes);
  }

  method AllTransitionsDone(entries: seq<Entry>, p: Outcomes, s: Progress) returns (ok: bool)
    requires Reached(p, entries, s)
    ensures ok <==> AllFinished(entries)
    ensures s.bound <==> Bound(entries)
  {
    ok := forall a | a in s.transitions ::
        s.transitions[a].state.status.Confirmed? && s.transitions[a].state.event in s.completed;
  }

  /** The loop over the branch. */
  method Replay(entries: seq<Entry>, binding: Binding, last: int, prior: Option<Checkpoint>, p: Outcomes)
    returns (r: Option<Progress>)
    requires Holds(p, Prior(prior)) && |p| <= MAX_OUTCOMES
    ensures Sound(binding, last, prior, entries) ==> r.Some?
    ensures r.Some? ==> Ordered(binding, last, entries) && Reached(p, entries, r.value)
  {
    hide Holds, Reached, Follows, Sound, Fits, SentFor, Latest, Bound;
    var s := Progress(false, map[], {}, p);
    StartIsReached(p, s);
    assert entries[..0] == [];
    for k := 0 to |entries|
      invariant Reached(p, entries[..k], s)
      invariant forall i | 0 <= i < k :: Follows(binding, last, entries[..i], entries[i])
    {
      if Sound(binding, last, prior, entries) { SoundGoesOn(binding, last, prior, entries, p, k, s); }
      assert entries[..k + 1] == entries[..k] + [entries[k]];
      r := Consider(binding, last, s, entries[k], p, entries[..k]);
      if r.None? { return; }
      s := r.value;
    }
    assert entries[..|entries|] == entries;
    r := Some(s);
  }

  lemma StartIsReached(p: Outcomes, s: Progress)
    requires s == Progress(false, map[], {}, p) && |p| <= MAX_OUTCOMES
    ensures Reached(p, [], s)
  {
    assert p + Done([]) == p;
  }
}
