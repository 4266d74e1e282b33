/** The bridge's notification outbox as functions from the four tables a
    transaction may touch to the new tables and a result.  Every clock reading
    is an argument; nothing relates two readings. */
module Outbox {
  import opened Common
  import Picking

  type NoticeId = int
  type Token = int

  datatype JidKind = GroupChat | PrivateChat | ServiceParticipant | Unroutable

  datatype Jid = Jid(kind: JidKind, number: int)

  /** A message's primary key. */
  datatype Key = Key(id: int, chat: Jid)

  datatype MessageRow = MessageRow(fromMe: bool, body: int, bridgeOrigin: bool)

  datatype Status = Pending | Leased | Accepted | Ignored | Dead

  datatype Reason = NoReason | Reported(code: int) | Expired | PolicyRemoved | AttemptsExhausted | LeaseExpired

  /** One outbox row.  Times are in microseconds, as the columns keep them. */
  datatype Notice = Notice(
    key: Key, canonical: Jid, sequence: int, received: int, expires: int,
    status: Status, attempts: int, next: int, token: Option<Token>, until: Option<int>, terminal: Option<int>,
        reason: Reason)

  datatype Origin = Origin(created: int, observed: Option<int>)

  datatype Tables = Tables(
    messages: map<Key, MessageRow>, outbox: map<NoticeId, Notice>, sequences: map<Jid, int>, origins: map<Key, Origin>)

  const EMPTY := Tables(map[], map[], map[], map[])

  // ---------------------------------------------------------------- requests

  /** `blank` has neither content nor media; `dated` has a timestamp. */
  datatype Message = Message(key: Key, fromMe: bool, blank: bool, dated: bool, body: int)

  datatype ChatKind = GroupKind | OperatorPrivate | OtherKind

  /** `received` and `maxAge` are in nanoseconds. */
  datatype Request = Request(
    received: Option<int>, maxAge: int, canonical: Jid, sender: Jid, senderAlt: Option<Jid>, kind: ChatKind,
        fromMe: bool)

  const MAX_AGE := 7 * 24 * 3600 * 1000000000
  const NS_PER_US := 1000

  predicate Participant(j: Jid) {
    j.kind == PrivateChat || j.kind == ServiceParticipant
  }

  predicate ValidRequest(m: Message, q: Request) {
    && m.dated && q.received.Some? && 0 < q.maxAge <= MAX_AGE && q.fromMe == m.fromMe
    && Participant(q.sender) && (q.senderAlt.Some? ==> Participant(q.senderAlt.value))
    && match q.kind
       case GroupKind => m.key.chat.kind == GroupChat && q.canonical == m.key.chat
       case OperatorPrivate => m.key.chat.kind == PrivateChat && q.canonical.kind == PrivateChat
       case OtherKind => false
  }

  // ---------------------------------------------------------------- saving a message

  datatype Saved = Skipped | Inserted | Updated | Failed

  predicate Noticed(outbox: map<NoticeId, Notice>, key: Key) {
    exists e | e in outbox :: outbox[e].key == key
  }

  function LastSequence(sequences: map<Jid, int>, chat: Jid): int {
    if chat in sequences then sequences[chat] else 0
  }

  /** The constraints an inserted row is checked against. */
  predicate Insertable(t: Tables, event: NoticeId, n: Notice) {
    && event !in t.outbox && !Noticed(t.outbox, n.key) && n.key in t.messages && n.expires > n.received
    && n.sequence > 0 && forall e | e in t.outbox ::
        t.outbox[e].canonical != n.canonical || t.outbox[e].sequence != n.sequence
  }

  function NewNotice(m: Message, q: Request, sequence: int): Notice
    requires q.received.Some?
  {
    var received := q.received.value / NS_PER_US;
    Notice(m.key, q.canonical, sequence, received, (received * NS_PER_US + q.maxAge) / NS_PER_US,
           Pending, 0, received, None, None, None, NoReason)
  }

  function Upserted(messages: map<Key, MessageRow>, m: Message): map<Key, MessageRow> {
    messages[m.key := MessageRow(m.fromMe, m.body, m.key in messages && messages[m.key].bridgeOrigin)]
  }

  /** A marker that matches: it is observed and the message classified. */
  function Matched(t: Tables, key: Key, now: int): Tables
    requires key in t.messages && key in t.origins
  {
    var o := t.origins[key];
    t.(origins := t.origins[key := o.(observed := Some(if o.observed.Some? then o.observed.value else now))],
       messages := t.messages[key := t.messages[key].(bridgeOrigin := true)])
  }

  function Notify(t: Tables, m: Message, q: Request, event: NoticeId): Option<Tables> {
    if !ValidRequest(m, q) then None
    else
      var sequence := LastSequence(t.sequences, q.canonical) + 1;
      var n := NewNotice(m, q, sequence);
      if !Insertable(t, event, n) then None
      else Some(t.(sequences := t.sequences[q.canonical := sequence], outbox := t.outbox[event := n]))
  }

  /** `now` is the clock as the marker statement reads it, `event` the fresh id. */
  function Save(t: Tables, m: Message, request: Option<Request>, event: NoticeId, now: int): (Tables, Saved) {
    if m.blank then (t, Skipped)
    else
      var result := if m.key in t.messages then Updated else Inserted;
      var u := t.(messages := Upserted(t.messages, m));
      if m.fromMe && !u.messages[m.key].bridgeOrigin && m.key in t.origins then
        if t.origins[m.key].observed.None? && now < t.origins[m.key].created then (t, Failed)
        else (Matched(u, m.key, now), result)
      else if request.None? || u.messages[m.key].bridgeOrigin then (u, result)
      else if result == Updated && Noticed(u.outbox, m.key) then (u, result)
      else
        match Notify(u, m, request.value, event)
        case None => (t, Failed)
        case Some(v) => (v, result)
  }

  // ---------------------------------------------------------------- outbound origins

  predicate Storable(j: Jid) {
    j.kind == GroupChat || j.kind == PrivateChat
  }

  function KeysFor(id: int, chats: seq<Jid>): set<Key> {
    set c | c in chats :: Key(id, c)
  }

  function Added(id: int, chats: seq<Jid>, created: Jid -> int): map<Key, Origin> {
    map k | k in KeysFor(id, chats) :: Origin(created(k.chat), None)
  }

  /** `created` is the clock as each row's default reads it. */
  function Register(t: Tables, id: Option<int>, chats: seq<Jid>, created: Jid -> int): (Tables, bool) {
    if id.None? || chats == [] || exists c | c in chats :: !Storable(c) then (t, false)
    else if exists c | c in chats :: Key(id.value, c) in t.origins then (t, false)
    else (t.(origins := t.origins + Added(id.value, chats, created)), true)
  }

  // ---------------------------------------------------------------- delivery

  predicate Claimable(n: Notice, now: int, allowed: set<Jid>, max: int) {
    n.status == Pending && n.next <= now && n.expires > now && n.attempts < max && n.key.chat in allowed
  }

  function Claimed(n: Notice, token: Token, until: int): Notice {
    n.(status := Leased, token := Some(token), until := Some(until), attempts := n.attempts + 1)
  }

  /** `pick` is the row the query settled on, if any. */
  function Claim(t: Tables, now: int, allowed: set<Jid>, max: int, ms: int, token: Token, pick: NoticeId): (Tables,
      Option<Notice>) {
    if max < 1 || ms < 1 || pick !in t.outbox || !Claimable(t.outbox[pick], now, allowed, max) then (t, None)
    else
      var n := Claimed(t.outbox[pick], token, now + ms * 1000);
      (t.(outbox := t.outbox[pick := n]), Some(n))
  }

  predicate Terminal(s: Status) {
    s == Accepted || s == Ignored || s == Dead
  }

  /** The row is leased under this token and the lease has not run out. */
  predicate HeldBy(n: Notice, token: Token, now: int) {
    n.status == Leased && n.token == Some(token) && n.until.Some? && n.until.value > now
  }

  function Settle(n: Notice, status: Status, reason: Reason, next: int, now: int): Notice {
    n.(status := status, reason := reason, next := next, terminal := if status == Pending then None
        else Some(now), token := None, until := None)
  }

  function Finish(t: Tables, event: NoticeId, token: Token, status: Status, reason: Reason, next: int,
      now: int): (Tables, bool) {
    if status == Leased || event !in t.outbox || !HeldBy(t.outbox[event], token, now) then (t, false)
    else (t.(outbox := t.outbox[event := Settle(t.outbox[event], status, reason, next, now)]), true)
  }

  // ---------------------------------------------------------------- maintenance

  datatype Policy = Policy(enabled: bool, allowed: set<Jid>, max: int)

  predicate Hopeless(n: Notice, p: Policy, now: int) {
    n.expires <= now || (p.enabled && (n.attempts >= p.max || n.key.chat !in p.allowed))
  }

  predicate Due(n: Notice, p: Policy, now: int) {
    || (n.status == Pending && Hopeless(n, p, now))
    || (n.status == Leased && n.until.Some? && n.until.value <= now)
  }

  function Retired(n: Notice, p: Policy, now: int): Notice {
    var reason :=
      if n.expires <= now then Expired
      else if p.enabled && n.key.chat !in p.allowed then PolicyRemoved
      else if p.enabled && n.attempts >= p.max then AttemptsExhausted
      else LeaseExpired;
    if Hopeless(n, p, now) then n.(status := Dead, reason := reason, terminal := Some(now), token := None,
        until := None)
    else n.(status := Pending, reason := reason, terminal := None, token := None, until := None)
  }

  /** The statements handle at most so many rows: `some` is what they picked. */
  function Retire(outbox: map<NoticeId, Notice>, p: Policy, now: int, some: set<NoticeId>): map<NoticeId, Notice> {
    map e | e in outbox :: if e in some && Due(outbox[e], p, now) then Retired(outbox[e], p, now) else outbox[e]
  }

  predicate Prunable(n: Notice, cutoff: int) {
    Terminal(n.status) && n.terminal.Some? && n.terminal.value <= cutoff
  }

  function Prune(outbox: map<NoticeId, Notice>, cutoff: int, some: set<NoticeId>): map<NoticeId, Notice> {
    map e | e in outbox && !(e in some && Prunable(outbox[e], cutoff)) :: outbox[e]
  }

  /** An observed marker whose message durably records its origin. */
  predicate Redundant(t: Tables, k: Key, cutoff: int)
    requires k in t.origins
  {
    t.origins[k].observed.Some? && t.origins[k].observed.value <= cutoff && k in t.messages
        && t.messages[k].bridgeOrigin
  }

  function PruneObserved(t: Tables, cutoff: int, some: set<Key>): Tables {
    t.(origins := map k | k in t.origins && !(k in some && Redundant(t, k, cutoff)) :: t.origins[k])
  }

  predicate AgedOut(o: Origin, cutoff: int) {
    o.observed.None? && o.created <= cutoff
  }

  function PruneUnobserved(t: Tables, cutoff: int, some: set<Key>): Tables {
    t.(origins := map k | k in t.origins && !(k in some && AgedOut(t.origins[k], cutoff)) :: t.origins[k])
  }

  const US_PER_MS := 1000
  const DAY := 24 * 3600 * 1000000
  const UNOBSERVED_RETENTION := 90 * DAY
  const OBSERVED_RETENTION := 7 * DAY

  /** The clock as each of the four statements reads it, and the rows each of
      them picked. */
  datatype Sweep = Sweep(
    retire: int, prune: int, observed: int, unobserved: int,
    rows: set<NoticeId>, settled: set<NoticeId>, tombstones: set<Key>, stale: set<Key>)

  function Maintain(t: Tables, p: Policy, retentionMs: int, limit: int, s: Sweep): (Tables, bool) {
    if limit < 1 || limit > 1000 || retentionMs < 1 then (t, false)
    else
      var a := t.(outbox := Retire(t.outbox, p, s.retire, s.rows));
      var b := a.(outbox := Prune(a.outbox, s.prune - retentionMs * US_PER_MS, s.settled));
      var c := PruneObserved(b, s.observed - OBSERVED_RETENTION, s.tombstones);
      (PruneUnobserved(c, s.unobserved - UNOBSERVED_RETENTION, s.stale), true)
  }

  // ---------------------------------------------------------------- what the statements pick

  /** Rows by a column and then by id. */
  function ByRow(column: NoticeId -> int): NoticeId -> Picking.Rank {
    e => Picking.Rank(column(e), e, 0, 0)
  }

  function KindRank(k: JidKind): int {
    match k case GroupChat => 0 case PrivateChat => 1 case ServiceParticipant => 2 case Unroutable => 3
  }

  /** Markers by a column, then by message id and chat. */
  function ByKey(column: Key -> int): Key -> Picking.Rank {
    k => Picking.Rank(column(k), k.id, KindRank(k.chat.kind), k.chat.number)
  }

  function NextAndReceived(outbox: map<NoticeId, Notice>): NoticeId -> Picking.Rank {
    e => if e in outbox then Picking.Rank(outbox[e].next, outbox[e].received, e, 0) else Picking.Rank(0, 0, e, 0)
  }

  function Received(outbox: map<NoticeId, Notice>): NoticeId -> int {
    e => if e in outbox then outbox[e].received else 0
  }

  function Ended(outbox: map<NoticeId, Notice>): NoticeId -> int {
    e => if e in outbox && outbox[e].terminal.Some? then outbox[e].terminal.value else 0
  }

  function Created(origins: map<Key, Origin>): Key -> int {
    k => if k in origins then origins[k].created else 0
  }

  function Observed(origins: map<Key, Origin>): Key -> int {
    k => if k in origins && origins[k].observed.Some? then origins[k].observed.value else 0
  }

  lemma RanksAreDistinct(rows: set<NoticeId>, keys: set<Key>, outbox: map<NoticeId, Notice>, column: NoticeId -> int,
      other: Key -> int)
    ensures Picking.Ranked(rows, ByRow(column)) && Picking.Ranked(rows, NextAndReceived(outbox))
    ensures Picking.Ranked(keys, ByKey(other))
  {
  }

  function Claimables(outbox: map<NoticeId, Notice>, now: int, allowed: set<Jid>, max: int,
      locked: set<NoticeId>): set<NoticeId> {
    set e | e in outbox && e !in locked && Claimable(outbox[e], now, allowed, max)
  }

  lemma NothingAllowed(outbox: map<NoticeId, Notice>, now: int, max: int, locked: set<NoticeId>)
    ensures Claimables(outbox, now, {}, max, locked) == {}
  {
    forall e ensures e !in Claimables(outbox, now, {}, max, locked) {}
  }

  function DueRows(outbox: map<NoticeId, Notice>, p: Policy, now: int, locked: set<NoticeId>): set<NoticeId> {
    set e | e in outbox && e !in locked && Due(outbox[e], p, now)
  }

  function PrunableRows(outbox: map<NoticeId, Notice>, cutoff: int, locked: set<NoticeId>): set<NoticeId> {
    set e | e in outbox && e !in locked && Prunable(outbox[e], cutoff)
  }

  function RedundantKeys(t: Tables, cutoff: int, locked: set<Key>): set<Key> {
    set k | k in t.origins && k !in locked && Redundant(t, k, cutoff)
  }

  function AgedKeys(origins: map<Key, Origin>, cutoff: int, locked: set<Key>): set<Key> {
    set k | k in origins && k !in locked && AgedOut(origins[k], cutoff)
  }

  /** Each statement picks the first few of its candidates, in its order, that
      no other transaction has locked. */
  ghost predicate Fair(t: Tables, p: Policy, retentionMs: int, limit: int, s: Sweep, rows: set<NoticeId>,
      keys: set<Key>) {
    var a := Retire(t.outbox, p, s.retire, s.rows);
    var prune := s.prune - retentionMs * US_PER_MS;
    var c := PruneObserved(t, s.observed - OBSERVED_RETENTION, s.tombstones).origins;
    && Picking.FirstFew(DueRows(t.outbox, p, s.retire, rows), ByRow(Received(t.outbox)), limit, s.rows)
    && Picking.FirstFew(PrunableRows(a, prune, rows), ByRow(Ended(a)), limit, s.settled)
    && Picking.FirstFew(RedundantKeys(t, s.observed - OBSERVED_RETENTION, keys), ByKey(Observed(t.origins)), limit,
        s.tombstones)
    && Picking.FirstFew(AgedKeys(c, s.unobserved - UNOBSERVED_RETENTION, keys), ByKey(Created(c)), limit, s.stale)
  }

  // ---------------------------------------------------------------- transactions

  datatype Step =
    | SaveStep(m: Message, request: Option<Request>, event: NoticeId, now: int)
    | RegisterStep(id: Option<int>, chats: seq<Jid>, created: Jid -> int)
    | ClaimStep(now: int, allowed: set<Jid>, max: int, ms: int, token: Token, pick: NoticeId)
    | FinishStep(event: NoticeId, token: Token, status: Status, reason: Reason, next: int, now: int)
    | MaintainStep(policy: Policy, retentionMs: int, limit: int, sweep: Sweep)

  function Next(t: Tables, s: Step): Tables {
    match s
    case SaveStep(m, request, event, now) => Save(t, m, request, event, now).0
    case RegisterStep(id, chats, created) => Register(t, id, chats, created).0
    case ClaimStep(now, allowed, max, ms, token, pick) => Claim(t, now, allowed, max, ms, token, pick).0
    case FinishStep(event, token, status, reason, next, now) => Finish(t, event, token, status, reason, next, now).0
    case MaintainStep(policy, retentionMs, limit, sweep) => Maintain(t, policy, retentionMs, limit, sweep).0
  }
}
