/** The read-only proof that a prepared compaction left no trace in the session
    file, and its opposite, reconciliation with the one entry that claims it. */
module Orphan {
  import opened Common
  import opened Domain
  import opened Evidence

  const NS_PER_MS := 1000000

  /** Entry times and creation times are compared in whole milliseconds. */
  predicate AppendedAfter(e: Entry, createdAt: int) {
    e.time / NS_PER_MS >= createdAt / NS_PER_MS
  }

  /** Compaction details a controller could have written: everything is there
      and the summary is the one rendered from it. */
  predicate Rendered(e: Entry)
    requires e.body.Compaction? && e.body.details.Some?
  {
    var d := e.body.details.value;
    && d.version == 1 && e.body.hook && d.id.Some? && d.checkpoint.Some?
    && e.body.summary == Some(Render(d.checkpoint.value, d.id.value))
  }

  /** The compaction entry claims this checkpoint id. */
  predicate ClaimsId(e: Entry, id: CheckpointId) {
    e.body.Compaction? && e.body.details.Some? && e.body.details.value.id == Some(id)
  }

  // ---------------------------------------------------------------- the orphan proof

  /** The tree conditions on one line, given everything before it. */
  ghost predicate Placed(binding: Binding, before: seq<Line>, line: Line) {
    if |before| == 0 then line == Header(binding.session)
    else
      && line.Item?
      && !HasId(before, line.entry.id)
      && (line.entry.parent.Some? ==> HasId(before, line.entry.parent.value))
      && (forall t | t in Targets(line.entry.body) :: t == line.entry.id || HasId(before, t))
  }

  /** An entry that cannot be a trace of the prepared compaction of an event. */
  predicate Traceless(binding: Binding, event: EventId, prepared: CheckpointRecord, e: Entry) {
    && !AppendedAfter(e, prepared.checkpoint.createdAt)
    && !ClaimsId(e, prepared.id)
    && match e.body
       case Compaction(_, _, _, details) => details.Some? ==> Rendered(e)
       case Bind(b) => b == binding
       case Completed(m) => m.chat == binding.chat && m.event != event
       case Mutate(r) => r.session == binding && r.state.chat == binding.chat && r.state.event != event
       case OtherController(_) => false
       case _ => true
  }

  /** How many binding entries there are. */
  ghost function Bindings(lines: seq<Line>): nat {
    if |lines| == 0 then 0
    else
      var last := lines[|lines| - 1];
      Bindings(lines[..|lines| - 1]) + if last.Item? && last.entry.body.Bind? then 1 else 0
  }

  /** What the proof establishes about a file. */
  ghost predicate NoTrace(binding: Binding, event: EventId, prepared: CheckpointRecord, lines: seq<Line>) {
    && |lines| > 0 && Bindings(lines) == 1
    && (forall i | 0 <= i < |lines| :: Placed(binding, lines[..i], lines[i]))
    && (forall i | 0 < i < |lines| :: lines[i].Item? && Traceless(binding, event, prepared, lines[i].entry))
  }

  /** `consume` on one entry: whether it throws, and whether it is unsafe. */
  method Inspect(binding: Binding, event: EventId, prepared: CheckpointRecord, e: Entry)
    returns (thrown: bool, unsafe: bool)
    ensures !thrown && !unsafe <==> Traceless(binding, event, prepared, e)
  {
    var after := AppendedAfter(e, prepared.checkpoint.createdAt);
    thrown, unsafe := false, false;
    match e.body {
      case Compaction(summary, _, hook, details) =>
        if details.Some? {
          var d := details.value;
          if d.id.None? || d.checkpoint.None? || d.version != 1 || !hook { return true, false; }
          if summary != Some(Render(d.checkpoint.value, d.id.value)) { return true, false; }
          if d.id.value == prepared.id {
            if d.checkpoint.value != prepared.checkpoint { return true, false; }
            unsafe := true;
          } else if after {
            return true, false;
          }
        } else if after {
          return true, false;
        }
      case _ =>
    }
    if after { unsafe := true; }
    match e.body {
      case Bind(b) => thrown := b != binding;
      case Completed(m) =>
        if m.chat != binding.chat { return true, unsafe; }
        if m.event == event { unsafe := true; }
      case Mutate(r) =>
        if r.session != binding || r.state.chat != binding.chat { return true, unsafe; }
        if r.state.event == event { unsafe := true; }
      case OtherController(_) => thrown := true;
      case _ =>
    }
  }

  /** The scan over the lines of one file. */
  method ProveNoTrace(binding: Binding, event: EventId, prepared: CheckpointRecord, lines: seq<Line>) returns (ok: bool)
    ensures ok <==> NoTrace(binding, event, prepared, lines)
  {
    var ids: set<EntryId> := {};
    var header, bindings, unsafe := false, 0, false;
    for k := 0 to |lines|
      invariant header <==> k > 0
      invariant forall id :: id in ids <==> HasId(lines[..k], id)
      invariant forall i | 0 <= i < k :: Placed(binding, lines[..i], lines[i])
      invariant forall i | 0 < i < k :: lines[i].Item?
      invariant !unsafe <==> forall i | 0 < i < k ::
          lines[i].Item? && Traceless(binding, event, prepared, lines[i].entry)
      invariant bindings == Bindings(lines[..k])
    {
      var line := lines[k];
      assert lines[..k + 1] == lines[..k] + [line];
      Extends(lines[..k], line);
      assert lines[..k + 1][..k] == lines[..k];
      if !header {
        if line != Header(binding.session) { return false; }
        header := true;
      } else {
        if !line.Item? { return false; }
        var e := line.entry;
        if e.id in ids || (e.parent.Some? && e.parent.value !in ids) { return false; }
        ids := ids + {e.id};
        if !(Targets(e.body) <= ids) { return false; }
        var thrown, trace := Inspect(binding, event, prepared, e);
        if thrown { return false; }
        unsafe := unsafe || trace;
        if e.body.Bind? { bindings := bindings + 1; }
      }
    }
    assert lines[..|lines|] == lines;
    ok := header && bindings == 1 && !unsafe;
  }

  /** The file generation the proof stands for, or None: it is the one recorded
      when the compaction was prepared, or, for records that have none, one
      last changed before that. */
  function ProvedGeneration(prepared: CheckpointRecord, now: Generation): Option<Generation> {
    match prepared.recovery
    case Some(r) => if now == r.generation then Some(now) else None
    case None =>
      if now.mtime >= prepared.checkpoint.createdAt || now.ctime >= prepared.checkpoint.createdAt then None
          else Some(now)
  }

  method ProvePreparedCompactionOrphan(binding: Binding, event: EventId, prepared: CheckpointRecord, lines: seq<Line>,
      now: Generation)
    returns (r: Option<Generation>)
    ensures r.Some? <==>
              && prepared.phase == Prepared && prepared.checkpoint.chat == binding.chat
              && NoTrace(binding, event, prepared, lines)
              && (match prepared.recovery
                  case Some(p) => now == p.generation
                  case None => now.mtime < prepared.checkpoint.createdAt && now.ctime < prepared.checkpoint.createdAt)
    ensures r.Some? ==> r.value == now
  {
    if prepared.phase != Prepared || prepared.checkpoint.chat != binding.chat { return None; }
    var ok := ProveNoTrace(binding, event, prepared, lines);
    if !ok { return None; }
    r := ProvedGeneration(prepared, now);
  }

  // ---------------------------------------------------------------- reconciliation

  function Claims(branch: seq<Entry>, id: CheckpointId): seq<Entry> {
    if |branch| == 0 then []
    else (if ClaimsId(branch[0], id) then [branch[0]] else []) + Claims(branch[1..], id)
  }

  /** `reconcileCheckpoint`: the entry id of the one claim on the active branch,
      if that entry is exactly what this record would have written. */
  function Reconcile(binding: Binding, branch: seq<Entry>, record: CheckpointRecord, readable: bool): Option<EntryId> {
    var claims := Claims(branch, record.id);
    if record.checkpoint.chat != binding.chat || |claims| != 1 then None
    else
      var e := claims[0];
      if !ClaimsId(e, record.id) || !e.body.hook || e.body.details.value.version != 1 then None
      else if (record.phase.Compacted? || record.phase.Restored?) && record.phase.entry != e.id then None
      else if e.body.details.value.checkpoint != Some(record.checkpoint) then None
      else if e.body.summary != Some(Render(record.checkpoint, record.id)) || !readable then None
      else Some(e.id)
  }

  /** The one claim of the branch is its entry i. */
  ghost predicate OnlyClaim(branch: seq<Entry>, id: CheckpointId, i: int) {
    0 <= i < |branch| && ClaimsId(branch[i], id) && forall j | 0 <= j < |branch| && ClaimsId(branch[j], id) :: j == i
  }

  lemma {:induction false} NoClaims(branch: seq<Entry>, id: CheckpointId)
    ensures Claims(branch, id) == [] <==> forall j | 0 <= j < |branch| :: !ClaimsId(branch[j], id)
    decreases |branch|
  {
    if |branch| > 0 {
      NoClaims(branch[1..], id);
      assert forall j | 0 < j < |branch| :: branch[j] == branch[1..][j - 1];
    }
  }

  lemma {:induction false} OneClaim(branch: seq<Entry>, id: CheckpointId, i: int)
    requires OnlyClaim(branch, id, i)
    ensures Claims(branch, id) == [branch[i]]
    decreases |branch|
  {
    var tail := branch[1..];
    assert forall j | 0 < j < |branch| :: branch[j] == tail[j - 1];
    if i == 0 {
      NoClaims(tail, id);
    } else {
      assert forall j | 0 <= j < |tail| && ClaimsId(tail[j], id) :: ClaimsId(branch[j + 1], id) && j == i - 1;
      OneClaim(tail, id, i - 1);
    }
  }

  lemma {:induction false} ClaimAt(branch: seq<Entry>, id: CheckpointId) returns (i: int)
    requires |Claims(branch, id)| == 1
    ensures OnlyClaim(branch, id, i) && Claims(branch, id) == [branch[i]]
    decreases |branch|
  {
    var tail := branch[1..];
    assert forall j | 0 < j < |branch| :: branch[j] == tail[j - 1];
    if ClaimsId(branch[0], id) {
      NoClaims(tail, id);
      i := 0;
    } else {
      var k := ClaimAt(tail, id);
      i := k + 1;
    }
  }

  /** Reconciliation succeeds exactly when one entry of the branch claims the
      record, and that entry is the record's own. */
  ghost predicate Written(e: Entry, record: CheckpointRecord) {
    && ClaimsId(e, record.id) && e.body.hook
    && e.body.details.value == Details(1, Some(record.id), Some(record.checkpoint))
    && e.body.summary == Some(Render(record.checkpoint, record.id))
    && (record.phase.Compacted? || record.phase.Restored? ==> record.phase.entry == e.id)
  }

  lemma ReconcilesExactly(binding: Binding, branch: seq<Entry>, record: CheckpointRecord, readable: bool, id: EntryId)
    ensures Reconcile(binding, branch, record, readable) == Some(id) <==>
            && record.checkpoint.chat == binding.chat && readable
            && exists i :: OnlyClaim(branch, record.id, i) && branch[i].id == id && Written(branch[i], record)
  {
    var claims := Claims(branch, record.id);
    if |claims| == 1 {
      var k := ClaimAt(branch, record.id);
      assert OnlyClaim(branch, record.id, k);
    }
    if i :| OnlyClaim(branch, record.id, i) && branch[i].id == id && Written(branch[i], record) {
      OneClaim(branch, record.id, i);
    }
    hide Claims, Render;
  }

  /** A compaction is never both an orphan to abort and an entry to restore. */
  lemma NeverBoth(binding: Binding, event: EventId, record: CheckpointRecord, lines: seq<Line>, branch: seq<Entry>,
      readable: bool)
    requires NoTrace(binding, event, record, lines)
    requires forall e | e in branch :: Item(e) in lines
    ensures Reconcile(binding, branch, record, readable).None?
  {
    NoClaims(branch, record.id);
    forall j | 0 <= j < |branch| ensures !ClaimsId(branch[j], record.id) {
      assert branch[j] in branch;
      var i :| 0 <= i < |lines| && lines[i] == Item(branch[j]);
      assert Placed(binding, lines[..0], lines[0]);
    }
    hide Claims;
  }
}
