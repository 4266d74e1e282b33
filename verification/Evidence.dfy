/** Completion evidence: the strict reader of one session file, and what an
    accepted file is guaranteed to look like. */
module Evidence {
  import opened Common
  import opened Domain
  import opened SessionFile

  // ---------------------------------------------------------------- entries

  /** The text rendered for a checkpoint: it names the outcomes' tools,
      destinations and messages, but not their attempts. */
  datatype Summary = Summary(
    id: CheckpointId, chat: ChatId, lastCompleted: int, createdAt: int, notes: int,
        tools: seq<(int, Address, MessageId)>)

  function Render(c: Checkpoint, id: CheckpointId): Summary {
    Summary(id, c.chat, c.lastCompleted, c.createdAt, c.notes,
            seq(|c.outcomes|, i requires 0 <= i < |c.outcomes| => Shown(c.outcomes[i])))
  }

  function Shown(o: Outcome): (int, Address, MessageId) {
    (o.tool, o.destination, o.messageId)
  }

  /** Compaction details that look like the controller's: they carry an id, a
      checkpoint or version 1.  A part that is missing or invalid is None. */
  datatype Details = Details(version: int, id: Option<CheckpointId>, checkpoint: Option<Checkpoint>)

  /** `OtherController` is a controller record of a type this reader does not
      know; `completed` tells whether its name starts like a completion's. */
  datatype Body =
    | Message
    | Plain
    | Compaction(summary: Option<Summary>, kept: EntryId, hook: bool, details: Option<Details>)
    | BranchSummary(source: EntryId)
    | Edit(target: EntryId)
    | LabelOf(target: EntryId)
    | Bind(binding: Binding)
    | Mutate(record: JournalRecord)
    | Completed(marker: Marker)
    | OtherController(completed: bool)
    | OtherCustom

  datatype Entry = Entry(id: EntryId, parent: Option<EntryId>, time: int, body: Body)

  /** What one line parses to. */
  datatype Line = Header(session: int) | Item(entry: Entry) | Malformed

  /** Entries this one points at besides its parent. */
  function Targets(b: Body): set<EntryId> {
    match b
    case Compaction(_, kept, _, _) => {kept}
    case BranchSummary(source) => {source}
    case Edit(target) => {target}
    case LabelOf(target) => {target}
    case _ => {}
  }

  // ---------------------------------------------------------------- one line

  datatype Scan = Scan(
    header: bool, ids: set<EntryId>, events: set<EventId>, sequences: set<int>, bound: bool, proofs: seq<Proof>)

  const EMPTY_SCAN := Scan(false, {}, {}, {}, false, [])

  /** `consume`: None is the thrown error. */
  function Consume(binding: Binding, s: Scan, line: Line): Option<Scan> {
    if !s.header then
      if line == Header(binding.session) then Some(s.(header := true)) else None
    else if !line.Item? then None
    else
      var e := line.entry;
      if e.id in s.ids || (e.parent.Some? && e.parent.value !in s.ids) then None
      else
        var ids := s.ids + {e.id};
        var t := s.(ids := ids);
        if !(Targets(e.body) <= ids) then None
        else
          match e.body
          case Bind(b) => if s.bound || b != binding then None else Some(t.(bound := true))
          case Completed(m) =>
            if !s.bound || m.chat != binding.chat || m.event in s.events || m.sequence in s.sequences then None
            else Some(t.(events := s.events + {m.event}, sequences := s.sequences + {m.sequence},
                         proofs := s.proofs + [Proof(m, e.id, binding)]))
          case OtherController(completed) => if completed then None else Some(t)
          case _ => Some(t)
  }

  ghost function Fold(binding: Binding, lines: seq<Line>): Option<Scan> {
    if |lines| == 0 then Some(EMPTY_SCAN)
    else
      var s := Fold(binding, lines[..|lines| - 1]);
      if s.None? then None else Consume(binding, s.value, lines[|lines| - 1])
  }

  lemma {:induction false} FoldStops(binding: Binding, a: seq<Line>, b: seq<Line>)
    requires Fold(binding, a).None?
    ensures Fold(binding, a + b).None?
    decreases |b|
  {
    if |b| == 0 {
      assert a + b == a;
    } else {
      FoldStops(binding, a, b[..|b| - 1]);
      assert (a + b)[..|a + b| - 1] == a + b[..|b| - 1];
    }
  }

  // ---------------------------------------------------------------- one file

  ghost function Parsed(parse: string -> Line, lines: seq<string>): seq<Line> {
    seq(|lines|, i requires 0 <= i < |lines| => parse(lines[i]))
  }

  /** What a whole file proves: None unless it ends with a newline, every line
      is accepted, and it holds a header and a binding. */
  ghost function Proved(parse: string -> Line, binding: Binding, text: string): Option<seq<Proof>> {
    var split := SplitLines(text);
    var s := Fold(binding, Parsed(parse, split.lines));
    if split.rest == "" && s.Some? && s.value.header && s.value.bound then Some(s.value.proofs) else None
  }

  lemma ParsedConcat(parse: string -> Line, a: seq<string>, b: seq<string>)
    ensures Parsed(parse, a + b) == Parsed(parse, a) + Parsed(parse, b)
  {
  }

  lemma {:induction false} FlattenPrefix(chunks: seq<string>, k: nat)
    requires k <= |chunks|
    ensures exists more :: Flatten(chunks) == Flatten(chunks[..k]) + more
    decreases |chunks| - k
  {
    if k == |chunks| {
      assert chunks[..k] == chunks;
      assert Flatten(chunks) == Flatten(chunks) + "";
    } else {
      FlattenPrefix(chunks, k + 1);
      var more :| Flatten(chunks) == Flatten(chunks[..k + 1]) + more;
      assert chunks[..k + 1][..k] == chunks[..k];
      assert Flatten(chunks) == Flatten(chunks[..k]) + (chunks[k] + more);
    }
  }

  /** Lines accepted so far stand in the way of the whole file if they fail. */
  lemma BadPrefix(parse: string -> Line, binding: Binding, text: string, more: string)
    requires Fold(binding, Parsed(parse, SplitLines(text).lines)).None?
    ensures Proved(parse, binding, text + more).None?
  {
    SplitExtends(text, more);
    var a, b := SplitLines(text).lines, SplitLines(SplitLines(text).rest + more).lines;
    ParsedConcat(parse, a, b);
    FoldStops(binding, Parsed(parse, a), Parsed(parse, b));
  }

  /** One line further: it is consumed, and what follows stays pending. */
  lemma NextLine(parse: string -> Line, binding: Binding, before: seq<string>, pending: string)
    requires Newline(pending) >= 0
    ensures var i := Newline(pending);
            var line, tail := pending[..i], pending[i + 1..];
            && SplitLines(pending).rest == SplitLines(tail).rest
            && before + SplitLines(pending).lines == (before + [line]) + SplitLines(tail).lines
            && (Fold(binding, Parsed(parse, before + [line])).None? ==>
                  Fold(binding, Parsed(parse, before + SplitLines(pending).lines)).None?)
  {
    var i := Newline(pending);
    var line, tail := pending[..i], pending[i + 1..];
    assert before + ([line] + SplitLines(tail).lines) == (before + [line]) + SplitLines(tail).lines;
    hide Newline, SplitLines;
    ParsedConcat(parse, before + [line], SplitLines(tail).lines);
    if Fold(binding, Parsed(parse, before + [line])).None? {
      FoldStops(binding, Parsed(parse, before + [line]), Parsed(parse, SplitLines(tail).lines));
    }
  }

  /** The inner loop: consume every complete line of what is pending. */
  method Drain(parse: string -> Line, binding: Binding, s0: Scan, text: string, ghost before: seq<string>)
    returns (s: Option<Scan>, pending: string)
    requires Fold(binding, Parsed(parse, before)) == Some(s0)
    ensures s == Fold(binding, Parsed(parse, before + SplitLines(text).lines))
    ensures s.Some? ==> pending == SplitLines(text).rest
  {
    hide SplitLines, Fold, Parsed, Consume;
    s := Some(s0);
    pending := text;
    ghost var done := before;
    var newline := Newline(pending);
    while newline >= 0
      invariant newline == Newline(pending) && s.Some?
      invariant done + SplitLines(pending).lines == before + SplitLines(text).lines
          && SplitLines(pending).rest == SplitLines(text).rest
      invariant Fold(binding, Parsed(parse, done)) == s
      decreases |pending|
    {
      var line := pending[..newline];
      NextLine(parse, binding, done, pending);
      FoldOneMore(parse, binding, done, line);
      s := Consume(binding, s.value, parse(line));
      done := done + [line];
      if s.None? { return; }
      pending := pending[newline + 1..];
      newline := Newline(pending);
    }
    NoMoreLines(pending);
    assert done + [] == done;
  }

  lemma NoMoreLines(text: string)
    requires Newline(text) < 0
    ensures SplitLines(text) == Split([], text)
  {
  }

  /** How many reads came back before the first that returned nothing. */
  ghost function Delivered(pieces: seq<string>): (n: nat)
    ensures n <= |pieces| && (n < |pieces| ==> pieces[n] == "") && forall i | 0 <= i < n :: pieces[i] != ""
  {
    if |pieces| == 0 || pieces[0] == "" then 0 else 1 + Delivered(pieces[1..])
  }

  /** What one pass over the file proves: nothing if it is cut short, and
      otherwise what the whole text does. */
  ghost function ProvedBy(parse: string -> Line, binding: Binding, size: nat, pieces: seq<string>): Option<seq<Proof>> {
    var text := Flatten(pieces[..Delivered(pieces)]);
    if |text| < size then None else Proved(parse, binding, text)
  }

  lemma DeliveredAll(pieces: seq<string>, k: nat)
    requires k <= |pieces| && (forall i | 0 <= i < k :: pieces[i] != "")
    ensures k <= Delivered(pieces)
    ensures k == |pieces| || pieces[k] == "" ==> Delivered(pieces) == k
  {
  }

  /** Reads that already fill the size are all there are. */
  lemma {:induction false} FullIsAll(pieces: seq<string>, k: nat, size: nat)
    requires k <= |pieces| && |Flatten(pieces[..k])| == size && |Flatten(pieces)| <= size
    ensures k == |pieces| || pieces[k] == ""
  {
    if k < |pieces| {
      assert pieces[..k + 1][..k] == pieces[..k];
      FlattenPrefix(pieces, k + 1);
    }
  }

  /** The chunked reader: whatever way the reads are cut, it consumes exactly
      the newline-split lines of the text they deliver and returns what the
      whole of it proves; a read that returns nothing too early refuses it.
      No read returns more than was asked for. */
  method ReadOnce(parse: string -> Line, binding: Binding, size: nat, pieces: seq<string>)
    returns (r: Option<seq<Proof>>)
    requires |Flatten(pieces)| <= size
    ensures r == ProvedBy(parse, binding, size, pieces)
  {
    var s := Some(EMPTY_SCAN);
    var pending := "";
    var remaining: int := size;
    var k := 0;
    assert SplitLines("") == Split([], "");
    assert Flatten(pieces[..0]) == "";
    while remaining > 0
      invariant 0 <= k <= |pieces| && (forall i | 0 <= i < k :: pieces[i] != "")
      invariant remaining == size - |Flatten(pieces[..k])| && remaining >= 0
      invariant s.Some? && SplitLines(Flatten(pieces[..k])).rest == pending
      invariant Fold(binding, Parsed(parse, SplitLines(Flatten(pieces[..k])).lines)) == s
      decreases |pieces| - k
    {
      hide SplitLines, Fold, Parsed, Proved;
      DeliveredAll(pieces, k);
      if k == |pieces| || pieces[k] == "" { return None; }
      DeliveredAll(pieces, k + 1);
      ghost var text := Flatten(pieces[..k]);
      assert pieces[..k + 1][..k] == pieces[..k];
      FlattenPrefix(pieces, k + 1);
      SplitExtends(text, pieces[k]);
      s, pending := Drain(parse, binding, s.value, pending + pieces[k], SplitLines(text).lines);
      if s.None? {
        BadRead(parse, binding, pieces, k + 1);
        return None;
      }
      remaining := remaining - |pieces[k]|;
      k := k + 1;
    }
    FullIsAll(pieces, k, size);
    DeliveredAll(pieces, k);
    if pending != "" || !s.value.header || !s.value.bound { return None; }
    r := Some(s.value.proofs);
  }

  lemma BadRead(parse: string -> Line, binding: Binding, pieces: seq<string>, k: nat)
    requires k <= Delivered(pieces)
    requires Fold(binding, Parsed(parse, SplitLines(Flatten(pieces[..k])).lines)).None?
    ensures Proved(parse, binding, Flatten(pieces[..Delivered(pieces)])).None?
  {
    var all := pieces[..Delivered(pieces)];
    assert all[..k] == pieces[..k];
    FlattenPrefix(all, k);
    var more :| Flatten(all) == Flatten(all[..k]) + more;
    BadPrefix(parse, binding, Flatten(pieces[..k]), more);
  }

  // ---------------------------------------------------------------- one stable look

  const TRIES := 8

  /** One pass over the named file: its size and what the reads return, whether it changed
      meanwhile, whether syncing succeeded, and whether it changed during that. */
  datatype Look = Look(size: nat, pieces: seq<string>, moved: bool, synced: bool, movedAgain: bool)

  /** `NotDurable` also takes the file out of use. */
  datatype Verdict = Proofs(proofs: seq<Proof>) | Refused | NotDurable

  /** What one look decides; None means to look again. */
  ghost function Decides(parse: string -> Line, binding: Binding, look: Look): Option<Verdict> {
    if look.size == 0 then Some(Refused)
    else
      var proved := ProvedBy(parse, binding, look.size, look.pieces);
      if look.moved then None
      else if proved.None? then Some(Refused)
      else if !look.synced then Some(NotDurable)
      else if look.movedAgain then None
      else Some(Proofs(proved.value))
  }

  /** The strict reader: the first look that decides is the answer, and a file
      that never holds still in eight of them is refused. */
  method ReadEvidence(parse: string -> Line, binding: Binding, looks: seq<Look>) returns (r: Verdict)
    requires |looks| >= TRIES && forall i | 0 <= i < |looks| :: |Flatten(looks[i].pieces)| <= looks[i].size
    ensures || (r == Refused && forall i | 0 <= i < TRIES :: Decides(parse, binding, looks[i]).None?)
            || (exists i :: 0 <= i < TRIES && Decides(parse, binding, looks[i]) == Some(r)
                            && forall j | 0 <= j < i :: Decides(parse, binding, looks[j]).None?)
  {
    for attempt := 0 to TRIES
      invariant forall j | 0 <= j < attempt :: Decides(parse, binding, looks[j]).None?
    {
      var look := looks[attempt];
      if look.size == 0 { return Refused; }
      var proved := ReadOnce(parse, binding, look.size, look.pieces);
      hide ProvedBy;
      if look.moved { continue; }
      if proved.None? { return Refused; }
      if !look.synced { return NotDurable; }
      if look.movedAgain { continue; }
      return Proofs(proved.value);
    }
    r := Refused;
  }

  lemma FoldOneMore(parse: string -> Line, binding: Binding, lines: seq<string>, line: string)
    ensures Fold(binding, Parsed(parse, lines + [line])) ==
            var s := Fold(binding, Parsed(parse, lines));
            if s.None? then None else Consume(binding, s.value, parse(line))
  {
    var all := Parsed(parse, lines + [line]);
    assert all[..|all| - 1] == Parsed(parse, lines);
  }

  // ---------------------------------------------------------------- what acceptance means

  predicate HasId(lines: seq<Line>, id: EntryId) {
    exists j :: 0 <= j < |lines| && lines[j].Item? && lines[j].entry.id == id
  }

  predicate HasBinding(lines: seq<Line>) {
    exists j :: 0 <= j < |lines| && lines[j].Item? && lines[j].entry.body.Bind?
  }

  predicate CompletedAt(lines: seq<Line>, j: int) {
    0 <= j < |lines| && lines[j].Item? && lines[j].entry.body.Completed?
  }

  function MarkerAt(lines: seq<Line>, j: int): Marker
    requires CompletedAt(lines, j)
  {
    lines[j].entry.body.marker
  }

  ghost predicate HasEvent(lines: seq<Line>, event: EventId) {
    exists j :: CompletedAt(lines, j) && MarkerAt(lines, j).event == event
  }

  ghost predicate HasSequence(lines: seq<Line>, sequence: int) {
    exists j :: CompletedAt(lines, j) && MarkerAt(lines, j).sequence == sequence
  }

  /** What a line may be, given everything before it, in the file's own terms. */
  ghost predicate Fits(binding: Binding, before: seq<Line>, line: Line) {
    if |before| == 0 then line == Header(binding.session)
    else
      && line.Item?
      && var e := line.entry;
         && !HasId(before, e.id)
         && (e.parent.Some? ==> HasId(before, e.parent.value))
         && (forall t | t in Targets(e.body) :: t == e.id || HasId(before, t))
         && match e.body
            case Bind(b) => b == binding && !HasBinding(before)
            case Completed(m) =>
              HasBinding(before) && m.chat == binding.chat && !HasEvent(before, m.event)
                  && !HasSequence(before, m.sequence)
            case OtherController(completed) => !completed
            case _ => true
  }

  ghost predicate WellFormed(binding: Binding, lines: seq<Line>) {
    forall i | 0 <= i < |lines| :: Fits(binding, lines[..i], lines[i])
  }

  /** The completion entries of a file, in order. */
  ghost function Completions(binding: Binding, lines: seq<Line>): seq<Proof> {
    if |lines| == 0 then []
    else
      var last := lines[|lines| - 1];
      Completions(binding, lines[..|lines| - 1]) +
      (if last.Item? && last.entry.body.Completed? then [Proof(last.entry.body.marker, last.entry.id, binding)] else [])
  }

  /** The scan state knows exactly what the lines so far contain. */
  ghost predicate Knows(binding: Binding, s: Scan, lines: seq<Line>) {
    && (s.header <==> |lines| > 0)
    && (forall id :: id in s.ids <==> HasId(lines, id))
    && (s.bound <==> HasBinding(lines))
    && (forall x :: x in s.events <==> HasEvent(lines, x))
    && (forall x :: x in s.sequences <==> HasSequence(lines, x))
    && s.proofs == Completions(binding, lines)
  }

  lemma Extends(lines: seq<Line>, line: Line)
    ensures var more := lines + [line];
            && (forall id :: HasId(more, id) <==> HasId(lines, id) || (line.Item? && line.entry.id == id))
            && (HasBinding(more) <==> HasBinding(lines) || (line.Item? && line.entry.body.Bind?))
  {
    var more := lines + [line];
    forall id ensures HasId(more, id) <==> HasId(lines, id) || (line.Item? && line.entry.id == id) {
      if line.Item? && line.entry.id == id { assert more[|lines|].entry.id == id; }
      if j :| 0 <= j < |lines| && lines[j].Item? && lines[j].entry.id == id { assert more[j] == lines[j]; }
    }
    if line.Item? && line.entry.body.Bind? { assert more[|lines|].entry.body.Bind?; }
    if j :| 0 <= j < |lines| && lines[j].Item? && lines[j].entry.body.Bind? { assert more[j] == lines[j]; }
  }

  lemma ConsumeFits(binding: Binding, s: Scan, lines: seq<Line>, line: Line)
    requires Knows(binding, s, lines)
    ensures Consume(binding, s, line).Some? <==> Fits(binding, lines, line)
  {
  }

  lemma ConsumeKnows(binding: Binding, s: Scan, lines: seq<Line>, line: Line)
    requires Knows(binding, s, lines) && Consume(binding, s, line).Some?
    ensures Knows(binding, Consume(binding, s, line).value, lines + [line])
  {
    Extends(lines, line);
    CompletionsExtend(binding, lines, line);
    hide HasId, HasBinding, HasEvent, HasSequence, Completions, Targets;
  }

  lemma CompletionsExtend(binding: Binding, lines: seq<Line>, line: Line)
    ensures var more := lines + [line];
            var completes := line.Item? && line.entry.body.Completed?;
            && (forall x :: HasEvent(more, x) <==>
                HasEvent(lines, x) || (completes && line.entry.body.marker.event == x))
            && (forall x :: HasSequence(more, x) <==>
                HasSequence(lines, x) || (completes && line.entry.body.marker.sequence == x))
            && Completions(binding, more) ==
               Completions(binding, lines) + if completes then [Proof(line.entry.body.marker, line.entry.id, binding)]
                   else []
  {
    var more := lines + [line];
    assert more[..|lines|] == lines && more[|lines|] == line;
    forall x ensures HasEvent(more, x) <==>
        HasEvent(lines, x) || (CompletedAt(more, |lines|) && MarkerAt(more, |lines|).event == x) {
      if j :| CompletedAt(lines, j) && MarkerAt(lines, j).event == x {
        assert CompletedAt(more, j) && MarkerAt(more, j).event == x;
      }
      if j :| CompletedAt(more, j) && MarkerAt(more, j).event == x { assert j < |lines| ==> CompletedAt(lines, j); }
    }
    forall x ensures HasSequence(more, x) <==>
        HasSequence(lines, x) || (CompletedAt(more, |lines|) && MarkerAt(more, |lines|).sequence == x) {
      if j :| CompletedAt(lines, j) && MarkerAt(lines, j).sequence == x {
        assert CompletedAt(more, j) && MarkerAt(more, j).sequence == x;
      }
      if j :| CompletedAt(more, j) && MarkerAt(more, j).sequence == x { assert j < |lines| ==> CompletedAt(lines, j); }
    }
  }

  lemma NothingKnown(binding: Binding)
    ensures Fold(binding, []) == Some(EMPTY_SCAN) && Knows(binding, EMPTY_SCAN, []) && WellFormed(binding, [])
  {
  }

  lemma WellFormedExtends(binding: Binding, lines: seq<Line>, line: Line)
    ensures WellFormed(binding, lines + [line]) <==> WellFormed(binding, lines) && Fits(binding, lines, line)
  {
    var all := lines + [line];
    hide Fits;
    assert all[..|lines|] == lines && all[|lines|] == line;
    assert forall i | 0 <= i < |lines| :: all[..i] == lines[..i] && all[i] == lines[i];
    if WellFormed(binding, all) {
      forall i | 0 <= i < |lines| ensures Fits(binding, lines[..i], lines[i]) {
        assert Fits(binding, all[..i], all[i]);
      }
    }
  }

  /** The reader accepts a file's lines exactly when each fits what precedes
      it, and then returns its completion entries in order. */
  lemma {:induction false} FoldIsExact(binding: Binding, lines: seq<Line>)
    ensures Fold(binding, lines).Some? <==> WellFormed(binding, lines)
    ensures Fold(binding, lines).Some? ==> Knows(binding, Fold(binding, lines).value, lines)
    decreases |lines|
  {
    hide Consume, Fits, Knows, WellFormed;
    if |lines| == 0 {
      NothingKnown(binding);
    } else {
      var front, line := lines[..|lines| - 1], lines[|lines| - 1];
      assert front + [line] == lines;
      FoldIsExact(binding, front);
      WellFormedExtends(binding, front, line);
      if Fold(binding, front).Some? {
        var s := Fold(binding, front).value;
        ConsumeFits(binding, s, front, line);
        if Consume(binding, s, line).Some? { ConsumeKnows(binding, s, front, line); }
      }
    }
  }

  /** What a whole file proves, in the file's own terms. */
  lemma ProvedExactly(parse: string -> Line, binding: Binding, text: string)
    ensures var split := SplitLines(text);
            var lines := Parsed(parse, split.lines);
            && (Proved(parse, binding, text).Some? <==>
                split.rest == "" && WellFormed(binding, lines) && HasBinding(lines))
            && (Proved(parse, binding, text).Some? ==>
                Proved(parse, binding, text).value == Completions(binding, lines))
  {
    FoldIsExact(binding, Parsed(parse, SplitLines(text).lines));
    hide Fold, WellFormed, SplitLines;
  }

  // ---------------------------------------------------------------- the forest

  /** A chain of parents, from an entry up to one that has none, each strictly
      earlier in the file. */
  ghost predicate Climbs(lines: seq<Line>, path: seq<int>) {
    && |path| > 0
    && (forall k | 0 <= k < |path| :: 0 < path[k] < |lines| && lines[path[k]].Item?)
    && (forall k | 0 <= k < |path| - 1 ::
          path[k + 1] < path[k] && lines[path[k]].entry.parent == Some(lines[path[k + 1]].entry.id))
    && lines[path[|path| - 1]].entry.parent.None?
  }

  lemma {:induction false} ParentChainsEnd(binding: Binding, lines: seq<Line>, i: int) returns (path: seq<int>)
    requires WellFormed(binding, lines) && 0 < i < |lines|
    ensures Climbs(lines, path) && path[0] == i && |path| <= i
    decreases i
  {
    assert Fits(binding, lines[..i], lines[i]);
    path := [i];
    var e := lines[i].entry;
    if e.parent.Some? {
      var before := lines[..i];
      var j :| 0 <= j < |before| && before[j].Item? && before[j].entry.id == e.parent.value;
      assert Fits(binding, lines[..0], lines[0]);
      assert before[j] == lines[j];
      var rest := ParentChainsEnd(binding, lines, j);
      path := path + rest;
    }
  }

  /** Entry ids, completed events and completed sequences are unique, there is
      at most one binding, and every completion comes after it. */
  lemma EntriesAreUnique(binding: Binding, lines: seq<Line>, i: int, j: int)
    requires WellFormed(binding, lines) && 0 < i < j < |lines|
    ensures lines[i].Item? && lines[j].Item? && lines[i].entry.id != lines[j].entry.id
    ensures !(lines[i].entry.body.Bind? && lines[j].entry.body.Bind?)
    ensures CompletedAt(lines, i) && CompletedAt(lines, j) ==>
              MarkerAt(lines, i).event != MarkerAt(lines, j).event
                  && MarkerAt(lines, i).sequence != MarkerAt(lines, j).sequence
    ensures CompletedAt(lines, i) ==> HasBinding(lines[..i]) && !lines[j].entry.body.Bind?
  {
    assert Fits(binding, lines[..i], lines[i]) && Fits(binding, lines[..j], lines[j]);
    var before := lines[..j];
    assert before[i] == lines[i];
    assert CompletedAt(lines, i) ==> CompletedAt(before, i);
    if CompletedAt(lines, i) {
      var front := lines[..i];
      var b :| 0 <= b < |front| && front[b].Item? && front[b].entry.body.Bind?;
      assert before[b] == front[b];
    }
  }
}
