/** The bridge store's single writer: any number of submitting goroutines, one
    writer goroutine and a closer, interleaved step by step. */
module WriterQueue {
  import opened Common

  type OpId = int

  const CAPACITY := 1000

  datatype Verdict = Ran(result: int) | RefusedClosed | RefusedFull | Cancelled

  /** Where one submitContext call is: past its context check, waiting for the
      reply, or returned. */
  datatype Client = Entered | Waiting | Returned(verdict: Verdict)

  datatype Writer = Idle | Draining | Running(op: OpId, draining: bool) | Replying(op: OpId, result: int,
      draining: bool) | Exited

  /** `replies` holds what lies in an operation's one-element reply channel.
      `admitted`, `ran` and `results` only record what happened. */
  datatype State = State(
    queue: seq<OpId>, shut: bool, writer: Writer, handleOpen: bool, replies: map<OpId, int>, clients: map<OpId, Client>,
    admitted: seq<OpId>, ran: seq<OpId>, results: map<OpId, int>)

  datatype Step =
    | Enter(op: OpId, cancelled: bool)
    | Admit(op: OpId)
    | Collect(op: OpId)
    | Cancel(op: OpId)
    | Shut
    | CloseHandle
    | Receive
    | NoticeShut
    | DrainOne
    | DrainDone
    | Execute(result: int)
    | Reply

  const START := State([], false, Idle, true, map[], map[], [], [], map[])

  predicate Enabled(s: State, step: Step) {
    match step
    case Enter(op, _) => op !in s.clients
    case Admit(op) => op in s.clients && s.clients[op] == Entered
    case Collect(op) => op in s.clients && s.clients[op] == Waiting && op in s.replies
    case Cancel(op) => op in s.clients && s.clients[op] == Waiting
    case Shut => true
    case CloseHandle => s.shut && s.writer == Exited
    case Receive => s.writer == Idle && s.queue != []
    case NoticeShut => s.writer == Idle && s.shut
    case DrainOne => s.writer == Draining && s.queue != []
    case DrainDone => s.writer == Draining && s.queue == []
    case Execute(_) => s.writer.Running?
    case Reply => s.writer.Replying? && s.writer.op !in s.replies
  }

  function After(draining: bool): Writer {
    if draining then Draining else Idle
  }

  /** Admission checks and enqueues under one lock, which shutting also takes. */
  function AdmitOne(s: State, op: OpId): State {
    if s.shut then s.(clients := s.clients[op := Returned(RefusedClosed)])
    else if |s.queue| >= CAPACITY then s.(clients := s.clients[op := Returned(RefusedFull)])
    else s.(queue := s.queue + [op], admitted := s.admitted + [op], clients := s.clients[op := Waiting])
  }

  function Next(s: State, step: Step): State
    requires Enabled(s, step)
  {
    match step
    case Enter(op, cancelled) => s.(clients := s.clients[op := if cancelled then Returned(Cancelled) else Entered])
    case Admit(op) => AdmitOne(s, op)
    case Collect(op) => s.(clients := s.clients[op := Returned(Ran(s.replies[op]))], replies := s.replies - {op})
    case Cancel(op) => s.(clients := s.clients[op := Returned(Cancelled)])
    case Shut => s.(shut := true)
    case CloseHandle => s.(handleOpen := false)
    case Receive => s.(writer := Running(s.queue[0], false), queue := s.queue[1..])
    case NoticeShut => s.(writer := Draining)
    case DrainOne => s.(writer := Running(s.queue[0], true), queue := s.queue[1..])
    case DrainDone => s.(writer := Exited)
    case Execute(result) =>
      s.(writer := Replying(s.writer.op, result, s.writer.draining),
         ran := s.ran + [s.writer.op], results := s.results[s.writer.op := result])
    case Reply => s.(writer := After(s.writer.draining), replies := s.replies[s.writer.op := s.writer.result])
  }

  // ---------------------------------------------------------------- the invariant

  /** The operation the writer holds and has not run yet. */
  function InHand(w: Writer): seq<OpId> {
    if w.Running? then [w.op] else []
  }

  ghost predicate Unique(ops: seq<OpId>) {
    forall i, j | 0 <= i < j < |ops| :: ops[i] != ops[j]
  }

  /** Admitted operations are those that ran, the one in hand and the queued. */
  ghost predicate Accounted(s: State) {
    s.admitted == s.ran + InHand(s.writer) + s.queue && Unique(s.admitted) && |s.queue| <= CAPACITY
  }

  ghost predicate ClientsOk(s: State) {
    && (forall op | op in s.admitted :: op in s.clients && (s.clients[op] == Waiting || s.clients[op].Returned?))
    && (forall op | op in s.clients && s.clients[op] == Waiting :: op in s.admitted)
    && (forall op | op in s.clients && s.clients[op].Returned? && s.clients[op].verdict.Ran? ::
          op in s.ran && op in s.results && s.results[op] == s.clients[op].verdict.result)
  }

  /** A reply is that operation's result; none lies there before it is sent. */
  ghost predicate RepliesOk(s: State) {
    && (forall op | op in s.replies :: op in s.ran && op in s.results && s.results[op] == s.replies[op])
    && (s.writer.Replying? ==>
          && s.writer.op !in s.replies && s.writer.op in s.ran
          && s.writer.op in s.results && s.results[s.writer.op] == s.writer.result)
    && (forall op | op in s.results :: op in s.ran)
  }

  /** The writer drains the queue for good. */
  predicate IsDraining(w: Writer) {
    w == Draining || w == Exited || ((w.Running? || w.Replying?) && w.draining)
  }

  ghost predicate ClosingOk(s: State) {
    && (IsDraining(s.writer) ==> s.shut)
    && (s.writer == Exited ==> s.queue == [])
    && (!s.handleOpen ==> s.writer == Exited)
  }

  ghost predicate Inv(s: State) {
    Accounted(s) && ClientsOk(s) && RepliesOk(s) && ClosingOk(s)
  }

  lemma AdmissionKeepsInv(s: State, op: OpId)
    requires Inv(s) && op in s.clients && s.clients[op] == Entered
    ensures Inv(AdmitOne(s, op))
  {
    assert op !in s.admitted;
    hide RepliesOk, ClosingOk;
    assert s.ran + InHand(s.writer) + (s.queue + [op]) == s.ran + InHand(s.writer) + s.queue + [op];
  }

  /** The writer takes the head of the queue. */
  lemma TakingKeepsInv(s: State, draining: bool)
    requires Inv(s) && (s.writer == Idle || s.writer == Draining) && s.queue != [] && (draining ==> s.shut)
    ensures Inv(s.(writer := Running(s.queue[0], draining), queue := s.queue[1..]))
  {
    assert s.queue == [s.queue[0]] + s.queue[1..];
  }

  lemma RunningIsNew(s: State)
    requires Inv(s) && s.writer.Running?
    ensures s.writer.op in s.admitted && s.writer.op !in s.ran && s.writer.op !in s.replies && s.writer.op !in s.results
  {
    assert s.admitted[|s.ran|] == s.writer.op;
    forall i | 0 <= i < |s.ran| ensures s.ran[i] != s.writer.op {
      assert s.admitted[i] == s.ran[i];
    }
  }

  lemma ExecutingKeepsInv(s: State, result: int)
    requires Inv(s) && s.writer.Running?
    ensures Inv(Next(s, Execute(result)))
  {
    RunningIsNew(s);
    assert s.ran + [s.writer.op] + s.queue == s.ran + InHand(s.writer) + s.queue;
    forall op | op in s.ran ensures op in s.ran + [s.writer.op] {}
  }

  lemma StepKeepsInv(s: State, step: Step)
    requires Inv(s) && Enabled(s, step)
    ensures Inv(Next(s, step))
  {
    match step
    case Admit(op) => AdmissionKeepsInv(s, op);
    case Receive => TakingKeepsInv(s, false);
    case DrainOne => TakingKeepsInv(s, true);
    case Execute(result) => ExecutingKeepsInv(s, result);
    case _ => OtherStepsKeepInv(s, step);
  }

  lemma OtherStepsKeepInv(s: State, step: Step)
    requires Inv(s) && Enabled(s, step) && !step.Admit? && !step.Receive? && !step.DrainOne? && !step.Execute?
    ensures Inv(Next(s, step))
  {
  }

  // ---------------------------------------------------------------- runs

  ghost predicate Path(s: State, steps: seq<Step>)
    decreases |steps|
  {
    |steps| == 0 || (Enabled(s, steps[0]) && Path(Next(s, steps[0]), steps[1..]))
  }

  ghost function End(s: State, steps: seq<Step>): State
    requires Path(s, steps)
    decreases |steps|
  {
    if |steps| == 0 then s else End(Next(s, steps[0]), steps[1..])
  }

  lemma {:induction false} RunKeepsInv(s: State, steps: seq<Step>)
    requires Inv(s) && Path(s, steps)
    ensures Inv(End(s, steps))
    decreases |steps|
  {
    if |steps| > 0 {
      StepKeepsInv(s, steps[0]);
      RunKeepsInv(Next(s, steps[0]), steps[1..]);
    }
  }

  /** In every run: what ran is what was admitted so far, in admission order and
      each once; when the handle is closed, everything admitted has run; the
      writer never waits for a reader; and a caller that got a result got that
      of its own operation. */
  lemma AdmittedRunOnceInOrder(steps: seq<Step>, op: OpId)
    requires Path(START, steps)
    ensures var s := End(START, steps);
            && s.ran <= s.admitted && Unique(s.admitted)
            && (!s.handleOpen ==> s.ran == s.admitted)
            && (s.writer.Running? ==> s.handleOpen && s.writer.op !in s.ran)
            && (s.writer.Replying? ==> Enabled(s, Reply))
            && (op in s.clients && s.clients[op].Returned? && s.clients[op].verdict.Ran? ==>
                  op in s.ran && op in s.results && s.results[op] == s.clients[op].verdict.result)
  {
    RunKeepsInv(START, steps);
    var s := End(START, steps);
    if s.writer.Running? { RunningIsNew(s); }
    hide Path, End;
  }

  /** Once shut, nothing more is admitted, in any run. */
  lemma {:induction false} NothingAdmittedAfterShut(s: State, steps: seq<Step>)
    requires s.shut && Path(s, steps)
    ensures End(s, steps).shut && End(s, steps).admitted == s.admitted
    decreases |steps|
  {
    if |steps| > 0 { NothingAdmittedAfterShut(Next(s, steps[0]), steps[1..]); }
  }

  /** What the writer has left to do once the store is shut. */
  function Left(s: State): int {
    4 * |s.queue| + (match s.writer case Exited => 0 case Draining => 1 case Idle => 2 case Replying(_, _,
        _) => 3 case Running(_, _) => 4)
  }

  predicate ByWriter(step: Step) {
    step.Receive? || step.NoticeShut? || step.DrainOne? || step.DrainDone? || step.Execute? || step.Reply?
  }

  /** A shut store always closes: until the writer exits, it can move whatever
      its clients do, each of its moves brings it nearer, and no client sets it
      back. */
  lemma ShutStoreCloses(s: State, step: Step)
    requires Inv(s) && s.shut && Enabled(s, step)
    ensures s.writer != Exited ==> exists next :: ByWriter(next) && Enabled(s, next)
    ensures ByWriter(step) ==> 0 <= Left(Next(s, step)) < Left(s)
    ensures !ByWriter(step) ==> Left(Next(s, step)) == Left(s)
  {
    var next := match s.writer
      case Idle => NoticeShut
      case Draining => if s.queue == [] then DrainDone else DrainOne
      case Running(_, _) => Execute(0)
      case Replying(_, _, _) => Reply
      case Exited => Shut;
    assert s.writer != Exited ==> ByWriter(next) && Enabled(s, next);
  }
}
