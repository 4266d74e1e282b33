/** The entities the session controller stores and exchanges.  Opaque
    identifiers are integers: the program only ever compares them. */
module Domain {
  import opened Common

  type ChatId = int
  type EventId = int
  type StreamId = int
  type OwnerId = int
  type AttemptId = int
  type MessageId = int
  type CheckpointId = int
  type EntryId = int
  type Digest = int
  type Address = int

  /** One admitted message event.  `destination` and `messageId` identify the
      chat message it reports; `rest` stands for the remaining immutable
      metadata. */
  datatype Notification = Notification(
    id: EventId, chat: ChatId, sequence: int, destination: Address, messageId: MessageId, fromMe: bool, rest: int)

  /** The immutable-event digest, taken to be injective. */
  datatype Fingerprint = Fingerprint(of: Notification)

  /** An owner together with the epoch it was granted. */
  datatype Fence = Fence(owner: OwnerId, epoch: int)

  /** The tuple every fenced operation carries. */
  datatype Work = Work(app: Fence, lease: Fence, streamId: StreamId, event: Notification) {
    function Fp(): Fingerprint {
      Fingerprint(event)
    }
  }

  datatype Binding = Binding(chat: ChatId, session: int, file: int)

  datatype PauseReason =
    | LeaseLost | SequenceGap | SessionFailed | MutationUncertain | UsageUnknown
    | PreparationFailed | CheckpointInvalid | CompactionCapacity | CompactionFailed | RestoreFailed

  /** A message that left the controller, as a completion marker lists it. */
  datatype Send = Send(destination: Address, messageId: MessageId)

  datatype Status = Attempting | Confirmed(messageId: MessageId, finishedAt: int) | Uncertain

  datatype Mutation = Mutation(
    attempt: AttemptId, event: EventId, chat: ChatId, toolCall: int, tool: int, destination: Address, startedAt: int,
    status: Status)

  datatype JournalRecord = JournalRecord(fp: Fingerprint, session: Binding, state: Mutation)

  datatype Marker = Marker(
    event: EventId, fp: Fingerprint, chat: ChatId, sequence: int, contextOnly: bool, sends: seq<Send>)

  /** A completion marker as read back from the session file that holds it. */
  datatype Proof = Proof(marker: Marker, entry: EntryId, session: Binding)

  datatype Outcome = Outcome(attempt: AttemptId, tool: int, destination: Address, messageId: MessageId)

  datatype Checkpoint = Checkpoint(chat: ChatId, lastCompleted: int, createdAt: int, outcomes: seq<Outcome>, notes: int)

  datatype Generation = Generation(device: int, inode: int, size: int, mtime: int, ctime: int)

  datatype Recovery = Recovery(
    event: EventId, fp: Fingerprint, streamId: StreamId, session: Binding, generation: Generation)

  datatype Phase = Prepared | Aborted | Compacted(entry: EntryId) | Restored(entry: EntryId)

  datatype CheckpointRecord = CheckpointRecord(
    id: CheckpointId, phase: Phase, checkpoint: Checkpoint, recovery: Option<Recovery>)
}
