/** The wire vocabulary the server speaks: request kinds, request and response
    payloads, envelopes, and the unbounded outbound channel envelopes are put on. */
module Protocol {
  import opened Wrappers

  const U32_LIMIT: int := 0x1_0000_0000
  const U64_LIMIT: int := 0x1_0000_0000_0000_0000

  type U32 = x: int | 0 <= x < U32_LIMIT
  type U64 = x: int | 0 <= x < U64_LIMIT

  /** The numeric `id` of an envelope; a reply names it in `respondingTo`. */
  type MessageId = U32

  /** The static identity of a request payload type (the `TypeId` the registry is
      keyed on). `OtherKind` stands for every protocol message this server has no
      handler for. */
  datatype RequestKind =
    | PingKind
    | WriteFileKind
    | StatKind
    | CanonicalizeKind
    | ReadLinkKind
    | ReadDirKind
    | ReadFileKind
    | AddWorktreeKind
    | OtherKind(name: string)

  /** A decoded request payload. `lineEnding` is the raw `i32` of the protobuf enum. */
  datatype Request =
    | Ping
    | WriteFile(path: string, content: string, lineEnding: int)
    | Stat(path: string)
    | Canonicalize(path: string)
    | ReadLink(path: string)
    | ReadDir(path: string)
    | ReadFile(path: string)
    | AddWorktree(path: string)
    | Other(name: string)

  function KindOf(r: Request): RequestKind
  {
    match r
    case Ping => PingKind
    case WriteFile(_, _, _) => WriteFileKind
    case Stat(_) => StatKind
    case Canonicalize(_) => CanonicalizeKind
    case ReadLink(_) => ReadLinkKind
    case ReadDir(_) => ReadDirKind
    case ReadFile(_) => ReadFileKind
    case AddWorktree(_) => AddWorktreeKind
    case Other(name) => OtherKind(name)
  }

  /** A worktree change notification. Its contents are produced by the worktree's
      scanner, which is not modelled; `body` stands for everything but the id. */
  datatype WorktreeUpdate = WorktreeUpdate(worktreeId: U64, body: string)

  /** Payloads the server puts into outbound envelopes. */
  datatype Payload =
    | Ack
    | StatResponse(isDir: bool, isSymlink: bool, mtime: U64, inode: U64)
    | PathResponse(path: string)
    | ReadDirResponse(paths: seq<string>)
    | ReadFileResponse(content: string)
    | AddWorktreeResponse(worktreeId: U64)
    | UpdateWorktree(update: WorktreeUpdate)
    | Error(code: int, tags: seq<string>, message: string)

  /** The response type each request type declares (`RequestMessage::Response`).
      Only a payload of the declared type may be sent through a typed response. */
  predicate Answers(k: RequestKind, p: Payload)
  {
    match k
    case PingKind => p.Ack?
    case WriteFileKind => p.Ack?
    case StatKind => p.StatResponse?
    case CanonicalizeKind => p.PathResponse?
    case ReadLinkKind => p.PathResponse?
    case ReadDirKind => p.ReadDirResponse?
    case ReadFileKind => p.ReadFileResponse?
    case AddWorktreeKind => p.AddWorktreeResponse?
    case OtherKind(_) => false
  }

  /** The wire unit. A missing payload is a bare completion marker. */
  datatype Envelope = Envelope(
    id: U32,
    originalSenderId: Option<U32>,
    payload: Option<Payload>,
    respondingTo: Option<MessageId>)

  /** `payload.into_envelope(id, responding_to, original_sender_id)`. */
  function IntoEnvelope(p: Payload, id: U32, respondingTo: Option<MessageId>,
                        originalSenderId: Option<U32>): Envelope
  {
    Envelope(id, originalSenderId, Some(p), respondingTo)
  }

  /** The outbound `UnboundedSender<Envelope>`: `sent` is everything the transport
      has received so far; `open` is false once the receiving end is gone. */
  datatype Channel = Channel(open: bool, sent: seq<Envelope>)

  /** `tx.unbounded_send(e).ok()`: appends `e`, or silently drops it when the
      receiver has gone away. */
  function Transmit(tx: Channel, e: Envelope): (tx': Channel)
    ensures tx'.open == tx.open
    ensures tx.sent <= tx'.sent
    ensures |tx'.sent| == |tx.sent| + (if tx.open then 1 else 0)
    ensures tx.open ==> tx'.sent[|tx.sent|] == e
  {
    if tx.open then tx.(sent := tx.sent + [e]) else tx
  }

  /** The frames added to a channel between two of its states. */
  function Appended(before: Channel, after: Channel): seq<Envelope>
    requires before.sent <= after.sent
  {
    after.sent[|before.sent|..]
  }
}
