/** The eight request handlers of `Server` (its `async fn ping`, `read_file`, ...).
    Each runs against the oracles of `Host`, sends through its typed `Response`,
    and reports how it ended. The registry the source calls `Handlers` is module
    `Registry`. */
module ServerHandlers {
  import opened Wrappers
  import opened Protocol
  import opened Correlator
  import opened Host

  /** The protobuf `WriteFile.LineEnding::Unix` value; every other value is
      treated as Windows. */
  const UNIX_LINE_ENDING: int := 0

  /** How a handler body ended: its `Result<()>`, the channel, the server state,
      and its correlator (whose owner count shows whether the body kept a copy). */
  datatype Step = Step(result: Result<()>, tx: Channel, state: ServerState, inner: ResponseInner)

  /** `e` is a reply sent through a `Response` typed by kind `k` for request `id`. */
  predicate IsReply(e: Envelope, k: RequestKind, id: MessageId)
  {
    && e.id == 0 && e.originalSenderId.None? && e.respondingTo == Some(id)
    && e.payload.Some? && Answers(k, e.payload.value)
  }

  /** The channel went from `tx` to `tx'` by at most one reply for request `id`
      of kind `k`. */
  predicate RepliesAtMostOnce(tx: Channel, tx': Channel, k: RequestKind, id: MessageId)
  {
    && tx'.open == tx.open && tx.sent <= tx'.sent
    && |Appended(tx, tx')| <= 1
    && (|Appended(tx, tx')| == 1 ==> IsReply(Appended(tx, tx')[0], k, id))
  }

  /** The line-ending choice of `write_file`: the Unix value selects Unix, every
      other `i32` (the Windows value and unknown ones) selects Windows. */
  function LineEndingFor(code: int): (le: LineEnding)
    ensures le == Unix <==> code == UNIX_LINE_ENDING
    ensures le == Windows <==> code != UNIX_LINE_ENDING
  {
    if code == UNIX_LINE_ENDING then Unix else Windows
  }

  /** Index `k` holds the first failing item of `items`. */
  predicate FirstFailure<T>(items: seq<Result<T>>, k: int)
  {
    0 <= k < |items| && items[k].Err? && forall i :: 0 <= i < k ==> items[i].Ok?
  }

  /** Draining a directory stream: the entries in stream order, or the first
      failing entry's error, with nothing collected past it. */
  function CollectEntries(items: seq<Result<string>>): (r: Result<seq<string>>)
    ensures r.Ok? <==> forall i :: 0 <= i < |items| ==> items[i].Ok?
    ensures r.Ok? ==> |r.value| == |items|
    ensures r.Ok? ==> forall i :: 0 <= i < |items| ==> items[i] == Ok(r.value[i])
    ensures r.Err? ==> exists k :: FirstFailure(items, k) && items[k] == Err(r.error)
    decreases |items|
  {
    if items == [] then Ok([])
    else match items[0]
      case Err(e) => Err(e)
      case Ok(p) =>
        match CollectEntries(items[1..])
        case Err(e) => Err(e)
        case Ok(rest) => Ok([p] + rest)
  }

  /** `ping`: always one `Ack`. */
  function HandlePing(resp: Response, tx: Channel, state: ServerState): (s: Step)
    requires resp.inner.holders > 0 && resp.kind == PingKind
    ensures RepliesAtMostOnce(tx, s.tx, PingKind, resp.inner.id)
    ensures s.result.Ok? && s.state == state && s.inner == resp.inner
    ensures s.tx.open == tx.open && tx.sent <= s.tx.sent
    ensures Appended(tx, s.tx) == if tx.open then [Envelope(0, None, Some(Ack), Some(resp.inner.id))] else []
  {
    Step(Ok(()), Send(resp, tx, Ack), state, resp.inner)
  }

  /** Shared shape of `read_file`, `read_link` and `canonicalize`: one oracle call
      whose error ends the handler, whose value is sent as `reply(value)`. */
  function ReplyWithValue(resp: Response, tx: Channel, state: ServerState,
                          outcome: Result<string>, reply: string -> Payload): (s: Step)
    requires resp.inner.holders > 0
    requires outcome.Ok? ==> Answers(resp.kind, reply(outcome.value))
    ensures s.state == state && s.inner == resp.inner
    ensures s.tx.open == tx.open && tx.sent <= s.tx.sent
    ensures outcome.Err? ==> s.result == Err(outcome.error) && s.tx == tx
    ensures outcome.Ok? ==> s.result.Ok?
    ensures outcome.Ok? ==>
      Appended(tx, s.tx) ==
      if tx.open then [Envelope(0, None, Some(reply(outcome.value)), Some(resp.inner.id))] else []
  {
    match outcome
    case Err(e) => Step(Err(e), tx, state, resp.inner)
    case Ok(v) => Step(Ok(()), Send(resp, tx, reply(v)), state, resp.inner)
  }

  /** `read_file`: the loaded content, or the load error with nothing sent. */
  function HandleReadFile(fs: Fs, path: string, resp: Response, tx: Channel, state: ServerState): (s: Step)
    requires resp.inner.holders > 0 && resp.kind == ReadFileKind
    ensures RepliesAtMostOnce(tx, s.tx, ReadFileKind, resp.inner.id)
    ensures s.state == state && s.inner == resp.inner
    ensures s.tx.open == tx.open && tx.sent <= s.tx.sent
    ensures fs.load(path).Err? ==> s.result == Err(fs.load(path).error) && s.tx == tx
    ensures fs.load(path).Ok? ==> s.result.Ok?
    ensures fs.load(path).Ok? ==>
      Appended(tx, s.tx) ==
      if tx.open then [Envelope(0, None, Some(ReadFileResponse(fs.load(path).value)), Some(resp.inner.id))] else []
  {
    ReplyWithValue(resp, tx, state, fs.load(path), (c: string) => ReadFileResponse(c))
  }

  /** `read_link`: the link target as a path response, or the error. */
  function HandleReadLink(fs: Fs, path: string, resp: Response, tx: Channel, state: ServerState): (s: Step)
    requires resp.inner.holders > 0 && resp.kind == ReadLinkKind
    ensures RepliesAtMostOnce(tx, s.tx, ReadLinkKind, resp.inner.id)
    ensures s.state == state && s.inner == resp.inner
    ensures s.tx.open == tx.open && tx.sent <= s.tx.sent
    ensures fs.readLink(path).Err? ==> s.result == Err(fs.readLink(path).error) && s.tx == tx
    ensures fs.readLink(path).Ok? ==> s.result.Ok?
    ensures fs.readLink(path).Ok? ==>
      Appended(tx, s.tx) ==
      if tx.open then [Envelope(0, None, Some(PathResponse(fs.readLink(path).value)), Some(resp.inner.id))] else []
  {
    ReplyWithValue(resp, tx, state, fs.readLink(path), (p: string) => PathResponse(p))
  }

  /** `canonicalize`: the canonical path as a path response, or the error. */
  function HandleCanonicalize(fs: Fs, path: string, resp: Response, tx: Channel, state: ServerState): (s: Step)
    requires resp.inner.holders > 0 && resp.kind == CanonicalizeKind
    ensures RepliesAtMostOnce(tx, s.tx, CanonicalizeKind, resp.inner.id)
    ensures s.state == state && s.inner == resp.inner
    ensures s.tx.open == tx.open && tx.sent <= s.tx.sent
    ensures fs.canonicalize(path).Err? ==> s.result == Err(fs.canonicalize(path).error) && s.tx == tx
    ensures fs.canonicalize(path).Ok? ==> s.result.Ok?
    ensures fs.canonicalize(path).Ok? ==>
      Appended(tx, s.tx) ==
      if tx.open then [Envelope(0, None, Some(PathResponse(fs.canonicalize(path).value)), Some(resp.inner.id))] else []
  {
    ReplyWithValue(resp, tx, state, fs.canonicalize(path), (p: string) => PathResponse(p))
  }

  /** `read_dir`: every entry of the stream, in order, in one response; an error
      opening the directory or reading any entry ends the handler with that
      error and no response. */
  function HandleReadDir(fs: Fs, path: string, resp: Response, tx: Channel, state: ServerState): (s: Step)
    requires resp.inner.holders > 0 && resp.kind == ReadDirKind
    ensures RepliesAtMostOnce(tx, s.tx, ReadDirKind, resp.inner.id)
    ensures s.state == state && s.inner == resp.inner
    ensures s.tx.open == tx.open && tx.sent <= s.tx.sent
    ensures s.result.Err? ==> s.tx == tx
    ensures fs.readDir(path).Err? ==> s.result == Err(fs.readDir(path).error)
    ensures fs.readDir(path).Ok? ==> var items := fs.readDir(path).value;
      && (s.result.Ok? <==> forall i :: 0 <= i < |items| ==> items[i].Ok?)
      && (s.result.Err? ==> exists k :: FirstFailure(items, k) && items[k] == Err(s.result.error))
      && (s.result.Ok? && tx.open ==> exists paths: seq<string> ::
            && |paths| == |items|
            && (forall i :: 0 <= i < |items| ==> items[i] == Ok(paths[i]))
            && Appended(tx, s.tx) == [Envelope(0, None, Some(ReadDirResponse(paths)), Some(resp.inner.id))])
      && (!tx.open ==> s.tx == tx)
  {
    match fs.readDir(path)
    case Err(e) => Step(Err(e), tx, state, resp.inner)
    case Ok(items) =>
      match CollectEntries(items)
      case Err(e) => Step(Err(e), tx, state, resp.inner)
      case Ok(paths) => Step(Ok(()), Send(resp, tx, ReadDirResponse(paths)), state, resp.inner)
  }

  /** `stat`: with metadata, one response copying its fields; with no metadata,
      success and nothing sent; a metadata error ends the handler. */
  function HandleStat(fs: Fs, path: string, resp: Response, tx: Channel, state: ServerState): (s: Step)
    requires resp.inner.holders > 0 && resp.kind == StatKind
    ensures RepliesAtMostOnce(tx, s.tx, StatKind, resp.inner.id)
    ensures s.state == state && s.inner == resp.inner
    ensures s.tx.open == tx.open && tx.sent <= s.tx.sent
    ensures fs.metadata(path).Err? ==> s.result == Err(fs.metadata(path).error) && s.tx == tx
    ensures fs.metadata(path) == Ok(None) ==> s.result.Ok? && s.tx == tx
    ensures fs.metadata(path).Ok? && fs.metadata(path).value.Some? ==>
      var m := fs.metadata(path).value.value;
      s.result.Ok? && Appended(tx, s.tx) ==
        if tx.open then [Envelope(0, None, Some(StatResponse(m.isDir, m.isSymlink, m.mtime, m.inode)), Some(resp.inner.id))]
        else []
  {
    match fs.metadata(path)
    case Err(e) => Step(Err(e), tx, state, resp.inner)
    case Ok(None) => Step(Ok(()), tx, state, resp.inner)
    case Ok(Some(m)) =>
      Step(Ok(()), Send(resp, tx, StatResponse(m.isDir, m.isSymlink, m.mtime, m.inode)), state, resp.inner)
  }

  /** `write_file`: saves with the chosen line ending and sends nothing; the
      handler's result is the save's result. */
  function HandleWriteFile(fs: Fs, path: string, content: string, lineEnding: int,
                           resp: Response, tx: Channel, state: ServerState): (s: Step)
    requires resp.inner.holders > 0 && resp.kind == WriteFileKind
    ensures RepliesAtMostOnce(tx, s.tx, WriteFileKind, resp.inner.id)
    ensures s.state == state && s.inner == resp.inner && s.tx == tx
    ensures lineEnding == UNIX_LINE_ENDING ==> s.result == fs.save(path, content, Unix)
    ensures lineEnding != UNIX_LINE_ENDING ==> s.result == fs.save(path, content, Windows)
  {
    Step(fs.save(path, content, LineEndingFor(lineEnding)), tx, state, resp.inner)
  }

  /** `add_worktree`: opens a worktree on the shared entry-id allocator. On
      success the update observer keeps a copy of the correlator, the worktree is
      appended to the state, and its id is the reply. On failure nothing changes. */
  function HandleAddWorktree(host: Host, path: string, resp: Response, tx: Channel, state: ServerState): (s: Step)
    requires resp.inner.holders > 0 && resp.kind == AddWorktreeKind
    ensures RepliesAtMostOnce(tx, s.tx, AddWorktreeKind, resp.inner.id)
    ensures s.tx.open == tx.open && tx.sent <= s.tx.sent
    ensures s.inner.id == resp.inner.id
    ensures host.openWorktree(path, state.nextEntryId).Err? ==>
      && s.result == Err(host.openWorktree(path, state.nextEntryId).error)
      && s.tx == tx && s.state == state && s.inner == resp.inner
    ensures host.openWorktree(path, state.nextEntryId).Ok? ==>
      var w := host.openWorktree(path, state.nextEntryId).value;
      && s.result.Ok?
      && s.state.worktrees == state.worktrees + [w]
      && s.state.nextEntryId == state.nextEntryId
      && s.inner.holders == resp.inner.holders + 1
      && Appended(tx, s.tx) ==
           if tx.open then [Envelope(0, None, Some(AddWorktreeResponse(w.id)), Some(resp.inner.id))] else []
  {
    var counter := state.nextEntryId;
    match host.openWorktree(path, counter)
    case Err(e) => Step(Err(e), tx, state, resp.inner)
    case Ok(w) =>
      var observer := Share(resp.inner);
      var state' := state.(worktrees := state.worktrees + [w]);
      Step(Ok(()), Send(resp.(inner := observer), tx, AddWorktreeResponse(w.id)), state', observer)
  }

  /** One update forwarded by the observer: id 0, not a reply to anything. */
  function UpdateFrame(u: WorktreeUpdate): Envelope
  {
    Envelope(0, None, Some(UpdateWorktree(u)), None)
  }

  /** The observer registered by `add_worktree` forwarding each worktree update, in
      the order the worktree emits them, through the correlator copy it holds. */
  function ForwardUpdates(observer: ResponseInner, tx: Channel, updates: seq<WorktreeUpdate>): (tx': Channel)
    requires observer.holders > 0
    ensures tx'.open == tx.open && tx.sent <= tx'.sent
    ensures !tx.open ==> tx' == tx
    ensures tx.open ==> |tx'.sent| == |tx.sent| + |updates|
    ensures tx.open ==> forall i :: 0 <= i < |updates| ==>
      tx'.sent[|tx.sent| + i] == Envelope(0, None, Some(UpdateWorktree(updates[i])), None)
    decreases |updates|
  {
    if updates == [] then tx
    else
      var tx1 := SendRaw(observer, tx, UpdateFrame(updates[0]));
      var tx' := ForwardUpdates(observer, tx1, updates[1..]);
      tx'
  }
}
