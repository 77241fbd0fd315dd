/** What the handlers run against: the filesystem capability and the worktree
    constructor, both as opaque oracles, and the shared server state. */
module Host {
  import opened Wrappers
  import opened Protocol

  /** `text::LineEnding`, the convention `save` writes line breaks with. */
  datatype LineEnding = Unix | Windows

  /** `fs::Metadata`, with the modification time already expressed in
      milliseconds since the Unix epoch. */
  datatype Metadata = Metadata(inode: U64, mtime: U64, isSymlink: bool, isDir: bool)

  /** The filesystem capability (`RealFs`). Each operation is an oracle from its
      arguments to an outcome; `readDir` yields the entries of the directory
      stream, each of which can fail on its own. */
  datatype Fs = Fs(
    load: string -> Result<string>,
    save: (string, string, LineEnding) -> Result<()>,
    metadata: string -> Result<Option<Metadata>>,
    canonicalize: string -> Result<string>,
    readLink: string -> Result<string>,
    readDir: string -> Result<seq<Result<string>>>)

  /** Identity of the shared `Arc<AtomicUsize>` entry-id allocator. */
  type EntryIdCounter = nat

  /** A local worktree, as far as the server sees it: the id it reports. Its
      scanning and entries belong to the worktree oracle. */
  datatype Worktree = Worktree(id: U64)

  /** The environment: the filesystem and `Worktree::local(path, true, fs, next_entry_id)`. */
  datatype Host = Host(fs: Fs, openWorktree: (string, EntryIdCounter) -> Result<Worktree>)

  /** `ServerState`: the worktrees added so far and the allocator they all share. */
  datatype ServerState = ServerState(worktrees: seq<Worktree>, nextEntryId: EntryIdCounter)
}
