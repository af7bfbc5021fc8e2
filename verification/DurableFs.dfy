// A directory on disk, with what a power loss may leave of it.

module DurableFs {
  import opened Shared
  import opened Bytes

  type Name = string
  type Id = nat

  const MODE_0644: nat := 420

  datatype File = File(bytes: seq<Byte>, mode: nat)

  /** An inode's content; `clean` when content and mode have reached the disk. */
  datatype Inode = Inode(file: File, clean: bool)

  /** One directory. `maybe[n]` are the entries name `n` may have after a power loss: every value it
      took since the directory was last synced. */
  datatype Fs = Fs(inodes: map<Id, Inode>, dir: map<Name, Id>, maybe: map<Name, set<Option<Id>>>, next: Id)

  function Entry(fs: Fs, n: Name): Option<Id> {
    if n in fs.dir then Some(fs.dir[n]) else None
  }

  /** What the directory may say about `n` after a power loss. */
  function Candidates(fs: Fs, n: Name): set<Option<Id>> {
    {Entry(fs, n)} + if n in fs.maybe then fs.maybe[n] else {}
  }

  /** The files a reader may find under `n` after a power loss: an inode that was never synced may
      come back with any content at all. */
  ghost predicate Recoverable(fs: Fs, n: Name, found: Option<File>) {
    exists e :: e in Candidates(fs, n) && Reads(fs, e, found)
  }

  ghost predicate Reads(fs: Fs, e: Option<Id>, found: Option<File>) {
    match e
    case None => found == None
    case Some(id) => found.Some? && (id in fs.inodes && fs.inodes[id].clean ==> found.value == fs.inodes[id].file)
  }

  datatype Call =
    | OpenNew(tmp: Name, mode: nat)          // O_CREAT | O_EXCL
    | Write(id: Id, data: seq<Byte>)
    | Chmod(name: Name, mode: nat)
    | Fsync(id: Id)
    | Rename(from: Name, to: Name)
    | Link(from: Name, to: Name)
    | Unlink(name: Name)
    | SyncDir

  /** Can the kernel carry out the call at all? */
  predicate Possible(fs: Fs, c: Call) {
    match c
    case OpenNew(tmp, _) => tmp !in fs.dir
    case Write(id, _) => id in fs.inodes
    case Chmod(name, _) => name in fs.dir && fs.dir[name] in fs.inodes
    case Fsync(id) => id in fs.inodes
    case Rename(from, _) => from in fs.dir
    case Link(from, to) => from in fs.dir && to !in fs.dir
    case Unlink(name) => name in fs.dir
    case SyncDir => true
  }

  /** The entry of `n` changes; until the next sync a power loss may bring the old one back. */
  function SetEntry(fs: Fs, n: Name, e: Option<Id>): Fs {
    fs.(dir := if e.Some? then fs.dir[n := e.value] else fs.dir - {n},
        maybe := fs.maybe[n := Candidates(fs, n) + {e}])
  }

  function Perform(fs: Fs, c: Call): Fs
    requires Possible(fs, c)
  {
    match c
    case OpenNew(tmp, mode) =>
      var node := Inode(File([], mode), false);
      SetEntry(fs, tmp, Some(fs.next)).(inodes := fs.inodes[fs.next := node], next := fs.next + 1)
    case Write(id, data) =>
      var f := fs.inodes[id].file;
      fs.(inodes := fs.inodes[id := Inode(f.(bytes := f.bytes + data), false)])
    case Chmod(name, mode) =>
      var id := fs.dir[name];
      fs.(inodes := fs.inodes[id := Inode(fs.inodes[id].file.(mode := mode), false)])
    case Fsync(id) => fs.(inodes := fs.inodes[id := fs.inodes[id].(clean := true)])
    case Rename(from, to) =>
      if from == to then fs else SetEntry(SetEntry(fs, to, Some(fs.dir[from])), from, None)
    case Link(from, to) => SetEntry(fs, to, Some(fs.dir[from]))
    case Unlink(name) => SetEntry(fs, name, None)
    case SyncDir => fs.(maybe := map[])
  }
}
