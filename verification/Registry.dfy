/** What the registry and the temporary directory hold (registry.go:15-56). */
module Registry {
  type Id = string
  type Pid = nat

  /** What a lock attaches to. A lock file keeps its inode when its path is unlinked; every
      creation makes a new one. */
  datatype Inode = Inode(id: Id, generation: nat)

  /** orphanGracePeriod, in seconds. */
  const GRACE: nat := 300

  /** `Library(id)` is the directory <TMPDIR>/embedded-tikv-<id>; anything else was chosen by a
      caller. */
  datatype DataPath = NoPath | Library(id: Id) | Caller(path: string)

  datatype ServerRecord = ServerRecord(name: string, pid: Pid, binary: string)
  datatype Record = Record(dataPath: DataPath, owns: bool, servers: seq<ServerRecord>)

  /** A record file either parses or it does not. */
  datatype File = Parsed(record: Record) | Garbage

  /** The data paths and binaries a process's command line names. */
  datatype Process = Process(paths: set<DataPath>, binaries: set<string>)
}
