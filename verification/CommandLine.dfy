/** How a sweep recognises the processes of a cluster: by a command line that names the
    cluster's own data directory (registry.go:413-429, pd.go:41-53, tikv.go:34-43,
    watchdog.go:108-130).

    `tmp` is the cleaned temporary directory without a trailing separator, so it is "" when
    the temporary directory is the file system root. */
module CommandLine {
  import opened Strings

  const SEPARATOR: char := '/'
  const DATA_DIR_PREFIX := "embedded-tikv-"
  const MARK: string := "/embedded-tikv-"

  /** Nothing in `s` can be mistaken for the start of a library-named directory. */
  predicate Unmarked(s: string) { !Contains(s, MARK) }

  predicate SeparatorFree(id: string) { SEPARATOR !in id }

  function DefaultDataDir(tmp: string, id: string): string {
    tmp + [SEPARATOR] + DATA_DIR_PREFIX + id
  }

  function PathJoin(dir: string, name: string): string { dir + [SEPARATOR] + name }

  predicate CmdlineReferences(cmdline: string, dataPath: string) {
    dataPath != "" && Contains(cmdline, dataPath + [SEPARATOR])
  }

  /** The arguments of a command, joined the way `/proc/<pid>/cmdline` is rendered. */
  function Render(argv: seq<string>): string
    requires |argv| >= 1
  {
    Join(argv, ' ')
  }

  // -------- The command lines this library builds --------

  function PDArgs(binary: string, dataPath: string, peerURL: string, clientURL: string): (argv: seq<string>)
    ensures |argv| >= 1
  {
    var dir := PathJoin(dataPath, "pd");
    [ binary,
      "--name=pd-0",
      "--config=" + PathJoin(dir, "pd.toml"),
      "--data-dir=" + PathJoin(dir, "data"),
      "--peer-urls=" + peerURL,
      "--advertise-peer-urls=" + peerURL,
      "--client-urls=" + clientURL,
      "--advertise-client-urls=" + clientURL,
      "--initial-cluster=pd-0=" + peerURL ]
  }

  function TiKVArgs(binary: string, dataPath: string, name: string, addr: string, statusAddr: string,
                    pdEndpoints: string): (argv: seq<string>)
    ensures |argv| >= 1
  {
    var dir := PathJoin(dataPath, name);
    [ binary,
      "--addr=" + addr,
      "--advertise-addr=" + addr,
      "--status-addr=" + statusAddr,
      "--pd-endpoints=" + pdEndpoints,
      "--config=" + PathJoin(dir, "tikv.toml"),
      "--data-dir=" + PathJoin(dir, "data") ]
  }

  /** The shell that holds the watch: its arguments name the data directory bare, followed by
      the record and lock to remove and then the server's own command. */
  function WatchdogArgs(script: string, dataPath: string, recordPath: string, lockPath: string,
                        server: seq<string>): (argv: seq<string>)
    ensures |argv| >= 1
  {
    ["/bin/sh", "-c", script, "embedded-tikv-watchdog", dataPath, recordPath, lockPath] + server
  }

  // -------- Where a marked directory can occur --------

  /** Every mark in `t` is followed by `id` and then by one of `ends`, or by the end of the text. */
  ghost predicate MarksOnly(t: string, id: string, ends: set<char>) {
    forall i | OccursAt(t, MARK, i) ::
      OccursAt(t, MARK + id, i) && (i + |MARK + id| < |t| ==> t[i + |MARK + id|] in ends)
  }

  lemma OccursChars(s: string, sub: string, i: int)
    requires OccursAt(s, sub, i)
    ensures forall k | 0 <= k < |sub| :: s[i + k] == sub[k]
    ensures forall j | i <= j < i + |sub| :: s[j] == sub[j - i]
  {
    forall k | 0 <= k < |sub| ensures s[i + k] == sub[k] {
      assert s[i..i + |sub|][k] == s[i + k];
    }
  }

  /** Reading an occurrence of `a + b` as one of `a` followed by one of `b`. */
  lemma OccursSplit(s: string, a: string, b: string, i: int)
    requires OccursAt(s, a + b, i)
    ensures OccursAt(s, a, i) && OccursAt(s, b, i + |a|)
  {
    var whole := s[i..i + |a + b|];
    assert s[i..i + |a|] == whole[..|a|];
    assert s[i + |a|..i + |a| + |b|] == whole[|a|..];
  }

  /** Text that starts at a boundary character never completes a mark begun before it. */
  lemma NoStraddle(a: string, b: string, i: int)
    requires OccursAt(a + b, MARK, i)
    requires b == "" || b[0] == SEPARATOR || b[0] == ' '
    ensures OccursAt(a, MARK, i) || OccursAt(b, MARK, i - |a|)
  {
    var t := a + b;
    OccursChars(t, MARK, i);
    assert forall k | 1 <= k < |MARK| :: MARK[k] != SEPARATOR && MARK[k] != ' ';
    assert b != "" ==> t[|a|] == b[0];
    if i + |MARK| <= |a| {
      assert a[i..i + |MARK|] == t[i..i + |MARK|];
    } else {
      assert i >= |a|;
      assert b[i - |a|..i - |a| + |MARK|] == t[i..i + |MARK|];
    }
  }

  ghost predicate Around(cmdline: string, lead: string, sub: string, tail: string) { cmdline == lead + sub + tail }

  /** A command line references a directory exactly if the directory is not empty and stands
      somewhere in it before a separator. */
  lemma ReferencesSpelled(cmdline: string, dataPath: string)
    ensures CmdlineReferences(cmdline, dataPath) <==>
              dataPath != "" && exists lead, tail :: Around(cmdline, lead, dataPath + "/", tail)
  {
    var sub := dataPath + "/";
    if CmdlineReferences(cmdline, dataPath) {
      var i :| 0 <= i <= |cmdline| && OccursAt(cmdline, sub, i);
      assert Around(cmdline, cmdline[..i], sub, cmdline[i + |sub|..]);
    }
    if dataPath != "" && exists lead, tail :: Around(cmdline, lead, sub, tail) {
      var lead, tail :| Around(cmdline, lead, sub, tail);
      assert cmdline[|lead|..|lead| + |sub|] == sub;
      assert OccursAt(cmdline, sub, |lead|);
    }
  }

  lemma OccursAppended(a: string, b: string, sub: string, i: int)
    ensures OccursAt(a, sub, i) ==> OccursAt(a + b, sub, i)
    ensures OccursAt(b, sub, i - |a|) && |a| <= i ==> OccursAt(a + b, sub, i)
  {
    if OccursAt(a, sub, i) {
      assert (a + b)[i..i + |sub|] == a[i..i + |sub|];
    }
    if OccursAt(b, sub, i - |a|) && |a| <= i {
      assert (a + b)[i..i + |sub|] == b[i - |a|..i - |a| + |sub|];
    }
  }

  lemma UnmarkedFlag(flag: string, t: string)
    requires SEPARATOR !in flag && Unmarked(t)
    ensures Unmarked(flag + t)
  {
    var s := flag + t;
    forall i | 0 <= i <= |s| ensures !OccursAt(s, MARK, i) {
      if OccursAt(s, MARK, i) {
        OccursChars(s, MARK, i);
        assert s[i + 0] == SEPARATOR;
        assert t[i - |flag|..i - |flag| + |MARK|] == s[i..i + |MARK|];
        assert OccursAt(t, MARK, i - |flag|);
      }
    }
  }

  /** A directory name holds no mark but the one it starts with. */
  lemma NameMarks(id: string, i: int)
    requires SeparatorFree(id) && OccursAt(MARK + id, MARK, i)
    ensures i == 0
  {
    var t := MARK + id;
    OccursChars(t, MARK, i);
    assert t[i + 0] == SEPARATOR;
    assert forall k | 1 <= k < |MARK| :: MARK[k] != SEPARATOR;
  }

  /** An argument that names the directory once. */
  lemma NamingMarksOnly(lead: string, id: string, tail: string, ends: set<char>)
    requires Unmarked(lead) && Unmarked(tail) && SeparatorFree(id)
    requires tail != "" ==> tail[0] == SEPARATOR && SEPARATOR in ends
    ensures MarksOnly(lead + (MARK + id + tail), id, ends)
    ensures tail != "" ==> NoMarkAtEnd(lead + (MARK + id + tail), id)
  {
    var t := lead + (MARK + id + tail);
    forall i | OccursAt(t, MARK, i)
      ensures i == |lead|
    {
      NoStraddle(lead, MARK + id + tail, i);
      NoStraddle(MARK + id, tail, i - |lead|);
      if OccursAt(MARK + id, MARK, i - |lead|) {
        NameMarks(id, i - |lead|);
      }
    }
    assert t[|lead|..|lead| + |MARK + id|] == MARK + id;
    forall i | OccursAt(t, MARK + id, i) ensures i == |lead| {
      assert t[i..i + |MARK|] == t[i..i + |MARK + id|][..|MARK|] == MARK;
      assert OccursAt(t, MARK, i);
    }
  }

  lemma NoStraddleSpace(a: string, rest: string, i: int)
    requires OccursAt(a + " " + rest, MARK, i)
    ensures OccursAt(a, MARK, i) || OccursAt(rest, MARK, i - |a| - 1)
  {
    assert a + " " + rest == a + (" " + rest);
    NoStraddle(a, " " + rest, i);
    if !OccursAt(a, MARK, i) {
      OccursChars(" " + rest, MARK, i - |a|);
      assert (" " + rest)[0] == ' ' != MARK[0];
      assert rest[i - |a| - 1..i - |a| - 1 + |MARK|] == (" " + rest)[i - |a|..i - |a| + |MARK|];
    }
  }

  /** Joining by spaces creates no new mark. */
  lemma JoinTwo(a: string, rest: string, id: string, ends: set<char>)
    requires MarksOnly(a, id, ends) && MarksOnly(rest, id, ends)
    requires ' ' in ends || NoMarkAtEnd(a, id)
    ensures MarksOnly(a + " " + rest, id, ends)
    ensures NoMarkAtEnd(a, id) && NoMarkAtEnd(rest, id) ==> NoMarkAtEnd(a + " " + rest, id)
  {
    var t, n := a + " " + rest, |MARK + id|;
    forall i | OccursAt(t, MARK, i)
      ensures OccursAt(t, MARK + id, i) && (i + n < |t| ==> t[i + n] in ends)
      ensures NoMarkAtEnd(a, id) && NoMarkAtEnd(rest, id) ==> i + n < |t|
    {
      MarkInTwo(a, rest, id, ends, i);
    }
    forall i | OccursAt(t, MARK + id, i) ensures OccursAt(t, MARK, i) {
      OccursSplit(t, MARK, id, i);
    }
  }

  lemma MarkInTwo(a: string, rest: string, id: string, ends: set<char>, i: int)
    requires MarksOnly(a, id, ends) && MarksOnly(rest, id, ends) && (' ' in ends || NoMarkAtEnd(a, id))
    requires OccursAt(a + " " + rest, MARK, i)
    ensures var t, n := a + " " + rest, |MARK + id|;
            && OccursAt(t, MARK + id, i) && (i + n < |t| ==> t[i + n] in ends)
            && (NoMarkAtEnd(a, id) && NoMarkAtEnd(rest, id) ==> i + n < |t|)
  {
    NoStraddleSpace(a, rest, i);
    if OccursAt(a, MARK, i) {
      assert a + " " + rest == a + (" " + rest);
      OccursAppended(a, " " + rest, MARK + id, i);
    } else {
      assert a + " " + rest == (a + " ") + rest;
      OccursAppended(a + " ", rest, MARK + id, i);
    }
  }

  lemma {:induction false} JoinMarksOnly(argv: seq<string>, id: string, ends: set<char>)
    requires |argv| >= 1 && forall k | 0 <= k < |argv| :: MarksOnly(argv[k], id, ends)
    requires ' ' in ends || forall k | 0 <= k < |argv| :: NoMarkAtEnd(argv[k], id)
    ensures MarksOnly(Render(argv), id, ends)
    ensures (forall k | 0 <= k < |argv| :: NoMarkAtEnd(argv[k], id)) ==> NoMarkAtEnd(Render(argv), id)
  {
    if |argv| > 1 {
      JoinMarksOnly(argv[1..], id, ends);
      JoinTwo(argv[0], Render(argv[1..]), id, ends);
    }
  }

  /** The text does not end right after the id of a mark. */
  ghost predicate NoMarkAtEnd(t: string, id: string) {
    forall i | OccursAt(t, MARK + id, i) :: i + |MARK + id| < |t|
  }

  // -------- The match identifies a cluster exactly --------

  lemma MarkIdentifies(t: string, x: string, y: string, ends: set<char>, i: int)
    requires MarksOnly(t, y, ends) && SEPARATOR in ends && OccursAt(t, MARK + x, i)
    requires SeparatorFree(y) && forall c | c in ends :: c !in x
    ensures x <= y
    ensures OccursAt(t, MARK + x + [SEPARATOR], i) ==> x == y
  {
    OccursSplit(t, MARK, x, i);
    OccursSplit(t, MARK, y, i);
    var n := i + |MARK|;
    OccursChars(t, x, n);
    OccursChars(t, y, n);
    assert n + |y| < |t| ==> t[n + |y|] in ends;
    assert forall k | 0 <= k < |x| :: x[k] == y[k];
    if OccursAt(t, MARK + x + [SEPARATOR], i) {
      OccursSplit(t, MARK + x, [SEPARATOR], i);
      OccursChars(t, [SEPARATOR], n + |x|);
      assert t[n + |x| + 0] == SEPARATOR;
    }
  }

  lemma ReferenceHasMark(cmdline: string, tmp: string, x: string, tail: string)
    requires Contains(cmdline, DefaultDataDir(tmp, x) + tail)
    ensures exists i :: OccursAt(cmdline, MARK + x + tail, i) && OccursAt(cmdline, MARK + x, i)
  {
    var i :| OccursAt(cmdline, DefaultDataDir(tmp, x) + tail, i);
    assert DefaultDataDir(tmp, x) + tail == tmp + (MARK + x + tail);
    OccursSplit(cmdline, tmp, MARK + x + tail, i);
    OccursSplit(cmdline, MARK + x, tail, i + |tmp|);
  }

  lemma {:induction false} JoinContains(argv: seq<string>, k: int, sub: string)
    requires 0 <= k < |argv| && Contains(argv[k], sub)
    ensures Contains(Render(argv), sub)
  {
    if |argv| > 1 {
      var a, rest := argv[0], Render(argv[1..]);
      assert Render(argv) == a + " " + rest;
      if k == 0 {
        var i :| OccursAt(a, sub, i);
        OccursAppended(a, " " + rest, sub, i);
        assert a + " " + rest == a + (" " + rest);
      } else {
        JoinContains(argv[1..], k - 1, sub);
        var i :| OccursAt(rest, sub, i);
        OccursAppended(a + " ", rest, sub, i + |a| + 1);
      }
    }
  }

  /** Everything a cluster's command line holds besides its own data directory: none of it
      names a library directory. */
  ghost predicate PlainPD(tmp: string, binary: string, peerURL: string, clientURL: string) {
    Unmarked(tmp) && Unmarked(binary) && Unmarked(peerURL) && Unmarked(clientURL)
  }

  ghost predicate PlainTiKV(tmp: string, binary: string, index: string, addr: string, statusAddr: string,
                            pdEndpoints: string) {
    && Unmarked(tmp) && Unmarked(binary) && SeparatorFree(index)
    && Unmarked(addr) && Unmarked(statusAddr) && Unmarked(pdEndpoints)
  }

  /** What every argument of a server satisfies, and that one of them is below the directory. */
  ghost predicate ServerCommand(argv: seq<string>, tmp: string, id: string) {
    && |argv| >= 1
    && (forall k | 0 <= k < |argv| :: MarksOnly(argv[k], id, {SEPARATOR}) && NoMarkAtEnd(argv[k], id))
    && (exists k | 0 <= k < |argv| :: Contains(argv[k], DefaultDataDir(tmp, id) + [SEPARATOR]))
  }

  lemma UnmarkedArg(t: string, id: string)
    requires Unmarked(t)
    ensures MarksOnly(t, id, {SEPARATOR}) && NoMarkAtEnd(t, id)
  {
    forall i | OccursAt(t, MARK + id, i) ensures OccursAt(t, MARK, i) {
      assert t[i..i + |MARK|] == t[i..i + |MARK + id|][..|MARK|] == MARK;
    }
  }

  lemma FlagArg(flag: string, t: string, id: string)
    requires SEPARATOR !in flag && Unmarked(t)
    ensures MarksOnly(flag + t, id, {SEPARATOR}) && NoMarkAtEnd(flag + t, id)
  {
    UnmarkedFlag(flag, t);
    UnmarkedArg(flag + t, id);
  }

  /** A flag that names a file two levels below the data directory. */
  lemma PathArg(flag: string, tmp: string, id: string, name: string, file: string)
    requires SEPARATOR !in flag && Unmarked(tmp) && SeparatorFree(id) && SeparatorFree(name) && SeparatorFree(file)
    requires name != "" && name[0] != 'e' && |file| < |MARK| - 1
    ensures var arg := flag + PathJoin(PathJoin(DefaultDataDir(tmp, id), name), file);
            && MarksOnly(arg, id, {SEPARATOR}) && NoMarkAtEnd(arg, id)
            && Contains(arg, DefaultDataDir(tmp, id) + [SEPARATOR])
  {
    var tail := "/" + name + "/" + file;
    assert Unmarked(tail) by {
      forall i | 0 <= i <= |tail| ensures !OccursAt(tail, MARK, i) {
        assert tail[0..] == tail && MARK[0] == SEPARATOR && MARK[1] == 'e';
        if OccursAt(tail, MARK, i) {
          OccursChars(tail, MARK, i);
        }
      }
    }
    var arg := flag + PathJoin(PathJoin(DefaultDataDir(tmp, id), name), file);
    assert arg == (flag + tmp) + (MARK + id + tail);
    UnmarkedFlag(flag, tmp);
    NamingMarksOnly(flag + tmp, id, tail, {SEPARATOR});
    var sub := DefaultDataDir(tmp, id) + [SEPARATOR];
    assert arg[|flag|..|flag| + |sub|] == sub;
    assert OccursAt(arg, sub, |flag|);
  }

  /** PD's arguments without paths. */
  lemma PDPlainArgs(y: string, binary: string, peerURL: string, clientURL: string)
    requires Unmarked(binary) && Unmarked(peerURL) && Unmarked(clientURL)
    ensures forall arg | arg in [binary, "--name=pd-0", "--peer-urls=" + peerURL, "--advertise-peer-urls=" + peerURL,
                                 "--client-urls=" + clientURL, "--advertise-client-urls=" + clientURL,
                                 "--initial-cluster=pd-0=" + peerURL] ::
              MarksOnly(arg, y, {SEPARATOR}) && NoMarkAtEnd(arg, y)
  {
    UnmarkedArg(binary, y);
    UnmarkedName("--name=pd-0");
    UnmarkedArg("--name=pd-0", y);
    FlagArg("--peer-urls=", peerURL, y);
    FlagArg("--advertise-peer-urls=", peerURL, y);
    FlagArg("--client-urls=", clientURL, y);
    FlagArg("--advertise-client-urls=", clientURL, y);
    FlagArg("--initial-cluster=pd-0=", peerURL, y);
  }

  lemma PDCommand(tmp: string, y: string, binary: string, peerURL: string, clientURL: string)
    requires PlainPD(tmp, binary, peerURL, clientURL) && SeparatorFree(y)
    ensures ServerCommand(PDArgs(binary, DefaultDataDir(tmp, y), peerURL, clientURL), tmp, y)
  {
    var argv := PDArgs(binary, DefaultDataDir(tmp, y), peerURL, clientURL);
    PDPlainArgs(y, binary, peerURL, clientURL);
    PathArg("--config=", tmp, y, "pd", "pd.toml");
    PathArg("--data-dir=", tmp, y, "pd", "data");
    forall k | 0 <= k < |argv| ensures MarksOnly(argv[k], y, {SEPARATOR}) && NoMarkAtEnd(argv[k], y) {
      assert argv[k] in argv;
    }
    assert Contains(argv[3], DefaultDataDir(tmp, y) + [SEPARATOR]);
  }

  lemma UnmarkedName(t: string)
    requires SEPARATOR !in t
    ensures Unmarked(t)
  {
    forall i | 0 <= i <= |t| ensures !OccursAt(t, MARK, i) {
      assert i < |t| ==> t[i] in t && MARK[0] == SEPARATOR;
      if OccursAt(t, MARK, i) {
        OccursChars(t, MARK, i);
      }
    }
  }

  lemma TiKVCommand(tmp: string, y: string, binary: string, index: string, addr: string, statusAddr: string,
                    pdEndpoints: string)
    requires PlainTiKV(tmp, binary, index, addr, statusAddr, pdEndpoints) && SeparatorFree(y)
    ensures ServerCommand(TiKVArgs(binary, DefaultDataDir(tmp, y), "tikv-" + index, addr, statusAddr, pdEndpoints), tmp, y)
  {
    var argv := TiKVArgs(binary, DefaultDataDir(tmp, y), "tikv-" + index, addr, statusAddr, pdEndpoints);
    UnmarkedArg(argv[0], y);
    FlagArg("--addr=", addr, y);
    FlagArg("--advertise-addr=", addr, y);
    FlagArg("--status-addr=", statusAddr, y);
    FlagArg("--pd-endpoints=", pdEndpoints, y);
    PathArg("--config=", tmp, y, "tikv-" + index, "tikv.toml");
    PathArg("--data-dir=", tmp, y, "tikv-" + index, "data");
    assert Contains(argv[6], DefaultDataDir(tmp, y) + [SEPARATOR]);
  }

  /** Both name their binary and keep their data and configuration in the cluster's directory. */
  lemma DataInDirectory(tmp: string, y: string, binary: string, peerURL: string, clientURL: string,
                        name: string, addr: string, statusAddr: string, pdEndpoints: string)
    ensures var argv, dir := PDArgs(binary, DefaultDataDir(tmp, y), peerURL, clientURL), tmp + "/embedded-tikv-" + y;
            binary in argv && "--data-dir=" + (dir + "/pd/data") in argv && "--config=" + (dir + "/pd/pd.toml") in argv
    ensures var argv := TiKVArgs(binary, DefaultDataDir(tmp, y), name, addr, statusAddr, pdEndpoints);
            var dir := tmp + "/embedded-tikv-" + y + "/" + name;
            binary in argv && "--data-dir=" + (dir + "/data") in argv && "--config=" + (dir + "/tikv.toml") in argv
  {
    PathSpelled(tmp, y, "pd", "data");
    PathSpelled(tmp, y, "pd", "pd.toml");
    PathSpelled(tmp, y, name, "data");
    PathSpelled(tmp, y, name, "tikv.toml");
    assert "/pd/data" == "/" + "pd" + "/" + "data" && "/pd/pd.toml" == "/" + "pd" + "/" + "pd.toml";
    assert "/data" == "/" + "data" && "/tikv.toml" == "/" + "tikv.toml";
    var pd := PDArgs(binary, DefaultDataDir(tmp, y), peerURL, clientURL);
    assert pd[0] in pd && pd[2] in pd && pd[3] in pd;
    var tikv := TiKVArgs(binary, DefaultDataDir(tmp, y), name, addr, statusAddr, pdEndpoints);
    assert tikv[0] in tikv && tikv[5] in tikv && tikv[6] in tikv;
  }

  lemma PathSpelled(tmp: string, y: string, name: string, file: string)
    ensures PathJoin(PathJoin(DefaultDataDir(tmp, y), name), file) == tmp + "/embedded-tikv-" + y + "/" + name + "/" + file
    ensures tmp + "/embedded-tikv-" + y + "/" + name + "/" + file == tmp + "/embedded-tikv-" + y + ("/" + name + "/" + file)
    ensures tmp + "/embedded-tikv-" + y + "/" + name + "/" + file == tmp + "/embedded-tikv-" + y + "/" + name + ("/" + file)
  {
    assert "/embedded-tikv-" == [SEPARATOR] + DATA_DIR_PREFIX;
  }

  /** A server of cluster `y` references the directory of `x` exactly when `x` is `y`. */
  lemma ServerMatchesExactly(argv: seq<string>, tmp: string, x: string, y: string)
    requires ServerCommand(argv, tmp, y) && SeparatorFree(x) && SeparatorFree(y)
    ensures CmdlineReferences(Render(argv), DefaultDataDir(tmp, x)) <==> x == y
  {
    JoinMarksOnly(argv, y, {SEPARATOR});
    if CmdlineReferences(Render(argv), DefaultDataDir(tmp, x)) {
      ReferenceHasMark(Render(argv), tmp, x, [SEPARATOR]);
      var i :| OccursAt(Render(argv), MARK + x + [SEPARATOR], i) && OccursAt(Render(argv), MARK + x, i);
      MarkIdentifies(Render(argv), x, y, {SEPARATOR}, i);
    }
    var k :| 0 <= k < |argv| && Contains(argv[k], DefaultDataDir(tmp, y) + [SEPARATOR]);
    JoinContains(argv, k, DefaultDataDir(tmp, y) + [SEPARATOR]);
  }

  /** Without the trailing separator the test would also match every cluster whose id merely
      begins with `x`. */
  lemma SubstringMatchesEveryExtension(argv: seq<string>, tmp: string, x: string, y: string)
    requires ServerCommand(argv, tmp, y) && SeparatorFree(x) && SeparatorFree(y)
    ensures Contains(Render(argv), DefaultDataDir(tmp, x)) <==> x <= y
  {
    JoinMarksOnly(argv, y, {SEPARATOR});
    if Contains(Render(argv), DefaultDataDir(tmp, x)) {
      assert DefaultDataDir(tmp, x) + "" == DefaultDataDir(tmp, x);
      ReferenceHasMark(Render(argv), tmp, x, "");
      var i :| OccursAt(Render(argv), MARK + x + "", i) && OccursAt(Render(argv), MARK + x, i);
      MarkIdentifies(Render(argv), x, y, {SEPARATOR}, i);
    }
    if x <= y {
      var k :| 0 <= k < |argv| && Contains(argv[k], DefaultDataDir(tmp, y) + [SEPARATOR]);
      JoinContains(argv, k, DefaultDataDir(tmp, y) + [SEPARATOR]);
      var t, long, short := Render(argv), DefaultDataDir(tmp, y) + [SEPARATOR], DefaultDataDir(tmp, x);
      var i :| OccursAt(t, long, i);
      assert long == short + (y[|x|..] + [SEPARATOR]);
      OccursSplit(t, short, y[|x|..] + [SEPARATOR], i);
    }
  }

  // -------- The watchdog shell --------

  /** What comes before the first separator. */
  function Lead(s: string): string {
    if s == "" || s[0] == SEPARATOR then "" else [s[0]] + Lead(s[1..])
  }

  lemma {:induction false} LeadIsUnique(x: string, s: string)
    requires SeparatorFree(x) && x + [SEPARATOR] <= s
    ensures x == Lead(s)
  {
    if x == "" {
      assert s[0] == (x + [SEPARATOR])[0];
    } else {
      assert s[0] == (x + [SEPARATOR])[0] == x[0];
      assert x[0] in x && x[1..] + [SEPARATOR] == (x + [SEPARATOR])[1..] <= s[1..];
      LeadIsUnique(x[1..], s[1..]);
    }
  }

  lemma {:induction false} LeadThenSeparator(s: string)
    requires SEPARATOR in s
    ensures SeparatorFree(Lead(s)) && Lead(s) + [SEPARATOR] <= s
  {
    if s[0] != SEPARATOR {
      assert s == [s[0]] + s[1..];
      LeadThenSeparator(s[1..]);
    }
  }

  /** A mark after unmarked arguments lies in the arguments behind them. */
  lemma {:induction false} MarkBehind(argv: seq<string>, k: nat, tail: string, i: int)
    requires k < |argv| && (forall m | 0 <= m < k :: Unmarked(argv[m])) && OccursAt(Render(argv), MARK + tail, i)
    ensures exists j :: OccursAt(Render(argv[k..]), MARK + tail, j)
  {
    if k == 0 {
      assert argv[0..] == argv;
    } else {
      var a, rest := argv[0], Render(argv[1..]);
      assert Render(argv) == a + " " + rest == (a + " ") + rest;
      OccursSplit(a + " " + rest, MARK, tail, i);
      NoStraddleSpace(a, rest, i);
      var n := i - |a| - 1;
      assert rest[n..n + |MARK + tail|] == ((a + " ") + rest)[i..i + |MARK + tail|];
      assert argv[1..][k - 1..] == argv[k..];
      MarkBehind(argv[1..], k - 1, tail, n);
    }
  }

  /** Where the directory stands bare before a space, the match runs on to the next separator. */
  lemma BareDirectory(tmp: string, x: string, y: string, rest: string, i: int)
    requires Unmarked(tmp) && SeparatorFree(x) && SeparatorFree(y) && MarksOnly(rest, y, {SEPARATOR})
    requires OccursAt(DefaultDataDir(tmp, y) + " " + rest, MARK + (x + [SEPARATOR]), i)
    ensures x == y || x + [SEPARATOR] <= y + " " + rest
  {
    var d := DefaultDataDir(tmp, y);
    OccursSplit(d + " " + rest, MARK, x + [SEPARATOR], i);
    NoStraddleSpace(d, rest, i);
    if OccursAt(d, MARK, i) {
      InTheDirectory(tmp, x, y, rest, i);
    } else {
      BehindIt(d, x, y, rest, i);
    }
  }

  lemma InTheDirectory(tmp: string, x: string, y: string, rest: string, i: int)
    requires Unmarked(tmp) && SeparatorFree(y) && OccursAt(DefaultDataDir(tmp, y), MARK, i)
    requires OccursAt(DefaultDataDir(tmp, y) + " " + rest, MARK + (x + [SEPARATOR]), i)
    ensures x + [SEPARATOR] <= y + " " + rest
  {
    var t, tail := DefaultDataDir(tmp, y) + " " + rest, x + [SEPARATOR];
    assert DefaultDataDir(tmp, y) == tmp + (MARK + y);
    NoStraddle(tmp, MARK + y, i);
    NameMarks(y, i - |tmp|);
    OccursSplit(t, MARK, tail, i);
    var n := |tmp| + |MARK|;
    assert t[n..] == y + " " + rest;
    assert t[n..][..|tail|] == t[n..n + |tail|] == tail;
  }

  lemma BehindIt(d: string, x: string, y: string, rest: string, i: int)
    requires SeparatorFree(x) && SeparatorFree(y) && MarksOnly(rest, y, {SEPARATOR})
    requires OccursAt(rest, MARK, i - |d| - 1) && OccursAt(d + " " + rest, MARK + (x + [SEPARATOR]), i)
    ensures x == y
  {
    var n, sub := i - |d| - 1, MARK + x + [SEPARATOR];
    assert sub == MARK + (x + [SEPARATOR]);
    assert d + " " + rest == (d + " ") + rest;
    assert rest[n..n + |sub|] == (d + " " + rest)[i..i + |sub|];
    OccursSplit(rest, MARK + x, [SEPARATOR], n);
    MarkIdentifies(rest, x, y, {SEPARATOR}, n);
  }

  lemma BehindTheDirectory(server: seq<string>, recordPath: string, lockPath: string, tmp: string, y: string)
    requires ServerCommand(server, tmp, y) && Unmarked(recordPath) && Unmarked(lockPath)
    ensures MarksOnly(Render([recordPath, lockPath] + server), y, {SEPARATOR})
  {
    var argv := [recordPath, lockPath] + server;
    UnmarkedArg(recordPath, y);
    UnmarkedArg(lockPath, y);
    forall k | 0 <= k < |argv| ensures MarksOnly(argv[k], y, {SEPARATOR}) && NoMarkAtEnd(argv[k], y) {
      assert k >= 2 ==> argv[k] == server[k - 2];
    }
    JoinMarksOnly(argv, y, {SEPARATOR});
  }

  /** The watchdog shell keeps its own command line, which also names the directory bare, before
      the path of the record. It references the directory of its own id, and of that id followed by
      a space and what the record path has before its first separator; and of no other. */
  lemma WatchdogMatchesExactly(server: seq<string>, script: string, recordPath: string, lockPath: string,
                               tmp: string, x: string, y: string)
    requires ServerCommand(server, tmp, y) && Unmarked(tmp)
    requires Unmarked(script) && Unmarked(recordPath) && Unmarked(lockPath)
    requires SeparatorFree(x) && SeparatorFree(y) && SEPARATOR in recordPath
    ensures CmdlineReferences(Render(WatchdogArgs(script, DefaultDataDir(tmp, y), recordPath, lockPath, server)),
                              DefaultDataDir(tmp, x))
            <==> x == y || x == y + " " + Lead(recordPath)
  {
    var argv := WatchdogArgs(script, DefaultDataDir(tmp, y), recordPath, lockPath, server);
    var rest := Render([recordPath, lockPath] + server);
    assert argv[4..][0] == DefaultDataDir(tmp, y) && argv[4..][1..] == [recordPath, lockPath] + server;
    assert Render(argv[4..]) == DefaultDataDir(tmp, y) + " " + rest;
    if CmdlineReferences(Render(argv), DefaultDataDir(tmp, x)) {
      WatchdogMatchesOnly(server, script, recordPath, lockPath, tmp, x, y);
    }
    if x == y {
      var k :| 0 <= k < |server| && Contains(server[k], DefaultDataDir(tmp, y) + [SEPARATOR]);
      assert argv[k + 7] == server[k];
      JoinContains(argv, k + 7, DefaultDataDir(tmp, y) + [SEPARATOR]);
    } else if x == y + " " + Lead(recordPath) {
      RestBegins(recordPath, lockPath, server);
      LeadThenSeparator(recordPath);
      var sub := DefaultDataDir(tmp, x) + [SEPARATOR];
      assert sub == DefaultDataDir(tmp, y) + " " + (Lead(recordPath) + [SEPARATOR]);
      assert (DefaultDataDir(tmp, y) + " " + rest)[..|sub|] == sub;
      assert OccursAt(Render(argv[4..]), sub, 0);
      SuffixContains(argv, 4, sub);
    }
  }

  /** With an absolute record path that is the id followed by a space; ids hold no space, so among
      ids the match is exact. */
  lemma WatchdogMatchesTrailingSpace(server: seq<string>, script: string, recordPath: string, lockPath: string,
                                     tmp: string, x: string, y: string)
    requires ServerCommand(server, tmp, y) && Unmarked(tmp)
    requires Unmarked(script) && Unmarked(recordPath) && Unmarked(lockPath)
    requires SeparatorFree(x) && SeparatorFree(y) && recordPath != "" && recordPath[0] == SEPARATOR
    ensures CmdlineReferences(Render(WatchdogArgs(script, DefaultDataDir(tmp, y), recordPath, lockPath, server)),
                              DefaultDataDir(tmp, x))
            <==> x == y || x == y + " "
  {
    WatchdogMatchesExactly(server, script, recordPath, lockPath, tmp, x, y);
    assert y + " " + Lead(recordPath) == y + " ";
  }

  lemma RestBegins(recordPath: string, lockPath: string, server: seq<string>)
    ensures recordPath <= Render([recordPath, lockPath] + server)
  {
    assert ([recordPath, lockPath] + server)[1..] == [lockPath] + server;
  }

  lemma WatchdogMatchesOnly(server: seq<string>, script: string, recordPath: string, lockPath: string,
                            tmp: string, x: string, y: string)
    requires ServerCommand(server, tmp, y) && Unmarked(tmp)
    requires Unmarked(script) && Unmarked(recordPath) && Unmarked(lockPath)
    requires SeparatorFree(x) && SeparatorFree(y) && SEPARATOR in recordPath
    requires CmdlineReferences(Render(WatchdogArgs(script, DefaultDataDir(tmp, y), recordPath, lockPath, server)),
                               DefaultDataDir(tmp, x))
    ensures x == y || x == y + " " + Lead(recordPath)
  {
    var argv := WatchdogArgs(script, DefaultDataDir(tmp, y), recordPath, lockPath, server);
    var rest := Render([recordPath, lockPath] + server);
    ReferenceHasMark(Render(argv), tmp, x, [SEPARATOR]);
    var i :| OccursAt(Render(argv), MARK + x + [SEPARATOR], i);
    assert MARK + x + [SEPARATOR] == MARK + (x + [SEPARATOR]);
    ShellUnmarked();
    UnmarkedName("-c");
    UnmarkedName("embedded-tikv-watchdog");
    MarkBehind(argv, 4, x + [SEPARATOR], i);
    var j :| OccursAt(Render(argv[4..]), MARK + (x + [SEPARATOR]), j);
    assert argv[4..][0] == DefaultDataDir(tmp, y) && argv[4..][1..] == [recordPath, lockPath] + server;
    BehindTheDirectory(server, recordPath, lockPath, tmp, y);
    BareDirectory(tmp, x, y, rest, j);
    if x != y {
      RestBegins(recordPath, lockPath, server);
      LeadOfBare(x, y, recordPath, rest);
    }
  }

  lemma LeadOfBare(x: string, y: string, recordPath: string, rest: string)
    requires SeparatorFree(x) && SeparatorFree(y) && SEPARATOR in recordPath && recordPath <= rest
    requires x + [SEPARATOR] <= y + " " + rest
    ensures x == y + " " + Lead(recordPath)
  {
    LeadThenSeparator(recordPath);
    var z := y + " " + Lead(recordPath);
    assert z + [SEPARATOR] == y + " " + (Lead(recordPath) + [SEPARATOR]) <= y + " " + rest;
    LeadIsUnique(x, y + " " + rest);
    LeadIsUnique(z, y + " " + rest);
  }

  lemma ShellUnmarked()
    ensures Unmarked("/bin/sh")
  {
  }

  lemma {:induction false} SuffixContains(argv: seq<string>, k: nat, sub: string)
    requires k < |argv| && Contains(Render(argv[k..]), sub)
    ensures Contains(Render(argv), sub)
  {
    if k == 0 {
      assert argv[0..] == argv;
    } else {
      assert argv[1..][k - 1..] == argv[k..];
      SuffixContains(argv[1..], k - 1, sub);
      var i :| OccursAt(Render(argv[1..]), sub, i);
      assert Render(argv) == argv[0] + " " + Render(argv[1..]);
      OccursAppended(argv[0] + " ", Render(argv[1..]), sub, i + |argv[0]| + 1);
    }
  }
}
