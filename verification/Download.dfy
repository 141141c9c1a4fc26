/** Fetching one binary: the archive's body is hashed while it is unpacked, and the binary appears
    under its name only if the hash of the whole body is the manifest's
    (binaries.go:279-379). */
module Download {
  import opened Wrappers

  type Bytes = seq<bv8>

  /** A member of the archive. `consumed` is how much of the body the decompressor has taken by the
      time the member has been read; it reads ahead as it likes. */
  datatype Member = Member(name: string, regular: bool, content: Bytes, consumed: nat)

  /** What the gzip and tar readers make of a body before they meet the end of the archive or
      something they cannot read; either way there is nothing more to find. */
  datatype Archive = Archive(members: seq<Member>)

  /** Reading takes the body in order, and never more than there is. */
  ghost predicate ReadsInOrder(a: Archive, body: Bytes) {
    && (forall i | 0 <= i < |a.members| :: a.members[i].consumed <= |body|)
    && (forall i, j | 0 <= i < j < |a.members| :: a.members[i].consumed <= a.members[j].consumed)
  }

  /** `path.Base`. */
  function Base(path: string): string {
    if path == "" then "."
    else if TrimSlashes(path) == "" then "/"
    else AfterSlash(TrimSlashes(path))
  }

  function TrimSlashes(path: string): string {
    if path != "" && path[|path| - 1] == '/' then TrimSlashes(path[..|path| - 1]) else path
  }

  function AfterSlash(path: string): string {
    if path == "" || path[|path| - 1] == '/' then "" else AfterSlash(path[..|path| - 1]) + [path[|path| - 1]]
  }

  /** A name without a slash is its own base, at the root of the archive or below it, whatever
      slashes follow it. */
  lemma {:induction false} BaseOfChild(dir: string, name: string, slashes: string)
    requires name != "" && (forall i | 0 <= i < |name| :: name[i] != '/') && forall i | 0 <= i < |slashes| :: slashes[i] == '/'
    ensures Base(name + slashes) == name && Base(dir + "/" + name + slashes) == name
  {
    var path := dir + "/" + name;
    TrailingSlashes(name, slashes);
    TrailingSlashes(path, slashes);
    AfterSlashOfChild(dir + "/", name);
    AfterSlashOfChild("", name);
    assert "" + name == name;
  }

  lemma {:induction false} TrailingSlashes(path: string, slashes: string)
    requires (path == "" || path[|path| - 1] != '/') && forall i | 0 <= i < |slashes| :: slashes[i] == '/'
    ensures TrimSlashes(path + slashes) == path
    decreases |slashes|
  {
    var n := |slashes| - 1;
    if slashes == "" {
      assert path + slashes == path;
    } else {
      assert (path + slashes)[..|path + slashes| - 1] == path + slashes[..n];
      TrailingSlashes(path, slashes[..n]);
    }
  }

  /** Nothing but slashes has the root as its base, and nothing at all a dot. */
  lemma BaseOfRoot(slashes: string)
    requires forall i | 0 <= i < |slashes| :: slashes[i] == '/'
    ensures Base(slashes) == if slashes == "" then "." else "/"
  {
    TrailingSlashes("", slashes);
    assert "" + slashes == slashes;
  }

  lemma {:induction false} AfterSlashOfChild(lead: string, name: string)
    requires lead == "" || lead[|lead| - 1] == '/'
    requires forall i | 0 <= i < |name| :: name[i] != '/'
    ensures AfterSlash(lead + name) == name
    decreases |name|
  {
    if name == "" {
      assert lead + name == lead;
    } else {
      var n := |name| - 1;
      assert (lead + name)[..|lead + name| - 1] == lead + name[..n];
      AfterSlashOfChild(lead, name[..n]);
    }
  }

  predicate Wanted(m: Member, name: string) { m.regular && Base(m.name) == name }

  /** The content under `name`: that of the first regular file whose base name it is. */
  function Unpacked(members: seq<Member>, name: string): (content: seq<Bytes>) {
    if members == [] then []
    else if Wanted(members[0], name) then [members[0].content]
    else Unpacked(members[1..], name)
  }

  /** Member `k` is the first regular file whose base name is `name`. */
  ghost predicate FirstWanted(members: seq<Member>, name: string, k: nat) {
    && k < |members| && members[k].regular && Base(members[k].name) == name
    && forall i | 0 <= i < k :: !(members[i].regular && Base(members[i].name) == name)
  }

  /** The content is that of the first such file. */
  ghost predicate Holds(members: seq<Member>, name: string, content: Bytes) {
    exists k: nat :: FirstWanted(members, name, k) && members[k].content == content
  }

  lemma {:induction false} UnpackedIsFirst(members: seq<Member>, name: string, k: nat)
    requires k <= |members| && forall i | 0 <= i < k :: !(members[i].regular && Base(members[i].name) == name)
    ensures FirstWanted(members, name, k) ==> Unpacked(members, name) == [members[k].content]
    ensures k == |members| ==> Unpacked(members, name) == []
  {
    if k > 0 {
      assert members[1..][k - 1..] == members[k..];
      assert forall i | 0 <= i < k - 1 :: members[1..][i] == members[i + 1];
      UnpackedIsFirst(members[1..], name, k - 1);
    }
  }

  /** The specification of the content found: that of the first such file, and nothing if there is
      none. */
  lemma {:induction false} UnpackedSpelled(members: seq<Member>, name: string, content: Bytes)
    ensures Unpacked(members, name) == [content] <==> Holds(members, name, content)
    ensures Unpacked(members, name) == [] <==>
              forall i | 0 <= i < |members| :: !(members[i].regular && Base(members[i].name) == name)
  {
    var k := SomeFirst(members, name);
    UnpackedIsFirst(members, name, k);
    if k < |members| {
      OnlyFirst(members, name, k);
    }
  }

  lemma OnlyFirst(members: seq<Member>, name: string, k: nat)
    requires FirstWanted(members, name, k)
    ensures forall j: nat | FirstWanted(members, name, j) :: j == k
  {
  }

  /** The index of the first such file, or the length. */
  lemma {:induction false} SomeFirst(members: seq<Member>, name: string) returns (k: nat)
    ensures k <= |members| && (k < |members| ==> FirstWanted(members, name, k))
    ensures forall i | 0 <= i < k :: !(members[i].regular && Base(members[i].name) == name)
  {
    k := 0;
    while k < |members| && !(members[k].regular && Base(members[k].name) == name)
      invariant k <= |members| && forall i | 0 <= i < k :: !(members[i].regular && Base(members[i].name) == name)
    {
      k := k + 1;
    }
  }

  /** A reader that hands everything read to a hasher. The connection breaks after `limit` bytes. */
  class Tee {
    const body: Bytes
    const limit: nat
    var position: nat
    var hashed: Bytes

    ghost predicate Valid()
      reads this
    {
      position <= |body| && hashed == body[..position]
    }

    constructor (body: Bytes, limit: nat)
      ensures Valid() && this.body == body && this.limit == limit && position == 0
    {
      this.body, this.limit, position, hashed := body, limit, 0, [];
    }

    /** Reads on up to `n`, or as far as the connection lasts. */
    method ReadUpTo(n: nat) returns (ok: bool)
      requires Valid() && n <= |body|
      modifies this
      ensures Valid() && position >= old(position)
      ensures ok <==> n <= limit
      ensures ok && n >= old(position) ==> position == n
    {
      ok := n <= limit;
      var to := if ok then n else limit;
      if to > position {
        hashed := hashed + body[position..to];
        position := to;
      }
    }
  }

  /** `extractEntry`: `content` is what was copied out. */
  method ExtractEntry(tee: Tee, archive: Archive, name: string) returns (ok: bool, content: Bytes)
    requires tee.Valid() && ReadsInOrder(archive, tee.body)
    modifies tee
    ensures tee.Valid()
    ensures ok <==> exists k: nat :: FirstWanted(archive.members, name, k) && archive.members[k].consumed <= tee.limit
    ensures ok ==> Holds(archive.members, name, content) && Unpacked(archive.members, name) == [content]
    ensures tee.limit >= |tee.body| ==> (ok <==> exists k: nat :: FirstWanted(archive.members, name, k))
  {
    content := [];
    ghost var first := SomeFirst(archive.members, name);
    if first < |archive.members| {
      OnlyFirst(archive.members, name, first);
    }
    var i := 0;
    while i < |archive.members|
      invariant 0 <= i <= |archive.members| && tee.Valid()
      invariant forall j | 0 <= j < i :: !(archive.members[j].regular && Base(archive.members[j].name) == name)
    {
      var m := archive.members[i];
      ok := tee.ReadUpTo(m.consumed);
      if !ok {
        return;
      }
      if Wanted(m, name) {
        assert FirstWanted(archive.members, name, i);
        UnpackedIsFirst(archive.members, name, i);
        return true, m.content;
      }
      i := i + 1;
    }
    ok := false;
  }

  datatype File = File(content: Bytes, executable: bool)

  /** A manifest entry: the name to extract, and the hash the whole artifact must have. */
  datatype Entry = Entry(name: string, sha256: string)

  /** What may stand under a binary's path: unpacked from a body with the manifest's hash. */
  ghost predicate Genuine(hash: Bytes -> string, unpack: Bytes -> Archive, entry: Entry, content: Bytes) {
    exists body :: hash(body) == entry.sha256 && Holds(unpack(body).members, entry.name, content)
  }

  /** What the outside decides: the unused name `os.CreateTemp` finds, if it can make a file at
      all, after how many bytes the connection breaks, and whether the final rename fails. */
  datatype Outside = Outside(temporary: Option<nat>, limit: nat, renameFails: bool)

  /** The directory a binary is installed in: its files, and the temporary ones beside them. */
  class Directory {
    var files: map<string, File>
    var temps: map<nat, File>

    /** `download`. Only the last of its steps changes what stands under the destination, and it
        is reached only with the whole body hashed, however little of it the archive needed. */
    method Install(hash: Bytes -> string, unpack: Bytes -> Archive, entry: Entry, body: Bytes, destination: string,
                   outside: Outside)
        returns (ok: bool)
      requires ReadsInOrder(unpack(body), body)
      requires outside.temporary.Some? ==> outside.temporary.value !in temps
      modifies this
      ensures ok <==>
                && outside.temporary.Some? && outside.limit >= |body| && !outside.renameFails
                && hash(body) == entry.sha256
                && exists k: nat :: FirstWanted(unpack(body).members, entry.name, k)
      ensures temps == old(temps)
      ensures !ok ==> files == old(files)
      ensures ok ==>
                && destination in files && files[destination].executable
                && Holds(unpack(body).members, entry.name, files[destination].content)
                && Genuine(hash, unpack, entry, files[destination].content)
                && files == old(files)[destination := files[destination]]
    {
      var tee := new Tee(body, outside.limit);
      if outside.temporary.None? {
        return false;
      }
      var temp := outside.temporary.value;
      ghost var before := temps;
      temps := temps[temp := File([], false)];
      var content;
      ok, content := ExtractEntry(tee, unpack(body), entry.name);
      if !ok {
        temps := temps - {temp};
        assert temps == before;
        return;
      }
      temps := temps[temp := File(content, false)];
      ok := tee.ReadUpTo(|body|);
      assert ok ==> tee.hashed == body;
      if !ok || hash(tee.hashed) != entry.sha256 {
        temps := temps - {temp};
        assert temps == before;
        return false;
      }
      temps := temps[temp := File(content, true)];
      if !outside.renameFails {
        files := files[destination := temps[temp]];
      }
      temps := temps - {temp};
      assert temps == before;
      ok := !outside.renameFails;
    }
  }
}
