/** Expanding dotted configuration keys into nested tables (toml.go:31-79).

    Tables are heap objects, as the source's nested maps are: the walk moves a reference from
    table to table and writes through it. Values are neither nil nor tables themselves. */
module Toml {
  import opened Strings
  import opened Wrappers

  datatype NestError =
    | InvalidKey(key: string)
    | Conflict(key: string, at: string)
    | AlsoTable(key: string)

  datatype Entry<V> = Value(value: V) | Sub(table: Table<V>)

  class Table<V> {
    var entries: map<string, Entry<V>>

    constructor ()
      ensures entries == map[]
    {
      entries := map[];
    }
  }

  type Path = seq<string>

  // -------- What a reader finds in the tables --------

  datatype Slot<V> = Missing | Leaf(value: V) | Branch

  /** What a reader of the tables finds by following `path` from `table`. */
  ghost function Read<V>(table: Table<V>, path: Path): Slot<V>
    reads *
    decreases |path|
  {
    if path == [] then Branch
    else if path[0] !in table.entries then Missing
    else match table.entries[path[0]]
         case Value(v) => if |path| == 1 then Leaf(v) else Missing
         case Sub(child) => Read(child, path[1..])
  }

  /** What the paths of a configuration ask for: their values, tables on the way, nothing else. */
  ghost function Lookup<V>(leaves: map<Path, V>, path: Path): Slot<V> {
    if path in leaves then Leaf(leaves[path])
    else if path == [] || exists q | q in leaves :: path < q then Branch
    else Missing
  }

  // -------- The shape of the tables under construction --------

  /** The tables reachable from the root: each by its path, with its entries. */
  ghost function Entries<V>(at: map<Path, Table<V>>): map<Path, map<string, Entry<V>>>
    reads at.Values
  {
    map p | p in at :: at[p].entries
  }

  datatype Tables<V> = Tables(at: map<Path, Table<V>>, entries: map<Path, map<string, Entry<V>>>)
  {
    ghost predicate Has(p: Path, s: string) {
      p in entries && s in entries[p]
    }

    /** The entry `s` of the table at `p` agrees with the paths of tables and leaves. */
    ghost predicate EntryAgrees(leaves: map<Path, V>, p: Path, s: string) {
      Has(p, s) ==>
        match entries[p][s]
        case Sub(child) => p + [s] in at && at[p + [s]] == child
        case Value(v) => p + [s] !in at && p + [s] in leaves && leaves[p + [s]] == v
    }

    /** The table at `p` hangs off its parent. */
    ghost predicate Attached(p: Path) {
      p in at && p != [] ==>
        Has(p[..|p| - 1], p[|p| - 1]) && entries[p[..|p| - 1]][p[|p| - 1]].Sub?
    }

    /** The leaf at `p` is stored in its table. */
    ghost predicate Stored(leaves: map<Path, V>, p: Path) {
      p in leaves ==>
        p != [] && Has(p[..|p| - 1], p[|p| - 1]) && entries[p[..|p| - 1]][p[|p| - 1]] == Value(leaves[p])
    }

    /** `at` names every table by its path from the root, and `leaves` every value. */
    ghost predicate Shape(leaves: map<Path, V>) {
      && [] in at && entries.Keys == at.Keys
      && (forall p, q | p in at && q in at && at[p] == at[q] :: p == q)
      && (forall p, s {:trigger EntryAgrees(leaves, p, s)} :: EntryAgrees(leaves, p, s))
      && (forall p {:trigger Attached(p)} :: Attached(p))
      && (forall p {:trigger Stored(leaves, p)} :: Stored(leaves, p))
    }

    /** Every table lies on the way to a leaf, or on the way along `current`. */
    ghost predicate Needed(leaves: map<Path, V>, current: Path) {
      forall p | p in at :: p <= current || exists q | q in leaves :: p < q
    }

    lemma NeededStep(leaves: map<Path, V>, before: Tables<V>, current: Path, s: string)
      requires before.Needed(leaves, current) && at.Keys <= before.at.Keys + {current + [s]}
      ensures Needed(leaves, current + [s])
    {
      forall p | p in at ensures p <= current + [s] || exists q | q in leaves :: p < q {
        assert p <= current ==> p <= current + [s];
      }
    }

    lemma NeededPlaced(leaves: map<Path, V>, current: Path, s: string, value: V)
      requires Needed(leaves, current)
      ensures Needed(leaves[current + [s] := value], [])
    {
      var leaves' := leaves[current + [s] := value];
      forall p | p in at ensures exists q | q in leaves' :: p < q {
        if p <= current {
          assert p < current + [s] && current + [s] in leaves';
        } else {
          var q :| q in leaves && p < q;
          assert q in leaves';
        }
      }
    }

    lemma {:induction false} AncestorsPresent(leaves: map<Path, V>, p: Path, q: Path)
      requires Shape(leaves) && p in at && q <= p
      ensures q in at
      decreases |p|
    {
      if q != p {
        assert Attached(p);
        assert q <= p[..|p| - 1];
        AncestorsPresent(leaves, p[..|p| - 1], q);
      }
    }

    /** A leaf at or below an entry fixes what the entry is. */
    lemma Occupied(leaves: map<Path, V>, p: Path, s: string, leaf: Path)
      requires Shape(leaves) && p in at && leaf in leaves && p + [s] <= leaf
      ensures Has(p, s)
      ensures if leaf == p + [s] then entries[p][s] == Value(leaves[leaf]) else entries[p][s].Sub?
    {
      assert Stored(leaves, leaf);
      var q := p + [s];
      if leaf != q {
        AncestorsPresent(leaves, leaf[..|leaf| - 1], q);
        assert Attached(q);
      }
      assert q[..|q| - 1] == p && q[|q| - 1] == s;
    }

    lemma LeafIsNoTable(leaves: map<Path, V>, p: Path)
      requires Shape(leaves) && p in leaves
      ensures p !in at
    {
      assert Stored(leaves, p);
      assert EntryAgrees(leaves, p[..|p| - 1], p[|p| - 1]);
      assert p[..|p| - 1] + [p[|p| - 1]] == p;
    }

    lemma NoLeafBefore(leaves: map<Path, V>, p: Path)
      requires Shape(leaves) && p in at
      ensures forall q | q in leaves :: !(q <= p)
    {
      forall q | q in leaves ensures !(q <= p) {
        LeafIsNoTable(leaves, q);
        if q <= p {
          AncestorsPresent(leaves, p, q);
        }
      }
    }

    lemma NoLeafBelow(leaves: map<Path, V>, p: Path, s: string)
      requires Shape(leaves) && p in at && (Has(p, s) ==> !entries[p][s].Sub?)
      ensures forall q | q in leaves :: !(p + [s] < q)
    {
      forall q | q in leaves ensures !(p + [s] < q) {
        if p + [s] < q {
          Occupied(leaves, p, s, q);
        }
      }
    }

    /** A name with no entry is neither a table nor a leaf. */
    lemma Vacant(leaves: map<Path, V>, p: Path, s: string)
      requires Shape(leaves) && !Has(p, s)
      ensures p + [s] !in at && p + [s] !in leaves
    {
      var q := p + [s];
      assert Attached(q) && Stored(leaves, q);
      assert q[..|q| - 1] == p && q[|q| - 1] == s;
    }

    ghost function WithTable(p: Path, s: string, next: Table<V>): Tables<V>
      requires p in entries
    {
      Tables(at[p + [s] := next], entries[p := entries[p][s := Sub(next)]][p + [s] := map[]])
    }

    ghost function WithLeaf(p: Path, s: string, value: V): Tables<V>
      requires p in entries
    {
      Tables(at, entries[p := entries[p][s := Value(value)]])
    }

    lemma TableAdded(leaves: map<Path, V>, p: Path, s: string, next: Table<V>)
      requires Shape(leaves) && p in at && !Has(p, s) && next !in at.Values
      ensures WithTable(p, s, next).Shape(leaves)
    {
      var t := WithTable(p, s, next);
      Vacant(leaves, p, s);
      forall r, u ensures t.EntryAgrees(leaves, r, u) {
        TableKeepsEntry(leaves, p, s, next, r, u);
      }
      forall r ensures t.Attached(r) && t.Stored(leaves, r) {
        TableKeepsPath(leaves, p, s, next, r);
      }
      forall r, u | r in t.at && u in t.at && t.at[r] == t.at[u] ensures r == u {
        assert r in at ==> at[r] in at.Values;
        assert u in at ==> at[u] in at.Values;
      }
    }

    lemma TableKeepsEntry(leaves: map<Path, V>, p: Path, s: string, next: Table<V>, r: Path, u: string)
      requires Shape(leaves) && p in at && !Has(p, s) && p + [s] !in at && p + [s] !in leaves
      ensures WithTable(p, s, next).EntryAgrees(leaves, r, u)
    {
      assert EntryAgrees(leaves, r, u);
      if r + [u] == p + [s] {
        SnocInjective(r, u, p, s);
      }
    }

    lemma TableKeepsPath(leaves: map<Path, V>, p: Path, s: string, next: Table<V>, r: Path)
      requires Shape(leaves) && p in at && !Has(p, s) && p + [s] !in at && p + [s] !in leaves
      ensures WithTable(p, s, next).Attached(r) && WithTable(p, s, next).Stored(leaves, r)
    {
      assert Attached(r) && Stored(leaves, r);
      assert (p + [s])[..|p + [s]| - 1] == p;
    }

    lemma LeafAdded(leaves: map<Path, V>, p: Path, s: string, value: V)
      requires Shape(leaves) && p in at && !Has(p, s)
      ensures WithLeaf(p, s, value).Shape(leaves[p + [s] := value])
    {
      var t, leaves' := WithLeaf(p, s, value), leaves[p + [s] := value];
      Vacant(leaves, p, s);
      forall r, u ensures t.EntryAgrees(leaves', r, u) {
        LeafKeepsEntry(leaves, p, s, value, r, u);
      }
      forall r ensures t.Attached(r) && t.Stored(leaves', r) {
        LeafKeepsPath(leaves, p, s, value, r);
      }
    }

    lemma LeafKeepsEntry(leaves: map<Path, V>, p: Path, s: string, value: V, r: Path, u: string)
      requires Shape(leaves) && p in at && !Has(p, s) && p + [s] !in at && p + [s] !in leaves
      ensures WithLeaf(p, s, value).EntryAgrees(leaves[p + [s] := value], r, u)
    {
      assert EntryAgrees(leaves, r, u);
      if r + [u] == p + [s] {
        SnocInjective(r, u, p, s);
      }
    }

    lemma LeafKeepsPath(leaves: map<Path, V>, p: Path, s: string, value: V, r: Path)
      requires Shape(leaves) && p in at && !Has(p, s) && p + [s] !in at && p + [s] !in leaves
      ensures WithLeaf(p, s, value).Attached(r)
      ensures WithLeaf(p, s, value).Stored(leaves[p + [s] := value], r)
    {
      assert Attached(r) && Stored(leaves, r);
      assert (p + [s])[..|p + [s]| - 1] == p;
    }
  }

  lemma SnocInjective(r: Path, u: string, p: Path, s: string)
    requires r + [u] == p + [s]
    ensures r == p && u == s
  {
    assert r == (r + [u])[..|r + [u]| - 1] && p == (p + [s])[..|p + [s]| - 1];
    assert u == (r + [u])[|r + [u]| - 1] && s == (p + [s])[|p + [s]| - 1];
  }

  /** Reading from the table at `p` finds what the leaves ask for. */
  lemma {:induction false} ReadFrom<V>(t: Tables<V>, leaves: map<Path, V>, p: Path, path: Path)
    requires t.entries == Entries(t.at) && t.Shape(leaves) && t.Needed(leaves, []) && p in t.at
    ensures Read(t.at[p], path) == Lookup(leaves, p + path)
    decreases |path|
  {
    if path == [] {
      assert p + path == p;
      if p in leaves {
        t.LeafIsNoTable(leaves, p);
      }
    } else {
      var s := path[0];
      assert (p + path)[..|p| + 1] == p + [s];
      forall leaf | leaf in leaves && p + path <= leaf
        ensures t.Has(p, s)
        ensures if leaf == p + [s] then t.entries[p][s] == Value(leaves[leaf]) else t.entries[p][s].Sub?
      {
        assert p + [s] <= leaf;
        t.Occupied(leaves, p, s, leaf);
      }
      assert t.EntryAgrees(leaves, p, s);
      if t.Has(p, s) && t.entries[p][s].Sub? {
        assert p + path == (p + [s]) + path[1..];
        ReadFrom(t, leaves, p + [s], path[1..]);
      } else if |path| == 1 {
        assert p + path == p + [s];
      }
    }
  }

  // -------- Dotted keys --------

  function Segments(key: string): (segments: Path)
    ensures |segments| >= 1
  {
    Split(key, '.')
  }

  lemma SegmentsInjective(a: string, b: string)
    requires Segments(a) == Segments(b)
    ensures a == b
  {
    JoinSplit(a, '.');
    JoinSplit(b, '.');
  }

  /** The path of a key holds no dot and spells the key. */
  lemma SegmentsSpelled(key: string, path: Path)
    ensures Segments(key) == path <==> path != [] && Join(path, '.') == key && forall s | s in path :: '.' !in s
  {
    SplitSpelled(key, '.', path);
  }

  predicate HasEmptySegment(key: string) { "" in Segments(key) }

  /** Why a key cannot be placed: an empty segment, or another key on the way to it. */
  ghost predicate Bad(keys: set<string>, key: string) {
    HasEmptySegment(key) || exists other | other in keys :: Segments(other) < Segments(key)
  }

  ghost predicate WellFormed(keys: set<string>) {
    forall key | key in keys :: !Bad(keys, key)
  }

  /** The configuration with its keys split into paths. */
  ghost predicate IsFlat<V>(leaves: map<Path, V>, config: map<string, V>, keys: set<string>)
  {
    && (forall key | key in keys :: key in config && Segments(key) in leaves && leaves[Segments(key)] == config[key])
    && (forall p | p in leaves :: exists key | key in keys :: Segments(key) == p)
  }

  /** The walk stopped at the key `order[n]`, everything before it being placed. */
  ghost predicate FailsAt(order: seq<string>, n: nat, error: NestError) {
    && n < |order| && error.key == order[n]
    && WellFormed(KeySet(order[..n]))
    && match error
       case InvalidKey(key) =>
         HasEmptySegment(key) && forall other | other in order[..n] :: !(Segments(other) < Segments(key))
       case Conflict(key, at) => at in order[..n] && Segments(at) < Segments(key)
       case AlsoTable(key) => exists other | other in order[..n] :: Segments(key) < Segments(other)
  }

  ghost function KeySet(order: seq<string>): set<string> { set key | key in order }

  // -------- The walk --------

  /** Keys in the order the walk takes them: every key once. */
  ghost predicate Enumerates(order: seq<string>, keys: set<string>) {
    && (forall key :: key in order <==> key in keys)
    && (forall i, j | 0 <= i < j < |order| :: order[i] != order[j])
  }

  ghost predicate Rooted<V>(t: Tables<V>, root: Table<V>, leaves: map<Path, V>)
    reads t.at.Values
  {
    [] in t.at && t.at[[]] == root && t.entries == Entries(t.at) && t.Shape(leaves)
  }

  /** What stops the walk of one key: an empty segment, a value where a table is needed, or a
      table where the value belongs. */
  datatype Stop = EmptyAt(index: nat) | ValueAt(length: nat) | TableThere

  ghost predicate Stops<V>(leaves: map<Path, V>, segments: Path, stop: Stop) {
    match stop
    case EmptyAt(i) => i < |segments| && segments[i] == "" && forall q | q in leaves :: !(q <= segments[..i])
    case ValueAt(n) => 0 < n < |segments| && segments[..n] in leaves
    case TableThere => exists q | q in leaves :: segments < q
  }

  /** One segment of the walk: the table below `table`, created if missing, or nothing if a value
      is in the way. */
  method Enter<V>(root: Table<V>, ghost t: Tables<V>, ghost leaves: map<Path, V>, ghost p: Path,
                  table: Table<V>, segment: string)
    returns (below: Option<Table<V>>, ghost t': Tables<V>)
    requires Rooted(t, root, leaves) && p in t.at && t.at[p] == table
    modifies table
    ensures Rooted(t', root, leaves) && fresh(t'.at.Values - t.at.Values)
    ensures t'.at.Keys <= t.at.Keys + {p + [segment]}
    ensures match below
            case Some(next) => p + [segment] in t'.at && t'.at[p + [segment]] == next
            case None => p + [segment] in leaves
  {
    t' := t;
    assert t.EntryAgrees(leaves, p, segment);
    if segment !in table.entries {
      var next := new Table<V>();
      t.TableAdded(leaves, p, segment, next);
      table.entries := table.entries[segment := Sub(next)];
      t' := t.WithTable(p, segment, next);
      below := Some(next);
    } else {
      match table.entries[segment]
      case Sub(existing) => below := Some(existing);
      case Value(_) => below := None;
    }
  }

  /** One turn of the inner loop: the `i`-th segment. */
  method WalkOne<V>(root: Table<V>, ghost t: Tables<V>, ghost leaves: map<Path, V>, segments: Path, i: nat, table: Table<V>)
    returns (r: Result<Table<V>, Stop>, ghost t': Tables<V>)
    requires i < |segments| - 1 && Rooted(t, root, leaves) && segments[..i] in t.at && t.at[segments[..i]] == table
    requires t.Needed(leaves, segments[..i]) && "" !in segments[..i]
    modifies table
    ensures Rooted(t', root, leaves) && fresh(t'.at.Values - t.at.Values)
    ensures r.Ok? ==> segments[..i + 1] in t'.at && t'.at[segments[..i + 1]] == r.value
                      && t'.Needed(leaves, segments[..i + 1]) && "" !in segments[..i + 1]
    ensures r.Err? ==> Stops(leaves, segments, r.error)
  {
    var segment := segments[i];
    ghost var p := segments[..i];
    assert segments[..i + 1] == p + [segment];
    if segment == "" {
      t.NoLeafBefore(leaves, p);
      return Err(EmptyAt(i)), t;
    }
    var below;
    below, t' := Enter(root, t, leaves, p, table, segment);
    if below.None? {
      return Err(ValueAt(i + 1)), t';
    }
    t'.NeededStep(leaves, t, p, segment);
    return Ok(below.value), t';
  }

  /** The inner loop: from the root to the table that will hold the key's last segment. */
  method Walk<V>(root: Table<V>, ghost t: Tables<V>, ghost leaves: map<Path, V>, segments: Path)
    returns (r: Result<Table<V>, Stop>, ghost t': Tables<V>)
    requires Rooted(t, root, leaves) && t.Needed(leaves, []) && segments != []
    modifies t.at.Values
    ensures Rooted(t', root, leaves) && fresh(t'.at.Values - t.at.Values)
    ensures r.Ok? ==> var parent := segments[..|segments| - 1];
                      parent in t'.at && t'.at[parent] == r.value && t'.Needed(leaves, parent) && "" !in parent
    ensures r.Err? ==> Stops(leaves, segments, r.error)
  {
    r := Ok(root);
    t' := t;
    var i := 0;
    while i < |segments| - 1
      invariant 0 <= i < |segments| && r.Ok?
      invariant Rooted(t', root, leaves) && fresh(t'.at.Values - t.at.Values)
      invariant segments[..i] in t'.at && t'.at[segments[..i]] == r.value
      invariant t'.Needed(leaves, segments[..i]) && "" !in segments[..i]
    {
      assert r.value in t'.at.Values;
      r, t' := WalkOne(root, t', leaves, segments, i, r.value);
      if r.Err? {
        return;
      }
      i := i + 1;
    }
  }

  /** Storing a value in the table the walk ended at, unless a table is there. */
  method Store<V>(root: Table<V>, ghost t: Tables<V>, ghost leaves: map<Path, V>, ghost p: Path,
                  table: Table<V>, leaf: string, value: V)
    returns (ok: bool, ghost t': Tables<V>)
    requires Rooted(t, root, leaves) && p in t.at && t.at[p] == table && t.Needed(leaves, p)
    requires p + [leaf] !in leaves
    modifies table
    ensures t'.at == t.at
    ensures ok ==> Rooted(t', root, leaves[p + [leaf] := value]) && t'.Needed(leaves[p + [leaf] := value], [])
    ensures if ok then forall q | q in leaves :: !(p + [leaf] < q) else exists q | q in leaves :: p + [leaf] < q
  {
    t' := t;
    assert t.EntryAgrees(leaves, p, leaf);
    if leaf in table.entries && table.entries[leaf].Sub? {
      assert p + [leaf] in t.at;
      return false, t';
    }
    t.NoLeafBelow(leaves, p, leaf);
    t.LeafAdded(leaves, p, leaf, value);
    t.NeededPlaced(leaves, p, leaf, value);
    table.entries := table.entries[leaf := Value(value)];
    t' := t.WithLeaf(p, leaf, value);
    return true, t';
  }

  /** The body of the outer loop: one key and its value. */
  method Place<V>(root: Table<V>, ghost t: Tables<V>, ghost leaves: map<Path, V>, segments: Path, value: V)
    returns (r: Result<(), Stop>, ghost t': Tables<V>)
    requires Rooted(t, root, leaves) && t.Needed(leaves, []) && segments != [] && segments !in leaves
    modifies t.at.Values
    ensures fresh(t'.at.Values - t.at.Values)
    ensures r.Ok? ==> var leaves' := leaves[segments := value];
                      Rooted(t', root, leaves') && t'.Needed(leaves', []) && "" !in segments
                      && forall q | q in leaves :: !(q < segments) && !(segments < q)
    ensures r.Err? ==> Stops(leaves, segments, r.error)
  {
    var walked;
    walked, t' := Walk(root, t, leaves, segments);
    if walked.Err? {
      return Err(walked.error), t';
    }
    var table, leaf := walked.value, segments[|segments| - 1];
    ghost var p := segments[..|segments| - 1];
    assert segments == p + [leaf];
    t'.NoLeafBefore(leaves, p);
    if leaf == "" {
      return Err(EmptyAt(|segments| - 1)), t';
    }
    var ok;
    ok, t' := Store(root, t', leaves, p, table, leaf, value);
    return if ok then Ok(()) else Err(TableThere), t';
  }

  /** The first `n` keys are placed, without conflict. */
  ghost predicate Progress<V>(leaves: map<Path, V>, config: map<string, V>, order: seq<string>, n: nat) {
    && n <= |order| && Enumerates(order, config.Keys)
    && IsFlat(leaves, config, KeySet(order[..n])) && WellFormed(KeySet(order[..n]))
  }

  /** The error the source reports. */
  function Report(key: string, stop: Stop): NestError {
    match stop
    case EmptyAt(_) => InvalidKey(key)
    case ValueAt(n) => Conflict(key, if 0 < n <= |Segments(key)| then Join(Segments(key)[..n], '.') else key)
    case TableThere => AlsoTable(key)
  }

  /** The tables hold exactly the first `n` keys. */
  ghost predicate Placed<V>(t: Tables<V>, root: Table<V>, leaves: map<Path, V>, config: map<string, V>, order: seq<string>, n: nat)
    reads t.at.Values
  {
    Rooted(t, root, leaves) && t.Needed(leaves, []) && Progress(leaves, config, order, n)
  }

  /** The empty root table. */
  method NewRoot<V>(ghost config: map<string, V>, ghost order: seq<string>) returns (root: Table<V>, ghost t: Tables<V>)
    requires Enumerates(order, config.Keys)
    ensures Placed(t, root, map[], config, order, 0) && fresh(t.at.Values) && fresh(root)
  {
    root := new Table<V>();
    t := Tables(map[[] := root], map[[] := map[]]);
  }

  /** One turn of the outer loop. */
  method NestKey<V>(root: Table<V>, ghost t: Tables<V>, ghost leaves: map<Path, V>, config: map<string, V>,
                    order: seq<string>, n: nat)
    returns (r: Result<(), NestError>, ghost t': Tables<V>)
    requires Placed(t, root, leaves, config, order, n) && n < |order|
    modifies t.at.Values
    ensures fresh(t'.at.Values - t.at.Values)
    ensures r.Ok? ==> Placed(t', root, leaves[Segments(order[n]) := config[order[n]]], config, order, n + 1)
    ensures r.Err? ==> FailsAt(order, n, r.error) && !WellFormed(config.Keys)
  {
    var key := order[n];
    FreshKey(leaves, config, order, n);
    var outcome;
    outcome, t' := Place(root, t, leaves, Segments(key), config[key]);
    if outcome.Err? {
      StopIsFailure(leaves, config, order, n, outcome.error);
      return Err(Report(key, outcome.error)), t';
    }
    KeyPlaced(leaves, config, order, n);
    return Ok(()), t';
  }

  /** The loop of `nestConfig` over an arbitrary order of the keys. */
  method NestKeys<V>(config: map<string, V>, order: seq<string>) returns (r: Result<Table<V>, NestError>)
    requires Enumerates(order, config.Keys)
    ensures r.Ok? <==> WellFormed(config.Keys)
    ensures r.Ok? ==> fresh(r.value)
    ensures r.Ok? ==> forall leaves, path | IsFlat(leaves, config, config.Keys) ::
                        Read(r.value, path) == Lookup(leaves, path)
    ensures r.Err? ==> exists n :: FailsAt(order, n, r.error)
  {
    var root;
    ghost var t;
    root, t := NewRoot(config, order);
    ghost var leaves: map<Path, V> := map[];
    var n := 0;
    while n < |order|
      invariant 0 <= n <= |order| && fresh(t.at.Values)
      invariant Placed(t, root, leaves, config, order, n)
    {
      var one;
      one, t := NestKey(root, t, leaves, config, order, n);
      if one.Err? {
        return Err(one.error);
      }
      leaves := leaves[Segments(order[n]) := config[order[n]]];
      n := n + 1;
    }
    AllPlaced(t, leaves, config, order, root);
    return Ok(root);
  }

  lemma Complete<V>(leaves: map<Path, V>, config: map<string, V>, order: seq<string>)
    requires Progress(leaves, config, order, |order|)
    ensures IsFlat(leaves, config, config.Keys) && WellFormed(config.Keys)
  {
    assert order[..|order|] == order && KeySet(order) == config.Keys;
  }

  lemma FreshKey<V>(leaves: map<Path, V>, config: map<string, V>, order: seq<string>, n: nat)
    requires Progress(leaves, config, order, n) && n < |order|
    ensures Segments(order[n]) !in leaves
  {
    if Segments(order[n]) in leaves {
      var other :| other in KeySet(order[..n]) && Segments(other) == Segments(order[n]);
      SegmentsInjective(order[n], other);
    }
  }

  lemma KeyPlaced<V>(leaves: map<Path, V>, config: map<string, V>, order: seq<string>, n: nat)
    requires Progress(leaves, config, order, n) && n < |order|
    requires !HasEmptySegment(order[n])
    requires forall q | q in leaves :: !(q < Segments(order[n])) && !(Segments(order[n]) < q)
    ensures Progress(leaves[Segments(order[n]) := config[order[n]]], config, order, n + 1)
  {
    var key, placed := order[n], KeySet(order[..n]);
    assert KeySet(order[..n + 1]) == placed + {key};
    FreshKey(leaves, config, order, n);
    forall k | k in placed + {key} ensures !Bad(placed + {key}, k) {
      assert k in placed ==> !Bad(placed, k);
    }
  }

  lemma AllPlaced<V>(t: Tables<V>, leaves: map<Path, V>, config: map<string, V>, order: seq<string>, root: Table<V>)
    requires Placed(t, root, leaves, config, order, |order|)
    ensures WellFormed(config.Keys)
    ensures forall leaves', path | IsFlat(leaves', config, config.Keys) :: Read(root, path) == Lookup(leaves', path)
  {
    Complete(leaves, config, order);
    forall leaves', path | IsFlat(leaves', config, config.Keys)
      ensures Read(root, path) == Lookup(leaves', path)
    {
      FlatUnique(leaves, leaves', config);
      ReadFrom(t, leaves, [], path);
      assert [] + path == path;
    }
  }

  lemma FlatUnique<V>(a: map<Path, V>, b: map<Path, V>, config: map<string, V>)
    requires IsFlat(a, config, config.Keys) && IsFlat(b, config, config.Keys)
    ensures a == b
  {
    assert a.Keys == b.Keys;
  }

  /** A key that cannot be placed is bad, so the configuration is not well formed. */
  lemma StopIsFailure<V>(leaves: map<Path, V>, config: map<string, V>, order: seq<string>, n: nat, stop: Stop)
    requires Progress(leaves, config, order, n) && n < |order|
    requires Stops(leaves, Segments(order[n]), stop)
    ensures FailsAt(order, n, Report(order[n], stop)) && !WellFormed(config.Keys)
  {
    var key, placed := order[n], KeySet(order[..n]);
    match stop
    case EmptyAt(i) =>
      EmptyIsFailure(leaves, config, order, n, i);
    case ValueAt(i) =>
      var other :| other in placed && Segments(other) == Segments(key)[..i];
      JoinSplit(other, '.');
      assert Bad(config.Keys, key);
    case TableThere =>
      var q :| q in leaves && Segments(key) < q;
      var other :| other in placed && Segments(other) == q;
      assert Bad(config.Keys, other);
  }

  lemma EmptyIsFailure<V>(leaves: map<Path, V>, config: map<string, V>, order: seq<string>, n: nat, i: nat)
    requires Progress(leaves, config, order, n) && n < |order|
    requires Stops(leaves, Segments(order[n]), EmptyAt(i))
    ensures FailsAt(order, n, InvalidKey(order[n])) && !WellFormed(config.Keys)
  {
    var key, placed := order[n], KeySet(order[..n]);
    var segments := Segments(key);
    assert segments[i] in segments;
    forall other | other in order[..n] ensures !(Segments(other) < segments) {
      assert other in placed && !Bad(placed, other);
      EmptySegmentBlocks(Segments(other), segments, i);
    }
    assert Bad(config.Keys, key);
  }

  lemma EmptySegmentBlocks(q: Path, segments: Path, i: nat)
    requires i < |segments| && segments[i] == "" && "" !in q && !(q <= segments[..i])
    ensures !(q < segments)
  {
    if |q| <= i {
      assert segments[..i][..|q|] == segments[..|q|];
    } else {
      assert q[i] in q;
    }
  }

  // -------- The sorted order, and the error it makes deterministic --------

  ghost predicate Sorted(order: seq<string>) {
    forall i, j | 0 <= i < j < |order| :: Compare(order[i], order[j]) < 0
  }

  /** The error is for the least bad key. It is a conflict exactly when some key is a proper
      segment prefix of that key, and never the one about a key also used as a table. */
  ghost predicate LeastBad(keys: set<string>, error: NestError) {
    && error.key in keys && Bad(keys, error.key)
    && (forall key | key in keys && Bad(keys, key) :: Compare(error.key, key) <= 0)
    && match error
       case InvalidKey(key) => forall other | other in keys :: !(Segments(other) < Segments(key))
       case Conflict(key, at) => at in keys && Segments(at) < Segments(key)
       case AlsoTable(_) => false
  }

  lemma PrefixSortsFirst(a: string, b: string)
    requires Segments(a) < Segments(b)
    ensures Compare(a, b) < 0
  {
    JoinSplit(a, '.');
    JoinSplit(b, '.');
    JoinPrefix(Segments(a), Segments(b), '.');
    CompareProperPrefix(a, b);
  }

  lemma SortedBefore(order: seq<string>, keys: set<string>, m: nat, other: string)
    requires Enumerates(order, keys) && Sorted(order) && m < |order|
    requires other in keys && Segments(other) < Segments(order[m])
    ensures forall n | m <= n <= |order| :: other in order[..n]
  {
    var j :| 0 <= j < |order| && order[j] == other;
    PrefixSortsFirst(other, order[m]);
    CompareAntisymmetric(other, order[m]);
    assert j < m;
    assert forall n | m <= n <= |order| :: order[..n][j] == other;
  }

  lemma FirstFailureIsLeastBad(order: seq<string>, keys: set<string>, n: nat, error: NestError)
    requires Enumerates(order, keys) && Sorted(order) && FailsAt(order, n, error)
    ensures LeastBad(keys, error)
  {
    forall key | key in keys && Bad(keys, key) ensures Compare(error.key, key) <= 0 {
      var m :| 0 <= m < |order| && order[m] == key;
      if m < n {
        assert key in KeySet(order[..n]) by { assert order[..n][m] == key; }
        assert !Bad(KeySet(order[..n]), key);
        var other :| other in keys && Segments(other) < Segments(key);
        SortedBefore(order, keys, m, other);
      }
      CompareZero(key, key);
    }
    assert order[n] !in order[..n];
    match error
    case InvalidKey(key) =>
      forall other | other in keys ensures !(Segments(other) < Segments(key)) {
        if Segments(other) < Segments(key) {
          SortedBefore(order, keys, n, other);
        }
      }
    case Conflict(key, at) =>
    case AlsoTable(key) =>
      var other :| other in order[..n] && Segments(key) < Segments(other);
      var m :| 0 <= m < n && order[m] == other;
      SortedBefore(order, keys, m, key);
  }

  ghost predicate Least(keys: set<string>, least: string) {
    least in keys && forall key | key in keys :: Compare(least, key) <= 0
  }

  lemma {:induction false} LeastExists(keys: set<string>) returns (least: string)
    requires keys != {}
    ensures Least(keys, least)
  {
    least :| least in keys;
    CompareZero(least, least);
    if keys != {least} {
      var other := LeastExists(keys - {least});
      CompareAntisymmetric(least, other);
      if Compare(least, other) < 0 {
        forall key | key in keys - {least} ensures Compare(least, key) <= 0 {
          CompareTransitive(least, other, key);
        }
      } else {
        least := other;
      }
    }
  }

  /** `sortedKeys`. */
  method SortedKeys(keys: set<string>) returns (order: seq<string>)
    ensures Enumerates(order, keys) && Sorted(order)
  {
    order := [];
    var rest := keys;
    while rest != {}
      invariant rest <= keys
      invariant Enumerates(order, keys - rest)
      invariant Sorted(order)
      invariant forall i, key | 0 <= i < |order| && key in rest :: Compare(order[i], key) < 0
      decreases rest
    {
      ghost var first := LeastExists(rest);
      var least :| least in rest && forall key | key in rest :: Compare(least, key) <= 0;
      forall key | key in rest - {least} ensures Compare(least, key) < 0 {
        CompareZero(least, key);
      }
      order, rest := order + [least], rest - {least};
    }
  }

  // -------- The same on the keys' own text --------

  /** A key without a segment: it is empty, starts or ends with a dot, or has two in a row. */
  ghost predicate Malformed(key: string) {
    || key == "" || key[0] == '.' || key[|key| - 1] == '.'
    || exists i :: 0 <= i < |key| - 1 && key[i] == '.' && key[i + 1] == '.'
  }

  /** Another key followed by a dot begins this one. */
  ghost predicate Below(keys: set<string>, key: string) {
    exists other | other in keys :: other + "." <= key
  }

  /** Every key has a place of its own in the tables. */
  ghost predicate Placeable(keys: set<string>) {
    forall key | key in keys :: !Malformed(key) && !Below(keys, key)
  }

  lemma BadSpelled(keys: set<string>, key: string)
    ensures HasEmptySegment(key) <==> Malformed(key)
    ensures (exists other | other in keys :: Segments(other) < Segments(key)) <==> Below(keys, key)
    ensures Bad(keys, key) <==> Malformed(key) || Below(keys, key)
  {
    EmptyPart(key, '.');
    forall other ensures Segments(other) < Segments(key) <==> other + "." <= key {
      SplitPrefix(other, key, '.');
    }
  }

  lemma WellFormedSpelled(keys: set<string>)
    ensures WellFormed(keys) <==> Placeable(keys)
  {
    forall key ensures Bad(keys, key) <==> Malformed(key) || Below(keys, key) {
      BadSpelled(keys, key);
    }
  }

  /** The error is for the least key without a place: an invalid key if no other key is above it,
      else a conflict with one that is. */
  ghost predicate LeastUnplaceable(keys: set<string>, error: NestError) {
    && error.key in keys
    && (Malformed(error.key) || Below(keys, error.key))
    && (forall key | key in keys && (Malformed(key) || Below(keys, key)) :: Compare(error.key, key) <= 0)
    && match error
       case InvalidKey(key) => !Below(keys, key)
       case Conflict(key, at) => at in keys && at + "." <= key
       case AlsoTable(_) => false
  }

  lemma LeastBadSpelled(keys: set<string>, error: NestError)
    requires LeastBad(keys, error)
    ensures LeastUnplaceable(keys, error)
  {
    forall key ensures Bad(keys, key) <==> Malformed(key) || Below(keys, key) {
      BadSpelled(keys, key);
    }
    BadSpelled(keys, error.key);
    if error.Conflict? {
      SplitPrefix(error.at, error.key, '.');
    }
  }

  // -------- The configuration as paths --------

  /** The configuration as paths: splitting every key loses nothing. */
  ghost function Flatten<V>(config: map<string, V>): (leaves: map<Path, V>)
    ensures IsFlat(leaves, config, config.Keys)
  {
    var paths := set key | key in config :: Segments(key);
    forall key | key in config ensures Join(Segments(key), '.') == key { JoinSplit(key, '.'); }
    map p | p in paths :: config[Join(p, '.')]
  }

  /** The path holds no dot, and joining it spells a key. */
  ghost predicate Spells(keys: set<string>, path: Path) {
    path != [] && Join(path, '.') in keys && forall s | s in path :: '.' !in s
  }

  /** The path holds no dot, and joining it spells what comes before a dot of some key. */
  ghost predicate Leads(keys: set<string>, path: Path) {
    path == [] || ((forall s | s in path :: '.' !in s) && exists key | key in keys :: Join(path, '.') + "." <= key)
  }

  /** The round trip: the leaves are just the keys of the configuration, spelled by joining their
      paths, and the tables just the paths that lead to one. */
  lemma FlattenRoundTrip<V>(config: map<string, V>, path: Path)
    ensures Lookup(Flatten(config), path).Leaf? <==> Spells(config.Keys, path)
    ensures Spells(config.Keys, path) ==> Lookup(Flatten(config), path) == Leaf(config[Join(path, '.')])
  {
    if Spells(config.Keys, path) {
      SegmentsSpelled(Join(path, '.'), path);
    }
    if path in Flatten(config) {
      var key :| key in config && Segments(key) == path;
      SegmentsSpelled(key, path);
    }
  }

  lemma TablesRoundTrip<V>(config: map<string, V>, path: Path)
    requires WellFormed(config.Keys)
    ensures Lookup(Flatten(config), path).Branch? <==> Leads(config.Keys, path)
  {
    if path == [] {
      NoEmptyPath(config);
    } else if Leads(config.Keys, path) {
      LeadsToLeaf(config, path);
    } else {
      forall q | q in Flatten(config) ensures !(path < q) {
        var key :| key in config && Segments(key) == q;
        if path < q {
          BeforeADot(key, path);
        }
      }
    }
  }

  lemma NoEmptyPath<V>(config: map<string, V>)
    ensures [] !in Flatten(config)
  {
  }

  lemma LeadsToLeaf<V>(config: map<string, V>, path: Path)
    requires WellFormed(config.Keys) && path != [] && Leads(config.Keys, path)
    ensures path !in Flatten(config) && exists q | q in Flatten(config) :: path < q
  {
    var key :| key in config && Join(path, '.') + "." <= key;
    SegmentsSpelled(Join(path, '.'), path);
    SplitPrefix(Join(path, '.'), key, '.');
    NoLeafAbove(config, key, path);
    assert Segments(key) in Flatten(config);
  }

  lemma NoLeafAbove<V>(config: map<string, V>, key: string, path: Path)
    requires WellFormed(config.Keys) && key in config && path < Segments(key)
    ensures path !in Flatten(config)
  {
    assert !Bad(config.Keys, key);
  }

  lemma BeforeADot(key: string, path: Path)
    requires path != [] && path < Segments(key)
    ensures (forall s | s in path :: '.' !in s) && Join(path, '.') + "." <= key
  {
    assert forall s | s in path :: s in Segments(key);
    SplitJoin(path, '.');
    SplitPrefix(Join(path, '.'), key, '.');
  }

  // -------- nestConfig and mergeConfig --------

  /** `nestConfig`: it succeeds exactly if every key has a place of its own, and the tables then hold
      exactly the configuration: the values are its values, each under the path without dots that
      spells its key, and the tables lead to them. Otherwise the error is for the least key without
      a place. */
  method NestConfig<V>(config: map<string, V>) returns (r: Result<Table<V>, NestError>)
    ensures r.Ok? <==> Placeable(config.Keys)
    ensures r.Ok? ==> fresh(r.value)
    ensures r.Ok? ==> forall path ::
                        Read(r.value, path).Leaf? <==>
                          path != [] && Join(path, '.') in config && forall s | s in path :: '.' !in s
    ensures r.Ok? ==> forall path | Spells(config.Keys, path) :: Read(r.value, path) == Leaf(config[Join(path, '.')])
    ensures r.Ok? ==> forall path :: Read(r.value, path).Branch? <==> Leads(config.Keys, path)
    ensures r.Err? ==> LeastUnplaceable(config.Keys, r.error)
  {
    var order := SortedKeys(config.Keys);
    WellFormedSpelled(config.Keys);
    r := NestKeys(config, order);
    if r.Err? {
      ghost var n :| FailsAt(order, n, r.error);
      FirstFailureIsLeastBad(order, config.Keys, n, r.error);
      LeastBadSpelled(config.Keys, r.error);
    } else {
      ReadsAsSpelled(r.value, config);
    }
  }

  lemma ReadsAsSpelled<V>(root: Table<V>, config: map<string, V>)
    requires WellFormed(config.Keys)
    requires forall leaves, path | IsFlat(leaves, config, config.Keys) :: Read(root, path) == Lookup(leaves, path)
    ensures forall path :: Read(root, path).Leaf? <==> Spells(config.Keys, path)
    ensures forall path | Spells(config.Keys, path) :: Read(root, path) == Leaf(config[Join(path, '.')])
    ensures forall path :: Read(root, path).Branch? <==> Leads(config.Keys, path)
  {
    forall path
      ensures Read(root, path).Leaf? <==> Spells(config.Keys, path)
      ensures Spells(config.Keys, path) ==> Read(root, path) == Leaf(config[Join(path, '.')])
      ensures Read(root, path).Branch? <==> Leads(config.Keys, path)
    {
      assert Read(root, path) == Lookup(Flatten(config), path);
      FlattenRoundTrip(config, path);
      TablesRoundTrip(config, path);
    }
  }

  /** `mergeConfig`. */
  function MergeConfig<V>(defaults: map<string, V>, overrides: map<string, V>): map<string, V> {
    map[] + defaults + overrides
  }

  /** What is written for a server: the merged settings, nested (embedded_tikv.go:199-202). The path
      that spells a key reads its override if there is one, else its default, and no other path
      reads a value. */
  method ServerSettings<V>(defaults: map<string, V>, overrides: map<string, V>)
    returns (r: Result<Table<V>, NestError>)
    ensures r.Ok? <==> Placeable(defaults.Keys + overrides.Keys)
    ensures r.Ok? ==> forall path | Spells(overrides.Keys, path) :: Read(r.value, path) == Leaf(overrides[Join(path, '.')])
    ensures r.Ok? ==> forall path | Spells(defaults.Keys - overrides.Keys, path) ::
                        Read(r.value, path) == Leaf(defaults[Join(path, '.')])
    ensures r.Ok? ==> forall path :: Read(r.value, path).Leaf? <==> Spells(defaults.Keys + overrides.Keys, path)
    ensures r.Err? ==> LeastUnplaceable(defaults.Keys + overrides.Keys, r.error)
  {
    var merged := MergeConfig(defaults, overrides);
    assert merged.Keys == defaults.Keys + overrides.Keys;
    r := NestConfig(merged);
  }
}
