/** Port allocation with short-lived reservations (ports.go:15-96). Times are nanoseconds of the
    monotone clock; the kernel's choice of a free port is arbitrary. */
module Ports {
  import opened Wrappers

  const RESERVATION_TTL: int := 60_000_000_000
  const ATTEMPTS: nat := 100

  type Time = int
  type Port = nat
  type PortTable = map<Port, Time>

  datatype Request = Request(port: Port, now: Time)
  datatype Grant = Grant(port: Port, at: Time)
  datatype State = State(table: PortTable, grants: seq<Grant>)

  // -------- What the table does, as a function of the requests --------

  predicate Expired(at: Time, now: Time) { now - at > RESERVATION_TTL }

  function Purge(table: PortTable, now: Time): PortTable {
    map p | p in table && !Expired(table[p], now) :: table[p]
  }

  function Reserve(s: State, r: Request): State {
    var table := Purge(s.table, r.now);
    if r.port in table then State(table, s.grants)
    else State(table[r.port := r.now], s.grants + [Grant(r.port, r.now)])
  }

  function Run(requests: seq<Request>): State {
    if requests == [] then State(map[], [])
    else Reserve(Run(requests[..|requests| - 1]), requests[|requests| - 1])
  }

  ghost predicate Monotone(requests: seq<Request>) {
    forall i, j | 0 <= i <= j < |requests| :: requests[i].now <= requests[j].now
  }

  // -------- Over every run --------

  /** Two grants of the same port are more than a minute apart. */
  ghost predicate Spaced(grants: seq<Grant>) {
    forall i, j | 0 <= i < j < |grants| :: grants[i].port == grants[j].port ==>
      grants[j].at - grants[i].at > 60_000_000_000
  }

  ghost predicate Chronological(grants: seq<Grant>, now: Time) {
    && (forall i, j | 0 <= i <= j < |grants| :: grants[i].at <= grants[j].at)
    && (forall i | 0 <= i < |grants| :: grants[i].at <= now)
  }

  /** The table holds exactly the grants that are no older than a minute. */
  ghost predicate Exact(s: State, now: Time) {
    forall port, at :: (port in s.table && s.table[port] == at)
      <==> (Grant(port, at) in s.grants && now - at <= 60_000_000_000)
  }

  lemma {:induction false} RunIsExact(requests: seq<Request>)
    requires Monotone(requests) && requests != []
    ensures var s, now := Run(requests), requests[|requests| - 1].now;
            Spaced(s.grants) && Chronological(s.grants, now) && Exact(s, now)
  {
    var n := |requests| - 1;
    var before, r := Run(requests[..n]), requests[n];
    if n > 0 {
      RunIsExact(requests[..n]);
      assert requests[..n][n - 1].now <= r.now;
    }
    ReserveIsExact(before, if n > 0 then requests[n - 1].now else r.now, r);
  }

  lemma ReserveIsExact(s: State, earlier: Time, r: Request)
    requires Spaced(s.grants) && Chronological(s.grants, earlier) && Exact(s, earlier) && earlier <= r.now
    ensures var s' := Reserve(s, r); Spaced(s'.grants) && Chronological(s'.grants, r.now) && Exact(s', r.now)
  {
    PurgeIsExact(s, earlier, r.now);
    if r.port !in Purge(s.table, r.now) {
      GrantIsExact(State(Purge(s.table, r.now), s.grants), r);
    }
  }

  lemma PurgeIsExact(s: State, earlier: Time, now: Time)
    requires Exact(s, earlier) && earlier <= now
    ensures Exact(State(Purge(s.table, now), s.grants), now)
  {
    forall port, at | Grant(port, at) in s.grants && now - at <= RESERVATION_TTL
      ensures port in s.table && s.table[port] == at
    {
    }
  }

  lemma GrantIsExact(s: State, r: Request)
    requires Spaced(s.grants) && Exact(s, r.now) && r.port !in s.table
    ensures var s' := State(s.table[r.port := r.now], s.grants + [Grant(r.port, r.now)]);
            Spaced(s'.grants) && Exact(s', r.now)
  {
    forall i | 0 <= i < |s.grants| && s.grants[i].port == r.port
      ensures r.now - s.grants[i].at > RESERVATION_TTL
    {
      assert Grant(r.port, s.grants[i].at) in s.grants;
    }
  }

  /** Any two grants within one window, whoever asked for them, are of different ports. */
  lemma GrantedDistinct(requests: seq<Request>, i: nat, j: nat)
    requires Monotone(requests) && i < j < |Run(requests).grants|
    requires Run(requests).grants[j].at - Run(requests).grants[i].at <= 60_000_000_000
    ensures Run(requests).grants[i].port != Run(requests).grants[j].port
  {
    RunIsExact(requests);
  }

  /** The grants of `ports` are among `grants`, in order, at `places` from `first` on. */
  ghost predicate Granted(grants: seq<Grant>, first: nat, ports: seq<Port>, places: seq<nat>) {
    && |ports| == |places|
    && (forall i | 0 <= i < |ports| :: first <= places[i] < |grants| && grants[places[i]].port == ports[i])
    && (forall i, j | 0 <= i < j < |ports| :: places[i] < places[j])
  }

  // -------- The table itself --------

  datatype PortError = Listen | Exhausted

  /** At `clock` the table held the port: somebody was granted it within the last minute. */
  ghost predicate Refused(grants: seq<Grant>, r: Request) {
    exists at: Time :: Grant(r.port, at) in grants && r.now - at <= 60_000_000_000
  }

  /** A request for the port was served from `from` on, and turned down. */
  ghost predicate TurnedDown(history: seq<Request>, from: nat, port: Port) {
    exists m | from <= m < |history| :: history[m].port == port && Refused(Run(history[..m]).grants, history[m])
  }

  /** All these answers of the kernel were ports that were requested from `since` on and turned
      down. */
  ghost predicate NoneFree(kernel: nat -> Option<Port>, history: seq<Request>, since: nat, from: nat, to: nat) {
    forall k: nat | from <= k < to :: kernel(k).Some? && TurnedDown(history, since, kernel(k).value)
  }

  /** Later requests leave that as it is, */
  lemma {:induction false} NoneFreeStays(kernel: nat -> Option<Port>, earlier: seq<Request>, history: seq<Request>,
                                         since: nat, from: nat, to: nat)
    requires earlier <= history && NoneFree(kernel, earlier, since, from, to)
    ensures NoneFree(kernel, history, since, from, to)
  {
    forall k: nat | from <= k < to ensures TurnedDown(history, since, kernel(k).value) {
      LaterTurnedDown(earlier, history, since, kernel(k).value);
    }
  }

  /** and one more answer may join. */
  lemma {:induction false} OneMoreTurnedDown(kernel: nat -> Option<Port>, history: seq<Request>, later: nat, since: nat, from: nat, k: nat)
    requires since <= later && from <= k && NoneFree(kernel, history, since, from, k)
    requires kernel(k).Some? && TurnedDown(history, later, kernel(k).value)
    ensures NoneFree(kernel, history, since, from, k + 1)
  {
    EarlierOn(history, later, since, kernel(k).value);
  }

  lemma {:induction false} EarlierOn(history: seq<Request>, later: nat, since: nat, port: Port)
    requires since <= later && TurnedDown(history, later, port)
    ensures TurnedDown(history, since, port)
  {
  }

  lemma {:induction false} NoneFreeEarlier(kernel: nat -> Option<Port>, history: seq<Request>, later: nat, since: nat, from: nat, to: nat)
    requires since <= later && NoneFree(kernel, history, later, from, to)
    ensures NoneFree(kernel, history, since, from, to)
  {
    forall k: nat | from <= k < to ensures TurnedDown(history, since, kernel(k).value) {
      EarlierOn(history, later, since, kernel(k).value);
    }
  }

  lemma {:induction false} LaterTurnedDown(earlier: seq<Request>, history: seq<Request>, since: nat, port: Port)
    requires earlier <= history && TurnedDown(earlier, since, port)
    ensures TurnedDown(history, since, port)
  {
    var m :| since <= m < |earlier| && earlier[m].port == port && Refused(Run(earlier[..m]).grants, earlier[m]);
    assert history[..m] == earlier[..m] && history[m] == earlier[m];
  }

  /** The requests so far, the latest no later than `now`, have led to `s`. */
  ghost predicate Served(history: seq<Request>, s: State, now: Time) {
    Monotone(history) && Run(history) == s && forall i | 0 <= i < |history| :: history[i].now <= now
  }

  class Reservations {
    /** The kernel's answers to `listenForPort`, in turn: a free port or a refusal. */
    const kernel: nat -> Option<Port>
    /** How many it has given. */
    var asked: nat
    var reserved: PortTable
    var clock: Time
    /** Every request served so far, in the order the mutex admitted them. */
    ghost var history: seq<Request>
    ghost var grants: seq<Grant>

    ghost predicate Valid()
      reads this
    {
      Served(history, State(reserved, grants), clock)
    }

    constructor (kernel: nat -> Option<Port>)
      ensures Valid() && history == [] && reserved == map[] && grants == [] && this.kernel == kernel && asked == 0
    {
      this.kernel, asked := kernel, 0;
      reserved, history, grants := map[], [], [];
    }

    /** `listenForPort`. */
    method ListenForPort(host: string) returns (r: Result<Port, PortError>)
      modifies this`asked
      ensures asked == old(asked) + 1
      ensures r == match kernel(old(asked)) case Some(port) => Ok(port) case None => Err(Listen)
    {
      r := match kernel(asked) case Some(port) => Ok(port) case None => Err(Listen);
      asked := asked + 1;
    }

    /** `time.Now` under the mutex: never before an earlier reading. */
    method Now() returns (now: Time)
      requires Valid()
      modifies this`clock
      ensures Valid() && now == clock >= old(clock)
    {
      now :| now >= clock;
      clock := now;
    }

    /** The loop that drops every reservation older than the window. */
    method PurgeExpired(now: Time)
      modifies this`reserved
      ensures reserved == Purge(old(reserved), now)
    {
      var rest := reserved.Keys;
      while rest != {}
        invariant rest <= reserved.Keys
        invariant forall p | p in reserved :: p in old(reserved) && reserved[p] == old(reserved)[p]
        invariant forall p | p in reserved && p !in rest :: !Expired(reserved[p], now)
        invariant forall p | p in old(reserved) && p !in reserved :: Expired(old(reserved)[p], now)
        decreases rest
      {
        var p :| p in rest;
        if Expired(reserved[p], now) {
          reserved := reserved - {p};
        }
        rest := rest - {p};
      }
    }

    /** `reservePort`: purge by a loop over the table, then check and record. */
    method ReservePort(port: Port) returns (ok: bool)
      requires Valid()
      modifies this`reserved, this`clock, this`history, this`grants
      ensures Valid() && history == old(history) + [Request(port, clock)]
      ensures ok <==> !Refused(old(grants), Request(port, clock))
      ensures grants == if ok then old(grants) + [Grant(port, clock)] else old(grants)
    {
      var now := Now();
      PurgeExpired(now);
      OneMoreRequest(history, old(reserved), reserved, grants, Request(port, now));
      history := history + [Request(port, now)];
      if port in reserved {
        return false;
      }
      reserved, grants := reserved[port := now], grants + [Grant(port, now)];
      return true;
    }

    /** What other goroutines ask for whenever the mutex is free. */
    method Others()
      requires Valid()
      modifies this`reserved, this`clock, this`history, this`grants
      ensures Valid() && old(history) <= history && old(grants) <= grants
    {
      var n: int := *;
      while n > 0
        invariant Valid() && old(history) <= history && old(grants) <= grants
      {
        var port: Port := *;
        var ok := ReservePort(port);
        n := n - 1;
      }
    }

    /** One candidate: nothing if it is turned down. */
    method TryOne(host: string) returns (r: Result<Option<Port>, PortError>, ghost place: nat)
      requires Valid()
      modifies this
      ensures Valid() && old(history) <= history && old(grants) <= grants && asked == old(asked) + 1
      ensures r.Err? <==> kernel(old(asked)).None?
      ensures r.Err? ==> r.error == Listen
      ensures r.Ok? && r.value.Some? ==>
                kernel(old(asked)) == r.value && |old(grants)| <= place < |grants| && grants[place].port == r.value.value
      ensures r.Ok? && r.value.None? ==> TurnedDown(history, |old(history)|, kernel(old(asked)).value)
    {
      place := 0;
      var port := ListenForPort(host);
      if port.Err? {
        return Err(port.error), 0;
      }
      Others();
      place := |grants|;
      ghost var others := history;
      var ok := ReservePort(port.value);
      assert history[..|others|] == others;
      r := Ok(if ok then Some(port.value) else None);
    }

    /** One more candidate, after others that were turned down. */
    method TryNext(host: string, ghost since: nat, ghost from: nat) returns (r: Result<Option<Port>, PortError>, ghost place: nat)
      requires Valid() && since <= |history| && from <= asked && NoneFree(kernel, history, since, from, asked)
      modifies this
      ensures Valid() && old(history) <= history && old(grants) <= grants && asked == old(asked) + 1
      ensures r.Err? <==> kernel(old(asked)).None?
      ensures r.Err? ==> r.error == Listen
      ensures r.Ok? && r.value.Some? ==>
                kernel(old(asked)) == r.value && |old(grants)| <= place < |grants| && grants[place].port == r.value.value
      ensures NoneFree(kernel, history, since, from, if r.Ok? && r.value.None? then asked else asked - 1)
    {
      r, place := TryOne(host);
      NoneFreeStays(kernel, old(history), history, since, from, old(asked));
      if r.Ok? && r.value.None? {
        OneMoreTurnedDown(kernel, history, |old(history)|, since, from, old(asked));
      }
    }

    /** `freePort`: at most a hundred of the kernel's answers, up to the first that is a refusal to
        listen or a port that nobody was granted within the last minute. `place` is where the grant
        stands among everybody's. */
    method FreePort(host: string) returns (r: Result<Port, PortError>, ghost place: nat)
      requires Valid()
      modifies this
      ensures Valid() && old(history) <= history && old(grants) <= grants && old(asked) < asked <= old(asked) + 100
      ensures r == Err(Listen) <==> kernel(asked - 1).None?
      ensures r.Ok? ==> kernel(asked - 1) == Some(r.value) && |old(grants)| <= place < |grants| && grants[place].port == r.value
      ensures r == Err(Exhausted) ==> asked == old(asked) + 100
      ensures NoneFree(kernel, history, |old(history)|, old(asked), if r == Err(Exhausted) then asked else asked - 1)
    {
      place := 0;
      for attempt := 0 to ATTEMPTS
        invariant Valid() && old(history) <= history && old(grants) <= grants && asked == old(asked) + attempt
        invariant NoneFree(kernel, history, |old(history)|, old(asked), asked)
      {
        var port;
        port, place := TryNext(host, |old(history)|, old(asked));
        if port.Err? {
          return Err(port.error), 0;
        }
        if port.value.Some? {
          return Ok(port.value.value), place;
        }
      }
      return Err(Exhausted), 0;
    }

    /** `freePorts`: `n` grants, with those of others in between; ports granted within one minute
        are distinct. It fails only as `freePort` does: the kernel refuses, or turns up nothing but
        ports granted within the last minute, a hundred times in a row. */
    method FreePorts(host: string, n: nat) returns (r: Result<seq<Port>, PortError>, ghost places: seq<nat>)
      requires Valid()
      modifies this
      ensures Valid() && old(history) <= history && old(grants) <= grants && old(asked) <= asked
      ensures r.Ok? ==> |r.value| == n && Granted(grants, |old(grants)|, r.value, places)
      ensures r.Ok? ==> forall i, j | 0 <= i < j < n && grants[places[j]].at - grants[places[i]].at <= 60_000_000_000 ::
                          r.value[i] != r.value[j]
      ensures r == Err(Listen) ==> old(asked) < asked && kernel(asked - 1).None?
      ensures r == Err(Exhausted) ==> old(asked) + 100 <= asked && NoneFree(kernel, history, |old(history)|, asked - 100, asked)
    {
      r, places := SomePorts(host, n);
      if r.Ok? {
        forall i, j | 0 <= i < j < n && grants[places[j]].at - grants[places[i]].at <= 60_000_000_000
          ensures r.value[i] != r.value[j]
        {
          GrantedDistinct(history, places[i], places[j]);
        }
      }
    }

    /** Its loop. */
    method SomePorts(host: string, n: nat) returns (r: Result<seq<Port>, PortError>, ghost places: seq<nat>)
      requires Valid()
      modifies this
      ensures Valid() && old(history) <= history && old(grants) <= grants && old(asked) <= asked
      ensures r.Ok? ==> |r.value| == n && Granted(grants, |old(grants)|, r.value, places)
      ensures r == Err(Listen) ==> old(asked) < asked && kernel(asked - 1).None?
      ensures r == Err(Exhausted) ==> old(asked) + 100 <= asked && NoneFree(kernel, history, |old(history)|, asked - 100, asked)
    {
      var ports: seq<Port> := [];
      places := [];
      for i := 0 to n
        invariant Valid() && old(history) <= history && old(grants) <= grants && old(asked) <= asked
        invariant |ports| == i && Granted(grants, |old(grants)|, ports, places)
        invariant i > 0 ==> places[i - 1] < |grants|
      {
        ghost var sofar, earlier := grants, |history|;
        var port;
        ghost var place;
        port, place := FreePort(host);
        if port.Err? {
          if port.error == Exhausted {
            NoneFreeEarlier(kernel, history, earlier, |old(history)|, asked - 100, asked);
          }
          return Err(port.error), places;
        }
        assert forall k | 0 <= k < i :: grants[places[k]] == sofar[places[k]];
        ports, places := ports + [port.value], places + [place];
      }
      return Ok(ports), places;
    }
  }

  /** What a request makes of the purged table. */
  lemma {:induction false} OneMoreRequest(history: seq<Request>, table: PortTable, purged: PortTable, grants: seq<Grant>, r: Request)
    requires Served(history, State(table, grants), r.now) && purged == Purge(table, r.now)
    ensures r.port in purged <==> Refused(grants, r)
    ensures r.port in purged ==> Served(history + [r], State(purged, grants), r.now)
    ensures r.port !in purged ==>
              Served(history + [r], State(purged[r.port := r.now], grants + [Grant(r.port, r.now)]), r.now)
  {
    RefusedSpelled(history, State(table, grants), r);
    assert (history + [r])[..|history|] == history;
  }

  /** The purged table holds a port exactly if it was granted within the last minute. */
  lemma {:induction false} RefusedSpelled(history: seq<Request>, s: State, r: Request)
    requires Served(history, s, r.now)
    ensures r.port in Purge(s.table, r.now) <==> Refused(s.grants, r)
  {
    if history != [] {
      RunIsExact(history);
      PurgeIsExact(s, history[|history| - 1].now, r.now);
      var t := State(Purge(s.table, r.now), s.grants);
      assert Exact(t, r.now);
      if r.port in t.table {
        assert Grant(r.port, t.table[r.port]) in s.grants;
      }
    }
  }

  // -------- How startOnce hands them out --------

  function PDPorts(ports: seq<Port>): (r: set<Port>)
    requires |ports| >= 2
  {
    {ports[0], ports[1]}
  }

  function TiKVPorts(ports: seq<Port>, i: nat): (r: set<Port>)
    requires |ports| >= 4 + 2 * i
  {
    {ports[2 + 2 * i], ports[3 + 2 * i]}
  }

  /** The layout of embedded_tikv.go:152-173 gives every server its own two ports. */
  lemma ServersAreDisjoint(ports: seq<Port>, tikvCount: nat)
    requires |ports| == 2 + 2 * tikvCount
    requires forall i, j | 0 <= i < j < |ports| :: ports[i] != ports[j]
    ensures |PDPorts(ports)| == 2
    ensures forall i: nat | i < tikvCount :: |TiKVPorts(ports, i)| == 2 && PDPorts(ports) !! TiKVPorts(ports, i)
    ensures forall i: nat, j: nat | i < j < tikvCount :: TiKVPorts(ports, i) !! TiKVPorts(ports, j)
  {
  }
}
