/** The Agones game-server allocator: allocating a server from a fleet and
    handing out its "<address>:<port>" connection string, the metadata attached
    to the allocation, and releasing the server that a connection string names. */
module Agones {
  import opened Messages

  // ---------------------------------------------------------------------
  // Decimal rendering of integers (strconv.Itoa, and %d in fmt.Sprintf)
  // ---------------------------------------------------------------------

  function DigitChar(d: nat): char
    requires d < 10
  {
    ('0' as int + d) as char
  }

  /** The decimal digits of `n`, most significant first, without leading zeros. */
  function Digits(n: nat): (s: string)
    ensures |s| > 0
    ensures forall k :: 0 <= k < |s| ==> '0' <= s[k] <= '9'
  {
    if n < 10 then [DigitChar(n)] else Digits(n / 10) + [DigitChar(n % 10)]
  }

  /** Decimal rendering of an integer, with a leading '-' when it is negative. */
  function Itoa(n: int): (s: string)
    ensures ':' !in s
    ensures |s| > 0 && (s[0] == '-' <==> n < 0)
  {
    if n < 0 then "-" + Digits(-n) else Digits(n)
  }

  /** The value of a string of decimal digits: the reading of a rendering. */
  function DecimalValue(s: string): nat
  {
    if s == [] then 0
    else
      var c := s[|s| - 1];
      DecimalValue(s[..|s| - 1]) * 10 + (if '0' <= c <= '9' then (c as int) - ('0' as int) else 0)
  }

  /** Reading back the digits of `n` gives `n`. */
  lemma {:induction false} DigitsRoundTrip(n: nat)
    ensures DecimalValue(Digits(n)) == n
  {
    if n >= 10 {
      var s := Digits(n / 10) + [DigitChar(n % 10)];
      assert s[..|s| - 1] == Digits(n / 10);
      DigitsRoundTrip(n / 10);
    }
  }

  /** Distinct naturals have distinct digits. */
  lemma DigitsInjective(a: nat, b: nat)
    requires Digits(a) == Digits(b)
    ensures a == b
  {
    DigitsRoundTrip(a);
    DigitsRoundTrip(b);
  }

  /** Two ports render alike exactly when they are equal, so comparing
      renderings compares port numbers. */
  lemma ItoaInjective(a: int, b: int)
    ensures Itoa(a) == Itoa(b) <==> a == b
  {
    if Itoa(a) == Itoa(b) {
      if a < 0 {
        assert b < 0;
        assert Itoa(a)[1..] == Digits(-a);
        assert Itoa(b)[1..] == Digits(-b);
        DigitsInjective(-a, -b);
      } else {
        assert b >= 0;
        DigitsInjective(a, b);
      }
    }
  }

  // ---------------------------------------------------------------------
  // strings.Split with a one-character separator
  // ---------------------------------------------------------------------

  /** The pieces of `s` between occurrences of `sep`: one more piece than there
      are separators, empty pieces included ("" gives [""]). */
  function Split(s: string, sep: char): (parts: seq<string>)
    ensures |parts| > 0
  {
    if s == [] then [""]
    else
      var rest := Split(s[1..], sep);
      if s[0] == sep then [""] + rest else [[s[0]] + rest[0]] + rest[1..]
  }

  /** The pieces glued back together with the separator. */
  function Join(parts: seq<string>, sep: char): string
    requires |parts| > 0
  {
    if |parts| == 1 then parts[0] else parts[0] + [sep] + Join(parts[1..], sep)
  }

  /** Splitting loses nothing: joining the pieces gives the string back, no
      piece holds the separator, and there is one piece per separator plus one. */
  lemma {:induction false} SplitJoin(s: string, sep: char)
    ensures Join(Split(s, sep), sep) == s
    ensures forall k :: 0 <= k < |Split(s, sep)| ==> sep !in Split(s, sep)[k]
    ensures |Split(s, sep)| == Count(s, sep) + 1
  {
    if s != [] {
      var rest := Split(s[1..], sep);
      SplitJoin(s[1..], sep);
      if s[0] == sep {
        assert Split(s, sep) == [""] + rest;
        assert ([""] + rest)[1..] == rest;
        assert s == [sep] + s[1..];
      } else {
        var parts := [[s[0]] + rest[0]] + rest[1..];
        assert Split(s, sep) == parts;
        assert parts[1..] == rest[1..];
        if |rest| > 1 {
          assert Join(rest, sep) == rest[0] + [sep] + Join(rest[1..], sep);
          assert s == [s[0]] + rest[0] + [sep] + Join(rest[1..], sep);
        }
      }
    }
  }

  /** A string without the separator is a single piece. */
  lemma {:induction false} SplitWhole(s: string, sep: char)
    requires sep !in s
    ensures Split(s, sep) == [s]
  {
    if s != [] {
      assert sep !in s[1..] by {
        forall k | 0 <= k < |s[1..]| ensures s[1..][k] != sep {
          assert s[1..][k] == s[k + 1];
        }
      }
      SplitWhole(s[1..], sep);
      assert [s[0]] + s[1..] == s;
    }
  }

  /** "a:b" with neither side holding ':' splits into exactly a and b. */
  lemma {:induction false} SplitPair(a: string, b: string, sep: char)
    requires sep !in a && sep !in b
    ensures Split(a + [sep] + b, sep) == [a, b]
  {
    var s := a + [sep] + b;
    if a == [] {
      assert s[0] == sep && s[1..] == b;
      SplitWhole(b, sep);
    } else {
      assert s[0] == a[0] && a[0] != sep;
      assert s[1..] == a[1..] + [sep] + b;
      assert sep !in a[1..] by {
        forall k | 0 <= k < |a[1..]| ensures a[1..][k] != sep {
          assert a[1..][k] == a[k + 1];
        }
      }
      SplitPair(a[1..], b, sep);
      assert [a[0]] + a[1..] == a;
    }
  }

  // ---------------------------------------------------------------------
  // Game servers and fleet allocations
  // ---------------------------------------------------------------------

  /** A game server as the Agones API reports it (its status). */
  datatype GameServer = GameServer(name: string, state: string, address: string, ports: seq<int>)

  /** The allocator's configuration. */
  datatype Allocator = Allocator(namespace: string, fleetName: string, generateName: string)

  /** Labels and annotations patched onto the allocated game server. */
  datatype MetaPatch = MetaPatch(labels: map<string, string>, annotations: map<string, string>)

  /** The fleet-allocation request sent to Agones. */
  datatype FleetAllocation = FleetAllocation(generateName: string, namespace: string, fleetName: string, meta: MetaPatch)

  const MatchLabel := "openmatch/match"
  const PoolsAnnotation := "openmatch/pools"
  const RostersAnnotation := "openmatch/rosters"

  /** getAllocationMeta. `pools` and `rosters` are the JSON encodings of the
      match's pools and rosters, None when encoding failed. */
  function AllocationMeta(m: MatchObject, pools: Option<string>, rosters: Option<string>): (p: MetaPatch)
    ensures p.labels == map[MatchLabel := m.id]
    ensures PoolsAnnotation in p.annotations <==> pools.Some?
    ensures pools.Some? ==> p.annotations[PoolsAnnotation] == pools.value
    ensures RostersAnnotation in p.annotations <==> rosters.Some?
    ensures rosters.Some? ==> p.annotations[RostersAnnotation] == rosters.value
    ensures p.annotations.Keys <= {PoolsAnnotation, RostersAnnotation}
  {
    var withPools := if pools.Some? then map[PoolsAnnotation := pools.value] else map[];
    var annotations := if rosters.Some? then withPools[RostersAnnotation := rosters.value] else withPools;
    MetaPatch(map[MatchLabel := m.id], annotations)
  }

  /** What Allocate sent and what it returned: a connection string, or "" and an error. */
  datatype Allocation = Allocation(request: FleetAllocation, connstring: string, err: Option<string>)

  /** The connection string of an allocated server: its address and first port. */
  function ConnString(gs: GameServer): string
    requires |gs.ports| > 0
  {
    gs.address + ":" + Itoa(gs.ports[0])
  }

  /** AgonesAllocator.Allocate. `created` is the outcome of creating the fleet
      allocation: the allocated server, or the API error. */
  function Allocate(a: Allocator, m: MatchObject, pools: Option<string>, rosters: Option<string>, created: Result<GameServer>): (r: Allocation)
    requires created.Ok? ==> |created.value.ports| > 0
    ensures r.request == FleetAllocation(a.generateName, a.namespace, a.fleetName, AllocationMeta(m, pools, rosters))
    ensures created.Err? ==> r.connstring == "" && r.err == Some("Failed to create fleet allocation: " + created.error)
    ensures created.Ok? ==> r.err.None? && r.connstring == ConnString(created.value)
  {
    var request := FleetAllocation(a.generateName, a.namespace, a.fleetName, AllocationMeta(m, pools, rosters));
    match created
    case Err(e) => Allocation(request, "", Some("Failed to create fleet allocation: " + e))
    case Ok(gs) => Allocation(request, ConnString(gs), None)
  }

  // ---------------------------------------------------------------------
  // UnAllocate
  // ---------------------------------------------------------------------

  /** Calls UnAllocate makes on the game-server API. */
  datatype ServerCall = ListServers | DeleteServer(name: string)

  const ParseError := "unable to parse connection string: expecting format \"<IP>:<PORT>\""
  const NotFound := "found no game servers matching the connection string"

  /** One of the server's ports renders as `port`. */
  predicate Serves(ports: seq<int>, port: string)
  {
    exists k :: 0 <= k < |ports| && Itoa(ports[k]) == port
  }

  /** The server is allocated, at address `ip`, and serves `port`. */
  predicate Qualifies(gs: GameServer, ip: string, port: string)
  {
    gs.state == "Allocated" && gs.address == ip && Serves(gs.ports, port)
  }

  /** The last qualifying server among the first `n`, if any. */
  function Chosen(servers: seq<GameServer>, ip: string, port: string, n: nat): Option<GameServer>
    requires n <= |servers|
  {
    if n == 0 then None
    else if Qualifies(servers[n - 1], ip, port) then Some(servers[n - 1])
    else Chosen(servers, ip, port, n - 1)
  }

  /** What UnAllocate returned, and the calls it made. */
  datatype Released = Released(err: Option<string>, calls: seq<ServerCall>)

  /** UnAllocate, given the outcome of listing the servers and of deleting one. */
  function Release(connstring: string, listed: Result<seq<GameServer>>, deleteErr: Option<string>): Released
  {
    var parts := Split(connstring, ':');
    if |parts| != 2 then Released(Some(ParseError), [])
    else if listed.Err? then Released(Some("failed to get game servers list: " + listed.error), [ListServers])
    else
      match Chosen(listed.value, parts[0], parts[1], |listed.value|)
      case None => Released(Some(NotFound), [ListServers])
      case Some(gs) =>
        Released(if deleteErr.Some? then Some("failed to delete game server: " + deleteErr.value) else None,
          [ListServers, DeleteServer(gs.name)])
  }

  /** AgonesAllocator.UnAllocate: finds the allocated server the connection
      string names, scanning every server and every port of each, and deletes it. */
  method UnAllocate(connstring: string, listed: Result<seq<GameServer>>, deleteErr: Option<string>)
    returns (err: Option<string>, calls: seq<ServerCall>)
    ensures Released(err, calls) == Release(connstring, listed, deleteErr)
  {
    var parts := Split(connstring, ':');
    if |parts| != 2 {
      return Some(ParseError), [];
    }
    var ip, port := parts[0], parts[1];
    calls := [ListServers];
    if listed.Err? {
      return Some("failed to get game servers list: " + listed.error), calls;
    }
    var servers := listed.value;
    var gameServer: Option<GameServer> := None;
    var i := 0;
    while i < |servers|
      invariant 0 <= i <= |servers|
      invariant gameServer == Chosen(servers, ip, port, i)
    {
      var gs := servers[i];
      if gs.state == "Allocated" && gs.address == ip {
        var j := 0;
        while j < |gs.ports|
          invariant 0 <= j <= |gs.ports|
          invariant forall k :: 0 <= k < j ==> Itoa(gs.ports[k]) != port
          invariant gameServer == Chosen(servers, ip, port, i)
        {
          if Itoa(gs.ports[j]) == port {
            gameServer := Some(gs);
            break;
          }
          j := j + 1;
        }
      }
      i := i + 1;
    }
    if gameServer.None? {
      return Some(NotFound), calls;
    }
    calls := calls + [DeleteServer(gameServer.value.name)];
    if deleteErr.Some? {
      return Some("failed to delete game server: " + deleteErr.value), calls;
    }
    return None, calls;
  }

  /** The server at `k` qualifies and none after it (among the first `n`) does. */
  predicate LastQualifying(servers: seq<GameServer>, ip: string, port: string, n: nat, k: nat)
    requires n <= |servers|
  {
    k < n && Qualifies(servers[k], ip, port) &&
    forall j :: k < j < n ==> !Qualifies(servers[j], ip, port)
  }

  /** The chosen server is the last qualifying one; none is chosen exactly when
      no server qualifies. */
  lemma {:induction false} ChosenIsLast(servers: seq<GameServer>, ip: string, port: string, n: nat)
    requires n <= |servers|
    ensures Chosen(servers, ip, port, n).Some? ==>
      exists k: nat :: LastQualifying(servers, ip, port, n, k) && servers[k] == Chosen(servers, ip, port, n).value
    ensures Chosen(servers, ip, port, n).None? <==> forall k :: 0 <= k < n ==> !Qualifies(servers[k], ip, port)
  {
    if n > 0 {
      ChosenIsLast(servers, ip, port, n - 1);
      if Qualifies(servers[n - 1], ip, port) {
        assert LastQualifying(servers, ip, port, n, n - 1);
      } else if Chosen(servers, ip, port, n - 1).Some? {
        var k: nat :| LastQualifying(servers, ip, port, n - 1, k) && servers[k] == Chosen(servers, ip, port, n - 1).value;
        assert LastQualifying(servers, ip, port, n, k);
      }
    }
  }

  /** A string that does not split into exactly two pieces is rejected before
      any server is listed. */
  lemma ReleaseRejects(connstring: string, listed: Result<seq<GameServer>>, deleteErr: Option<string>)
    requires |Split(connstring, ':')| != 2
    ensures Release(connstring, listed, deleteErr) == Released(Some(ParseError), [])
  {
  }

  /** When no listed server qualifies, UnAllocate fails and deletes nothing. */
  lemma ReleaseFindsNothing(ip: string, port: string, servers: seq<GameServer>, deleteErr: Option<string>)
    requires ':' !in ip && ':' !in port
    requires forall k :: 0 <= k < |servers| ==> !Qualifies(servers[k], ip, port)
    ensures Release(ip + ":" + port, Ok(servers), deleteErr) == Released(Some(NotFound), [ListServers])
  {
    SplitPair(ip, port, ':');
    ChosenIsLast(servers, ip, port, |servers|);
  }

  /** UnAllocate deletes at most one server, and only the last one in the list
      that qualifies; it succeeds exactly when it deleted one and the delete
      succeeded. */
  lemma ReleaseTargetsLast(connstring: string, listed: Result<seq<GameServer>>, deleteErr: Option<string>)
    ensures var r := Release(connstring, listed, deleteErr);
      |r.calls| <= 2 && (|r.calls| > 0 ==> r.calls[0] == ListServers)
    ensures var r := Release(connstring, listed, deleteErr);
      r.err.None? <==> (|r.calls| == 2 && deleteErr.None?)
    ensures var r := Release(connstring, listed, deleteErr);
      |r.calls| == 2 ==>
        listed.Ok? && |Split(connstring, ':')| == 2 && r.calls[1].DeleteServer? &&
        exists k: nat :: LastQualifying(listed.value, Split(connstring, ':')[0], Split(connstring, ':')[1], |listed.value|, k) &&
          r.calls[1].name == listed.value[k].name
  {
    var parts := Split(connstring, ':');
    if |parts| == 2 && listed.Ok? {
      ChosenIsLast(listed.value, parts[0], parts[1], |listed.value|);
    }
  }

  /** The connection string of a server whose address holds no ':' splits
      back into that address and the rendering of its first port. */
  lemma ConnStringSplits(gs: GameServer)
    requires |gs.ports| > 0 && ':' !in gs.address
    ensures Split(ConnString(gs), ':') == [gs.address, Itoa(gs.ports[0])]
  {
    assert ConnString(gs) == gs.address + [':'] + Itoa(gs.ports[0]);
    SplitPair(gs.address, Itoa(gs.ports[0]), ':');
  }

  /** When a listed server qualifies for "ip:port", UnAllocate lists the
      servers and deletes the last qualifying one, which is that server when
      no later one qualifies. */
  lemma ReleaseFinds(ip: string, port: string, servers: seq<GameServer>, k: nat, deleteErr: Option<string>)
    requires ':' !in ip && ':' !in port
    requires k < |servers| && Qualifies(servers[k], ip, port)
    ensures Chosen(servers, ip, port, |servers|).Some?
    ensures Release(ip + ":" + port, Ok(servers), deleteErr).calls ==
      [ListServers, DeleteServer(Chosen(servers, ip, port, |servers|).value.name)]
    ensures (forall j :: k < j < |servers| ==> !Qualifies(servers[j], ip, port)) ==>
      Chosen(servers, ip, port, |servers|) == Some(servers[k])
  {
    assert ip + ":" + port == ip + [':'] + port;
    SplitPair(ip, port, ':');
    ChosenIsLast(servers, ip, port, |servers|);
    if forall j :: k < j < |servers| ==> !Qualifies(servers[j], ip, port) {
      var c := Chosen(servers, ip, port, |servers|).value;
      var k': nat :| LastQualifying(servers, ip, port, |servers|, k') && servers[k'] == c;
      assert k' == k;
    }
  }

  /** Round trip: the connection string Allocate hands out for a server whose
      address holds no ':' splits back into that address and the rendering of
      its first port, so while that server is listed as allocated, UnAllocate
      deletes a server (the last qualifying one), and that server itself when
      no later one qualifies. */
  lemma AllocateThenRelease(a: Allocator, m: MatchObject, pools: Option<string>, rosters: Option<string>,
                            gs: GameServer, servers: seq<GameServer>, k: nat, deleteErr: Option<string>)
    requires |gs.ports| > 0 && ':' !in gs.address
    requires k < |servers| && servers[k] == gs.(state := "Allocated")
    ensures var c := Allocate(a, m, pools, rosters, Ok(gs)).connstring;
      Split(c, ':') == [gs.address, Itoa(gs.ports[0])]
    ensures Chosen(servers, gs.address, Itoa(gs.ports[0]), |servers|).Some?
    ensures var c := Allocate(a, m, pools, rosters, Ok(gs)).connstring;
      Release(c, Ok(servers), deleteErr).calls == [ListServers, DeleteServer(Chosen(servers, gs.address, Itoa(gs.ports[0]), |servers|).value.name)]
    ensures var c := Allocate(a, m, pools, rosters, Ok(gs)).connstring;
      (forall j :: k < j < |servers| ==> !Qualifies(servers[j], gs.address, Itoa(gs.ports[0]))) ==>
      Release(c, Ok(servers), deleteErr).calls == [ListServers, DeleteServer(gs.name)]
  {
    var ip, port := gs.address, Itoa(gs.ports[0]);
    assert Allocate(a, m, pools, rosters, Ok(gs)).connstring == ip + ":" + port;
    ConnStringSplits(gs);
    assert Serves(servers[k].ports, port) by {
      assert Itoa(servers[k].ports[0]) == port;
    }
    ReleaseFinds(ip, port, servers, k, deleteErr);
  }
}
