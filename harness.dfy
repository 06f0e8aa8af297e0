/** The matchmaking-function harness: reads the profile, retrieves every player
    pool it names from the match-logic API (streamed in chunks), hands the
    collected players to the matchmaking logic, and writes the resulting match
    object back as a proposal. */
module Harness {
  import opened Messages

  /** The identifiers the harness is invoked with. */
  datatype Request = Request(profileId: string, resultId: string, proposalId: string)

  /** The scripted outcome of retrieving one pool: opening its stream fails
      with an error, or the stream delivers these chunks. */
  datatype PoolScript = PoolScript(open: Option<string>, chunks: seq<Received<PlayerPool>>)

  /** What the matchmaking logic produces: the match properties and rosters. */
  datatype Proposal = Proposal(results: string, rosters: seq<Roster>)

  /** The matchmaking logic (makeMatches): profile properties, profile rosters
      and the collected pools in; a proposal or an error out. */
  type Matcher = (string, seq<Roster>, seq<PlayerPool>) -> Result<Proposal>

  /** Calls the harness makes on the match-logic API and on the matchmaking logic. */
  datatype LogicCall =
    | GetProfile(profileId: string)
    | GetPlayerPool(pool: PlayerPool)
    | PoolRecv
    | MakeMatches(properties: string, rosters: seq<Roster>, pools: seq<PlayerPool>)
    | CreateProposal(mo: MatchObject)

  const Insufficient := "insufficient players"

  // ---------------------------------------------------------------------
  // One pool's stream
  // ---------------------------------------------------------------------

  /** The number of chunks received before the stream broke (all of them when it did not). */
  function FirstBreak(chunks: seq<Received<PlayerPool>>): (n: nat)
    ensures n <= |chunks|
    ensures forall k :: 0 <= k < n ==> chunks[k].Item?
    ensures n < |chunks| ==> chunks[n].Broken?
  {
    if chunks == [] || chunks[0].Broken? then 0 else 1 + FirstBreak(chunks[1..])
  }

  /** The players a chunk carries. */
  function ChunkPlayers(c: Received<PlayerPool>): seq<Player>
  {
    if c.Item? && c.value.roster.Some? then c.value.roster.value.players else []
  }

  /** The players of the first `n` chunks, in arrival order. */
  function Players(chunks: seq<Received<PlayerPool>>, n: nat): seq<Player>
    requires n <= |chunks|
  {
    if n == 0 then [] else Players(chunks, n - 1) + ChunkPlayers(chunks[n - 1])
  }

  /** The statistics of the last chunk among the first `n`; `init` when there is none. */
  function LastStats(chunks: seq<Received<PlayerPool>>, n: nat, init: Option<Stats>): Option<Stats>
    requires n <= |chunks|
  {
    if n == 0 then init
    else if chunks[n - 1].Item? then chunks[n - 1].value.stats
    else LastStats(chunks, n - 1, init)
  }

  /** The outcome of retrieving one pool: the error that ended it, the players
      collected, the pool's statistics as last received, and the calls made. */
  datatype PoolResult = PoolResult(err: Option<string>, players: seq<Player>, stats: Option<Stats>, calls: seq<LogicCall>)

  function Retrieved(pool: PlayerPool, script: PoolScript): PoolResult
  {
    if script.open.Some? then PoolResult(script.open, [], pool.stats, [GetPlayerPool(pool)])
    else
      var chunks := script.chunks;
      var n := FirstBreak(chunks);
      PoolResult(if n < |chunks| then Some(chunks[n].error) else None,
        Players(chunks, n), LastStats(chunks, n, pool.stats),
        [GetPlayerPool(pool)] + Repeat(PoolRecv, n + 1))
  }

  /** Retrieves one pool: receives chunks until the end of the stream, keeping
      the latest statistics and appending every player of every chunk to the
      roster; `count` is the running player count, returned as `total`. */
  method RetrievePool(pool: PlayerPool, script: PoolScript, count: nat) returns (r: PoolResult, total: nat)
    ensures r == Retrieved(pool, script)
    ensures total == count + |r.players|
  {
    var calls := [GetPlayerPool(pool)];
    if script.open.Some? {
      return PoolResult(script.open, [], pool.stats, calls), count;
    }
    var chunks := script.chunks;
    var players: seq<Player> := [];
    var stats := pool.stats;
    total := count;
    var i := 0;
    while true
      invariant i <= |chunks|
      invariant forall k :: 0 <= k < i ==> chunks[k].Item?
      invariant players == Players(chunks, i)
      invariant stats == LastStats(chunks, i, pool.stats)
      invariant calls == [GetPlayerPool(pool)] + Repeat(PoolRecv, i)
      invariant total == count + |players|
      decreases |chunks| - i
    {
      calls := calls + [PoolRecv];
      if i == |chunks| {
        break;
      }
      if chunks[i].Broken? {
        assert FirstBreak(chunks) == i by { FirstBreakAt(chunks, i); }
        return PoolResult(Some(chunks[i].error), players, stats, calls), total;
      }
      var partial := chunks[i].value;
      stats := partial.stats;
      if partial.roster.Some? && |partial.roster.value.players| > 0 {
        var incoming := partial.roster.value.players;
        var j := 0;
        while j < |incoming|
          invariant 0 <= j <= |incoming|
          invariant players == Players(chunks, i) + incoming[..j]
          invariant total == count + |players|
        {
          players := players + [incoming[j]];
          total := total + 1;
          assert incoming[..j + 1] == incoming[..j] + [incoming[j]];
          j := j + 1;
        }
        assert incoming[..j] == incoming;
      }
      i := i + 1;
    }
    assert FirstBreak(chunks) == |chunks| by { FirstBreakAt(chunks, |chunks|); }
    return PoolResult(None, players, stats, calls), total;
  }

  /** The first break is at `i` when every chunk before it arrived and `i` is
      the end of the stream or a break. */
  lemma {:induction false} FirstBreakAt(chunks: seq<Received<PlayerPool>>, i: nat)
    requires i <= |chunks|
    requires forall k :: 0 <= k < i ==> chunks[k].Item?
    requires i < |chunks| ==> chunks[i].Broken?
    ensures FirstBreak(chunks) == i
  {
    if i > 0 {
      assert chunks[0].Item?;
      FirstBreakAt(chunks[1..], i - 1);
    }
  }

  /** Every chunk's players are appended as one block, after those of the
      chunks before it: arrival order is kept. */
  lemma {:induction false} ChunkInPlace(chunks: seq<Received<PlayerPool>>, m: nat, n: nat)
    requires m < n <= |chunks|
    ensures var at := |Players(chunks, m)|;
      at + |ChunkPlayers(chunks[m])| <= |Players(chunks, n)| &&
      Players(chunks, n)[at..at + |ChunkPlayers(chunks[m])|] == ChunkPlayers(chunks[m])
    decreases n - m
  {
    var at := |Players(chunks, m)|;
    var block := ChunkPlayers(chunks[m]);
    if n == m + 1 {
      assert Players(chunks, n) == Players(chunks, m) + block;
      assert Players(chunks, n)[at..at + |block|] == block;
    } else {
      ChunkInPlace(chunks, m, n - 1);
      var before := Players(chunks, n - 1);
      assert Players(chunks, n) == before + ChunkPlayers(chunks[n - 1]);
      assert Players(chunks, n)[at..at + |block|] == before[at..at + |block|];
    }
  }

  // ---------------------------------------------------------------------
  // All pools
  // ---------------------------------------------------------------------

  /** The state after retrieving the first pools: the error that stopped the
      run, if any; the collected pools (`playerPools`); the profile's pools with
      their statistics updated; the running player count; the calls made. */
  datatype Sweeping = Sweeping(err: Option<string>, filled: seq<PlayerPool>, updated: seq<PlayerPool>, numPlayers: nat, calls: seq<LogicCall>)

  /** A profile pool with the players collected for it, under an unnamed roster. */
  function Filled(pool: PlayerPool, players: seq<Player>): PlayerPool
  {
    pool.(roster := Some(Roster("", players)))
  }

  /** Retrieving the first `n` pools, stopping at the first failure. */
  function Sweep(pools: seq<PlayerPool>, scripts: seq<PoolScript>, n: nat): Sweeping
    requires n <= |pools| <= |scripts|
  {
    if n == 0 then Sweeping(None, [], [], 0, [])
    else
      var prev := Sweep(pools, scripts, n - 1);
      if prev.err.Some? then prev
      else
        var r := Retrieved(pools[n - 1], scripts[n - 1]);
        if r.err.Some? then Sweeping(r.err, prev.filled, prev.updated, prev.numPlayers, prev.calls + r.calls)
        else Sweeping(None, prev.filled + [Filled(pools[n - 1], r.players)],
          prev.updated + [pools[n - 1].(stats := r.stats)],
          prev.numPlayers + |r.players|, prev.calls + r.calls)
  }

  /** What mmfRun returned, and the calls it made. */
  datatype Finished = Finished(err: Option<string>, calls: seq<LogicCall>)

  /** The match object written back when every pool was retrieved. */
  function Outcome(req: Request, profile: MatchObject, s: Sweeping, matcher: Matcher): MatchObject
  {
    var mo := MatchObject(req.resultId, profile.properties, "", [], s.updated);
    if s.numPlayers == 0 then mo.(error := Insufficient)
    else match matcher(profile.properties, profile.rosters, s.filled)
      case Err(e) => mo.(error := e)
      case Ok(p) => mo.(id := req.proposalId, properties := p.results, rosters := p.rosters)
  }

  /** A whole mmfRun. */
  function Mmf(req: Request, profile: Result<MatchObject>, scripts: seq<PoolScript>, matcher: Matcher): Finished
    requires profile.Ok? ==> |profile.value.pools| <= |scripts|
  {
    if profile.Err? then Finished(Some(profile.error), [GetProfile(req.profileId)])
    else
      var p := profile.value;
      var s := Sweep(p.pools, scripts, |p.pools|);
      var head := [GetProfile(req.profileId)] + s.calls;
      if s.err.Some? then Finished(s.err, head)
      else
        var matching := if s.numPlayers == 0 then [] else [MakeMatches(p.properties, p.rosters, s.filled)];
        Finished(None, head + matching + [CreateProposal(Outcome(req, p, s, matcher))])
  }

  /** The loop over the profile's pools: retrieves each in turn, collecting
      its players and overwriting the profile pool's statistics in place, and
      stops at the first failure. */
  method RetrievePools(profilePools: seq<PlayerPool>, scripts: seq<PoolScript>) returns (s: Sweeping)
    requires |profilePools| <= |scripts|
    ensures s == Sweep(profilePools, scripts, |profilePools|)
  {
    var pools := profilePools;
    var playerPools: seq<PlayerPool> := [];
    var numPlayers := 0;
    var calls: seq<LogicCall> := [];
    var i := 0;
    while i < |pools|
      invariant 0 <= i <= |pools| == |profilePools|
      invariant forall k :: i <= k < |pools| ==> pools[k] == profilePools[k]
      invariant Sweep(profilePools, scripts, i) == Sweeping(None, playerPools, pools[..i], numPlayers, calls)
    {
      var emptyPool := pools[i];
      var r, total := RetrievePool(emptyPool, scripts[i], numPlayers);
      calls := calls + r.calls;
      if r.err.Some? {
        SweepStops(profilePools, scripts, i + 1, |pools|);
        return Sweeping(r.err, playerPools, pools[..i], numPlayers, calls);
      }
      pools := pools[i := emptyPool.(stats := r.stats)];
      playerPools := playerPools + [Filled(emptyPool, r.players)];
      numPlayers := total;
      assert pools[..i + 1] == pools[..i] + [pools[i]];
      i := i + 1;
    }
    assert pools[..i] == pools;
    return Sweeping(None, playerPools, pools, numPlayers, calls);
  }

  /** mmfRun. `profile` is the outcome of reading the profile, `scripts[k]` that
      of retrieving its k-th pool; the outcome of writing the proposal is only
      logged, so it does not appear. */
  method MmfRun(req: Request, profile: Result<MatchObject>, scripts: seq<PoolScript>, matcher: Matcher)
    returns (err: Option<string>, calls: seq<LogicCall>)
    requires profile.Ok? ==> |profile.value.pools| <= |scripts|
    ensures Finished(err, calls) == Mmf(req, profile, scripts, matcher)
  {
    calls := [GetProfile(req.profileId)];
    if profile.Err? {
      return Some(profile.error), calls;
    }
    var p := profile.value;
    var swept := RetrievePools(p.pools, scripts);
    calls := calls + swept.calls;
    if swept.err.Some? {
      return swept.err, calls;
    }
    var pools, playerPools, numPlayers := swept.updated, swept.filled, swept.numPlayers;

    var mo := MatchObject(req.resultId, p.properties, "", [], pools);
    if numPlayers == 0 {
      mo := mo.(error := Insufficient);
    } else {
      calls := calls + [MakeMatches(p.properties, p.rosters, playerPools)];
      var made := matcher(p.properties, p.rosters, playerPools);
      if made.Err? {
        mo := mo.(error := made.error);
      } else {
        mo := mo.(id := req.proposalId, properties := made.value.results, rosters := made.value.rosters);
      }
    }
    calls := calls + [CreateProposal(mo)];
    return None, calls;
  }

  // ---------------------------------------------------------------------
  // Properties of a run
  // ---------------------------------------------------------------------

  /** Once a pool fails, no later pool is retrieved. */
  lemma {:induction false} SweepStops(pools: seq<PlayerPool>, scripts: seq<PoolScript>, n: nat, m: nat)
    requires n <= m <= |pools| <= |scripts|
    requires Sweep(pools, scripts, n).err.Some?
    ensures Sweep(pools, scripts, m) == Sweep(pools, scripts, n)
    decreases m - n
  {
    if m > n {
      SweepStops(pools, scripts, n, m - 1);
    }
  }

  /** After the first `n` pools were all retrieved: one collected pool per
      profile pool, in the same order, each the profile pool with every player
      of its stream under an empty-named roster; and the profile's pools carry
      the statistics of the last chunk each stream delivered. */
  lemma {:induction false} SweepFills(pools: seq<PlayerPool>, scripts: seq<PoolScript>, n: nat)
    requires n <= |pools| <= |scripts|
    requires Sweep(pools, scripts, n).err.None?
    ensures |Sweep(pools, scripts, n).filled| == n && |Sweep(pools, scripts, n).updated| == n
    ensures forall k :: 0 <= k < n ==> Pulled(pools, scripts, Sweep(pools, scripts, n), k)
  {
    if n > 0 {
      var prev := Sweep(pools, scripts, n - 1);
      SweepFills(pools, scripts, n - 1);
      var s := Sweep(pools, scripts, n);
      forall k | 0 <= k < n ensures Pulled(pools, scripts, s, k) {
        if k < n - 1 {
          assert Pulled(pools, scripts, prev, k);
          assert s.filled[k] == prev.filled[k] && s.updated[k] == prev.updated[k];
        }
      }
    }
  }

  /** Pool `k` was retrieved to the end of its stream, and `s` holds its
      collected players and its last statistics. */
  predicate Pulled(pools: seq<PlayerPool>, scripts: seq<PoolScript>, s: Sweeping, k: nat)
    requires k < |pools| <= |scripts| && k < |s.filled| && k < |s.updated|
  {
    var chunks := scripts[k].chunks;
    scripts[k].open.None? && FirstBreak(chunks) == |chunks| &&
    s.filled[k] == Filled(pools[k], Players(chunks, |chunks|)) &&
    s.updated[k] == pools[k].(stats := LastStats(chunks, |chunks|, pools[k].stats))
  }

  /** The running count is the number of players collected. */
  lemma {:induction false} SweepCounts(pools: seq<PlayerPool>, scripts: seq<PoolScript>, n: nat)
    requires n <= |pools| <= |scripts|
    requires Sweep(pools, scripts, n).err.None?
    ensures Sweep(pools, scripts, n).numPlayers == Collected(Sweep(pools, scripts, n).filled)
  {
    if n > 0 {
      var prev := Sweep(pools, scripts, n - 1);
      SweepCounts(pools, scripts, n - 1);
      var r := Retrieved(pools[n - 1], scripts[n - 1]);
      assert Sweep(pools, scripts, n).filled == prev.filled + [Filled(pools[n - 1], r.players)];
      CollectedConcat(prev.filled, [Filled(pools[n - 1], r.players)]);
    }
  }

  /** The number of players in the rosters of `pools`. */
  function Collected(pools: seq<PlayerPool>): nat
  {
    if pools == [] then 0
    else Collected(pools[..|pools| - 1]) + (var q := pools[|pools| - 1]; if q.roster.Some? then |q.roster.value.players| else 0)
  }

  lemma {:induction false} CollectedConcat(a: seq<PlayerPool>, b: seq<PlayerPool>)
    requires |b| == 1
    ensures Collected(a + b) == Collected(a) + Collected(b)
  {
    var ab := a + b;
    assert ab[..|ab| - 1] == a;
    assert b[..0] == [];
  }

  /** A failing pool: the run's error is that pool's, every pool before it
      was retrieved, and it is the last one asked for. */
  lemma {:induction false} SweepFailsAt(pools: seq<PlayerPool>, scripts: seq<PoolScript>, n: nat)
    requires n <= |pools| <= |scripts|
    requires Sweep(pools, scripts, n).err.Some?
    ensures exists k :: FailsFirst(pools, scripts, n, k, Sweep(pools, scripts, n).err)
  {
    var prev := Sweep(pools, scripts, n - 1);
    if prev.err.Some? {
      SweepFailsAt(pools, scripts, n - 1);
      var k :| FailsFirst(pools, scripts, n - 1, k, prev.err);
      assert FailsFirst(pools, scripts, n, k, prev.err);
    } else {
      SweepRetrieved(pools, scripts, n - 1);
      assert FailsFirst(pools, scripts, n, n - 1, Sweep(pools, scripts, n).err);
    }
  }

  /** Pool `k`, among the first `n`, failed with `err`, and every pool before it was retrieved. */
  predicate FailsFirst(pools: seq<PlayerPool>, scripts: seq<PoolScript>, n: nat, k: nat, err: Option<string>)
    requires n <= |pools| <= |scripts|
  {
    k < n && Retrieved(pools[k], scripts[k]).err == err && err.Some? &&
    forall j :: 0 <= j < k ==> Retrieved(pools[j], scripts[j]).err.None?
  }

  /** Pools before a successful prefix were each retrieved without error. */
  lemma {:induction false} SweepRetrieved(pools: seq<PlayerPool>, scripts: seq<PoolScript>, n: nat)
    requires n <= |pools| <= |scripts|
    requires Sweep(pools, scripts, n).err.None?
    ensures forall j :: 0 <= j < n ==> Retrieved(pools[j], scripts[j]).err.None?
  {
    if n > 0 {
      SweepRetrieved(pools, scripts, n - 1);
    }
  }

  /** The calls made while retrieving pools are pool retrievals and receives only. */
  lemma {:induction false} SweepCalls(pools: seq<PlayerPool>, scripts: seq<PoolScript>, n: nat)
    requires n <= |pools| <= |scripts|
    ensures forall c :: c in Sweep(pools, scripts, n).calls ==> c.GetPlayerPool? || c.PoolRecv?
  {
    if n > 0 {
      SweepCalls(pools, scripts, n - 1);
      var r := Retrieved(pools[n - 1], scripts[n - 1]);
      forall c | c in r.calls ensures c.GetPlayerPool? || c.PoolRecv? {
        if c !in [GetPlayerPool(pools[n - 1])] {
          var k :| 0 <= k < |r.calls| && r.calls[k] == c;
          assert r.calls[k] == Repeat(PoolRecv, |r.calls| - 1)[k - 1];
        }
      }
    }
  }

  /** When reading the profile or retrieving a pool fails, mmfRun returns that
      error and neither runs the matchmaking logic nor writes a proposal. */
  lemma MmfFails(req: Request, profile: Result<MatchObject>, scripts: seq<PoolScript>, matcher: Matcher)
    requires profile.Ok? ==> |profile.value.pools| <= |scripts|
    requires profile.Err? || Sweep(profile.value.pools, scripts, |profile.value.pools|).err.Some?
    ensures var f := Mmf(req, profile, scripts, matcher);
      f.err == (if profile.Err? then Some(profile.error) else Sweep(profile.value.pools, scripts, |profile.value.pools|).err) &&
      forall c :: c in f.calls ==> !c.CreateProposal? && !c.MakeMatches?
  {
    if profile.Ok? {
      SweepCalls(profile.value.pools, scripts, |profile.value.pools|);
    }
  }

  /** Once every pool was retrieved, mmfRun returns no error and writes exactly
      one proposal, as its last call. */
  lemma MmfProposesOnce(req: Request, profile: Result<MatchObject>, scripts: seq<PoolScript>, matcher: Matcher)
    requires profile.Ok? && |profile.value.pools| <= |scripts|
    requires Sweep(profile.value.pools, scripts, |profile.value.pools|).err.None?
    ensures var f := Mmf(req, profile, scripts, matcher);
      f.err.None? && |f.calls| > 0 && f.calls[|f.calls| - 1].CreateProposal? &&
      forall k :: 0 <= k < |f.calls| - 1 ==> !f.calls[k].CreateProposal?
  {
    var p := profile.value;
    var s := Sweep(p.pools, scripts, |p.pools|);
    SweepCalls(p.pools, scripts, |p.pools|);
    var head := [GetProfile(req.profileId)] + s.calls;
    var f := Mmf(req, profile, scripts, matcher);
    forall k | 0 <= k < |f.calls| - 1 ensures !f.calls[k].CreateProposal? {
      if 0 < k < |head| {
        assert f.calls[k] == s.calls[k - 1];
        assert s.calls[k - 1] in s.calls;
      }
    }
  }

  /** With no players collected, the proposal keeps the result id and carries
      the "insufficient players" error, and the matchmaking logic never runs. */
  lemma MmfInsufficient(req: Request, profile: Result<MatchObject>, scripts: seq<PoolScript>, matcher: Matcher)
    requires profile.Ok? && |profile.value.pools| <= |scripts|
    requires Sweep(profile.value.pools, scripts, |profile.value.pools|).err.None?
    requires Sweep(profile.value.pools, scripts, |profile.value.pools|).numPlayers == 0
    ensures var f := Mmf(req, profile, scripts, matcher);
      var mo := f.calls[|f.calls| - 1].mo;
      f.calls[|f.calls| - 1].CreateProposal? &&
      mo.id == req.resultId && mo.error == Insufficient && mo.properties == profile.value.properties &&
      forall c :: c in f.calls ==> !c.MakeMatches?
  {
    SweepCalls(profile.value.pools, scripts, |profile.value.pools|);
  }

  /** With players collected, the matchmaking logic runs once, on the profile's
      properties and rosters and the collected pools; on failure the proposal
      keeps the result id and carries the error text, on success it takes the
      proposal id, the results and the rosters, with no error. Either way it
      carries the profile's pools with their last statistics. */
  lemma MmfMatches(req: Request, profile: Result<MatchObject>, scripts: seq<PoolScript>, matcher: Matcher)
    requires profile.Ok? && |profile.value.pools| <= |scripts|
    requires Sweep(profile.value.pools, scripts, |profile.value.pools|).err.None?
    requires Sweep(profile.value.pools, scripts, |profile.value.pools|).numPlayers > 0
    ensures var p := profile.value;
      var s := Sweep(p.pools, scripts, |p.pools|);
      var f := Mmf(req, profile, scripts, matcher);
      |f.calls| >= 2 && f.calls[|f.calls| - 2] == MakeMatches(p.properties, p.rosters, s.filled) &&
      f.calls[|f.calls| - 1].CreateProposal? &&
      var mo := f.calls[|f.calls| - 1].mo;
      mo.pools == s.updated &&
      match matcher(p.properties, p.rosters, s.filled)
      case Err(e) => mo.id == req.resultId && mo.error == e && mo.properties == p.properties
      case Ok(made) => mo.id == req.proposalId && mo.error == "" && mo.properties == made.results && mo.rosters == made.rosters
  {
  }
}
