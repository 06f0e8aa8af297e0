/** The director's entry point: the population gate (requirePlayers), the
    older capped session loop (doSendProfile) and the staggered launch of
    one sender per profile (main). */
module DirectorMain {
  import opened Messages
  import Director

  const MinPlayers := 20

  const DefaultPool := "defaultPool"

  // ---------------------------------------------------------------------
  // requirePlayers: wait for a match whose default pool is large enough
  // ---------------------------------------------------------------------

  /** A pool whose statistics the gate reads. */
  predicate Counted(p: PlayerPool)
  {
    p.name == DefaultPool && p.stats.Some?
  }

  /** The player count of the last counted pool, or 0 when there is none. */
  function LastDefaultCount(pools: seq<PlayerPool>): int
  {
    if pools == [] then 0
    else if Counted(pools[|pools| - 1]) then pools[|pools| - 1].stats.value.count
    else LastDefaultCount(pools[..|pools| - 1])
  }

  /** The per-match count starts at 0 and is overwritten by every counted
      pool, so the last counted pool wins. */
  method DefaultPoolCount(pools: seq<PlayerPool>) returns (count: int)
    ensures count == LastDefaultCount(pools)
  {
    count := 0;
    var i := 0;
    while i < |pools|
      invariant 0 <= i <= |pools|
      invariant count == LastDefaultCount(pools[..i])
    {
      assert pools[..i + 1][..i] == pools[..i];
      if pools[i].name == DefaultPool {
        if pools[i].stats.Some? {
          count := pools[i].stats.value.count;
        }
      }
      i := i + 1;
    }
    assert pools[..i] == pools;
  }

  /** With no counted pool the count is 0. */
  lemma {:induction false} NoDefaultCount(pools: seq<PlayerPool>)
    requires forall k :: 0 <= k < |pools| ==> !Counted(pools[k])
    ensures LastDefaultCount(pools) == 0
  {
    if pools != [] {
      var init := pools[..|pools| - 1];
      assert forall k :: 0 <= k < |init| ==> init[k] == pools[k];
      NoDefaultCount(init);
    }
  }

  /** The count is that of the last counted pool. */
  lemma {:induction false} DefaultCountIsLast(pools: seq<PlayerPool>, k: nat)
    requires k < |pools| && Counted(pools[k])
    requires forall j :: k < j < |pools| ==> !Counted(pools[j])
    ensures LastDefaultCount(pools) == pools[k].stats.value.count
  {
    if k < |pools| - 1 {
      var init := pools[..|pools| - 1];
      assert forall i :: 0 <= i < |init| ==> init[i] == pools[i];
      DefaultCountIsLast(init, k);
    }
  }

  /** The environment of requirePlayers: reading the empty profile, creating
      the backend client, opening the stream, its items, and CloseSend. */
  datatype GateScript = GateScript(
    read: Option<string>,
    empty: MatchObject,
    dial: Option<string>,
    open: Option<string>,
    items: seq<Received<MatchObject>>,
    close: Option<string>)

  /** What requirePlayers returned, and the calls it made. */
  datatype Verdict = Verdict(enough: bool, err: Option<string>, calls: seq<Call>)

  /** A received match whose default pool exceeds the threshold. */
  predicate Above(threshold: int, r: Received<MatchObject>)
  {
    r.Item? && LastDefaultCount(r.value.pools) > threshold
  }

  /** The receive loop of requirePlayers from item `i` on. */
  function Watch(threshold: int, items: seq<Received<MatchObject>>, i: nat, close: Option<string>): Verdict
    requires i <= |items|
    decreases |items| - i
  {
    if i == |items| then Verdict(false, None, [Recv])
    else match items[i]
      case Broken(e) => Verdict(false, Some("error reading stream for ListMatches(_): " + e), [Recv])
      case Item(m) =>
        if LastDefaultCount(m.pools) > threshold then
          Verdict(true, if close.Some? then Some("error closing stream for ListMatches(_): " + close.value) else None,
            [Recv, CloseSend])
        else
          var rest := Watch(threshold, items, i + 1, close);
          Verdict(rest.enough, rest.err, [Recv] + rest.calls)
  }

  /** A whole requirePlayers call. */
  function Gate(threshold: int, g: GateScript): Verdict
  {
    if g.read.Some? then Verdict(false, Some("error reading empty profile: " + g.read.value), [])
    else if g.dial.Some? then Verdict(false, g.dial, [Dial])
    else if g.open.Some? then Verdict(false, g.open, [Dial, OpenStream(g.empty.id)])
    else
      var w := Watch(threshold, g.items, 0, g.close);
      Verdict(w.enough, w.err, [Dial, OpenStream(g.empty.id)] + w.calls)
  }

  method RequirePlayers(threshold: int, g: GateScript) returns (enough: bool, err: Option<string>, calls: seq<Call>)
    ensures Verdict(enough, err, calls) == Gate(threshold, g)
  {
    calls := [];
    if g.read.Some? {
      return false, Some("error reading empty profile: " + g.read.value), calls;
    }
    calls := calls + [Dial];
    if g.dial.Some? {
      return false, g.dial, calls;
    }
    calls := calls + [OpenStream(g.empty.id)];
    if g.open.Some? {
      return false, g.open, calls;
    }
    var items := g.items;
    var i := 0;
    while true
      invariant 0 <= i <= |items|
      invariant var w := Watch(threshold, items, i, g.close);
        Gate(threshold, g) == Verdict(w.enough, w.err, calls + w.calls)
      decreases |items| - i
    {
      if i == |items| {
        calls := calls + [Recv];
        return false, None, calls;
      }
      match items[i] {
        case Broken(e) =>
          calls := calls + [Recv];
          return false, Some("error reading stream for ListMatches(_): " + e), calls;
        case Item(m) =>
          var count := DefaultPoolCount(m.pools);
          if count > threshold {
            calls := calls + [Recv, CloseSend];
            if g.close.Some? {
              return true, Some("error closing stream for ListMatches(_): " + g.close.value), calls;
            }
            return true, None, calls;
          }
          var rest := Watch(threshold, items, i + 1, g.close);
          assert calls + ([Recv] + rest.calls) == (calls + [Recv]) + rest.calls;
          calls := calls + [Recv];
      }
      i := i + 1;
    }
  }

  /** Item `k` is a match above the threshold and every item from `i` up to
      it is a match: a receive loop started at `i` reaches it. */
  predicate Reaches(threshold: int, items: seq<Received<MatchObject>>, i: nat, k: nat)
  {
    i <= k < |items| && Above(threshold, items[k]) && forall j :: i <= j < k ==> items[j].Item?
  }

  /** The gate opens exactly when some match above the threshold arrives
      before any receive error. */
  lemma {:induction false} WatchOpens(threshold: int, items: seq<Received<MatchObject>>, i: nat, close: Option<string>)
    requires i <= |items|
    ensures Watch(threshold, items, i, close).enough <==> exists k :: Reaches(threshold, items, i, k)
    decreases |items| - i
  {
    if i < |items| {
      var rest := Watch(threshold, items, i + 1, close);
      WatchOpens(threshold, items, i + 1, close);
      if Above(threshold, items[i]) {
        assert Reaches(threshold, items, i, i);
      } else if items[i].Item? {
        assert Watch(threshold, items, i, close).enough == rest.enough;
        if rest.enough {
          var k :| Reaches(threshold, items, i + 1, k);
          assert Reaches(threshold, items, i, k);
        }
        if exists k :: Reaches(threshold, items, i, k) {
          var k :| Reaches(threshold, items, i, k);
          assert Reaches(threshold, items, i + 1, k);
        }
      } else {
        assert forall k :: !Reaches(threshold, items, i, k);
      }
    }
  }

  /** CloseSend is called once exactly when the gate opened. */
  lemma {:induction false} WatchCloses(threshold: int, items: seq<Received<MatchObject>>, i: nat, close: Option<string>)
    requires i <= |items|
    ensures var w := Watch(threshold, items, i, close);
      Count(w.calls, CloseSend) == (if w.enough then 1 else 0)
    decreases |items| - i
  {
    if i == |items| || items[i].Broken? {
      assert Watch(threshold, items, i, close).calls == [Recv];
      assert [Recv][1..] == [];
    } else if LastDefaultCount(items[i].value.pools) > threshold {
      assert Watch(threshold, items, i, close).calls == [Recv, CloseSend];
      assert [Recv, CloseSend][1..] == [CloseSend];
      assert [CloseSend][1..] == [];
    } else {
      var rest := Watch(threshold, items, i + 1, close);
      WatchCloses(threshold, items, i + 1, close);
      assert [Recv][1..] == [];
      CountConcat([Recv], rest.calls, CloseSend);
      assert Watch(threshold, items, i, close) == Verdict(rest.enough, rest.err, [Recv] + rest.calls);
    }
  }

  /** When the gate opened, CloseSend is the last call. */
  lemma {:induction false} WatchEndsClosed(threshold: int, items: seq<Received<MatchObject>>, i: nat, close: Option<string>)
    requires i <= |items|
    ensures var w := Watch(threshold, items, i, close);
      |w.calls| > 0 && (w.enough ==> w.calls[|w.calls| - 1] == CloseSend)
    decreases |items| - i
  {
    if i < |items| && items[i].Item? && LastDefaultCount(items[i].value.pools) <= threshold {
      var rest := Watch(threshold, items, i + 1, close);
      WatchEndsClosed(threshold, items, i + 1, close);
      var calls := [Recv] + rest.calls;
      assert Watch(threshold, items, i, close) == Verdict(rest.enough, rest.err, calls);
      assert calls[|calls| - 1] == rest.calls[|rest.calls| - 1];
    }
  }

  /** Once the gate opens, requirePlayers fails exactly when CloseSend does. */
  lemma {:induction false} WatchCloseError(threshold: int, items: seq<Received<MatchObject>>, i: nat, close: Option<string>)
    requires i <= |items|
    ensures var w := Watch(threshold, items, i, close);
      w.enough ==> (w.err.None? <==> close.None?)
    decreases |items| - i
  {
    if i < |items| && items[i].Item? && LastDefaultCount(items[i].value.pools) <= threshold {
      WatchCloseError(threshold, items, i + 1, close);
    }
  }

  /** A gate that did not open reports no error exactly when the stream
      reached io.EOF with every match at or below the threshold. */
  lemma {:induction false} WatchRunsOut(threshold: int, items: seq<Received<MatchObject>>, i: nat, close: Option<string>)
    requires i <= |items|
    ensures var w := Watch(threshold, items, i, close);
      (!w.enough && w.err.None?) <==>
      forall k :: i <= k < |items| ==> items[k].Item? && !Above(threshold, items[k])
    decreases |items| - i
  {
    if i < |items| {
      WatchRunsOut(threshold, items, i + 1, close);
      if items[i].Broken? || Above(threshold, items[i]) {
        assert !(items[i].Item? && !Above(threshold, items[i]));
      }
    }
  }

  /** A receive error reached before any match above the threshold ends the
      gate closed, with the wrapped error, after one Recv per item up to it. */
  lemma {:induction false} WatchBreaks(threshold: int, items: seq<Received<MatchObject>>, i: nat, k: nat, close: Option<string>)
    requires i <= k < |items| && items[k].Broken?
    requires forall l :: i <= l < k ==> items[l].Item? && !Above(threshold, items[l])
    ensures Watch(threshold, items, i, close) ==
      Verdict(false, Some("error reading stream for ListMatches(_): " + items[k].error), Repeat(Recv, k - i + 1))
    decreases k - i
  {
    if i < k {
      assert items[i].Item? && !Above(threshold, items[i]);
      var rest := Watch(threshold, items, i + 1, close);
      assert Watch(threshold, items, i, close) == Verdict(rest.enough, rest.err, [Recv] + rest.calls);
      WatchBreaks(threshold, items, i + 1, k, close);
      assert [Recv] + Repeat(Recv, k - i) == Repeat(Recv, k - i + 1);
    }
  }

  /** The gate stops at the first match above the threshold: one Recv per
      item up to it, then CloseSend, whose failure is the only error. */
  lemma {:induction false} WatchStopsAtFirst(threshold: int, items: seq<Received<MatchObject>>, i: nat, k: nat, close: Option<string>)
    requires i <= k < |items| && Above(threshold, items[k])
    requires forall l :: i <= l < k ==> items[l].Item? && !Above(threshold, items[l])
    ensures Watch(threshold, items, i, close) ==
      Verdict(true, if close.Some? then Some("error closing stream for ListMatches(_): " + close.value) else None,
        Repeat(Recv, k - i + 1) + [CloseSend])
    decreases k - i
  {
    if i < k {
      assert items[i].Item? && !Above(threshold, items[i]);
      var rest := Watch(threshold, items, i + 1, close);
      assert Watch(threshold, items, i, close) == Verdict(rest.enough, rest.err, [Recv] + rest.calls);
      WatchStopsAtFirst(threshold, items, i + 1, k, close);
      assert [Recv] + (Repeat(Recv, k - i) + [CloseSend]) == Repeat(Recv, k - i + 1) + [CloseSend];
    }
  }

  /** The calls requirePlayers makes before its receive loop. */
  lemma PreludeFacts(g: GateScript)
    ensures Count([], CloseSend) == 0 && Count([Dial], CloseSend) == 0
    ensures Count([Dial, OpenStream(g.empty.id)], CloseSend) == 0
  {
  }

  /** requirePlayers reports enough players exactly when it opened the stream
      and a match above the threshold arrived before any receive error. */
  lemma GateOpens(threshold: int, g: GateScript)
    ensures Gate(threshold, g).enough <==>
      g.read.None? && g.dial.None? && g.open.None? && exists k :: Reaches(threshold, g.items, 0, k)
  {
    if g.read.None? && g.dial.None? && g.open.None? {
      WatchOpens(threshold, g.items, 0, g.close);
    }
  }

  /** requirePlayers calls CloseSend exactly when it reports enough players,
      as its last call, and then fails exactly when CloseSend does. */
  lemma GateCloses(threshold: int, g: GateScript)
    ensures var v := Gate(threshold, g);
      Count(v.calls, CloseSend) == (if v.enough then 1 else 0) &&
      (v.enough ==> v.calls[|v.calls| - 1] == CloseSend && (v.err.None? <==> g.close.None?))
  {
    PreludeFacts(g);
    if g.read.None? && g.dial.None? && g.open.None? {
      var pre := [Dial, OpenStream(g.empty.id)];
      var w := Watch(threshold, g.items, 0, g.close);
      WatchCloses(threshold, g.items, 0, g.close);
      WatchEndsClosed(threshold, g.items, 0, g.close);
      WatchCloseError(threshold, g.items, 0, g.close);
      CountConcat(pre, w.calls, CloseSend);
      assert Gate(threshold, g).calls == pre + w.calls;
      assert (pre + w.calls)[|pre + w.calls| - 1] == w.calls[|w.calls| - 1];
    }
  }

  /** requirePlayers returns (false, nil) exactly when the stream reached
      io.EOF with every match at or below the threshold. */
  lemma GateRunsOut(threshold: int, g: GateScript)
    ensures var v := Gate(threshold, g);
      (!v.enough && v.err.None?) <==>
      (g.read.None? && g.dial.None? && g.open.None? &&
       forall k :: 0 <= k < |g.items| ==> g.items[k].Item? && !Above(threshold, g.items[k]))
  {
    if g.read.None? && g.dial.None? && g.open.None? {
      WatchRunsOut(threshold, g.items, 0, g.close);
    }
  }

  // ---------------------------------------------------------------------
  // doSendProfile: the older session loop, where a bad match ends a session
  // ---------------------------------------------------------------------

  /** A received match with the outcomes of the remote calls made for it:
      allocating a game server, and CreateAssignments. */
  datatype Delivery = Delivery(candidate: MatchObject, alloc: Director.Attempt, assign: Option<string>)

  /** The environment of one session: opening the stream, and its items. */
  datatype SessionScript = SessionScript(open: Option<string>, items: seq<Received<Delivery>>)

  /** A delivery the session goes on after: an acceptable match, a granted
      allocation and a successful assignment. */
  predicate Good(valid: string -> bool, r: Received<Delivery>)
  {
    r.Item? && Director.Acceptable(valid, r.value.candidate) && r.value.alloc.Granted? && r.value.assign.None?
  }

  /** The inner loop of one session, from receive attempt `j` on (the `j`-th
      attempt receives item `j`). */
  function Drain(maxPerSend: int, valid: string -> bool, items: seq<Received<Delivery>>, j: nat): seq<Call>
    requires j <= |items|
    decreases |items| - j
  {
    if j >= maxPerSend then [CloseSend]
    else if j == |items| then [Recv]
    else if items[j].Broken? then [Recv, CloseSend]
    else
      var d := items[j].value;
      var m := d.candidate;
      if !Director.Acceptable(valid, m) then [Recv, CloseSend]
      else if d.alloc.Refused? then [Recv, Allocate(m.id), CloseSend]
      else
        var head := [Recv, Allocate(m.id), CreateAssignments(m.rosters, d.alloc.connstring)];
        if d.assign.Some? then head else head + Drain(maxPerSend, valid, items, j + 1)
  }

  /** Sessions `i` up to `maxSends`; an open failure ends them all. */
  function Rounds(profile: MatchObject, maxSends: int, maxPerSend: int, valid: string -> bool, sessions: seq<SessionScript>, i: nat): seq<Call>
    requires maxSends <= |sessions|
    decreases |sessions| - i
  {
    if i >= maxSends then []
    else if sessions[i].open.Some? then [OpenStream(profile.id)]
    else
      [OpenStream(profile.id)] + Drain(maxPerSend, valid, sessions[i].items, 0) +
      (if i < maxSends - 1 then [Sleep] else []) +
      Rounds(profile, maxSends, maxPerSend, valid, sessions, i + 1)
  }

  /** A whole doSendProfile call. */
  function SendLoop(profile: MatchObject, maxSends: int, maxPerSend: int, valid: string -> bool, dial: Option<string>, sessions: seq<SessionScript>): seq<Call>
    requires maxSends <= |sessions|
  {
    [Dial] + (if dial.Some? then [] else Rounds(profile, maxSends, maxPerSend, valid, sessions, 0))
  }

  /** The inner loop of doSendProfile: one session on an open stream. */
  method ReceiveBatch(maxPerSend: int, valid: string -> bool, items: seq<Received<Delivery>>) returns (calls: seq<Call>)
    ensures calls == Drain(maxPerSend, valid, items, 0)
  {
    calls := [];
    var j := 0;
    while true
      invariant 0 <= j <= |items|
      invariant Drain(maxPerSend, valid, items, 0) == calls + Drain(maxPerSend, valid, items, j)
      decreases |items| - j
    {
      if j >= maxPerSend {
        return calls + [CloseSend];
      }
      if j == |items| {
        return calls + [Recv];
      }
      if items[j].Broken? {
        return calls + [Recv, CloseSend];
      }
      var d := items[j].value;
      var m := d.candidate;
      if m.error != "" {
        return calls + [Recv, CloseSend];
      }
      if !valid(m.properties) {
        return calls + [Recv, CloseSend];
      }
      if d.alloc.Refused? {
        return calls + [Recv, Allocate(m.id), CloseSend];
      }
      var head := [Recv, Allocate(m.id), CreateAssignments(m.rosters, d.alloc.connstring)];
      if d.assign.Some? {
        return calls + head;
      }
      assert calls + (head + Drain(maxPerSend, valid, items, j + 1))
          == (calls + head) + Drain(maxPerSend, valid, items, j + 1);
      calls := calls + head;
      j := j + 1;
    }
  }

  method DoSendProfile(profile: MatchObject, maxSends: int, maxPerSend: int, valid: string -> bool, dial: Option<string>, sessions: seq<SessionScript>)
    returns (calls: seq<Call>)
    requires maxSends <= |sessions|
    ensures calls == SendLoop(profile, maxSends, maxPerSend, valid, dial, sessions)
  {
    calls := [Dial];
    if dial.Some? {
      return;
    }
    var i := 0;
    while i < maxSends
      invariant 0 <= i && (i <= maxSends || i == 0)
      invariant SendLoop(profile, maxSends, maxPerSend, valid, dial, sessions) ==
        calls + Rounds(profile, maxSends, maxPerSend, valid, sessions, i)
    {
      ghost var todo := Rounds(profile, maxSends, maxPerSend, valid, sessions, i);
      if sessions[i].open.Some? {
        assert todo == [OpenStream(profile.id)];
        return calls + [OpenStream(profile.id)];
      }
      var batch := ReceiveBatch(maxPerSend, valid, sessions[i].items);
      var nap := if i < maxSends - 1 then [Sleep] else [];
      ghost var later := Rounds(profile, maxSends, maxPerSend, valid, sessions, i + 1);
      RoundStep(profile, maxSends, maxPerSend, valid, sessions, i);
      assert calls + todo == (calls + [OpenStream(profile.id)] + batch + nap) + later;
      calls := calls + [OpenStream(profile.id)] + batch + nap;
      i := i + 1;
    }
  }

  /** One session of doSendProfile on a stream that opened, unfolded. */
  lemma RoundStep(profile: MatchObject, maxSends: int, maxPerSend: int, valid: string -> bool, sessions: seq<SessionScript>, i: nat)
    requires maxSends <= |sessions| && i < maxSends && sessions[i].open.None?
    ensures Rounds(profile, maxSends, maxPerSend, valid, sessions, i) ==
      [OpenStream(profile.id)] + Drain(maxPerSend, valid, sessions[i].items, 0) +
      (if i < maxSends - 1 then [Sleep] else []) + Rounds(profile, maxSends, maxPerSend, valid, sessions, i + 1)
  {
  }

  /** Receives and closes in the fixed call sequences of one receive step. */
  lemma StepCounts(m: MatchObject, conn: string)
    ensures Count([CloseSend], Recv) == 0 && Count([CloseSend], CloseSend) == 1
    ensures Count([Recv], Recv) == 1 && Count([Recv], CloseSend) == 0
    ensures Count([Recv, CloseSend], Recv) == 1 && Count([Recv, CloseSend], CloseSend) == 1
    ensures Count([Recv, Allocate(m.id), CloseSend], Recv) == 1
    ensures Count([Recv, Allocate(m.id), CloseSend], CloseSend) == 1
    ensures Count([Recv, Allocate(m.id), CreateAssignments(m.rosters, conn)], Recv) == 1
    ensures Count([Recv, Allocate(m.id), CreateAssignments(m.rosters, conn)], CloseSend) == 0
  {
    assert [CloseSend][1..] == [];
    assert [Recv][1..] == [];
    assert [Recv, CloseSend][1..] == [CloseSend];
    var a := [Recv, Allocate(m.id), CloseSend];
    assert a[1..] == [Allocate(m.id), CloseSend];
    assert a[1..][1..] == [CloseSend];
    var b := [Recv, Allocate(m.id), CreateAssignments(m.rosters, conn)];
    assert b[1..] == [Allocate(m.id), CreateAssignments(m.rosters, conn)];
    assert b[1..][1..] == [CreateAssignments(m.rosters, conn)];
    assert b[1..][1..][1..] == [];
  }

  /** A session makes at most `maxPerSend` receive attempts (none when the
      cap is not positive). */
  lemma {:induction false} DrainReceives(maxPerSend: int, valid: string -> bool, items: seq<Received<Delivery>>, j: nat)
    requires j <= |items|
    ensures Count(Drain(maxPerSend, valid, items, j), Recv) <= (if maxPerSend > j then maxPerSend - j else 0)
    decreases |items| - j
  {
    var calls := Drain(maxPerSend, valid, items, j);
    var none := MatchObject("", "", "", [], []);
    if j >= maxPerSend {
      assert calls == [CloseSend];
      StepCounts(none, "");
    } else if j == |items| || items[j].Broken? {
      StepCounts(none, "");
    } else {
      var d := items[j].value;
      var m := d.candidate;
      if !Director.Acceptable(valid, m) || d.alloc.Refused? {
        StepCounts(m, "");
      } else {
        var conn := d.alloc.connstring;
        var head := [Recv, Allocate(m.id), CreateAssignments(m.rosters, conn)];
        StepCounts(m, conn);
        if d.assign.None? {
          var rest := Drain(maxPerSend, valid, items, j + 1);
          DrainReceives(maxPerSend, valid, items, j + 1);
          CountConcat(head, rest, Recv);
          assert calls == head + rest;
        } else {
          assert calls == head;
        }
      }
    }
  }

  /** The receive attempt that ends the session started at attempt `j`: the
      first one at the cap, at io.EOF, or on an item that is not a good delivery. */
  function Halt(maxPerSend: int, valid: string -> bool, items: seq<Received<Delivery>>, j: nat): (k: nat)
    requires j <= |items|
    ensures j <= k <= |items|
    ensures forall i :: j <= i < k ==> i < maxPerSend && Good(valid, items[i])
    ensures k < maxPerSend && k < |items| ==> !Good(valid, items[k])
    decreases |items| - j
  {
    if j >= maxPerSend || j == |items| || !Good(valid, items[j]) then j
    else Halt(maxPerSend, valid, items, j + 1)
  }

  /** The exits of a session that close the stream: the cap, a receive error,
      a match with an error or invalid properties, and a refused allocation.
      io.EOF and a failed assignment leave it open. */
  predicate ClosingExit(maxPerSend: int, valid: string -> bool, items: seq<Received<Delivery>>, k: nat)
    requires k <= |items|
  {
    k >= maxPerSend ||
    (k < |items| &&
     (items[k].Broken? || !Director.Acceptable(valid, items[k].value.candidate) || items[k].value.alloc.Refused?))
  }

  /** A session calls CloseSend exactly once when it ends on a closing exit,
      and never otherwise. */
  lemma {:induction false} DrainCloses(maxPerSend: int, valid: string -> bool, items: seq<Received<Delivery>>, j: nat)
    requires j <= |items|
    ensures Count(Drain(maxPerSend, valid, items, j), CloseSend) ==
      (if ClosingExit(maxPerSend, valid, items, Halt(maxPerSend, valid, items, j)) then 1 else 0)
    decreases |items| - j
  {
    if j < maxPerSend && j < |items| && Good(valid, items[j]) {
      var m := items[j].value.candidate;
      var head := [Recv, Allocate(m.id), CreateAssignments(m.rosters, items[j].value.alloc.connstring)];
      var rest := Drain(maxPerSend, valid, items, j + 1);
      assert Drain(maxPerSend, valid, items, j) == head + rest;
      assert Halt(maxPerSend, valid, items, j) == Halt(maxPerSend, valid, items, j + 1);
      StepCounts(m, items[j].value.alloc.connstring);
      DrainCloses(maxPerSend, valid, items, j + 1);
      CountConcat(head, rest, CloseSend);
    } else {
      DrainExit(maxPerSend, valid, items, j);
    }
  }

  /** The receive attempt that ends a session: it closes the stream exactly on
      a closing exit, and allocates only for an acceptable match. */
  lemma DrainExit(maxPerSend: int, valid: string -> bool, items: seq<Received<Delivery>>, j: nat)
    requires j <= |items|
    requires !(j < maxPerSend && j < |items| && Good(valid, items[j]))
    ensures Count(Drain(maxPerSend, valid, items, j), CloseSend) == (if ClosingExit(maxPerSend, valid, items, j) then 1 else 0)
    ensures AllocatedIds(Drain(maxPerSend, valid, items, j)) ==
      ExitAllocation(maxPerSend, valid, items, j)
  {
    var none := MatchObject("", "", "", [], []);
    if j >= maxPerSend || j == |items| || items[j].Broken? {
      StepCounts(none, "");
      StepAllocations(none, "");
    } else {
      var d := items[j].value;
      if !Director.Acceptable(valid, d.candidate) || d.alloc.Refused? {
        StepCounts(d.candidate, "");
        StepAllocations(d.candidate, "");
      } else {
        StepCounts(d.candidate, d.alloc.connstring);
        StepAllocations(d.candidate, d.alloc.connstring);
      }
    }
  }

  /** The match ids of the Allocate calls among `calls`, in order. */
  function AllocatedIds(calls: seq<Call>): (r: seq<string>)
    ensures |r| <= |calls|
  {
    if calls == [] then []
    else (if calls[0].Allocate? then [calls[0].matchId] else []) + AllocatedIds(calls[1..])
  }

  lemma {:induction false} AllocatedIdsConcat(a: seq<Call>, b: seq<Call>)
    ensures AllocatedIds(a + b) == AllocatedIds(a) + AllocatedIds(b)
  {
    if a == [] {
      assert a + b == b;
    } else {
      var ab := a + b;
      assert ab[0] == a[0];
      assert ab[1..] == a[1..] + b;
      AllocatedIdsConcat(a[1..], b);
    }
  }

  /** The Allocate calls in the fixed call sequences of one receive step. */
  lemma StepAllocations(m: MatchObject, conn: string)
    ensures AllocatedIds([CloseSend]) == [] && AllocatedIds([Recv]) == [] && AllocatedIds([Recv, CloseSend]) == []
    ensures AllocatedIds([Recv, Allocate(m.id), CloseSend]) == [m.id]
    ensures AllocatedIds([Recv, Allocate(m.id), CreateAssignments(m.rosters, conn)]) == [m.id]
  {
    assert [CloseSend][1..] == [] && [Recv][1..] == [] && [Recv, CloseSend][1..] == [CloseSend];
    var a := [Recv, Allocate(m.id), CloseSend];
    assert a[1..] == [Allocate(m.id), CloseSend];
    assert a[1..][1..] == [CloseSend];
    var b := [Recv, Allocate(m.id), CreateAssignments(m.rosters, conn)];
    assert b[1..] == [Allocate(m.id), CreateAssignments(m.rosters, conn)];
    assert b[1..][1..] == [CreateAssignments(m.rosters, conn)];
    assert b[1..][1..][1..] == [];
    assert AllocatedIds(b[1..][1..]) == [];
    assert AllocatedIds(b[1..]) == [m.id] + AllocatedIds(b[1..][1..]);
  }

  /** The ids of the matches received as items `j` up to `k`, in order. */
  function CandidateIds(items: seq<Received<Delivery>>, j: nat, k: nat): seq<string>
    requires j <= k <= |items|
    decreases k - j
  {
    if j == k then []
    else (if items[j].Item? then [items[j].value.candidate.id] else []) + CandidateIds(items, j + 1, k)
  }

  /** The allocation made at the receive attempt `k` that ends a session: the
      received match's id when it is acceptable, and none otherwise. */
  function ExitAllocation(maxPerSend: int, valid: string -> bool, items: seq<Received<Delivery>>, k: nat): seq<string>
    requires k <= |items|
  {
    if k < maxPerSend && k < |items| && items[k].Item? && Director.Acceptable(valid, items[k].value.candidate)
    then [items[k].value.candidate.id] else []
  }

  /** A session allocates a game server for every good delivery before its
      exit, in arrival order, and for the match at the exit only when that
      match is acceptable: a match with an error or invalid properties gets
      no allocation. */
  lemma {:induction false} DrainAllocates(maxPerSend: int, valid: string -> bool, items: seq<Received<Delivery>>, j: nat)
    requires j <= |items|
    ensures var k := Halt(maxPerSend, valid, items, j);
      AllocatedIds(Drain(maxPerSend, valid, items, j)) ==
        CandidateIds(items, j, k) +
        ExitAllocation(maxPerSend, valid, items, k)
    decreases |items| - j
  {
    if j < maxPerSend && j < |items| && Good(valid, items[j]) {
      var m := items[j].value.candidate;
      var conn := items[j].value.alloc.connstring;
      var head := [Recv, Allocate(m.id), CreateAssignments(m.rosters, conn)];
      var rest := Drain(maxPerSend, valid, items, j + 1);
      var k := Halt(maxPerSend, valid, items, j + 1);
      assert Drain(maxPerSend, valid, items, j) == head + rest;
      assert Halt(maxPerSend, valid, items, j) == k;
      assert CandidateIds(items, j, k) == [m.id] + CandidateIds(items, j + 1, k);
      StepAllocations(m, conn);
      DrainAllocates(maxPerSend, valid, items, j + 1);
      AllocatedIdsConcat(head, rest);
      var tail := ExitAllocation(maxPerSend, valid, items, k);
      assert AllocatedIds(head + rest) == [m.id] + (CandidateIds(items, j + 1, k) + tail);
      assert [m.id] + (CandidateIds(items, j + 1, k) + tail) == CandidateIds(items, j, k) + tail;
    } else {
      DrainExit(maxPerSend, valid, items, j);
      assert Halt(maxPerSend, valid, items, j) == j;
      assert CandidateIds(items, j, j) == [];
    }
  }

  /** A session that calls CloseSend calls it last. */
  lemma {:induction false} DrainClosesLast(maxPerSend: int, valid: string -> bool, items: seq<Received<Delivery>>, j: nat)
    requires j <= |items|
    ensures var calls := Drain(maxPerSend, valid, items, j);
      |calls| > 0 && (CloseSend in calls ==> calls[|calls| - 1] == CloseSend)
    decreases |items| - j
  {
    if j < maxPerSend && j < |items| && Good(valid, items[j]) {
      var calls := Drain(maxPerSend, valid, items, j);
      var m := items[j].value.candidate;
      var head := [Recv, Allocate(m.id), CreateAssignments(m.rosters, items[j].value.alloc.connstring)];
      var rest := Drain(maxPerSend, valid, items, j + 1);
      DrainClosesLast(maxPerSend, valid, items, j + 1);
      assert calls == head + rest;
      assert calls[|calls| - 1] == rest[|rest| - 1];
      assert CloseSend !in head;
    }
  }

  /** When every item up to the cap is a good delivery, the session ends by
      closing the stream because the cap was reached. */
  lemma {:induction false} DrainCapCloses(maxPerSend: int, valid: string -> bool, items: seq<Received<Delivery>>, j: nat)
    requires j <= |items|
    requires maxPerSend <= |items| && forall k :: j <= k < maxPerSend ==> Good(valid, items[k])
    ensures var calls := Drain(maxPerSend, valid, items, j);
      |calls| > 0 && calls[|calls| - 1] == CloseSend
    decreases |items| - j
  {
    if j < maxPerSend {
      assert Good(valid, items[j]);
      var m := items[j].value.candidate;
      var head := [Recv, Allocate(m.id), CreateAssignments(m.rosters, items[j].value.alloc.connstring)];
      var rest := Drain(maxPerSend, valid, items, j + 1);
      DrainCapCloses(maxPerSend, valid, items, j + 1);
      assert Drain(maxPerSend, valid, items, j) == head + rest;
    }
  }

  /** The CreateAssignments calls among `calls`, in order. */
  function Assigned(calls: seq<Call>): (r: seq<Call>)
    ensures |r| <= |calls|
  {
    if calls == [] then []
    else (if calls[0].CreateAssignments? then [calls[0]] else []) + Assigned(calls[1..])
  }

  lemma {:induction false} AssignedConcat(a: seq<Call>, b: seq<Call>)
    ensures Assigned(a + b) == Assigned(a) + Assigned(b)
  {
    if a == [] {
      assert a + b == b;
    } else {
      var ab := a + b;
      assert ab[0] == a[0];
      assert ab[1..] == a[1..] + b;
      AssignedConcat(a[1..], b);
      assert Assigned(ab) == (if a[0].CreateAssignments? then [a[0]] else []) + Assigned(ab[1..]);
    }
  }

  /** The assignments `made` are for the consecutive items from `j` on: each an
      acceptable match with a granted allocation, assigned its own rosters and
      the allocated connection string; all but the last of them succeeded. */
  predicate AssignsFrom(valid: string -> bool, items: seq<Received<Delivery>>, j: nat, made: seq<Call>)
    decreases |made|
  {
    made == [] ||
    (j < |items| && items[j].Item? && Director.Acceptable(valid, items[j].value.candidate) &&
     items[j].value.alloc.Granted? &&
     made[0] == CreateAssignments(items[j].value.candidate.rosters, items[j].value.alloc.connstring) &&
     (|made| == 1 || (items[j].value.assign.None? && AssignsFrom(valid, items, j + 1, made[1..]))))
  }

  /** Assignments are made only for acceptable, allocated matches, in
      arrival order, with the match's rosters and its connection string, and
      a failed assignment is the session's last. */
  lemma {:induction false} DrainAssigns(maxPerSend: int, valid: string -> bool, items: seq<Received<Delivery>>, j: nat)
    requires j <= |items|
    ensures AssignsFrom(valid, items, j, Assigned(Drain(maxPerSend, valid, items, j)))
    decreases |items| - j
  {
    var calls := Drain(maxPerSend, valid, items, j);
    var none := MatchObject("", "", "", [], []);
    if j >= maxPerSend || j == |items| || items[j].Broken? {
      NoAssignments(none);
    } else {
      var d := items[j].value;
      var m := d.candidate;
      if !Director.Acceptable(valid, m) || d.alloc.Refused? {
        NoAssignments(m);
      } else {
        var conn := d.alloc.connstring;
        var head := [Recv, Allocate(m.id), CreateAssignments(m.rosters, conn)];
        OneAssignment(m, conn);
        if d.assign.None? {
          var rest := Drain(maxPerSend, valid, items, j + 1);
          DrainAssigns(maxPerSend, valid, items, j + 1);
          AssignedConcat(head, rest);
          assert calls == head + rest;
          var made := Assigned(calls);
          assert made[1..] == Assigned(rest);
        } else {
          assert calls == head;
        }
      }
    }
  }

  /** A bad match, a failed allocation or a failed assignment ends the
      session: every receive but the last led to an assignment. */
  lemma {:induction false} DrainOneStrike(maxPerSend: int, valid: string -> bool, items: seq<Received<Delivery>>, j: nat)
    requires j <= |items|
    ensures var calls := Drain(maxPerSend, valid, items, j);
      Count(calls, Recv) <= |Assigned(calls)| + 1
    decreases |items| - j
  {
    var calls := Drain(maxPerSend, valid, items, j);
    var none := MatchObject("", "", "", [], []);
    if j >= maxPerSend || j == |items| || items[j].Broken? {
      StepCounts(none, "");
    } else {
      var d := items[j].value;
      var m := d.candidate;
      if !Director.Acceptable(valid, m) || d.alloc.Refused? {
        StepCounts(m, "");
      } else {
        var conn := d.alloc.connstring;
        var head := [Recv, Allocate(m.id), CreateAssignments(m.rosters, conn)];
        StepCounts(m, conn);
        OneAssignment(m, conn);
        if d.assign.None? {
          var rest := Drain(maxPerSend, valid, items, j + 1);
          DrainOneStrike(maxPerSend, valid, items, j + 1);
          AssignedConcat(head, rest);
          CountConcat(head, rest, Recv);
          assert calls == head + rest;
        } else {
          assert calls == head;
        }
      }
    }
  }

  lemma NoAssignments(m: MatchObject)
    ensures Assigned([CloseSend]) == [] && Assigned([Recv]) == [] && Assigned([Recv, CloseSend]) == []
    ensures Assigned([Recv, Allocate(m.id), CloseSend]) == []
  {
    assert [CloseSend][1..] == [] && [Recv][1..] == [] && [Recv, CloseSend][1..] == [CloseSend];
    var a := [Recv, Allocate(m.id), CloseSend];
    assert a[1..] == [Allocate(m.id), CloseSend];
    assert a[1..][1..] == [CloseSend];
  }

  lemma OneAssignment(m: MatchObject, conn: string)
    ensures Assigned([Recv, Allocate(m.id), CreateAssignments(m.rosters, conn)]) == [CreateAssignments(m.rosters, conn)]
  {
    var b := [Recv, Allocate(m.id), CreateAssignments(m.rosters, conn)];
    assert b[1..] == [Allocate(m.id), CreateAssignments(m.rosters, conn)];
    assert b[1..][1..] == [CreateAssignments(m.rosters, conn)];
    assert b[1..][1..][1..] == [];
    assert Assigned(b[1..][1..]) == [CreateAssignments(m.rosters, conn)] + Assigned([]);
    assert Assigned(b[1..]) == [] + Assigned(b[1..][1..]);
  }

  /** A session only receives, closes, allocates and assigns. */
  lemma {:induction false} DrainCalls(maxPerSend: int, valid: string -> bool, items: seq<Received<Delivery>>, j: nat)
    requires j <= |items|
    ensures forall c :: c in Drain(maxPerSend, valid, items, j) ==>
      c.Recv? || c.CloseSend? || c.Allocate? || c.CreateAssignments?
    decreases |items| - j
  {
    if j < maxPerSend && j < |items| && Good(valid, items[j]) {
      DrainCalls(maxPerSend, valid, items, j + 1);
    }
  }

  /** Counting over one session of doSendProfile: its open, its batch, its pause. */
  lemma RoundSplit(pid: string, batch: seq<Call>, nap: seq<Call>, later: seq<Call>)
    requires OpenStream(pid) !in batch && Sleep !in batch
    requires nap == [] || nap == [Sleep]
    ensures Count([OpenStream(pid)] + batch + nap + later, OpenStream(pid)) == 1 + Count(later, OpenStream(pid))
    ensures Count([OpenStream(pid)] + batch + nap + later, Sleep) == |nap| + Count(later, Sleep)
  {
    var open := OpenStream(pid);
    assert [open][1..] == [] && [Sleep][1..] == [];
    CountConcat([open] + batch + nap, later, open);
    CountConcat([open] + batch, nap, open);
    CountConcat([open], batch, open);
    CountConcat([open] + batch + nap, later, Sleep);
    CountConcat([open] + batch, nap, Sleep);
    CountConcat([open], batch, Sleep);
  }

  /** The rounds from session `i` on open at most one stream per remaining
      send, and sleep exactly once fewer than they open: a failed open ends
      the rounds before the pause, and the last send has none. */
  lemma {:induction false} RoundsAtMost(profile: MatchObject, maxSends: int, maxPerSend: int, valid: string -> bool, sessions: seq<SessionScript>, i: nat)
    requires maxSends <= |sessions|
    ensures var calls := Rounds(profile, maxSends, maxPerSend, valid, sessions, i);
      Count(calls, OpenStream(profile.id)) <= (if maxSends > i then maxSends - i else 0) &&
      (i < maxSends ==> Count(calls, Sleep) + 1 == Count(calls, OpenStream(profile.id))) &&
      (i >= maxSends ==> calls == [])
    decreases |sessions| - i
  {
    if i < maxSends {
      var open := OpenStream(profile.id);
      if sessions[i].open.Some? {
        assert [open][1..] == [];
        assert Count([open], Sleep) == 0;
      } else {
        var batch := Drain(maxPerSend, valid, sessions[i].items, 0);
        var nap: seq<Call> := if i < maxSends - 1 then [Sleep] else [];
        var later := Rounds(profile, maxSends, maxPerSend, valid, sessions, i + 1);
        RoundsAtMost(profile, maxSends, maxPerSend, valid, sessions, i + 1);
        DrainCalls(maxPerSend, valid, sessions[i].items, 0);
        assert Rounds(profile, maxSends, maxPerSend, valid, sessions, i) == [open] + batch + nap + later;
        RoundSplit(profile.id, batch, nap, later);
      }
    }
  }

  /** When every remaining stream opens, the rounds from session `i` on run
      every remaining send, with a pause between consecutive ones. */
  lemma {:induction false} RoundsAllOpen(profile: MatchObject, maxSends: int, maxPerSend: int, valid: string -> bool, sessions: seq<SessionScript>, i: nat)
    requires maxSends <= |sessions|
    requires forall k :: i <= k < maxSends ==> sessions[k].open.None?
    ensures var calls := Rounds(profile, maxSends, maxPerSend, valid, sessions, i);
      Count(calls, OpenStream(profile.id)) == (if maxSends > i then maxSends - i else 0) &&
      Count(calls, Sleep) == (if maxSends > i then maxSends - i - 1 else 0)
    decreases |sessions| - i
  {
    if i < maxSends {
      assert sessions[i].open.None?;
      var open := OpenStream(profile.id);
      var batch := Drain(maxPerSend, valid, sessions[i].items, 0);
      var later := Rounds(profile, maxSends, maxPerSend, valid, sessions, i + 1);
      RoundsAllOpen(profile, maxSends, maxPerSend, valid, sessions, i + 1);
      DrainCalls(maxPerSend, valid, sessions[i].items, 0);
      if i < maxSends - 1 {
        assert Rounds(profile, maxSends, maxPerSend, valid, sessions, i) == [open] + batch + [Sleep] + later;
        RoundSplit(profile.id, batch, [Sleep], later);
      } else {
        assert later == [];
        assert Rounds(profile, maxSends, maxPerSend, valid, sessions, i) == [open] + batch + [] + later;
        RoundSplit(profile.id, batch, [], later);
      }
    }
  }

  /** doSendProfile opens at most `maxSends` sessions (none when it is not
      positive) and, once the client exists, sleeps exactly once fewer than it
      opens; when the backend client is
      created and every stream opens, it runs exactly `maxSends` sessions with
      `maxSends - 1` sleeps. */
  lemma SendSessions(profile: MatchObject, maxSends: int, maxPerSend: int, valid: string -> bool, dial: Option<string>, sessions: seq<SessionScript>)
    requires maxSends <= |sessions|
    ensures var calls := SendLoop(profile, maxSends, maxPerSend, valid, dial, sessions);
      Count(calls, OpenStream(profile.id)) <= (if maxSends > 0 then maxSends else 0)
    ensures var calls := SendLoop(profile, maxSends, maxPerSend, valid, dial, sessions);
      dial.None? && maxSends > 0 ==> Count(calls, Sleep) + 1 == Count(calls, OpenStream(profile.id))
    ensures var calls := SendLoop(profile, maxSends, maxPerSend, valid, dial, sessions);
      dial.None? && (forall k :: 0 <= k < maxSends ==> sessions[k].open.None?) ==>
      Count(calls, OpenStream(profile.id)) == (if maxSends > 0 then maxSends else 0) &&
      Count(calls, Sleep) == (if maxSends > 0 then maxSends - 1 else 0)
  {
    var rest := if dial.Some? then [] else Rounds(profile, maxSends, maxPerSend, valid, sessions, 0);
    RoundsAtMost(profile, maxSends, maxPerSend, valid, sessions, 0);
    if dial.None? && (forall k :: 0 <= k < maxSends ==> sessions[k].open.None?) {
      RoundsAllOpen(profile, maxSends, maxPerSend, valid, sessions, 0);
    }
    assert [Dial][1..] == [];
    CountConcat([Dial], rest, OpenStream(profile.id));
    CountConcat([Dial], rest, Sleep);
  }

  // ---------------------------------------------------------------------
  // main: read the profiles, wait for players, launch one sender per profile
  // ---------------------------------------------------------------------

  /** The launch loop from profile `i` on: a sender per profile, with a pause
      between consecutive launches. */
  function Staggered(profiles: seq<MatchObject>, i: nat): seq<Call>
    requires i <= |profiles|
    decreases |profiles| - i
  {
    if i == |profiles| then []
    else [Launch(profiles[i].id)] + (if i < |profiles| - 1 then [Sleep] else []) + Staggered(profiles, i + 1)
  }

  /** What main did: the fatal error it stopped with, if any, and its calls. */
  datatype Run = Ran(fatal: Option<string>, calls: seq<Call>)

  function Startup(readErr: Option<string>, profiles: seq<MatchObject>, gate: GateScript): Run
  {
    if readErr.Some? then Ran(readErr, [])
    else
      var v := Gate(MinPlayers, gate);
      if v.err.Some? then Ran(Some("Error waiting for players: " + v.err.value), v.calls)
      else Ran(None, v.calls + Staggered(profiles, 0))
  }

  /** main. A failure to read the profiles or an error from requirePlayers is
      fatal; whether requirePlayers found enough players is not looked at. */
  method Start(readErr: Option<string>, profiles: seq<MatchObject>, gate: GateScript) returns (run: Run)
    ensures run == Startup(readErr, profiles, gate)
  {
    if readErr.Some? {
      return Ran(readErr, []);
    }
    var _, err, calls := RequirePlayers(MinPlayers, gate);
    if err.Some? {
      return Ran(Some("Error waiting for players: " + err.value), calls);
    }
    var i := 0;
    while i < |profiles|
      invariant 0 <= i <= |profiles|
      invariant Startup(readErr, profiles, gate).calls == calls + Staggered(profiles, i)
    {
      var p := profiles[i];
      var step := [Launch(p.id)] + (if i < |profiles| - 1 then [Sleep] else []);
      assert calls + (step + Staggered(profiles, i + 1)) == (calls + step) + Staggered(profiles, i + 1);
      calls := calls + step;
      i := i + 1;
    }
    return Ran(None, calls);
  }

  /** The profile ids of the senders launched, in order. */
  function Launched(calls: seq<Call>): seq<string>
  {
    if calls == [] then []
    else (if calls[0].Launch? then [calls[0].profileId] else []) + Launched(calls[1..])
  }

  lemma {:induction false} LaunchedConcat(a: seq<Call>, b: seq<Call>)
    ensures Launched(a + b) == Launched(a) + Launched(b)
  {
    if a == [] {
      assert a + b == b;
    } else {
      var ab := a + b;
      assert ab[0] == a[0];
      assert ab[1..] == a[1..] + b;
      LaunchedConcat(a[1..], b);
    }
  }

  /** requirePlayers launches nothing. */
  lemma {:induction false} WatchLaunchesNothing(threshold: int, items: seq<Received<MatchObject>>, i: nat, close: Option<string>)
    requires i <= |items|
    ensures Launched(Watch(threshold, items, i, close).calls) == []
    decreases |items| - i
  {
    assert Launched([Recv]) == [] && Launched([CloseSend]) == [];
    LaunchedConcat([Recv], [CloseSend]);
    if i < |items| && items[i].Item? && LastDefaultCount(items[i].value.pools) <= threshold {
      WatchLaunchesNothing(threshold, items, i + 1, close);
      LaunchedConcat([Recv], Watch(threshold, items, i + 1, close).calls);
    }
  }

  /** The first step of the launch loop at profile `i`: one launch, then a
      pause unless it was the last profile. */
  lemma LaunchStep(profiles: seq<MatchObject>, i: nat)
    requires i < |profiles|
    ensures var head: seq<Call> := [Launch(profiles[i].id)] + (if i < |profiles| - 1 then [Sleep] else []);
      Launched(head) == [profiles[i].id] &&
      Count(head, Sleep) == (if i < |profiles| - 1 then 1 else 0)
  {
    var one: seq<Call> := [Launch(profiles[i].id)];
    assert one[1..] == [] && [Sleep][1..] == [];
    assert Launched(one) == [profiles[i].id] + Launched([]);
    assert Launched([Sleep]) == [] + Launched([]);
    LaunchedConcat(one, [Sleep]);
    CountConcat(one, [Sleep], Sleep);
    assert one + [] == one;
  }

  /** The launch loop starts one sender per profile, in the profiles' order. */
  lemma {:induction false} StaggeredLaunches(profiles: seq<MatchObject>, i: nat)
    requires i <= |profiles|
    ensures |Launched(Staggered(profiles, i))| == |profiles| - i
    ensures forall k :: 0 <= k < |profiles| - i ==> Launched(Staggered(profiles, i))[k] == profiles[i + k].id
    decreases |profiles| - i
  {
    if i < |profiles| {
      var head: seq<Call> := [Launch(profiles[i].id)] + (if i < |profiles| - 1 then [Sleep] else []);
      var rest := Staggered(profiles, i + 1);
      StaggeredLaunches(profiles, i + 1);
      assert Staggered(profiles, i) == head + rest;
      LaunchedConcat(head, rest);
      LaunchStep(profiles, i);
      assert Launched(Staggered(profiles, i)) == [profiles[i].id] + Launched(rest);
    }
  }

  /** The launch loop pauses between consecutive launches, and only there. */
  lemma {:induction false} StaggeredPauses(profiles: seq<MatchObject>, i: nat)
    requires i <= |profiles|
    ensures Count(Staggered(profiles, i), Sleep) == if i < |profiles| then |profiles| - i - 1 else 0
    decreases |profiles| - i
  {
    if i < |profiles| {
      var head: seq<Call> := [Launch(profiles[i].id)] + (if i < |profiles| - 1 then [Sleep] else []);
      var rest := Staggered(profiles, i + 1);
      StaggeredPauses(profiles, i + 1);
      assert Staggered(profiles, i) == head + rest;
      CountConcat(head, rest, Sleep);
      LaunchStep(profiles, i);
    }
  }

  /** main starts a sender for every profile, in order, exactly when neither
      reading the profiles nor requirePlayers failed; otherwise it starts none. */
  lemma StartupLaunches(readErr: Option<string>, profiles: seq<MatchObject>, gate: GateScript)
    ensures var run := Startup(readErr, profiles, gate);
      run.fatal.Some? ==> Launched(run.calls) == []
    ensures var run := Startup(readErr, profiles, gate);
      run.fatal.None? ==>
        (|Launched(run.calls)| == |profiles| &&
         forall k :: 0 <= k < |profiles| ==> Launched(run.calls)[k] == profiles[k].id)
    ensures (Startup(readErr, profiles, gate).fatal.None?) == (readErr.None? && Gate(MinPlayers, gate).err.None?)
  {
    if readErr.None? {
      var gc := Gate(MinPlayers, gate).calls;
      var pre := [Dial, OpenStream(gate.empty.id)];
      assert Launched(pre) == [] by {
        assert pre[1..] == [OpenStream(gate.empty.id)];
        assert pre[1..][1..] == [];
        assert Launched(pre[1..]) == [] + Launched([]);
      }
      assert Launched([Dial]) == [] by { assert [Dial][1..] == []; }
      assert Launched(gc) == [] by {
        if gate.dial.None? && gate.open.None? {
          WatchLaunchesNothing(MinPlayers, gate.items, 0, gate.close);
          LaunchedConcat(pre, Watch(MinPlayers, gate.items, 0, gate.close).calls);
        }
      }
      StaggeredLaunches(profiles, 0);
      LaunchedConcat(gc, Staggered(profiles, 0));
    }
  }
}
