/** The match director: consuming a profile's match stream (listMatches),
    the per-session callback (sendProfile), the repeated sessions
    (startSendProfile) and the per-match allocation saga (allocateForMatch). */
module Director {
  import opened Messages

  // ---------------------------------------------------------------------
  // listMatches: one stream session driven by a MatchFunc
  // ---------------------------------------------------------------------

  /** What a MatchFunc returned for one match, together with the state its
      closure captured after the call. */
  datatype Reaction<S> = Reaction(state: S, ok: bool, failure: Option<string>)

  /** How a listMatches session ended. */
  datatype Ending =
    | Eof
    | DialFailed(error: string)
    | OpenFailed(error: string)
    | RecvFailed(error: string)
    | FnFailed(error: string)
    | Stopped

  /** The environment of one session: creating the backend client, opening
      the stream, and the stream's items (io.EOF after the last). */
  datatype StreamScript = StreamScript(dial: Option<string>, open: Option<string>, items: seq<Received<MatchObject>>)

  /** Calls made, how the session ended, and the closure's final state. */
  datatype Listing<S> = Listing(calls: seq<Call>, ending: Ending, state: S)

  /** The error listMatches returns for each ending. */
  function ErrorOf(e: Ending): Option<string>
  {
    match e
    case Eof => None
    case Stopped => None
    case DialFailed(x) => Some("error creating Backend API client: " + x)
    case OpenFailed(x) => Some("error opening matches stream: " + x)
    case RecvFailed(x) => Some("error receiving match: " + x)
    case FnFailed(x) => Some("error processing match: " + x)
  }

  /** The receive loop from item `i` on, in closure state `s`. */
  function Pump<S>(fn: (S, MatchObject) -> Reaction<S>, items: seq<Received<MatchObject>>, i: nat, s: S): Listing<S>
    requires i <= |items|
    decreases |items| - i
  {
    if i == |items| then Listing([Recv], Eof, s)
    else match items[i]
      case Broken(e) => Listing([Recv, CloseSend], RecvFailed(e), s)
      case Item(m) =>
        var re := fn(s, m);
        var head := [Recv, Apply(m, re.ok, re.failure)];
        if re.failure.Some? then Listing(head + [CloseSend], FnFailed(re.failure.value), re.state)
        else if !re.ok then Listing(head + [CloseSend], Stopped, re.state)
        else
          var rest := Pump(fn, items, i + 1, re.state);
          Listing(head + rest.calls, rest.ending, rest.state)
  }

  /** A whole listMatches session. */
  function Listed<S>(profile: MatchObject, script: StreamScript, fn: (S, MatchObject) -> Reaction<S>, init: S): Listing<S>
  {
    if script.dial.Some? then Listing([Dial], DialFailed(script.dial.value), init)
    else if script.open.Some? then Listing([Dial, OpenStream(profile.id)], OpenFailed(script.open.value), init)
    else
      var r := Pump(fn, script.items, 0, init);
      Listing([Dial, OpenStream(profile.id)] + r.calls, r.ending, r.state)
  }

  /** The matches handed to the MatchFunc, in the order of the calls. */
  function Applied(calls: seq<Call>): (ms: seq<MatchObject>)
    ensures |ms| <= |calls|
  {
    if calls == [] then []
    else (if calls[0].Apply? then [calls[0].candidate] else []) + Applied(calls[1..])
  }

  lemma {:induction false} AppliedConcat(a: seq<Call>, b: seq<Call>)
    ensures Applied(a + b) == Applied(a) + Applied(b)
  {
    if a == [] {
      assert a + b == b;
    } else {
      var ab := a + b;
      assert ab[0] == a[0];
      assert ab[1..] == a[1..] + b;
      AppliedConcat(a[1..], b);
      assert Applied(ab) == (if a[0].Apply? then [a[0].candidate] else []) + Applied(ab[1..]);
    }
  }

  /** Does the MatchFunc's answer recorded in `c` let the loop go on? */
  predicate Continued(c: Call)
    requires c.Apply?
  {
    c.ok && c.failure.None?
  }

  method ListMatches<S>(profile: MatchObject, script: StreamScript, fn: (S, MatchObject) -> Reaction<S>, init: S)
    returns (calls: seq<Call>, err: Option<string>, final: S)
    ensures var r := Listed(profile, script, fn, init);
      calls == r.calls && err == ErrorOf(r.ending) && final == r.state
  {
    calls := [Dial];
    if script.dial.Some? {
      return calls, ErrorOf(DialFailed(script.dial.value)), init;
    }
    calls := calls + [OpenStream(profile.id)];
    if script.open.Some? {
      return calls, ErrorOf(OpenFailed(script.open.value)), init;
    }
    var items := script.items;
    var i := 0;
    var s := init;
    while true
      invariant 0 <= i <= |items|
      invariant var rest := Pump(fn, items, i, s);
        Listed(profile, script, fn, init) == Listing(calls + rest.calls, rest.ending, rest.state)
      decreases |items| - i
    {
      if i == |items| {
        return calls + [Recv], None, s;
      }
      match items[i] {
        case Broken(e) =>
          return calls + [Recv, CloseSend], ErrorOf(RecvFailed(e)), s;
        case Item(m) =>
          var re := fn(s, m);
          var head := [Recv, Apply(m, re.ok, re.failure)];
          if re.failure.Some? {
            return calls + head + [CloseSend], ErrorOf(FnFailed(re.failure.value)), re.state;
          }
          if !re.ok {
            return calls + head + [CloseSend], None, re.state;
          }
          assert calls + (head + Pump(fn, items, i + 1, re.state).calls)
              == (calls + head) + Pump(fn, items, i + 1, re.state).calls;
          calls := calls + head;
          s := re.state;
      }
      i := i + 1;
    }
  }

  /** Calls and matches in the two calls of one receive step. */
  lemma StepFacts(m: MatchObject, ok: bool, f: Option<string>)
    ensures var head := [Recv, Apply(m, ok, f)];
      Applied(head) == [m] && Count(head, Recv) == 1 && Count(head, CloseSend) == 0
  {
  }

  /** Calls and matches in the endings of the receive loop. */
  lemma EndFacts()
    ensures Applied([Recv]) == [] && Count([Recv], Recv) == 1 && Count([Recv], CloseSend) == 0
    ensures Applied([CloseSend]) == [] && Count([CloseSend], Recv) == 0 && Count([CloseSend], CloseSend) == 1
    ensures Applied([Recv, CloseSend]) == [] && Count([Recv, CloseSend], Recv) == 1 && Count([Recv, CloseSend], CloseSend) == 1
  {
  }

  /** The receive loop starts with a Recv and, on every exit but io.EOF,
      finishes with CloseSend. */
  lemma {:induction false} PumpShape<S>(fn: (S, MatchObject) -> Reaction<S>, items: seq<Received<MatchObject>>, i: nat, s: S)
    requires i <= |items|
    ensures var r := Pump(fn, items, i, s);
      |r.calls| > 0 && r.calls[0] == Recv &&
      (!r.ending.Eof? ==> r.calls[|r.calls| - 1] == CloseSend) &&
      (r.ending.Eof? || r.ending.RecvFailed? || r.ending.FnFailed? || r.ending.Stopped?)
    decreases |items| - i
  {
    if i < |items| && items[i].Item? {
      var m := items[i].value;
      var re := fn(s, m);
      var head := [Recv, Apply(m, re.ok, re.failure)];
      if re.failure.None? && re.ok {
        var rest := Pump(fn, items, i + 1, re.state);
        PumpShape(fn, items, i + 1, re.state);
        var calls := head + rest.calls;
        assert Pump(fn, items, i, s) == Listing(calls, rest.ending, rest.state);
        assert calls[|calls| - 1] == rest.calls[|rest.calls| - 1];
      }
    }
  }

  /** CloseSend is called exactly once on every exit but io.EOF. */
  lemma {:induction false} PumpCloses<S>(fn: (S, MatchObject) -> Reaction<S>, items: seq<Received<MatchObject>>, i: nat, s: S)
    requires i <= |items|
    ensures var r := Pump(fn, items, i, s);
      Count(r.calls, CloseSend) == (if r.ending.Eof? then 0 else 1)
    decreases |items| - i
  {
    EndFacts();
    if i < |items| && items[i].Item? {
      var m := items[i].value;
      var re := fn(s, m);
      var head := [Recv, Apply(m, re.ok, re.failure)];
      StepFacts(m, re.ok, re.failure);
      if re.failure.Some? || !re.ok {
        CountConcat(head, [CloseSend], CloseSend);
      } else {
        var rest := Pump(fn, items, i + 1, re.state);
        PumpCloses(fn, items, i + 1, re.state);
        assert Pump(fn, items, i, s) == Listing(head + rest.calls, rest.ending, rest.state);
        CountConcat(head, rest.calls, CloseSend);
      }
    }
  }

  /** The stream items from position `i` on carry the matches `ms`, in order. */
  predicate Carries(items: seq<Received<MatchObject>>, i: nat, ms: seq<MatchObject>)
    decreases |ms|
  {
    ms == [] || (i < |items| && items[i] == Item(ms[0]) && Carries(items, i + 1, ms[1..]))
  }

  /** The MatchFunc sees the received items one by one, in arrival order:
      the matches it was called with are the next items of the stream. */
  lemma {:induction false} PumpFeeds<S>(fn: (S, MatchObject) -> Reaction<S>, items: seq<Received<MatchObject>>, i: nat, s: S)
    requires i <= |items|
    ensures var fed := Applied(Pump(fn, items, i, s).calls);
      i + |fed| <= |items| && Carries(items, i, fed)
    decreases |items| - i
  {
    EndFacts();
    if i < |items| && items[i].Item? {
      var m := items[i].value;
      var re := fn(s, m);
      var head := [Recv, Apply(m, re.ok, re.failure)];
      StepFacts(m, re.ok, re.failure);
      if re.failure.Some? || !re.ok {
        AppliedConcat(head, [CloseSend]);
        assert Pump(fn, items, i, s).calls == head + [CloseSend];
        assert [m][1..] == [];
      } else {
        var rest := Pump(fn, items, i + 1, re.state);
        PumpFeeds(fn, items, i + 1, re.state);
        assert Pump(fn, items, i, s).calls == head + rest.calls;
        AppliedConcat(head, rest.calls);
        var fed := [m] + Applied(rest.calls);
        assert fed[1..] == Applied(rest.calls);
        assert Applied(Pump(fn, items, i, s).calls) == fed;
      }
    }
  }

  /** A session ends at io.EOF only after every item went to the MatchFunc. */
  lemma {:induction false} PumpDrains<S>(fn: (S, MatchObject) -> Reaction<S>, items: seq<Received<MatchObject>>, i: nat, s: S)
    requires i <= |items|
    ensures var r := Pump(fn, items, i, s);
      r.ending.Eof? ==> i + |Applied(r.calls)| == |items|
    decreases |items| - i
  {
    EndFacts();
    if i < |items| && items[i].Item? {
      var m := items[i].value;
      var re := fn(s, m);
      var head := [Recv, Apply(m, re.ok, re.failure)];
      if re.failure.None? && re.ok {
        StepFacts(m, re.ok, re.failure);
        var rest := Pump(fn, items, i + 1, re.state);
        PumpDrains(fn, items, i + 1, re.state);
        assert Pump(fn, items, i, s) == Listing(head + rest.calls, rest.ending, rest.state);
        AppliedConcat(head, rest.calls);
      }
    }
  }

  /** A receive error ends the session at the first broken item, after every
      item before it went to the MatchFunc. */
  lemma {:induction false} PumpBreaks<S>(fn: (S, MatchObject) -> Reaction<S>, items: seq<Received<MatchObject>>, i: nat, s: S)
    requires i <= |items|
    ensures var r := Pump(fn, items, i, s);
      var fed := Applied(r.calls);
      r.ending.RecvFailed? ==> i + |fed| < |items| && items[i + |fed|].Broken? && items[i + |fed|].error == r.ending.error
    decreases |items| - i
  {
    if i == |items| {
      assert Pump(fn, items, i, s).ending == Eof;
    } else if items[i].Broken? {
      EndFacts();
      assert Pump(fn, items, i, s) == Listing([Recv, CloseSend], RecvFailed(items[i].error), s);
    } else {
      var m := items[i].value;
      var re := fn(s, m);
      var head := [Recv, Apply(m, re.ok, re.failure)];
      if re.failure.None? && re.ok {
        StepFacts(m, re.ok, re.failure);
        var rest := Pump(fn, items, i + 1, re.state);
        PumpBreaks(fn, items, i + 1, re.state);
        AppliedConcat(head, rest.calls);
        assert Pump(fn, items, i, s) == Listing(head + rest.calls, rest.ending, rest.state);
      } else {
        assert !Pump(fn, items, i, s).ending.RecvFailed?;
      }
    }
  }

  /** Every Recv but the last returned an item that went to the MatchFunc. */
  lemma {:induction false} PumpCountsReceives<S>(fn: (S, MatchObject) -> Reaction<S>, items: seq<Received<MatchObject>>, i: nat, s: S)
    requires i <= |items|
    ensures var r := Pump(fn, items, i, s);
      Count(r.calls, Recv) == |Applied(r.calls)| + (if r.ending.Eof? || r.ending.RecvFailed? then 1 else 0)
    decreases |items| - i
  {
    EndFacts();
    if i < |items| && items[i].Item? {
      var m := items[i].value;
      var re := fn(s, m);
      var head := [Recv, Apply(m, re.ok, re.failure)];
      StepFacts(m, re.ok, re.failure);
      if re.failure.Some? || !re.ok {
        AppliedConcat(head, [CloseSend]);
        CountConcat(head, [CloseSend], Recv);
      } else {
        var rest := Pump(fn, items, i + 1, re.state);
        PumpCountsReceives(fn, items, i + 1, re.state);
        AppliedConcat(head, rest.calls);
        CountConcat(head, rest.calls, Recv);
      }
    }
  }

  /** While the MatchFunc answers "continue", the next call is another Recv. */
  lemma {:induction false} PumpGoesOn<S>(fn: (S, MatchObject) -> Reaction<S>, items: seq<Received<MatchObject>>, i: nat, s: S)
    requires i <= |items|
    ensures var calls := Pump(fn, items, i, s).calls;
      forall k :: 0 <= k < |calls| && calls[k].Apply? && Continued(calls[k]) ==>
        k + 1 < |calls| && calls[k + 1] == Recv
    decreases |items| - i
  {
    if i < |items| && items[i].Item? {
      var m := items[i].value;
      var re := fn(s, m);
      var head := [Recv, Apply(m, re.ok, re.failure)];
      if re.failure.None? && re.ok {
        var rest := Pump(fn, items, i + 1, re.state);
        PumpGoesOn(fn, items, i + 1, re.state);
        PumpShape(fn, items, i + 1, re.state);
        var calls := head + rest.calls;
        assert Pump(fn, items, i, s).calls == calls;
        forall k | 0 <= k < |calls| && calls[k].Apply? && Continued(calls[k])
          ensures k + 1 < |calls| && calls[k + 1] == Recv
        {
          if k >= 2 {
            assert calls[k] == rest.calls[k - 2];
            assert calls[k + 1] == rest.calls[k - 1];
          } else {
            assert k == 1 && calls[2] == rest.calls[0];
          }
        }
      } else {
        assert Pump(fn, items, i, s).calls == [Recv, Apply(m, re.ok, re.failure), CloseSend];
      }
    }
  }

  /** In `calls`, an answer of the MatchFunc that does not let the loop go on
      is followed only by CloseSend. */
  predicate StopsLast(calls: seq<Call>)
  {
    forall k :: 0 <= k < |calls| && calls[k].Apply? && !Continued(calls[k]) ==>
      k + 2 == |calls| && calls[k + 1] == CloseSend
  }

  /** Once the MatchFunc answers "stop" or fails, it is never called again:
      the only call after it is CloseSend. */
  lemma {:induction false} PumpStopsOnVerdict<S>(fn: (S, MatchObject) -> Reaction<S>, items: seq<Received<MatchObject>>, i: nat, s: S)
    requires i <= |items|
    ensures StopsLast(Pump(fn, items, i, s).calls)
    decreases |items| - i
  {
    if i < |items| && items[i].Item? {
      var m := items[i].value;
      var re := fn(s, m);
      var head := [Recv, Apply(m, re.ok, re.failure)];
      if re.failure.None? && re.ok {
        var rest := Pump(fn, items, i + 1, re.state);
        PumpStopsOnVerdict(fn, items, i + 1, re.state);
        var calls := head + rest.calls;
        assert Pump(fn, items, i, s).calls == calls;
        forall k | 0 <= k < |calls| && calls[k].Apply? && !Continued(calls[k])
          ensures k + 2 == |calls| && calls[k + 1] == CloseSend
        {
          assert k >= 2;
          assert calls[k] == rest.calls[k - 2];
          assert calls[k + 1] == rest.calls[k - 1];
        }
      } else {
        var calls := [Recv, Apply(m, re.ok, re.failure), CloseSend];
        assert Pump(fn, items, i, s).calls == calls;
        forall k | 0 <= k < |calls| && calls[k].Apply? && !Continued(calls[k])
          ensures k + 2 == |calls| && calls[k + 1] == CloseSend
        {
          assert k == 1;
        }
      }
    }
  }

  /** A stop or a failure of the MatchFunc is the second-to-last call. */
  lemma {:induction false} PumpEndsOnVerdict<S>(fn: (S, MatchObject) -> Reaction<S>, items: seq<Received<MatchObject>>, i: nat, s: S)
    requires i <= |items|
    ensures var r := Pump(fn, items, i, s);
      (r.ending.Stopped? ==>
         |r.calls| >= 2 && r.calls[|r.calls| - 2].Apply? &&
         !r.calls[|r.calls| - 2].ok && r.calls[|r.calls| - 2].failure.None?) &&
      (r.ending.FnFailed? ==>
         |r.calls| >= 2 && r.calls[|r.calls| - 2].Apply? &&
         r.calls[|r.calls| - 2].failure == Some(r.ending.error))
    decreases |items| - i
  {
    if i < |items| && items[i].Item? {
      var m := items[i].value;
      var re := fn(s, m);
      var head := [Recv, Apply(m, re.ok, re.failure)];
      if re.failure.None? && re.ok {
        var rest := Pump(fn, items, i + 1, re.state);
        PumpEndsOnVerdict(fn, items, i + 1, re.state);
        var calls := head + rest.calls;
        if rest.ending.Stopped? || rest.ending.FnFailed? {
          assert calls[|calls| - 2] == rest.calls[|rest.calls| - 2];
        }
      }
    }
  }

  /** The calls listMatches makes before its receive loop. */
  lemma PreludeFacts(profile: MatchObject)
    ensures Applied([Dial]) == [] && Count([Dial], CloseSend) == 0
    ensures var pre := [Dial, OpenStream(profile.id)];
      Applied(pre) == [] && Count(pre, CloseSend) == 0
  {
  }

  /** listMatches returns an error on every ending but io.EOF and a stop;
      once the stream is open it is closed exactly once on every exit but
      io.EOF, as the last call. */
  lemma ListedCloses<S>(profile: MatchObject, script: StreamScript, fn: (S, MatchObject) -> Reaction<S>, init: S)
    ensures var r := Listed(profile, script, fn, init);
      (ErrorOf(r.ending).None? <==> r.ending.Eof? || r.ending.Stopped?) &&
      Count(r.calls, CloseSend) == (if r.ending.Eof? || r.ending.DialFailed? || r.ending.OpenFailed? then 0 else 1) &&
      (r.ending.RecvFailed? || r.ending.FnFailed? || r.ending.Stopped? ==> r.calls[|r.calls| - 1] == CloseSend)
  {
    var pre := [Dial, OpenStream(profile.id)];
    PreludeFacts(profile);
    if script.dial.None? && script.open.None? {
      var p := Pump(fn, script.items, 0, init);
      PumpShape(fn, script.items, 0, init);
      PumpCloses(fn, script.items, 0, init);
      CountConcat(pre, p.calls, CloseSend);
      assert Listed(profile, script, fn, init).calls == pre + p.calls;
      assert (pre + p.calls)[|pre + p.calls| - 1] == p.calls[|p.calls| - 1];
    }
  }

  /** The MatchFunc is called with a prefix of the stream's items, in order,
      and with all of them when the session reaches io.EOF. */
  lemma ListedFeeds<S>(profile: MatchObject, script: StreamScript, fn: (S, MatchObject) -> Reaction<S>, init: S)
    ensures var r := Listed(profile, script, fn, init);
      var fed := Applied(r.calls);
      |fed| <= |script.items| && Carries(script.items, 0, fed) &&
      (r.ending.Eof? ==> |fed| == |script.items|)
  {
    var pre := [Dial, OpenStream(profile.id)];
    PreludeFacts(profile);
    if script.dial.None? && script.open.None? {
      var p := Pump(fn, script.items, 0, init);
      PumpFeeds(fn, script.items, 0, init);
      PumpDrains(fn, script.items, 0, init);
      AppliedConcat(pre, p.calls);
      assert Listed(profile, script, fn, init) == Listing(pre + p.calls, p.ending, p.state);
      assert Applied(pre + p.calls) == Applied(p.calls);
    }
  }

  // ---------------------------------------------------------------------
  // sendProfile: the MatchFunc that skips bad matches and caps a session
  // ---------------------------------------------------------------------

  /** The variables the sendProfile closure captures: the counter `j` and the
      matches it has handed to `go allocateForMatch`, in launch order. */
  datatype Counter = Counter(j: int, spawned: seq<MatchObject>)

  /** A match sendProfile acts on: no backend error and well-formed properties
      (`valid` stands for the JSON validity check). */
  predicate Acceptable(valid: string -> bool, m: MatchObject)
  {
    m.error == "" && valid(m.properties)
  }

  function Accepted(valid: string -> bool, ms: seq<MatchObject>): (r: seq<MatchObject>)
    ensures |r| <= |ms|
  {
    if ms == [] then []
    else (if Acceptable(valid, ms[0]) then [ms[0]] else []) + Accepted(valid, ms[1..])
  }

  lemma {:induction false} AcceptedConcat(valid: string -> bool, a: seq<MatchObject>, b: seq<MatchObject>)
    ensures Accepted(valid, a + b) == Accepted(valid, a) + Accepted(valid, b)
  {
    if a == [] {
      assert a + b == b;
    } else {
      var ab := a + b;
      assert ab[0] == a[0];
      assert ab[1..] == a[1..] + b;
      AcceptedConcat(valid, a[1..], b);
      assert Accepted(valid, ab) == (if Acceptable(valid, a[0]) then [a[0]] else []) + Accepted(valid, ab[1..]);
    }
  }

  /** The body of the sendProfile closure for one match. */
  function OnMatch(maxMatchesPerSend: int, valid: string -> bool, c: Counter, m: MatchObject): Reaction<Counter>
  {
    if m.error != "" then Reaction(c, true, None)
    else if !valid(m.properties) then Reaction(c, true, None)
    else
      var j := c.j + 1;
      Reaction(Counter(j, c.spawned + [m]), !(j >= maxMatchesPerSend && maxMatchesPerSend > 0), None)
  }

  function Callback(maxMatchesPerSend: int, valid: string -> bool): (Counter, MatchObject) -> Reaction<Counter>
  {
    (c: Counter, m: MatchObject) => OnMatch(maxMatchesPerSend, valid, c, m)
  }

  /** In `calls`, every match the callback skipped got the answer "continue". */
  predicate SkipsGoOn(valid: string -> bool, calls: seq<Call>)
  {
    forall k :: 0 <= k < |calls| && calls[k].Apply? && !Acceptable(valid, calls[k].candidate) ==>
      Continued(calls[k])
  }

  /** One receive step of a sendProfile session, unfolded. */
  lemma SessionStep(maxMatchesPerSend: int, valid: string -> bool, items: seq<Received<MatchObject>>, i: nat, c: Counter)
    requires i < |items| && items[i].Item?
    ensures var m := items[i].value;
      var re := OnMatch(maxMatchesPerSend, valid, c, m);
      Callback(maxMatchesPerSend, valid)(c, m) == re &&
      Applied([Recv, Apply(m, re.ok, re.failure)]) == [m] &&
      Accepted(valid, [m]) == (if Acceptable(valid, m) then [m] else [])
    ensures var m := items[i].value;
      var re := OnMatch(maxMatchesPerSend, valid, c, m);
      !re.ok ==>
        Pump(Callback(maxMatchesPerSend, valid), items, i, c) ==
        Listing([Recv, Apply(m, re.ok, re.failure)] + [CloseSend], Stopped, re.state)
    ensures var m := items[i].value;
      var re := OnMatch(maxMatchesPerSend, valid, c, m);
      var fn := Callback(maxMatchesPerSend, valid);
      var rest := Pump(fn, items, i + 1, re.state);
      re.ok ==> Pump(fn, items, i, c) == Listing([Recv, Apply(m, re.ok, re.failure)] + rest.calls, rest.ending, rest.state)
  {
    var m := items[i].value;
    var re := OnMatch(maxMatchesPerSend, valid, c, m);
    var head := [Recv, Apply(m, re.ok, re.failure)];
    assert Callback(maxMatchesPerSend, valid)(c, m) == re;
    assert head[1..] == [Apply(m, re.ok, re.failure)];
    assert head[1..][1..] == [];
    assert [m][1..] == [];
  }

  /** The callback launches allocateForMatch for exactly the acceptable
      matches it receives, in arrival order, and `j` counts the launches. */
  lemma {:induction false} SessionLaunches(maxMatchesPerSend: int, valid: string -> bool, items: seq<Received<MatchObject>>, i: nat, c: Counter)
    requires i <= |items|
    requires c.j == |c.spawned|
    ensures var r := Pump(Callback(maxMatchesPerSend, valid), items, i, c);
      r.state.spawned == c.spawned + Accepted(valid, Applied(r.calls)) &&
      r.state.j == |r.state.spawned|
    decreases |items| - i
  {
    var fn := Callback(maxMatchesPerSend, valid);
    if i == |items| {
      EndFacts();
      assert Pump(fn, items, i, c) == Listing([Recv], Eof, c);
      assert c.spawned + [] == c.spawned;
    } else if items[i].Broken? {
      EndFacts();
      assert Pump(fn, items, i, c) == Listing([Recv, CloseSend], RecvFailed(items[i].error), c);
      assert c.spawned + [] == c.spawned;
    } else {
      var m := items[i].value;
      var re := OnMatch(maxMatchesPerSend, valid, c, m);
      var head := [Recv, Apply(m, re.ok, re.failure)];
      var took := if Acceptable(valid, m) then [m] else [];
      SessionStep(maxMatchesPerSend, valid, items, i, c);
      if !re.ok {
        LaunchesStep(valid, c, m, took, head, [CloseSend], re.state, re.state);
      } else {
        var rest := Pump(fn, items, i + 1, re.state);
        SessionLaunches(maxMatchesPerSend, valid, items, i + 1, re.state);
        LaunchesStep(valid, c, m, took, head, rest.calls, re.state, rest.state);
      }
    }
  }

  lemma LaunchesStep(valid: string -> bool, c: Counter, m: MatchObject, took: seq<MatchObject>, head: seq<Call>, calls: seq<Call>, mid: Counter, last: Counter)
    requires Applied(head) == [m]
    requires took == if Acceptable(valid, m) then [m] else []
    requires Accepted(valid, [m]) == took
    requires mid.spawned == c.spawned + took
    requires last.spawned == mid.spawned + Accepted(valid, Applied(calls))
    ensures last.spawned == c.spawned + Accepted(valid, Applied(head + calls))
  {
    var fed := Applied(calls);
    AppliedConcat(head, calls);
    assert Applied(head + calls) == [m] + fed;
    AcceptedConcat(valid, [m], fed);
    var later := Accepted(valid, fed);
    assert Accepted(valid, [m] + fed) == took + later;
    assert (c.spawned + took) + later == c.spawned + (took + later);
  }

  /** The callback never fails, and with a positive cap a session launches at
      most `maxMatchesPerSend` matches and answers "stop" exactly when it has
      launched that many. */
  lemma {:induction false} SessionCap(maxMatchesPerSend: int, valid: string -> bool, items: seq<Received<MatchObject>>, i: nat, c: Counter)
    requires i <= |items|
    requires c.j == |c.spawned|
    requires maxMatchesPerSend > 0 ==> c.j < maxMatchesPerSend
    ensures var r := Pump(Callback(maxMatchesPerSend, valid), items, i, c);
      !r.ending.FnFailed? &&
      (maxMatchesPerSend > 0 ==> |r.state.spawned| <= maxMatchesPerSend) &&
      (r.ending.Stopped? <==> maxMatchesPerSend > 0 && |r.state.spawned| == maxMatchesPerSend)
    decreases |items| - i
  {
    var fn := Callback(maxMatchesPerSend, valid);
    if i == |items| {
      assert Pump(fn, items, i, c) == Listing([Recv], Eof, c);
    } else if items[i].Broken? {
      assert Pump(fn, items, i, c) == Listing([Recv, CloseSend], RecvFailed(items[i].error), c);
    } else {
      var m := items[i].value;
      var re := OnMatch(maxMatchesPerSend, valid, c, m);
      SessionStep(maxMatchesPerSend, valid, items, i, c);
      if re.ok {
        SessionCap(maxMatchesPerSend, valid, items, i + 1, re.state);
        assert Pump(fn, items, i, c).state == Pump(fn, items, i + 1, re.state).state;
        assert Pump(fn, items, i, c).ending == Pump(fn, items, i + 1, re.state).ending;
      } else {
        assert Pump(fn, items, i, c).state == re.state && Pump(fn, items, i, c).ending == Stopped;
      }
    }
  }

  /** A match the callback skips never stops the session. */
  lemma {:induction false} SessionSkips(maxMatchesPerSend: int, valid: string -> bool, items: seq<Received<MatchObject>>, i: nat, c: Counter)
    requires i <= |items|
    ensures SkipsGoOn(valid, Pump(Callback(maxMatchesPerSend, valid), items, i, c).calls)
    decreases |items| - i
  {
    var fn := Callback(maxMatchesPerSend, valid);
    if i == |items| {
      assert Pump(fn, items, i, c).calls == [Recv];
    } else if items[i].Broken? {
      assert Pump(fn, items, i, c).calls == [Recv, CloseSend];
    } else {
      var m := items[i].value;
      var re := OnMatch(maxMatchesPerSend, valid, c, m);
      var head := [Recv, Apply(m, re.ok, re.failure)];
      SessionStep(maxMatchesPerSend, valid, items, i, c);
      if !re.ok {
        var calls := head + [CloseSend];
        assert Pump(fn, items, i, c).calls == calls;
        assert Acceptable(valid, m);
        forall k | 0 <= k < |calls| && calls[k].Apply?
          ensures calls[k].candidate == m
        {
          assert k == 1;
        }
      } else {
        var rest := Pump(fn, items, i + 1, re.state);
        SessionSkips(maxMatchesPerSend, valid, items, i + 1, re.state);
        var calls := head + rest.calls;
        assert Pump(fn, items, i, c).calls == calls;
        forall k | 0 <= k < |calls| && calls[k].Apply? && !Acceptable(valid, calls[k].candidate)
          ensures Continued(calls[k])
        {
          if k >= 2 {
            assert calls[k] == rest.calls[k - 2];
          }
        }
      }
    }
  }

  /** What one sendProfile call did: the calls of its listMatches session,
      the matches it launched allocateForMatch for, and the logged error. */
  datatype Sent = Sent(calls: seq<Call>, spawned: seq<MatchObject>, err: Option<string>)

  function SendOutcome(profile: MatchObject, maxMatchesPerSend: int, valid: string -> bool, script: StreamScript): Sent
  {
    var r := Listed(profile, script, Callback(maxMatchesPerSend, valid), Counter(0, []));
    Sent(r.calls, r.state.spawned, ErrorOf(r.ending))
  }

  /** sendProfile launches allocateForMatch for exactly the acceptable
      matches among those it received, in arrival order. */
  lemma SendLaunches(profile: MatchObject, maxMatchesPerSend: int, valid: string -> bool, script: StreamScript)
    ensures var r := Listed(profile, script, Callback(maxMatchesPerSend, valid), Counter(0, []));
      r.state.spawned == Accepted(valid, Applied(r.calls))
  {
    var pre := [Dial, OpenStream(profile.id)];
    var fn := Callback(maxMatchesPerSend, valid);
    PreludeFacts(profile);
    if script.dial.Some? {
      assert Listed(profile, script, fn, Counter(0, [])) == Listing([Dial], DialFailed(script.dial.value), Counter(0, []));
    } else if script.open.Some? {
      assert Listed(profile, script, fn, Counter(0, [])) == Listing(pre, OpenFailed(script.open.value), Counter(0, []));
    } else {
      var p := Pump(fn, script.items, 0, Counter(0, []));
      SessionLaunches(maxMatchesPerSend, valid, script.items, 0, Counter(0, []));
      PrefixLaunches(valid, pre, p.calls, p.state.spawned);
      assert Listed(profile, script, fn, Counter(0, [])) == Listing(pre + p.calls, p.ending, p.state);
    }
  }

  lemma PrefixLaunches(valid: string -> bool, pre: seq<Call>, calls: seq<Call>, spawned: seq<MatchObject>)
    requires Applied(pre) == []
    requires spawned == [] + Accepted(valid, Applied(calls))
    ensures spawned == Accepted(valid, Applied(pre + calls))
  {
    AppliedConcat(pre, calls);
    assert [] + Applied(calls) == Applied(calls);
    assert [] + Accepted(valid, Applied(calls)) == Accepted(valid, Applied(calls));
  }

  /** sendProfile's callback never fails; with a positive cap a session
      launches at most `maxMatchesPerSend` matches, and it ends early by the
      callback's "stop" exactly when it launched that many. */
  lemma SendCap(profile: MatchObject, maxMatchesPerSend: int, valid: string -> bool, script: StreamScript)
    ensures var r := Listed(profile, script, Callback(maxMatchesPerSend, valid), Counter(0, []));
      !r.ending.FnFailed? &&
      (maxMatchesPerSend > 0 ==> |r.state.spawned| <= maxMatchesPerSend) &&
      (r.ending.Stopped? <==> maxMatchesPerSend > 0 && |r.state.spawned| == maxMatchesPerSend)
  {
    if script.dial.None? && script.open.None? {
      SessionCap(maxMatchesPerSend, valid, script.items, 0, Counter(0, []));
    }
  }

  /** A match sendProfile skips (backend error or malformed properties) never
      ends its session. */
  lemma SendSkips(profile: MatchObject, maxMatchesPerSend: int, valid: string -> bool, script: StreamScript)
    ensures SkipsGoOn(valid, Listed(profile, script, Callback(maxMatchesPerSend, valid), Counter(0, [])).calls)
  {
    var pre := [Dial, OpenStream(profile.id)];
    var fn := Callback(maxMatchesPerSend, valid);
    if script.dial.None? && script.open.None? {
      var p := Pump(fn, script.items, 0, Counter(0, []));
      SessionSkips(maxMatchesPerSend, valid, script.items, 0, Counter(0, []));
      var calls := pre + p.calls;
      assert Listed(profile, script, fn, Counter(0, [])).calls == calls;
      forall k | 0 <= k < |calls| && calls[k].Apply? && !Acceptable(valid, calls[k].candidate)
        ensures Continued(calls[k])
      {
        assert calls[k] == p.calls[k - 2];
      }
    } else if script.dial.Some? {
      assert Listed(profile, script, fn, Counter(0, [])).calls == [Dial];
    } else {
      assert Listed(profile, script, fn, Counter(0, [])).calls == pre;
    }
  }

  method SendProfile(profile: MatchObject, maxMatchesPerSend: int, valid: string -> bool, script: StreamScript)
    returns (sent: Sent)
    ensures sent == SendOutcome(profile, maxMatchesPerSend, valid, script)
  {
    var calls, err, final := ListMatches(profile, script, Callback(maxMatchesPerSend, valid), Counter(0, []));
    sent := Sent(calls, final.spawned, err);
  }

  // ---------------------------------------------------------------------
  // startSendProfile: repeated sessions with sleeps in between
  // ---------------------------------------------------------------------

  /** The loop guard of startSendProfile: a non-positive maxSends means no bound. */
  predicate Continues(i: int, maxSends: int)
  {
    i < maxSends || maxSends <= 0
  }

  /** Whether startSendProfile sleeps after its `i`-th send. */
  predicate SleepsAfter(i: int, maxSends: int)
  {
    i < maxSends - 1 || maxSends <= 0
  }

  /** Whether startSendProfile slept after each of its first `n` sends. */
  function Naps(n: nat, maxSends: int): (slept: seq<bool>)
    ensures |slept| == n
    ensures forall k :: 0 <= k < n ==> slept[k] == SleepsAfter(k, maxSends)
  {
    if n == 0 then [] else Naps(n - 1, maxSends) + [SleepsAfter(n - 1, maxSends)]
  }

  /** startSendProfile sleeps between sends but not after the last one:
      `maxSends - 1` naps for `maxSends` sends, and a nap after every send
      when the number of sends is unbounded. */
  lemma {:induction false} NapsBetween(n: nat, maxSends: int)
    requires maxSends > 0 ==> n <= maxSends
    ensures Count(Naps(n, maxSends), true) == if maxSends > 0 && n == maxSends then n - 1 else n
  {
    if n > 0 {
      NapsBetween(n - 1, maxSends);
      CountConcat(Naps(n - 1, maxSends), [SleepsAfter(n - 1, maxSends)], true);
      assert [SleepsAfter(n - 1, maxSends)][1..] == [];
    }
  }

  /** startSendProfile. With `maxSends > 0` it sends the profile exactly
      `maxSends` times and sleeps between sends; otherwise it never stops, and
      the model runs it for as many sessions as `scripts` describes. */
  method StartSendProfile(profile: MatchObject, maxSends: int, maxMatchesPerSend: int, valid: string -> bool, scripts: seq<StreamScript>)
    returns (sent: seq<Sent>, slept: seq<bool>)
    requires maxSends > 0 ==> maxSends <= |scripts|
    ensures |sent| == (if maxSends > 0 then maxSends else |scripts|)
    ensures forall k :: 0 <= k < |sent| ==> sent[k] == SendOutcome(profile, maxMatchesPerSend, valid, scripts[k])
    ensures slept == Naps(|sent|, maxSends)
  {
    sent, slept := [], [];
    var i := 0;
    while Continues(i, maxSends) && i < |scripts|
      invariant 0 <= i <= |scripts|
      invariant maxSends > 0 ==> i <= maxSends
      invariant |sent| == i
      invariant forall k :: 0 <= k < i ==> sent[k] == SendOutcome(profile, maxMatchesPerSend, valid, scripts[k])
      invariant slept == Naps(i, maxSends)
    {
      var one := SendProfile(profile, maxMatchesPerSend, valid, scripts[i]);
      sent := sent + [one];
      slept := slept + [SleepsAfter(i, maxSends)];
      i := i + 1;
    }
  }

  // ---------------------------------------------------------------------
  // allocateForMatch: allocate with retries, then assign or compensate
  // ---------------------------------------------------------------------

  /** The outcome of one allocator.Allocate call. */
  datatype Attempt = Granted(connstring: string) | Refused(error: string)

  /** The environment of one allocateForMatch run. `staleErr` is the value the
      package-level `err` holds on entry; `attempts` are the outcomes of the
      Allocate calls the backoff ticker allows before its budget runs out;
      `dial`, `delete`, `assign` and `unallocate` are the outcomes of creating
      the backend client, DeleteMatch, CreateAssignments and UnAllocate. The
      outcomes of DeleteMatch and UnAllocate are only logged and change no
      later call, so no operation reads `delete` or `unallocate`. */
  datatype AllocScript = AllocScript(
    staleErr: Option<string>,
    attempts: seq<Attempt>,
    dial: Option<string>,
    delete: Option<string>,
    assign: Option<string>,
    unallocate: Option<string>)

  /** Index of the first granted attempt, or the number of attempts. */
  function FirstGrant(attempts: seq<Attempt>): (k: nat)
    ensures k <= |attempts|
    ensures forall j :: 0 <= j < k ==> attempts[j].Refused?
    ensures k < |attempts| ==> attempts[k].Granted?
  {
    if attempts == [] || attempts[0].Granted? then 0 else 1 + FirstGrant(attempts[1..])
  }

  /** The package-level `err` once the retry loop is over. */
  function LastErr(script: AllocScript): Option<string>
  {
    var k := FirstGrant(script.attempts);
    if k < |script.attempts| then None
    else if script.attempts == [] then script.staleErr
    else Some(script.attempts[|script.attempts| - 1].error)
  }

  /** The connection string once the retry loop is over. */
  function ConnString(script: AllocScript): string
  {
    var k := FirstGrant(script.attempts);
    if k < |script.attempts| then script.attempts[k].connstring else ""
  }

  /** The number of Allocate calls: up to and including the first success. */
  function Tries(attempts: seq<Attempt>): nat
  {
    var k := FirstGrant(attempts);
    if k < |attempts| then k + 1 else |attempts|
  }

  /** The calls allocateForMatch makes once the retry loop is over. */
  function Aftermath(m: MatchObject, script: AllocScript): seq<Call>
  {
    if LastErr(script).Some? then
      [Dial] + (if script.dial.Some? then [] else [DeleteMatch(m.id)])
    else
      var conn := ConnString(script);
      [Dial] +
      (if script.dial.Some? then []
       else [CreateAssignments(m.rosters, conn)] + (if script.assign.Some? then [UnAllocate(conn)] else []))
  }

  /** The calls of one allocateForMatch run. */
  function Saga(m: MatchObject, script: AllocScript): seq<Call>
  {
    Repeat(Allocate(m.id), Tries(script.attempts)) + Aftermath(m, script)
  }

  /** allocateForMatch: retries Allocate until the first success or until
      the backoff budget is spent; on failure deletes the match, on success
      submits the assignment and releases the server if that fails. Returns
      the calls made and the final value of the package-level `err`. */
  method AllocateForMatch(m: MatchObject, script: AllocScript) returns (calls: seq<Call>, err: Option<string>)
    ensures calls == Saga(m, script)
    ensures err == LastErr(script)
  {
    var attempts := script.attempts;
    var connstring := "";
    err := script.staleErr;
    calls := [];
    var i := 0;
    while i < |attempts|
      invariant 0 <= i <= |attempts|
      invariant forall j :: 0 <= j < i ==> attempts[j].Refused?
      invariant calls == Repeat(Allocate(m.id), i)
      invariant connstring == ""
      invariant err == if i == 0 then script.staleErr else Some(attempts[i - 1].error)
    {
      calls := calls + [Allocate(m.id)];
      match attempts[i] {
        case Refused(e) =>
          connstring, err := "", Some(e);
        case Granted(c) =>
          connstring, err := c, None;
          break;
      }
      i := i + 1;
    }
    assert i < |attempts| ==> FirstGrant(attempts) == i;
    assert i == |attempts| ==> FirstGrant(attempts) == i;
    if err.Some? {
      calls := calls + [Dial];
      if script.dial.Some? {
        return;
      }
      calls := calls + [DeleteMatch(m.id)];
      return;
    }
    calls := calls + [Dial];
    if script.dial.Some? {
      return;
    }
    calls := calls + [CreateAssignments(m.rosters, connstring)];
    if script.assign.Some? {
      calls := calls + [UnAllocate(connstring)];
    }
  }

  /** Only the retry loop calls Allocate, and it stops at the first success. */
  lemma SagaRetries(m: MatchObject, script: AllocScript)
    ensures var k := FirstGrant(script.attempts);
      Count(Saga(m, script), Allocate(m.id)) == (if k < |script.attempts| then k + 1 else |script.attempts|)
  {
    var tries := Repeat(Allocate(m.id), Tries(script.attempts));
    var tail := Aftermath(m, script);
    CountRepeat(Allocate(m.id), Tries(script.attempts), Allocate(m.id));
    CountConcat(tries, tail, Allocate(m.id));
    if LastErr(script).Some? {
      assert tail == [Dial] || tail == [Dial, DeleteMatch(m.id)];
    } else {
      var conn := ConnString(script);
      assert tail == [Dial] || tail == [Dial, CreateAssignments(m.rosters, conn)] ||
        tail == [Dial, CreateAssignments(m.rosters, conn), UnAllocate(conn)];
    }
  }

  /** Calls after the retry loop, other than Allocate, are the aftermath's. */
  lemma AftermathCounts(m: MatchObject, script: AllocScript, x: Call)
    requires !x.Allocate?
    ensures Count(Saga(m, script), x) == Count(Aftermath(m, script), x)
    ensures x in Saga(m, script) <==> x in Aftermath(m, script)
  {
    var tries := Repeat(Allocate(m.id), Tries(script.attempts));
    CountRepeat(Allocate(m.id), Tries(script.attempts), x);
    CountConcat(tries, Aftermath(m, script), x);
  }

  /** When every attempt failed, the match is deleted once (if a backend
      client could be created), and it is neither assigned nor released. */
  lemma SagaGivesUp(m: MatchObject, script: AllocScript)
    requires script.attempts != [] && FirstGrant(script.attempts) == |script.attempts|
    ensures Count(Saga(m, script), DeleteMatch(m.id)) == (if script.dial.None? then 1 else 0)
    ensures forall c :: c in Saga(m, script) ==> !c.CreateAssignments? && !c.UnAllocate?
  {
    var tail := Aftermath(m, script);
    AftermathCounts(m, script, DeleteMatch(m.id));
    if script.dial.None? {
      assert tail == [Dial, DeleteMatch(m.id)];
      assert tail[1..] == [DeleteMatch(m.id)];
      assert tail[1..][1..] == [];
    } else {
      assert tail == [Dial];
      assert tail[1..] == [];
    }
    forall c | c in Saga(m, script) ensures !c.CreateAssignments? && !c.UnAllocate? {
      if !c.Allocate? {
        AftermathCounts(m, script, c);
      }
    }
  }

  /** After a success the match's rosters are assigned once to the granted
      connection string, if a backend client could be created. */
  lemma SagaAssigns(m: MatchObject, script: AllocScript)
    requires FirstGrant(script.attempts) < |script.attempts|
    ensures var conn := script.attempts[FirstGrant(script.attempts)].connstring;
      Count(Saga(m, script), CreateAssignments(m.rosters, conn)) == (if script.dial.None? then 1 else 0)
  {
    var conn := script.attempts[FirstGrant(script.attempts)].connstring;
    var x := CreateAssignments(m.rosters, conn);
    var tail := Aftermath(m, script);
    assert LastErr(script).None? && ConnString(script) == conn;
    AftermathCounts(m, script, x);
    if script.dial.Some? {
      assert tail == [Dial];
      assert tail[1..] == [];
    } else {
      var rest := if script.assign.Some? then [UnAllocate(conn)] else [];
      assert tail == [Dial, x] + rest;
      assert tail[1..] == [x] + rest;
      assert tail[1..][1..] == rest;
      assert Count(rest, x) == 0;
    }
  }

  /** After a success the server is released, with the granted connection
      string, exactly when the assignment failed. */
  lemma SagaReleases(m: MatchObject, script: AllocScript)
    requires FirstGrant(script.attempts) < |script.attempts|
    ensures var conn := script.attempts[FirstGrant(script.attempts)].connstring;
      Count(Saga(m, script), UnAllocate(conn)) == (if script.dial.None? && script.assign.Some? then 1 else 0)
  {
    var conn := script.attempts[FirstGrant(script.attempts)].connstring;
    var x := UnAllocate(conn);
    var tail := Aftermath(m, script);
    assert LastErr(script).None? && ConnString(script) == conn;
    AftermathCounts(m, script, x);
    if script.dial.Some? {
      assert tail == [Dial];
      assert tail[1..] == [];
    } else if script.assign.Some? {
      assert tail == [Dial, CreateAssignments(m.rosters, conn), x];
      assert tail[1..] == [CreateAssignments(m.rosters, conn), x];
      assert tail[1..][1..] == [x];
      assert tail[1..][1..][1..] == [];
    } else {
      assert tail == [Dial, CreateAssignments(m.rosters, conn)];
      assert tail[1..] == [CreateAssignments(m.rosters, conn)];
      assert tail[1..][1..] == [];
    }
  }

  /** After a success the match is never deleted, and every assignment and
      release uses the granted connection string. */
  lemma SagaKeeps(m: MatchObject, script: AllocScript)
    requires FirstGrant(script.attempts) < |script.attempts|
    ensures var conn := script.attempts[FirstGrant(script.attempts)].connstring;
      forall c :: c in Saga(m, script) ==>
        !c.DeleteMatch? &&
        (c.CreateAssignments? ==> c == CreateAssignments(m.rosters, conn)) &&
        (c.UnAllocate? ==> c == UnAllocate(conn))
  {
    var conn := script.attempts[FirstGrant(script.attempts)].connstring;
    var tail := Aftermath(m, script);
    assert LastErr(script).None? && ConnString(script) == conn;
    assert tail == [Dial] || tail == [Dial, CreateAssignments(m.rosters, conn)] ||
      tail == [Dial, CreateAssignments(m.rosters, conn), UnAllocate(conn)];
    forall c | c in Saga(m, script)
      ensures !c.DeleteMatch? && (c.CreateAssignments? ==> c == CreateAssignments(m.rosters, conn)) &&
        (c.UnAllocate? ==> c == UnAllocate(conn))
    {
      if !c.Allocate? {
        AftermathCounts(m, script, c);
      }
    }
  }
}
