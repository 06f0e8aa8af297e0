/** Messages exchanged with the matchmaking backend, the scripted outcomes of
    remote calls, and the trace of calls the director makes. */
module Messages {

  datatype Option<+T> = None | Some(value: T)

  datatype Result<+T> = Ok(value: T) | Err(error: string)

  /** Aggregate statistics of a player pool (only the player count is used). */
  datatype Stats = Stats(count: int)

  datatype Player = Player(id: string)

  /** A named team: an ordered sequence of players. */
  datatype Roster = Roster(name: string, players: seq<Player>)

  /** A named pool of players; `stats` and `roster` are optional messages (nil in the wire format). */
  datatype PlayerPool = PlayerPool(name: string, stats: Option<Stats>, roster: Option<Roster>)

  /** A match profile, or a candidate match produced for one. `error` is empty on success. */
  datatype MatchObject = MatchObject(
    id: string,
    properties: string,
    error: string,
    rosters: seq<Roster>,
    pools: seq<PlayerPool>)

  /** The outcome of one `Recv` on a server stream: an item, or a transport error.
      A stream is scripted as a finite sequence of these; a `Recv` past its end
      returns io.EOF, the server's ordinary end of stream. */
  datatype Received<+T> = Item(value: T) | Broken(error: string)

  /** A call the director makes: on the backend client and its match stream,
      on the game-server allocator, or on the clock. */
  datatype Call =
    | Dial                                          // getBackendAPIClient
    | OpenStream(profileId: string)                 // opens the match stream
    | Recv
    | CloseSend
    | Apply(candidate: MatchObject, ok: bool, failure: Option<string>)  // a MatchFunc and what it returned
    | Allocate(matchId: string)
    | DeleteMatch(matchId: string)
    | CreateAssignments(rosters: seq<Roster>, assignment: string)
    | UnAllocate(connstring: string)
    | Sleep
    | Launch(profileId: string)                     // a goroutine sending one profile

  /** Number of occurrences of `x` in `s`. */
  function Count<T(==)>(s: seq<T>, x: T): (n: nat)
    ensures n <= |s|
    ensures n == 0 <==> x !in s
  {
    if s == [] then 0 else (if s[0] == x then 1 else 0) + Count(s[1..], x)
  }

  lemma {:induction false} CountConcat<T>(a: seq<T>, b: seq<T>, x: T)
    ensures Count(a + b, x) == Count(a, x) + Count(b, x)
  {
    if a == [] {
      assert a + b == b;
    } else {
      var ab := a + b;
      assert ab[0] == a[0];
      assert ab[1..] == a[1..] + b;
      CountConcat(a[1..], b, x);
    }
  }

  /** `n` copies of `x`. */
  function Repeat<T>(x: T, n: nat): (s: seq<T>)
    ensures |s| == n
    ensures forall k :: 0 <= k < n ==> s[k] == x
  {
    if n == 0 then [] else Repeat(x, n - 1) + [x]
  }

  lemma {:induction false} CountRepeat<T>(x: T, n: nat, y: T)
    ensures Count(Repeat(x, n), y) == if x == y then n else 0
  {
    if n > 0 {
      CountConcat(Repeat(x, n - 1), [x], y);
      CountRepeat(x, n - 1, y);
    }
  }
}
