/**
 * The score ledger of the game: the players with their running scores, the
 * append-only history of score entries, and the counter that numbers those
 * entries. Ids and timestamps, which the source takes from the clock, are
 * supplied by the caller.
 */
module ScoreLedger {
  import opened Wrappers
  import opened JsText

  datatype Player = Player(id: int, name: string, score: int, createdAt: string)

  /** One score entry; `round` numbers the entries of a sitting from 1. */
  datatype RoundEntry = RoundEntry(id: int, playerId: int, playerName: string, points: int, timestamp: string, round: int)

  /** `players.find(p => p.id === id)`, as the index of the first match. */
  function FirstWithId(players: seq<Player>, id: int): (r: Option<nat>)
    ensures r.None? <==> forall k :: 0 <= k < |players| ==> players[k].id != id
    ensures r.Some? ==> r.value < |players| && players[r.value].id == id
                        && forall k :: 0 <= k < r.value ==> players[k].id != id
  {
    if players == [] then None
    else if players[0].id == id then Some(0)
    else match FirstWithId(players[1..], id)
      case None => None
      case Some(k) => Some(k + 1)
  }

  /** `players.filter(p => p.id !== id)`. */
  function WithoutId(players: seq<Player>, id: int): (r: seq<Player>)
    ensures forall p :: p in r <==> p in players && p.id != id
  {
    if players == [] then []
    else (if players[0].id == id then [] else [players[0]]) + WithoutId(players[1..], id)
  }

  /** The kept players stay in their order: filtering distributes over concatenation. */
  lemma {:induction false} WithoutIdAppend(a: seq<Player>, b: seq<Player>, id: int)
    ensures WithoutId(a + b, id) == WithoutId(a, id) + WithoutId(b, id)
  {
    if a == [] {
      assert a + b == b;
    } else {
      assert (a + b)[0] == a[0] && (a + b)[1..] == a[1..] + b;
      WithoutIdAppend(a[1..], b, id);
    }
  }

  /** Removing an id nobody has changes nothing. */
  lemma {:induction false} WithoutAbsentId(players: seq<Player>, id: int)
    requires forall p :: p in players ==> p.id != id
    ensures WithoutId(players, id) == players
  {
    if players != [] {
      WithoutAbsentId(players[1..], id);
    }
  }

  predicate DistinctIds(players: seq<Player>) {
    forall i, j :: 0 <= i < j < |players| ==> players[i].id != players[j].id
  }

  lemma {:induction false} WithoutIdKeepsDistinct(players: seq<Player>, id: int)
    requires DistinctIds(players)
    ensures DistinctIds(WithoutId(players, id))
  {
    if players != [] {
      var rest := WithoutId(players[1..], id);
      WithoutIdKeepsDistinct(players[1..], id);
      if players[0].id != id {
        forall q | q in rest ensures q.id != players[0].id {
          var k :| 0 <= k < |players[1..]| && players[1..][k] == q;
          assert players[k + 1] == q;
        }
        var r := [players[0]] + rest;
        forall i, j | 0 <= i < j < |r| ensures r[i].id != r[j].id {
          if i == 0 {
            assert r[j] in rest;
          } else {
            assert r[i] == rest[i - 1] && r[j] == rest[j - 1];
          }
        }
      }
    }
  }

  /** The sum of the points of the entries recorded for `id`. */
  function PointsFor(rounds: seq<RoundEntry>, id: int): int {
    if rounds == [] then 0
    else (if rounds[0].playerId == id then rounds[0].points else 0) + PointsFor(rounds[1..], id)
  }

  /** Appending an entry adds its points to its own player's sum and to no other. */
  lemma {:induction false} PointsForAppend(rounds: seq<RoundEntry>, entry: RoundEntry, id: int)
    ensures PointsFor(rounds + [entry], id) == PointsFor(rounds, id) + (if entry.playerId == id then entry.points else 0)
  {
    if rounds != [] {
      assert (rounds + [entry])[1..] == rounds[1..] + [entry];
      PointsForAppend(rounds[1..], entry, id);
    } else {
      assert [entry][1..] == [];
    }
  }

  /** A player with no entries has a sum of zero. */
  lemma {:induction false} PointsForAbsent(rounds: seq<RoundEntry>, id: int)
    requires forall e :: e in rounds ==> e.playerId != id
    ensures PointsFor(rounds, id) == 0
  {
    if rounds != [] {
      PointsForAbsent(rounds[1..], id);
    }
  }

  predicate NonIncreasing(players: seq<Player>) {
    forall i, j :: 0 <= i < j < |players| ==> players[i].score >= players[j].score
  }

  /** The players with score `s`, in the order they appear. */
  function WithScore(players: seq<Player>, s: int): seq<Player> {
    if players == [] then []
    else (if players[0].score == s then [players[0]] else []) + WithScore(players[1..], s)
  }

  /** Insert `p` before the first player of `sorted` whose score is not above its own. */
  function InsertByScore(p: Player, sorted: seq<Player>): seq<Player> {
    if sorted == [] || p.score >= sorted[0].score then [p] + sorted
    else [sorted[0]] + InsertByScore(p, sorted[1..])
  }

  /** Inserting adds exactly `p` to the players. */
  lemma {:induction false} InsertByScorePermutes(p: Player, sorted: seq<Player>)
    ensures multiset(InsertByScore(p, sorted)) == multiset(sorted) + multiset{p}
  {
    if sorted != [] && p.score < sorted[0].score {
      InsertByScorePermutes(p, sorted[1..]);
      assert sorted == [sorted[0]] + sorted[1..];
    }
  }

  /** Inserting under a bound every score already respects keeps every score under it. */
  lemma {:induction false} InsertByScoreBounded(p: Player, sorted: seq<Player>, bound: int)
    requires p.score <= bound
    requires forall q :: q in sorted ==> q.score <= bound
    ensures forall q :: q in InsertByScore(p, sorted) ==> q.score <= bound
  {
    if sorted != [] && p.score < sorted[0].score {
      InsertByScoreBounded(p, sorted[1..], bound);
    }
  }

  /** Inserting keeps the order by descending score. */
  lemma {:induction false} InsertByScoreSorted(p: Player, sorted: seq<Player>)
    requires NonIncreasing(sorted)
    ensures NonIncreasing(InsertByScore(p, sorted))
  {
    var r := InsertByScore(p, sorted);
    if sorted == [] || p.score >= sorted[0].score {
      assert r == [p] + sorted;
      forall i, j | 0 <= i < j < |r| ensures r[i].score >= r[j].score {
        assert r[j] == sorted[j - 1];
        if i > 0 {
          assert r[i] == sorted[i - 1];
        }
      }
    } else {
      var top := sorted[0].score;
      var tail := InsertByScore(p, sorted[1..]);
      assert r == [sorted[0]] + tail;
      InsertByScoreSorted(p, sorted[1..]);
      forall q | q in sorted[1..] ensures q.score <= top {
        var k :| 0 <= k < |sorted[1..]| && sorted[1..][k] == q;
        assert sorted[k + 1] == q;
      }
      InsertByScoreBounded(p, sorted[1..], top);
      forall i, j | 0 <= i < j < |r| ensures r[i].score >= r[j].score {
        assert r[j] == tail[j - 1];
        if i > 0 {
          assert r[i] == tail[i - 1];
        } else {
          assert r[j] in tail;
        }
      }
    }
  }

  /**
   * `[...players].sort((a, b) => b.score - a.score)`. JavaScript's sort is
   * stable, so this is the stable sort by descending score.
   */
  function SortByScore(players: seq<Player>): (r: seq<Player>)
    ensures NonIncreasing(r)
    ensures multiset(r) == multiset(players)
  {
    if players == [] then []
    else
      var rest := SortByScore(players[1..]);
      InsertByScoreSorted(players[0], rest);
      InsertByScorePermutes(players[0], rest);
      assert players == [players[0]] + players[1..];
      InsertByScore(players[0], rest)
  }

  /** The inserted player goes before the already placed players of its score. */
  lemma {:induction false} InsertByScoreStable(p: Player, sorted: seq<Player>, s: int)
    requires NonIncreasing(sorted)
    ensures WithScore(InsertByScore(p, sorted), s) == (if p.score == s then [p] else []) + WithScore(sorted, s)
  {
    var mine := if p.score == s then [p] else [];
    if sorted == [] || p.score >= sorted[0].score {
      assert InsertByScore(p, sorted) == [p] + sorted;
      assert ([p] + sorted)[0] == p && ([p] + sorted)[1..] == sorted;
    } else {
      var tail := InsertByScore(p, sorted[1..]);
      var r := [sorted[0]] + tail;
      var head := if sorted[0].score == s then [sorted[0]] else [];
      assert InsertByScore(p, sorted) == r;
      InsertByScoreStable(p, sorted[1..], s);
      assert r[0] == sorted[0] && r[1..] == tail;
      assert WithScore(r, s) == head + WithScore(tail, s);
      assert WithScore(sorted, s) == head + WithScore(sorted[1..], s);
      assert WithScore(tail, s) == mine + WithScore(sorted[1..], s);
      assert head == [] || mine == [];
    }
  }

  /** Stability: the players of each score come out in the order they went in. */
  lemma {:induction false} SortByScoreStable(players: seq<Player>)
    ensures forall s :: WithScore(SortByScore(players), s) == WithScore(players, s)
  {
    if players != [] {
      SortByScoreStable(players[1..]);
      forall s ensures WithScore(SortByScore(players), s) == WithScore(players, s) {
        InsertByScoreStable(players[0], SortByScore(players[1..]), s);
      }
    }
  }

  /** `[...xs].reverse()`. */
  function Reversed<T>(xs: seq<T>): (r: seq<T>)
    ensures |r| == |xs|
  {
    if xs == [] then [] else Reversed(xs[1..]) + [xs[0]]
  }

  /** The k-th element of the reversed sequence is the k-th from the end of the original. */
  lemma {:induction false} ReversedIndex<T>(xs: seq<T>)
    ensures forall k :: 0 <= k < |xs| ==> Reversed(xs)[k] == xs[|xs| - 1 - k]
  {
    if xs != [] {
      ReversedIndex(xs[1..]);
    }
  }

  /** Reversing the history view twice gives back the storage order. */
  lemma ReversedTwice<T>(xs: seq<T>)
    ensures Reversed(Reversed(xs)) == xs
  {
    ReversedIndex(xs);
    ReversedIndex(Reversed(xs));
  }

  class GameState {
    var players: seq<Player>
    var rounds: seq<RoundEntry>
    var currentRound: int

    /**
     * The ledger invariant: ids are distinct, every score is the sum of the
     * player's entries, and the entries are numbered 1, 2, ... in storage
     * order by a counter that has reached their number.
     */
    ghost predicate Consistent()
      reads this
    {
      && DistinctIds(players)
      && (forall p :: p in players ==> p.score == PointsFor(rounds, p.id))
      && (forall k :: 0 <= k < |rounds| ==> rounds[k].round == k + 1)
      && currentRound == |rounds|
    }

    /** `id` belongs to no player and to no recorded entry. */
    predicate IsFreshId(id: int)
      reads this
    {
      (forall p :: p in players ==> p.id != id) && (forall e :: e in rounds ==> e.playerId != id)
    }

    /**
     * Players and entries come back from storage (absent keys as empty), but
     * the counter always starts at 0; so the invariant holds after a reload
     * only when no entries were stored.
     */
    constructor (storedPlayers: seq<Player>, storedRounds: seq<RoundEntry>)
      ensures players == storedPlayers && rounds == storedRounds && currentRound == 0
      ensures storedRounds == [] && DistinctIds(storedPlayers) && (forall p :: p in storedPlayers ==> p.score == 0)
              ==> Consistent()
      ensures storedRounds != [] ==> !Consistent()
    {
      players := storedPlayers;
      rounds := storedRounds;
      currentRound := 0;
    }

    /**
     * Rejects a name that is empty or white space only, changing nothing;
     * otherwise appends one player with the trimmed name and score 0.
     */
    method AddPlayer(name: string, id: int, createdAt: string) returns (added: Option<Player>)
      modifies this
      ensures IsBlank(name) ==> added == None && players == old(players)
      ensures !IsBlank(name) ==> added == Some(Player(id, Trim(name), 0, createdAt))
                                 && players == old(players) + [added.value]
      ensures rounds == old(rounds) && currentRound == old(currentRound)
      ensures old(Consistent()) && old(IsFreshId(id)) ==> Consistent()
    {
      var trimmed := Trim(name);
      TrimEmptyIffBlank(name);
      if trimmed == [] {
        return None;
      }
      var player := Player(id, trimmed, 0, createdAt);
      if IsFreshId(id) {
        PointsForAbsent(rounds, id);
      }
      players := players + [player];
      added := Some(player);
    }

    /** Drops every player with this id; the history is left alone. */
    method RemovePlayer(id: int)
      modifies this
      ensures players == WithoutId(old(players), id)
      ensures rounds == old(rounds) && currentRound == old(currentRound)
      ensures old(Consistent()) ==> Consistent()
    {
      if DistinctIds(players) {
        WithoutIdKeepsDistinct(players, id);
      }
      players := WithoutId(players, id);
    }

    /**
     * Rejects an unknown id, changing nothing. Otherwise adds `points` to the
     * first player with that id and appends one entry, with a snapshot of
     * the name, numbered by the incremented counter.
     */
    method AddScore(playerId: int, points: int, entryId: int, timestamp: string) returns (ok: bool)
      modifies this
      ensures ok == FirstWithId(old(players), playerId).Some?
      ensures !ok ==> players == old(players) && rounds == old(rounds) && currentRound == old(currentRound)
      ensures ok ==>
                var k := FirstWithId(old(players), playerId).value;
                var p := old(players)[k];
                && players == old(players)[k := p.(score := p.score + points)]
                && currentRound == old(currentRound) + 1
                && rounds == old(rounds) + [RoundEntry(entryId, playerId, p.name, points, timestamp, currentRound)]
      ensures old(Consistent()) ==> Consistent()
    {
      var found := FirstWithId(players, playerId);
      if found.None? {
        return false;
      }
      var k := found.value;
      var p := players[k];
      currentRound := currentRound + 1;
      var entry := RoundEntry(entryId, playerId, p.name, points, timestamp, currentRound);
      ghost var before := players;
      ghost var history := rounds;
      players := players[k := p.(score := p.score + points)];
      rounds := rounds + [entry];
      forall q | q in before ensures PointsFor(rounds, q.id) == PointsFor(history, q.id) + (if q.id == playerId then points else 0) {
        PointsForAppend(history, entry, q.id);
      }
      if old(Consistent()) {
        forall q | q in players ensures q.score == PointsFor(rounds, q.id) {
          var j :| 0 <= j < |players| && players[j] == q;
          assert before[j] in before;
          if j != k {
            assert before[j].id != playerId;
          }
        }
        assert DistinctIds(players) by {
          forall i, j | 0 <= i < j < |players| ensures players[i].id != players[j].id {
            assert players[i].id == before[i].id && players[j].id == before[j].id;
          }
        }
      }
      ok := true;
    }

    /** The players by descending score, ties in insertion order; the store is not reordered. */
    function GetScoreboard(): (board: seq<Player>)
      reads this
      ensures NonIncreasing(board)
      ensures multiset(board) == multiset(players)
      ensures forall s :: WithScore(board, s) == WithScore(players, s)
    {
      SortByScoreStable(players);
      SortByScore(players)
    }

    /** The history, most recent entry first; storage keeps chronological order. */
    function GetRounds(): (history: seq<RoundEntry>)
      reads this
      ensures |history| == |rounds|
      ensures forall k :: 0 <= k < |rounds| ==> history[k] == rounds[|rounds| - 1 - k]
    {
      ReversedIndex(rounds);
      Reversed(rounds)
    }

    /** Forgets all players and entries and resets the counter. */
    method NewGame()
      modifies this
      ensures players == [] && rounds == [] && currentRound == 0
      ensures Consistent()
    {
      players := [];
      rounds := [];
      currentRound := 0;
    }
  }

  /** One call a caller makes on the ledger, with the id and time the clock would supply. */
  datatype Op =
    | AddPlayerOp(name: string, id: int, createdAt: string)
    | RemovePlayerOp(id: int)
    | AddScoreOp(playerId: int, points: int, entryId: int, timestamp: string)
    | NewGameOp

  /** The ids handed to `AddPlayer` in `ops`. */
  function AddedIds(ops: seq<Op>): set<int> {
    if ops == [] then {}
    else AddedIds(ops[..|ops| - 1]) + (if ops[|ops| - 1].AddPlayerOp? then {ops[|ops| - 1].id} else {})
  }

  /** No call of `AddPlayer` reuses an id an earlier one was given (the clock ids never repeat). */
  predicate IdsNeverReused(ops: seq<Op>) {
    forall k :: 0 <= k < |ops| && ops[k].AddPlayerOp? ==> ops[k].id !in AddedIds(ops[..k])
  }

  /**
   * The ledger invariant holds after any sequence of calls made on a ledger
   * that starts empty, as long as player ids are never reused.
   */
  method Replay(ops: seq<Op>) returns (ledger: GameState)
    requires IdsNeverReused(ops)
    ensures ledger.Consistent()
  {
    ledger := new GameState([], []);
    var i := 0;
    while i < |ops|
      invariant 0 <= i <= |ops|
      invariant ledger.Consistent()
      invariant forall p :: p in ledger.players ==> p.id in AddedIds(ops[..i])
      invariant forall e :: e in ledger.rounds ==> e.playerId in AddedIds(ops[..i])
    {
      assert ops[..i + 1][..i] == ops[..i];
      match ops[i] {
        case AddPlayerOp(name, id, createdAt) =>
          var _ := ledger.AddPlayer(name, id, createdAt);
        case RemovePlayerOp(id) =>
          ledger.RemovePlayer(id);
        case AddScoreOp(playerId, points, entryId, timestamp) =>
          var _ := ledger.AddScore(playerId, points, entryId, timestamp);
        case NewGameOp =>
          ledger.NewGame();
      }
      i := i + 1;
    }
  }
}
