/** Runs of the world that stand for the larger actions of a client. */
module WorldRuns {
  import opened Base
  import opened Wire
  import opened Server
  import opened ServerInvariant
  import opened ServerHistory
  import opened Client
  import opened Agreement

  ghost predicate Reaches(w: World, moves: seq<Move>, v: World) {
    RunWorld(w, moves) == v
  }

  lemma NoMove(w: World)
    ensures Reaches(w, [], w)
  {
  }

  lemma OneMove(w: World, move: Move)
    ensures Reaches(w, [move], Next(w, move))
  {
    assert [move][..0] == [];
  }

  lemma Then(u: World, a: seq<Move>, v: World, b: seq<Move>, w: World)
    requires Reaches(u, a, v) && Reaches(v, b, w)
    ensures Reaches(u, a + b, w)
  {
    RunWorldConcat(u, a, b);
  }

  lemma ThenMove(u: World, a: seq<Move>, v: World, move: Move)
    requires Reaches(u, a, v)
    ensures Reaches(u, a + [move], Next(v, move))
  {
    OneMove(v, move);
    Then(u, a, v, [move], Next(v, move));
  }

  // ---- applying changes ----

  function Takes(n: nat): seq<Move> { seq(n, _ => TakeNext) }

  lemma {:induction false} TakesRun(w: World, n: nat)
    requires n <= |w.inbox|
    ensures Reaches(w, Takes(n), w.(client := ApplyChanges(w.client, w.inbox[..n]), inbox := w.inbox[n..]))
  {
    if n == 0 {
      assert w.inbox[..0] == [] && w.inbox[0..] == w.inbox;
    } else {
      TakesRun(w, n - 1);
      assert Takes(n)[..n - 1] == Takes(n - 1);
      assert w.inbox[..n][..n - 1] == w.inbox[..n - 1];
      assert w.inbox[n - 1..][1..] == w.inbox[n..];
    }
  }

  function Receives(chs: seq<Change>): seq<Move> {
    seq(|chs|, i requires 0 <= i < |chs| => Receive(chs[i]))
  }

  lemma {:induction false} ReceivesRun(w: World, chs: seq<Change>)
    requires forall ch :: ch in chs ==> Genuine(w.server.log, ch)
    ensures Reaches(w, Receives(chs), w.(client := ApplyChanges(w.client, chs)))
  {
    if chs != [] {
      var n := |chs| - 1;
      ReceivesRun(w, chs[..n]);
      assert Receives(chs)[..n] == Receives(chs[..n]);
    }
  }

  // ---- pushing without interruption ----

  function NoGaps(n: nat): seq<seq<Step>> { seq(n, _ => []) }

  lemma {:induction false} PushUninterrupted(s: State, user: Id, ms: seq<Mutation>, now: int)
    ensures PushAmong(s, user, ms, NoGaps(|ms|), now) == PushAll(s, user, ms, now)
  {
    if ms != [] {
      var n := |ms| - 1;
      PushUninterrupted(s, user, ms[..n], now);
      assert NoGaps(|ms|)[..n] == NoGaps(n) && NoGaps(|ms|)[n] == [];
    }
  }

  /** The server handles the batch and the answer is lost. */
  function Unanswered(user: Id, ms: seq<Mutation>, now: int): seq<Move> {
    seq(|ms|, i requires 0 <= i < |ms| => Others(Push(user, ms[i], now)))
  }

  lemma {:induction false} UnansweredRun(w: World, user: Id, ms: seq<Mutation>, now: int)
    ensures Reaches(w, Unanswered(user, ms, now), w.(server := PushAll(w.server, user, ms, now).0))
  {
    if ms != [] {
      var n := |ms| - 1;
      UnansweredRun(w, user, ms[..n], now);
      assert Unanswered(user, ms, now)[..n] == Unanswered(user, ms[..n], now);
    }
  }

  lemma AnsweredRun(w: World, user: Id, ids: seq<Id>, now: int)
    requires Inv(w.server) && Listing(ids, w.client.rows)
    ensures var ms := Outgoing(w.client, ids);
      var (server, rs) := PushAll(w.server, user, ms, now);
      |rs| == |ms| && Reaches(w, [PushDirty(user, ids, NoGaps(|ms|), now)],
                              w.(server := server, client := HandleResults(w.client, ms, rs)))
  {
    var ms := Outgoing(w.client, ids);
    PushUninterrupted(w.server, user, ms, now);
    BatchInv(w.server, user, ms, now);
    OneMove(w, PushDirty(user, ids, NoGaps(|ms|), now));
  }
}
