/** The pull cursor (`last_seq`): which changes a client that pulls again and again has seen. */
module Cursor {
  import opened Base
  import opened Wire
  import opened Server
  import opened ServerInvariant
  import opened ServerHistory
  import opened Pulling

  /** To the last change received; to the server's counter only if nothing came or it has caught up. */
  function NextCursor(last: int, changes: seq<Change>, serverSeq: int): int {
    var newLast := if changes != [] && changes[|changes| - 1].seqNo < serverSeq
                   then changes[|changes| - 1].seqNo else serverSeq;
    if newLast > last then newLast else last
  }

  /** `handed` records every change given to the engine so far. */
  datatype Reader = Reader(server: State, last: int, handed: set<Change>)

  datatype Event = ServerMoves(step: Step) | Round

  ghost function Fetched(r: Reader, user: Id): seq<Change> {
    Page(r.server, Clamp(r.last), PULL_LIMIT)
  }

  ghost function Advance(r: Reader, user: Id, ev: Event): Reader {
    match ev
    case ServerMoves(step) => r.(server := Apply(r.server, step))
    case Round =>
      var changes := Mine(Fetched(r, user), UserGroups(r.server, user));
      Reader(r.server, NextCursor(r.last, changes, r.server.seqNo), r.handed + set c | c in changes)
  }

  ghost function Follow(r: Reader, user: Id, evs: seq<Event>): Reader {
    if evs == [] then r else Advance(Follow(r, user, evs[..|evs| - 1]), user, evs[|evs| - 1])
  }

  /** A version still stored, in one of the groups, at or below the cursor, has been handed over. */
  ghost predicate Complete(r: Reader, groups: set<Id>) {
    && 0 <= r.last <= r.server.seqNo
    && forall n :: CurrentAt(r.server, n) && n <= r.last && ChangeAt(r.server, n).group in groups ==>
         ChangeAt(r.server, n) in r.handed
  }

  /** Nothing above the cursor has been handed over yet. */
  ghost predicate UpToCursor(r: Reader) {
    forall c :: c in r.handed ==> c.seqNo <= r.last
  }

  /** The server stores a row of the user's own groups above the cursor. */
  ghost predicate OwnAbove(r: Reader, user: Id) {
    exists n :: CurrentAt(r.server, n) && r.last < n && ChangeAt(r.server, n).group in UserGroups(r.server, user)
  }

  /** A page filled to the limit with other groups' rows. */
  ghost predicate FullForeignPage(r: Reader, user: Id) {
    |Fetched(r, user)| == PULL_LIMIT && Mine(Fetched(r, user), UserGroups(r.server, user)) == []
  }

  // ---- server steps ----

  /** A version that is stored after a step, and is not the step's own, was stored before it unchanged. */
  lemma OldVersionsStay(s: State, step: Step, n: int)
    requires Inv(s) && n <= s.seqNo && CurrentAt(Apply(s, step), n)
    ensures CurrentAt(s, n) && ChangeAt(s, n) == ChangeAt(Apply(s, step), n)
    ensures s.seqNo <= Apply(s, step).seqNo
  {
    var t := Apply(s, step);
    StepExtends(s, step);
    assert t.log[n - 1] == s.log[n - 1];
    if step.Push? {
    } else if step.DoClean? {
    } else {
      OtherStepsKeepEntries(s, step);
    }
  }

  lemma CounterGrows(s: State, step: Step)
    requires Inv(s)
    ensures s.seqNo <= Apply(s, step).seqNo
  {
    StepExtends(s, step);
    StepKeepsInv(s, step);
  }

  lemma ServerKeepsComplete(r: Reader, step: Step, groups: set<Id>)
    requires Inv(r.server) && Complete(r, groups)
    ensures Complete(r.(server := Apply(r.server, step)), groups)
  {
    CounterGrows(r.server, step);
    var t := Apply(r.server, step);
    forall n | CurrentAt(t, n) && n <= r.last && ChangeAt(t, n).group in groups
      ensures ChangeAt(t, n) in r.handed
    {
      OldVersionsStay(r.server, step, n);
    }
  }

  // ---- one round ----

  /** What a round hands over: own rows of the page, in order, above the cursor. */
  lemma HandedOver(r: Reader, user: Id)
    requires 0 <= r.last && |r.server.log| == r.server.seqNo
    ensures var page, changes := Fetched(r, user), Mine(Fetched(r, user), UserGroups(r.server, user));
      && Ascending(page) && Ascending(changes)
      && (forall c :: c in changes ==> c in page && r.last < c.seqNo <= r.server.seqNo)
      && forall c :: c in page && c.group in UserGroups(r.server, user) ==> c in changes
  {
    PageMembers(r.server, r.last, PULL_LIMIT);
    MineMembers(Fetched(r, user), UserGroups(r.server, user));
  }

  lemma LastIsHighest(page: seq<Change>, c: Change)
    requires Ascending(page) && c in page
    ensures c.seqNo <= page[|page| - 1].seqNo
  {
  }

  /** An own version between the cursors that the page misses lies beyond a full page without own rows. */
  lemma MissedOnlyBeyondForeignPage(r: Reader, user: Id, n: int)
    requires |r.server.log| == r.server.seqNo && 0 <= r.last
    requires CurrentAt(r.server, n) && r.last < n <= Advance(r, user, Round).last
    requires ChangeAt(r.server, n).group in UserGroups(r.server, user)
    ensures ChangeAt(r.server, n) in Advance(r, user, Round).handed || FullForeignPage(r, user)
  {
    var page := Fetched(r, user);
    HandedOver(r, user);
    PageComplete(r.server, r.last, PULL_LIMIT, n);
    if ChangeAt(r.server, n) !in page { BeyondThePage(page, Mine(page, UserGroups(r.server, user)), n); }
  }

  lemma BeyondThePage(page: seq<Change>, changes: seq<Change>, n: int)
    requires Ascending(page) && (forall c :: c in changes ==> c in page) && (page != [] ==> page[|page| - 1].seqNo < n)
    ensures changes != [] ==> changes[|changes| - 1].seqNo < n
  {
    if changes != [] { LastIsHighest(page, changes[|changes| - 1]); }
  }

  lemma CursorRange(r: Reader, user: Id)
    requires |r.server.log| == r.server.seqNo && 0 <= r.last <= r.server.seqNo && UpToCursor(r)
    ensures r.last <= Advance(r, user, Round).last <= r.server.seqNo && UpToCursor(Advance(r, user, Round))
  {
    HandedOver(r, user);
    HandedUpToCursor(r, user, Mine(Fetched(r, user), UserGroups(r.server, user)));
  }

  lemma HandedUpToCursor(r: Reader, user: Id, changes: seq<Change>)
    requires 0 <= r.last <= r.server.seqNo && UpToCursor(r) && Ascending(changes)
    requires forall c :: c in changes ==> r.last < c.seqNo <= r.server.seqNo
    ensures var next := NextCursor(r.last, changes, r.server.seqNo);
      r.last <= next <= r.server.seqNo && UpToCursor(Reader(r.server, next, r.handed + set c | c in changes))
  {
    assert changes != [] ==> changes[|changes| - 1] in changes;
    forall c | c in changes ensures c.seqNo <= NextCursor(r.last, changes, r.server.seqNo) { LastIsHighest(changes, c); }
  }

  /**
    A round keeps the cursor complete if and only if it is not the case that its page is full of
    foreign rows while a row of the client's own groups lies above the cursor.
   */
  lemma RoundKeepsComplete(r: Reader, user: Id)
    requires Inv(r.server) && Complete(r, UserGroups(r.server, user)) && UpToCursor(r)
    ensures Complete(Advance(r, user, Round), UserGroups(r.server, user)) <==>
            !(FullForeignPage(r, user) && OwnAbove(r, user))
  {
    var s, t, groups := r.server, Advance(r, user, Round), UserGroups(r.server, user);
    CursorRange(r, user);
    forall n | CurrentAt(s, n) && r.last < n <= t.last && ChangeAt(s, n).group in groups
      ensures ChangeAt(s, n) in t.handed || FullForeignPage(r, user)
    {
      MissedOnlyBeyondForeignPage(r, user, n);
    }
    if FullForeignPage(r, user) { JumpMisses(r, user); }
  }

  /** On a full foreign page the cursor jumps to the server's counter and nothing is handed over. */
  lemma JumpMisses(r: Reader, user: Id)
    requires Inv(r.server) && r.last <= r.server.seqNo && UpToCursor(r) && FullForeignPage(r, user)
    ensures var t := Advance(r, user, Round); t.last == r.server.seqNo && t.handed == r.handed
    ensures forall n :: CurrentAt(r.server, n) && r.last < n ==>
      n <= r.server.seqNo && ChangeAt(r.server, n) !in r.handed
  {
    forall n | CurrentAt(r.server, n) && r.last < n ensures ChangeAt(r.server, n).seqNo == n {
      assert Latest(r.server.log, n - 1);
    }
  }

  // ---- runs ----

  /** The user's groups are the same at every round, and no round gets a full page of foreign rows. */
  ghost predicate Steady(r: Reader, user: Id, evs: seq<Event>, groups: set<Id>) {
    forall i :: 0 <= i < |evs| && evs[i].Round? ==>
      var at := Follow(r, user, evs[..i]);
      UserGroups(at.server, user) == groups && !FullForeignPage(at, user)
  }

  ghost predicate Sound(r: Reader, groups: set<Id>) {
    Inv(r.server) && Complete(r, groups) && UpToCursor(r)
  }

  lemma LastStep(r: Reader, user: Id, ev: Event, groups: set<Id>)
    requires Sound(r, groups)
    requires ev.Round? ==> UserGroups(r.server, user) == groups && !FullForeignPage(r, user)
    ensures Sound(Advance(r, user, ev), groups) && r.last <= Advance(r, user, ev).last
  {
    if ev.Round? {
      CursorRange(r, user);
      RoundKeepsComplete(r, user);
    } else {
      StepKeepsInv(r.server, ev.step);
      ServerKeepsComplete(r, ev.step, groups);
    }
  }

  lemma SteadyInit(r: Reader, user: Id, evs: seq<Event>, groups: set<Id>)
    requires evs != [] && Steady(r, user, evs, groups)
    ensures var n := |evs| - 1; Steady(r, user, evs[..n], groups) && (evs[n].Round? ==>
      UserGroups(Follow(r, user, evs[..n]).server, user) == groups && !FullForeignPage(Follow(r, user, evs[..n]), user))
  {
    var init := evs[..|evs| - 1];
    forall i | 0 <= i < |init| && init[i].Round?
      ensures UserGroups(Follow(r, user, init[..i]).server, user) == groups
      ensures !FullForeignPage(Follow(r, user, init[..i]), user)
    {
      assert init[..i] == evs[..i] && evs[i].Round?;
    }
  }

  lemma {:induction false} FollowSound(r: Reader, user: Id, evs: seq<Event>, groups: set<Id>)
    requires Sound(r, groups) && Steady(r, user, evs, groups)
    ensures Sound(Follow(r, user, evs), groups) && r.last <= Follow(r, user, evs).last
  {
    if evs != [] {
      SteadyInit(r, user, evs, groups);
      FollowSound(r, user, evs[..|evs| - 1], groups);
      LastStep(Follow(r, user, evs[..|evs| - 1]), user, evs[|evs| - 1], groups);
    }
  }

  /**
    From the start, over any interleaving of server steps and rounds: every version still stored in
    the user's groups at or below the cursor has been handed over, and no event moves the cursor back.
   */
  lemma CursorComplete(user: Id, evs: seq<Event>, groups: set<Id>)
    requires Steady(Reader(EMPTY_STATE, 0, {}), user, evs, groups)
    ensures Complete(Follow(Reader(EMPTY_STATE, 0, {}), user, evs), groups)
    ensures evs != [] ==>
      Follow(Reader(EMPTY_STATE, 0, {}), user, evs[..|evs| - 1]).last <= Follow(Reader(EMPTY_STATE, 0, {}), user, evs).last
  {
    var start := Reader(EMPTY_STATE, 0, {});
    if evs == [] {
      FollowSound(start, user, evs, groups);
    } else {
      SteadyInit(start, user, evs, groups);
      FollowSound(start, user, evs[..|evs| - 1], groups);
      LastStep(Follow(start, user, evs[..|evs| - 1]), user, evs[|evs| - 1], groups);
    }
  }
}
