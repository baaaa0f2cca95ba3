/** A run in which the cursor jumps over an entry the client never receives. */
module CursorExample {
  import opened Base
  import opened Wire
  import opened Server
  import opened ServerInvariant
  import opened ServerHistory
  import opened Pulling
  import opened Cursor

  function Name(i: nat): Id { seq(i, _ => 'x') }

  /** User u fills a whole page with rows of group b; then m writes one row in their own group a. */
  function PushStep(i: nat): Step {
    if i <= PULL_LIMIT
    then Push("u", Mutation(Name(i), "b", 0, 1, EMPTY, false), 0)
    else Push("m", Mutation(Name(i), "a", 0, 1, EMPTY, false), 0)
  }

  function Pushes(n: nat): seq<Step> {
    if n == 0 then [] else Pushes(n - 1) + [PushStep(n)]
  }

  const SETUP := [DoCreateUser("m", "m", "m", "pm", true, true), DoCreateUser("u", "u", "u", "pu", true, true),
                  DoCreateGroup("a", "a", "m"), DoCreateGroup("b", "b", "u")]

  ghost predicate Open(s: State) {
    && "a" in s.groups && s.groups["a"].kv == 1 && !s.groups["a"].archived
    && "b" in s.groups && s.groups["b"].kv == 1 && !s.groups["b"].archived
    && s.members == {Member("a", "m"), Member("b", "u")}
  }

  ghost predicate Filled(s: State, n: nat) {
    && Open(s) && s.seqNo == n == |s.log|
    && (forall id :: id in s.entries ==> |id| <= n)
    && forall i :: 1 <= i <= n ==>
         s.log[i - 1].m.entry == Name(i) && Name(i) in s.entries
         && s.entries[Name(i)].seqNo == i && s.entries[Name(i)].group == if i <= PULL_LIMIT then "b" else "a"
  }

  function Users(): map<Id, User> {
    map["m" := User("m", "m", "pm", true, true), "u" := User("u", "u", "pu", true, true)]
  }

  lemma UsersEnter()
    ensures Apply(Apply(EMPTY_STATE, SETUP[0]), SETUP[1]) == EMPTY_STATE.(users := Users())
  {
    var s1 := CreateUser(EMPTY_STATE, "m", "m", "m", "pm", true, true);
    assert s1 == EMPTY_STATE.(users := map["m" := User("m", "m", "pm", true, true)]);
    assert !Taken(s1, "u", "pu");
  }

  lemma GroupsOpen(s: State)
    requires s == EMPTY_STATE.(users := Users())
    ensures Filled(Apply(Apply(s, SETUP[2]), SETUP[3]), 0)
  {
  }

  lemma SetupOpens()
    ensures Filled(Run(EMPTY_STATE, SETUP), 0)
  {
    SetupRun();
    UsersEnter();
    GroupsOpen(EMPTY_STATE.(users := Users()));
  }

  lemma SetupRun()
    ensures Run(EMPTY_STATE, SETUP) == Apply(Apply(Apply(Apply(EMPTY_STATE, SETUP[0]), SETUP[1]), SETUP[2]), SETUP[3])
  {
    assert SETUP[..4] == SETUP;
    assert Run(EMPTY_STATE, SETUP[..0]) == EMPTY_STATE;
    RunNext(EMPTY_STATE, SETUP, 0);
    RunNext(EMPTY_STATE, SETUP, 1);
    RunNext(EMPTY_STATE, SETUP, 2);
    RunNext(EMPTY_STATE, SETUP, 3);
  }

  lemma PushTaken(s: State, n: nat)
    requires Filled(s, n)
    ensures var m, t := PushStep(n + 1).m, Apply(s, PushStep(n + 1));
      && t.entries == s.entries[Name(n + 1) := StoredRow(s, m, 0)] && Name(n + 1) !in s.entries
      && t.log == s.log + [Commit(m, StoredRow(s, m, 0))] && t.seqNo == n + 1 && Open(t)
  {
    assert |Name(n + 1)| == n + 1;
    var step := PushStep(n + 1);
    assert Accepts(s, step.user, step.m);
  }

  lemma PushFills(s: State, n: nat)
    requires Filled(s, n)
    ensures Filled(Apply(s, PushStep(n + 1)), n + 1)
  {
    PushTaken(s, n);
    var t := Apply(s, PushStep(n + 1));
    forall i | 1 <= i <= n
      ensures t.log[i - 1] == s.log[i - 1] && t.entries[Name(i)] == s.entries[Name(i)]
    {
      assert |Name(i)| == i;
    }
  }

  lemma {:induction false} PushesFill(s: State, n: nat)
    requires Filled(s, 0)
    ensures Filled(Run(s, Pushes(n)), n)
  {
    if n > 0 {
      PushesFill(s, n - 1);
      PushFills(Run(s, Pushes(n - 1)), n - 1);
      assert Pushes(n)[..n - 1 + |Pushes(n - 1)| - (n - 1)] == Pushes(n - 1);
    }
  }

  /** With nothing missing in between, a page is the next `limit` versions. */
  lemma {:induction false} DensePage(s: State, since: nat, limit: nat)
    requires since + limit <= |s.log| && forall k :: since < k <= since + limit ==> CurrentAt(s, k)
    ensures |Page(s, since, limit)| == limit
    ensures forall i :: 0 <= i < limit ==> Page(s, since, limit)[i] == ChangeAt(s, since + 1 + i)
    decreases limit
  {
    if limit > 0 { DensePage(s, since + 1, limit - 1); }
  }

  lemma FilledAt(s: State, n: nat, k: int)
    requires Filled(s, n) && 1 <= k <= n
    ensures CurrentAt(s, k) && ChangeAt(s, k).group == if k <= PULL_LIMIT then "b" else "a"
  {
    assert s.log[k - 1].m.entry == Name(k);
  }

  lemma FirstPage(s: State)
    requires Filled(s, PULL_LIMIT + 1)
    ensures |Page(s, 0, PULL_LIMIT)| == PULL_LIMIT
    ensures Mine(Page(s, 0, PULL_LIMIT), {"a"}) == []
  {
    var page, mine := Page(s, 0, PULL_LIMIT), Mine(Page(s, 0, PULL_LIMIT), {"a"});
    forall k | 0 < k <= PULL_LIMIT ensures CurrentAt(s, k) && ChangeAt(s, k).group == "b" {
      FilledAt(s, PULL_LIMIT + 1, k);
    }
    DensePage(s, 0, PULL_LIMIT);
    MineMembers(page, {"a"});
    forall c | c in page ensures c.group == "b" {
      var i :| 0 <= i < |page| && page[i] == c;
      assert c == ChangeAt(s, i + 1);
    }
    assert |mine| > 0 ==> mine[0] in page && mine[0].group in {"a"};
  }

  /** After one round the cursor is past m's row, and m was handed nothing. */
  lemma CursorJumps()
    ensures var s := Run(EMPTY_STATE, SETUP + Pushes(PULL_LIMIT + 1));
      var r := Advance(Reader(s, 0, {}), "m", Round);
      && CurrentAt(s, PULL_LIMIT + 1) && ChangeAt(s, PULL_LIMIT + 1).group in UserGroups(s, "m")
      && r.last == PULL_LIMIT + 1 && r.handed == {} && !Complete(r, UserGroups(s, "m"))
  {
    var n := PULL_LIMIT + 1;
    var s := Run(EMPTY_STATE, SETUP + Pushes(n));
    RunConcat(EMPTY_STATE, SETUP, Pushes(n));
    SetupOpens();
    PushesFill(Run(EMPTY_STATE, SETUP), n);
    OwnGroups(s, n);
    FilledAt(s, n, n);
    FirstPage(s);
    JumpsOver(s, n);
  }

  lemma OwnGroups(s: State, n: nat)
    requires Filled(s, n)
    ensures UserGroups(s, "m") == {"a"}
  {
  }

  lemma JumpsOver(s: State, n: nat)
    requires n == s.seqNo && CurrentAt(s, n) && UserGroups(s, "m") == {"a"} && ChangeAt(s, n).group == "a"
    requires Mine(Page(s, 0, PULL_LIMIT), {"a"}) == []
    ensures var r := Advance(Reader(s, 0, {}), "m", Round);
      r.last == n && r.handed == {} && !Complete(r, {"a"})
  {
    var r := Advance(Reader(s, 0, {}), "m", Round);
    assert ChangeAt(s, n) !in r.handed;
  }
}
