/**
  The notification hub (`server/sync/notify.go`).  Sections under the hub's lock are single steps;
  a disconnect detaches the user's channels under the lock and then, outside it, signals and closes
  them one at a time while everything else goes on.
 */
module Hub {
  import opened Base

  type Chan = nat

  /** A running disconnect: the channels still to close, and the one it has just signalled. */
  datatype Leaving = Leaving(todo: set<Chan>, current: Option<Chan>)

  datatype State = State(
    byUser: map<Id, set<Chan>>,
    made: nat,
    full: set<Chan>,
    closed: set<Chan>,
    leaving: seq<Leaving>,
    panicked: bool)

  const START := State(map[], 0, {}, {}, [], false)

  datatype Step =
    | Subscribe(user: Id)
    | Cancel(user: Id, ch: Chan)
    | Notify
    | Detach(user: Id)
    | Signal(call: nat, ch: Chan)
    | Close(call: nat)
    | Receive(ch: Chan)

  function ChannelsOf(byUser: map<Id, set<Chan>>, users: set<Id>): set<Chan> {
    set u, ch | u in users && u in byUser && ch in byUser[u] :: ch
  }

  function Registered(s: State): set<Chan> { ChannelsOf(s.byUser, s.byUser.Keys) }

  lemma OneUserMore(byUser: map<Id, set<Chan>>, users: set<Id>, user: Id)
    requires user in byUser
    ensures ChannelsOf(byUser, users + {user}) == ChannelsOf(byUser, users) + byUser[user]
    ensures byUser[user] <= ChannelsOf(byUser, byUser.Keys)
  {
  }

  /** Sending to a closed channel panics, even in a select with a default branch. */
  function Send(s: State, ch: Chan): State {
    if ch in s.closed then s.(panicked := true) else s.(full := s.full + {ch})
  }

  function Next(s: State, step: Step): State {
    match step
    case Subscribe(u) =>
      var mine := if u in s.byUser then s.byUser[u] else {};
      s.(byUser := s.byUser[u := mine + {s.made}], made := s.made + 1)
    case Cancel(u, ch) =>
      if u !in s.byUser then s
      else if s.byUser[u] - {ch} == {} then s.(byUser := s.byUser - {u})
      else s.(byUser := s.byUser[u := s.byUser[u] - {ch}])
    case Notify =>
      s.(full := s.full + (Registered(s) - s.closed), panicked := s.panicked || Registered(s) * s.closed != {})
    case Detach(u) =>
      var mine := if u in s.byUser then s.byUser[u] else {};
      s.(byUser := s.byUser - {u}, leaving := s.leaving + [Leaving(mine, None)])
    case Signal(i, ch) =>
      if i >= |s.leaving| || ch !in s.leaving[i].todo || s.leaving[i].current.Some? then s
      else Send(s, ch).(leaving := s.leaving[i := s.leaving[i].(current := Some(ch))])
    case Close(i) =>
      if i >= |s.leaving| || s.leaving[i].current.None? then s
      else
        var ch := s.leaving[i].current.value;
        s.(panicked := s.panicked || ch in s.closed, closed := s.closed + {ch},
           leaving := s.leaving[i := Leaving(s.leaving[i].todo - {ch}, None)])
    case Receive(ch) => s.(full := s.full - {ch})
  }

  function Run(s: State, steps: seq<Step>): State {
    if steps == [] then s else Next(Run(s, steps[..|steps| - 1]), steps[|steps| - 1])
  }

  // ---- safety ----

  ghost predicate Usable(s: State, chs: set<Chan>) {
    forall ch :: ch in chs ==> ch < s.made && ch !in s.closed
  }

  /** Every channel in somebody's hands is open, and is in one pair of hands only. */
  ghost predicate Safe(s: State) {
    && !s.panicked
    && (forall ch :: ch in s.closed ==> ch < s.made)
    && (forall u :: u in s.byUser ==> Usable(s, s.byUser[u]))
    && (forall i :: 0 <= i < |s.leaving| ==> Usable(s, s.leaving[i].todo))
    && (forall i :: 0 <= i < |s.leaving| && s.leaving[i].current.Some? ==>
          s.leaving[i].current.value in s.leaving[i].todo)
    && (forall u, v :: u in s.byUser && v in s.byUser && u != v ==> s.byUser[u] !! s.byUser[v])
    && (forall i, j :: 0 <= i < j < |s.leaving| ==> s.leaving[i].todo !! s.leaving[j].todo)
    && forall u, i :: u in s.byUser && 0 <= i < |s.leaving| ==> s.byUser[u] !! s.leaving[i].todo
  }

  lemma RegisteredOpen(s: State)
    requires Safe(s)
    ensures Registered(s) !! s.closed
  {
    forall ch | ch in Registered(s) ensures ch !in s.closed {
      var u :| u in s.byUser && ch in s.byUser[u];
    }
  }

  lemma SubscribeSafe(s: State, user: Id)
    requires Safe(s)
    ensures Safe(Next(s, Subscribe(user)))
  {
  }

  lemma DetachSafe(s: State, user: Id)
    requires Safe(s)
    ensures Safe(Next(s, Detach(user)))
  {
  }

  lemma CloseSafe(s: State, call: nat)
    requires Safe(s)
    ensures Safe(Next(s, Close(call)))
  {
  }

  lemma StepSafe(s: State, step: Step)
    requires Safe(s)
    ensures Safe(Next(s, step))
  {
    match step
    case Subscribe(user) => SubscribeSafe(s, user);
    case Notify => RegisteredOpen(s);
    case Detach(user) => DetachSafe(s, user);
    case Close(call) => CloseSafe(s, call);
    case _ =>
  }

  /** Under every interleaving: no channel is closed twice or sent to after closing, and every registered one is open. */
  lemma {:induction false} HubSafe(steps: seq<Step>)
    ensures var s := Run(START, steps); Safe(s) && !s.panicked && Registered(s) !! s.closed
  {
    if steps != [] {
      var init := steps[..|steps| - 1];
      HubSafe(init);
      StepSafe(Run(START, init), steps[|steps| - 1]);
    }
    RegisteredOpen(Run(START, steps));
  }

  // ---- effect ----

  /** A disconnect never loses a channel: each one it took is still to do or closed. */
  lemma {:induction false} DetachedAreClosed(s: State, user: Id, steps: seq<Step>)
    requires user in s.byUser
    ensures var t, i := Run(Next(s, Detach(user)), steps), |s.leaving|;
      i < |t.leaving| && s.byUser[user] <= t.leaving[i].todo + t.closed &&
      (t.leaving[i].todo == {} ==> s.byUser[user] <= t.closed)
  {
    if steps != [] {
      DetachedAreClosed(s, user, steps[..|steps| - 1]);
    }
  }

  /** A subscriber has a signal waiting after every notification. */
  lemma NotifyReachesAll(steps: seq<Step>, user: Id, ch: Chan)
    requires var s := Run(START, steps); user in s.byUser && ch in s.byUser[user]
    ensures ch in Next(Run(START, steps), Notify).full
  {
    HubSafe(steps);
    assert ch in Registered(Run(START, steps));
  }

  /** A channel comes to a user by subscribing alone, and leaves by its cancelling or the user's disconnect. */
  lemma RegistrationChanges(s: State, step: Step, user: Id, ch: Chan)
    ensures var t := Next(s, step);
      (user in t.byUser && ch in t.byUser[user]) <==>
        || (step == Subscribe(user) && ch == s.made)
        || (user in s.byUser && ch in s.byUser[user] && step != Cancel(user, ch) && step != Detach(user))
  {
    if step.Cancel? && step.user in s.byUser && user == step.user {
      assert ch in s.byUser[user] - {step.ch} <==> ch in s.byUser[user] && ch != step.ch;
    }
  }

  /** A signal waits from a notification, or from a disconnect, until it is received. */
  lemma SignalChanges(steps: seq<Step>, step: Step, ch: Chan)
    ensures var s := Run(START, steps);
      ch in Next(s, step).full <==>
        || (ch in s.full && step != Receive(ch))
        || (step == Notify && ch in Registered(s))
        || (step.Signal? && step.ch == ch && step.call < |s.leaving| && ch in s.leaving[step.call].todo
            && s.leaving[step.call].current.None?)
  {
    HubSafe(steps);
    var s := Run(START, steps);
    if step.Signal? && step.call < |s.leaving| { assert Usable(s, s.leaving[step.call].todo); }
  }

  /** Over every run in which the user neither cancels the channel nor disconnects, the subscription stands. */
  lemma {:induction false} SubscriberStays(s: State, user: Id, steps: seq<Step>)
    requires Cancel(user, s.made) !in steps && Detach(user) !in steps
    ensures var t := Run(Next(s, Subscribe(user)), steps); user in t.byUser && s.made in t.byUser[user]
  {
    if steps != [] {
      var n := |steps| - 1;
      SubscriberStays(s, user, steps[..n]);
      RegistrationChanges(Run(Next(s, Subscribe(user)), steps[..n]), steps[n], user, s.made);
    }
  }

  lemma {:induction false} RunOn(s: State, first: seq<Step>, more: seq<Step>)
    ensures Run(s, first + more) == Run(Run(s, first), more)
  {
    if more == [] {
      assert first + more == first;
    } else {
      RunOn(s, first, more[..|more| - 1]);
      assert (first + more)[..|first + more| - 1] == first + more[..|more| - 1];
    }
  }

  /** So a subscriber hears of every notification until then, whatever everybody else does. */
  lemma SubscriberHears(before: seq<Step>, user: Id, during: seq<Step>)
    requires var ch := Run(START, before).made; Cancel(user, ch) !in during && Detach(user) !in during
    ensures Run(START, before).made in Run(START, before + [Subscribe(user)] + during + [Notify]).full
  {
    var steps := before + [Subscribe(user)] + during;
    RunOn(START, before, [Subscribe(user)]);
    RunOn(START, before + [Subscribe(user)], during);
    assert Run(START, before + [Subscribe(user)]) == Next(Run(START, before), Subscribe(user)) by {
      assert [Subscribe(user)][..0] == [];
    }
    SubscriberStays(Run(START, before), user, during);
    NotifyReachesAll(steps, user, Run(START, before).made);
    assert (steps + [Notify])[..|steps|] == steps;
  }

  // ---- the hub as it runs ----

  class NotifyHub {
    var byUser: map<Id, set<Chan>>
    var made: nat
    var full: set<Chan>
    var closed: set<Chan>
    ghost var leaving: seq<Leaving>
    ghost var panicked: bool

    ghost function View(): State
      reads this
    {
      State(byUser, made, full, closed, leaving, panicked)
    }

    constructor ()
      ensures View() == START
    {
      byUser, made, full, closed, leaving, panicked := map[], 0, {}, {}, [], false;
    }

    method Subscribe(user: Id) returns (ch: Chan)
      modifies this
      ensures View() == Next(old(View()), Step.Subscribe(user)) && ch == old(made)
    {
      ch := made;
      made := made + 1;
      if user !in byUser { byUser := byUser[user := {}]; }
      byUser := byUser[user := byUser[user] + {ch}];
    }

    method Cancel(user: Id, ch: Chan)
      modifies this
      ensures View() == Next(old(View()), Step.Cancel(user, ch))
    {
      if user in byUser {
        byUser := byUser[user := byUser[user] - {ch}];
        if byUser[user] == {} { byUser := byUser - {user}; }
      }
    }

    method TrySend(ch: Chan)
      requires ch !in closed
      modifies `full
      ensures full == old(full) + {ch}
    {
      if ch !in full { full := full + {ch}; }
    }

    method Notify()
      requires Registered(View()) !! closed
      modifies `full
      ensures View() == Next(old(View()), Step.Notify)
    {
      var users := byUser.Keys;
      ghost var seen: set<Id> := {};
      while users != {}
        invariant users !! seen && users + seen == byUser.Keys
        invariant full == old(full) + ChannelsOf(byUser, seen)
        decreases |users|
      {
        var user :| user in users;
        OneUserMore(byUser, seen, user);
        SendAll(byUser[user]);
        users, seen := users - {user}, seen + {user};
      }
      assert seen == byUser.Keys;
    }

    method SendAll(chs: set<Chan>)
      requires chs !! closed
      modifies `full
      ensures full == old(full) + chs
    {
      var rest := chs;
      while rest != {}
        invariant rest <= chs && full == old(full) + (chs - rest)
        decreases |rest|
      {
        var ch :| ch in rest;
        TrySend(ch);
        rest := rest - {ch};
      }
    }

    method Take(user: Id) returns (mine: set<Chan>)
      requires Safe(View())
      modifies this
      ensures View() == Next(old(View()), Step.Detach(user)) && Safe(View())
      ensures mine == if user in old(byUser) then old(byUser)[user] else {}
    {
      StepSafe(View(), Step.Detach(user));
      mine := if user in byUser then byUser[user] else {};
      byUser := byUser - {user};
      leaving := leaving + [Leaving(mine, None)];
    }

    method SignalAndClose(ghost call: nat, ch: Chan)
      requires Safe(View()) && call < |leaving| && ch in leaving[call].todo && leaving[call].current.None?
      modifies this
      ensures View() == Next(Next(old(View()), Step.Signal(call, ch)), Step.Close(call)) && Safe(View())
      ensures |leaving| == old(|leaving|) && leaving[call] == Leaving(old(leaving[call].todo) - {ch}, None)
      ensures closed == old(closed) + {ch} && byUser == old(byUser)
    {
      StepSafe(View(), Step.Signal(call, ch));
      StepSafe(Next(View(), Step.Signal(call, ch)), Step.Close(call));
      TrySend(ch);
      closed := closed + {ch};
      leaving := leaving[call := Leaving(leaving[call].todo - {ch}, None)];
    }

    /** The uninterrupted disconnect: every channel of the user ends up closed, each closed once. */
    method DisconnectUser(user: Id)
      requires Safe(View())
      modifies this
      ensures Safe(View()) && byUser == old(byUser) - {user}
      ensures closed == old(closed) + if user in old(byUser) then old(byUser)[user] else {}
    {
      var mine := Take(user);
      ghost var call: nat := |leaving| - 1;
      var rest := mine;
      while rest != {}
        invariant Safe(View()) && call < |leaving| && leaving[call] == Leaving(rest, None)
        invariant byUser == old(byUser) - {user}
        invariant rest <= mine && closed == old(closed) + (mine - rest)
        decreases |rest|
      {
        var ch :| ch in rest;
        SignalAndClose(call, ch);
        rest := rest - {ch};
      }
    }
  }
}
