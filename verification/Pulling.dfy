/** Incremental pulls (`server/sync/pull.go`): which rows one page carries. */
module Pulling {
  import opened Base
  import opened Wire
  import opened Server
  import opened ServerInvariant

  const PULL_LIMIT := 500

  /** Some stored row carries the sequence number n. */
  ghost predicate CurrentAt(s: State, n: int) {
    1 <= n <= |s.log| && s.log[n - 1].m.entry in s.entries && s.entries[s.log[n - 1].m.entry].seqNo == n
  }

  ghost function ChangeAt(s: State, n: int): Change
    requires CurrentAt(s, n)
  {
    AsChange(s.log[n - 1].m.entry, s.entries[s.log[n - 1].m.entry])
  }

  /** Rows above `since` in ascending order of sequence number, at most `limit`. */
  ghost function Page(s: State, since: nat, limit: nat): seq<Change>
    decreases |s.log| - since
  {
    if limit == 0 || since >= |s.log| then []
    else if CurrentAt(s, since + 1) then [ChangeAt(s, since + 1)] + Page(s, since + 1, limit - 1)
    else Page(s, since + 1, limit)
  }

  function Mine(page: seq<Change>, groups: set<Id>): seq<Change> {
    if page == [] then []
    else if page[0].group in groups then [page[0]] + Mine(page[1..], groups)
    else Mine(page[1..], groups)
  }

  /** A negative cursor counts as 0. */
  function Clamp(since: int): nat { if since < 0 then 0 else since }

  ghost predicate Ascending(cs: seq<Change>) {
    forall i, j :: 0 <= i < j < |cs| ==> cs[i].seqNo < cs[j].seqNo
  }

  lemma {:induction false} PageMembers(s: State, since: nat, limit: nat)
    ensures |Page(s, since, limit)| <= limit
    ensures forall c :: c in Page(s, since, limit) ==> c.seqNo > since && CurrentAt(s, c.seqNo) && c == ChangeAt(s, c.seqNo)
    ensures Ascending(Page(s, since, limit))
    decreases |s.log| - since
  {
    if limit != 0 && since < |s.log| {
      if CurrentAt(s, since + 1) {
        PageMembers(s, since + 1, limit - 1);
      } else {
        PageMembers(s, since + 1, limit);
      }
    }
  }

  /** A page leaves out a current row above the cursor only if it is full and ends before that row. */
  lemma {:induction false} PageComplete(s: State, since: nat, limit: nat, n: int)
    requires CurrentAt(s, n) && n > since
    ensures var page := Page(s, since, limit);
      ChangeAt(s, n) in page || (|page| == limit && (page != [] ==> page[|page| - 1].seqNo < n))
    decreases |s.log| - since
  {
    if limit != 0 {
      if CurrentAt(s, since + 1) {
        if n != since + 1 {
          PageComplete(s, since + 1, limit - 1, n);
          var rest := Page(s, since + 1, limit - 1);
          assert Page(s, since, limit) == [ChangeAt(s, since + 1)] + rest;
        }
      } else {
        PageComplete(s, since + 1, limit, n);
      }
    }
  }

  /** Sequence numbers without a stored row do not show. */
  lemma {:induction false} PageSkip(s: State, since: nat, n: nat, limit: nat)
    requires since <= n && forall k :: since < k <= n ==> !CurrentAt(s, k)
    ensures Page(s, since, limit) == Page(s, n, limit)
    decreases n - since
  {
    if since < n { PageSkip(s, since + 1, n, limit); }
  }

  /** Some row lies above the cursor, so a lowest one does. */
  lemma {:induction false} LeastRow(s: State, at: nat, id: Id) returns (least: Id)
    requires id in s.entries && s.entries[id].seqNo > at
    ensures LowestAbove(s, at, least)
    decreases s.entries[id].seqNo
  {
    if j :| j in s.entries && at < s.entries[j].seqNo < s.entries[id].seqNo {
      least := LeastRow(s, at, j);
    } else {
      least := id;
    }
  }

  ghost predicate LowestAbove(s: State, at: nat, id: Id) {
    && id in s.entries && s.entries[id].seqNo > at
    && forall j :: j in s.entries && s.entries[j].seqNo > at ==> s.entries[id].seqNo <= s.entries[j].seqNo
  }

  /** A page begins with the lowest row above its cursor. */
  lemma PageStep(s: State, at: nat, limit: nat, id: Id)
    requires Stored(s) && LowestAbove(s, at, id) && limit > 0
    ensures Page(s, at, limit) == [AsChange(id, s.entries[id])] + Page(s, s.entries[id].seqNo, limit - 1)
  {
    var n := s.entries[id].seqNo;
    assert Latest(s.log, n - 1);
    PageSkip(s, at, n - 1, limit);
  }

  lemma PageGrows(s: State, since: nat, limit: nat, page: seq<Change>, at: nat, id: Id)
    requires Stored(s) && LowestAbove(s, at, id) && |page| < limit
    requires Page(s, since, limit) == page + Page(s, at, limit - |page|)
    ensures var longer := page + [AsChange(id, s.entries[id])];
      Page(s, since, limit) == longer + Page(s, s.entries[id].seqNo, limit - |longer|)
  {
    PageStep(s, at, limit - |page|, id);
    Regroup(page, AsChange(id, s.entries[id]), Page(s, s.entries[id].seqNo, limit - |page| - 1));
  }

  lemma Regroup(page: seq<Change>, c: Change, rest: seq<Change>)
    ensures page + ([c] + rest) == (page + [c]) + rest
  {
  }

  lemma PageEnd(s: State, at: nat, limit: nat)
    requires limit == 0 || !exists id :: id in s.entries && s.entries[id].seqNo > at
    ensures Page(s, at, limit) == []
  {
    if limit > 0 && at < |s.log| { PageSkip(s, at, |s.log|, limit); }
  }

  lemma {:induction false} MineMembers(page: seq<Change>, groups: set<Id>)
    ensures forall c :: c in Mine(page, groups) <==> c in page && c.group in groups
    ensures Ascending(page) ==> Ascending(Mine(page, groups))
  {
    if page != [] {
      MineMembers(page[1..], groups);
      if Ascending(page) {
        assert Ascending(page[1..]) by {
          forall i, j | 0 <= i < j < |page[1..]| ensures page[1..][i].seqNo < page[1..][j].seqNo {
            assert page[i + 1].seqNo < page[j + 1].seqNo;
          }
        }
        forall c | c in page[1..] ensures page[0].seqNo < c.seqNo {
          var i :| 0 <= i < |page[1..]| && page[1..][i] == c;
          assert page[i + 1] == c;
        }
      }
    }
  }

  lemma {:induction false} MineSnoc(page: seq<Change>, c: Change, groups: set<Id>)
    ensures Mine(page + [c], groups) == Mine(page, groups) + (if c.group in groups then [c] else [])
  {
    if page != [] {
      MineSnoc(page[1..], c, groups);
      assert (page + [c])[1..] == page[1..] + [c];
    } else {
      assert (page + [c])[1..] == [];
    }
  }
}
