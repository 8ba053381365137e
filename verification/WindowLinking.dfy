/** How the width of the window bears on the linking of anonymous tool calls: a turn's call
    without an id takes the id of an unmatched result, and the rows after the turn can bring
    such results, or explicit calls that match the turn's own. */
module WindowLinking {
  import opened Options
  import opened JsonValue
  import opened Decimals
  import opened StateDb

  lemma {:induction false} AnonymousLocal(t: seq<Event>, a: seq<Event>, n: nat)
    requires n <= |t|
    ensures Anonymous(t + a, n) == Anonymous(t, n)
  {
    hide IsAnonymous;
    if n > 0 {
      AnonymousLocal(t, a, n - 1);
      assert (t + a)[n - 1] == t[n - 1];
    }
  }

  lemma {:induction false} KnowsConcat(t: seq<Event>, a: seq<Event>, callId: string)
    ensures Knows(t + a, callId) <==> Knows(t, callId) || Knows(a, callId)
  {
    if Knows(t, callId) {
      var i :| 0 <= i < |t| && IsExplicit(t[i]) && t[i].callId == callId;
      assert (t + a)[i] == t[i];
    }
    if Knows(a, callId) {
      var i :| 0 <= i < |a| && IsExplicit(a[i]) && a[i].callId == callId;
      assert (t + a)[|t| + i] == a[i];
    }
  }

  /** The call ids of the results that no explicit call matches, in order. */
  function Waiting(events: seq<Event>): seq<string> {
    Unmatched(events, events, |events|)
  }

  /** How many calls of the turn have no id of their own. */
  function Nameless(t: seq<Event>): nat {
    |Anonymous(t, |t|)|
  }

  /** The ids that no explicit call of `a` claims. */
  function Unclaimed(ids: seq<string>, a: seq<Event>): seq<string> {
    if ids == [] then []
    else Unclaimed(ids[..|ids| - 1], a) + if Knows(a, ids[|ids| - 1]) then [] else [ids[|ids| - 1]]
  }

  /** What the rows after a turn add to the ids that wait for a call. */
  function Added(t: seq<Event>, a: seq<Event>): seq<string> {
    Unmatched(t + a, a, |a|)
  }

  lemma {:induction false} UnmatchedFirst(all: seq<Event>, t: seq<Event>, a: seq<Event>, n: nat)
    requires n <= |t|
    ensures Unmatched(all, t + a, n) == Unmatched(all, t, n)
  {
    hide IsUnmatched;
    if n > 0 {
      UnmatchedFirst(all, t, a, n - 1);
      assert (t + a)[n - 1] == t[n - 1];
    }
  }

  lemma {:induction false} UnmatchedSecond(all: seq<Event>, t: seq<Event>, a: seq<Event>, n: nat)
    requires n <= |a|
    ensures Unmatched(all, t + a, |t| + n) == Unmatched(all, t, |t|) + Unmatched(all, a, n)
  {
    hide IsUnmatched;
    if n == 0 {
      UnmatchedFirst(all, t, a, |t|);
      assert Unmatched(all, a, 0) == [];
    } else {
      UnmatchedSecond(all, t, a, n - 1);
      assert (t + a)[|t| + n - 1] == a[n - 1];
    }
  }

  lemma {:induction false} UnclaimedMore(ids: seq<string>, id: string, a: seq<Event>)
    ensures Unclaimed(ids + [id], a) == Unclaimed(ids, a) + if Knows(a, id) then [] else [id]
  {
    hide Knows;
    assert (ids + [id])[..|ids|] == ids;
  }

  lemma {:induction false} UnmatchedInWindow(t: seq<Event>, a: seq<Event>, n: nat)
    requires n <= |t|
    ensures Unmatched(t + a, t, n) == Unclaimed(Unmatched(t, t, n), a)
  {
    hide Knows;
    if n > 0 {
      UnmatchedInWindow(t, a, n - 1);
      KnowsConcat(t, a, t[n - 1].callId);
      UnclaimedMore(Unmatched(t, t, n - 1), t[n - 1].callId, a);
      if !IsUnmatched(t, t[n - 1]) {
        assert Unmatched(t, t, n) == Unmatched(t, t, n - 1);
      }
    }
  }

  /** The ids waiting in a window: those of the turn that no later call claims, then the new ones. */
  lemma {:induction false} WaitingInWindow(t: seq<Event>, a: seq<Event>)
    ensures Waiting(t + a) == Unclaimed(Waiting(t), a) + Added(t, a)
  {
    hide IsUnmatched;
    UnmatchedSecond(t + a, t, a, |a|);
    UnmatchedInWindow(t, a, |t|);
  }

  // ------------------------------------------------------------------- one window

  /** The turn's events are linked as if they stood alone. */
  ghost predicate SameLinks(t: seq<Event>, a: seq<Event>) {
    forall i :: 0 <= i < |t| ==> Linked(t + a)[i] == Linked(t)[i]
  }

  /** What the anonymous calls of `t` are called when these ids are waiting: the k-th takes the
      k-th id, and keeps its made-up id when there is none. */
  function Handed(t: seq<Event>, ids: seq<string>): (r: seq<string>)
    ensures |r| == Nameless(t)
  {
    seq(Nameless(t), k requires 0 <= k < Nameless(t) => if k < |ids| then ids[k] else t[Anonymous(t, |t|)[k]].callId)
  }

  lemma {:induction false} HandedAt(t: seq<Event>, a: seq<Event>, i: nat)
    requires i < |t| && IsAnonymous(t[i])
    ensures Rank(t, i) < Nameless(t) && Anonymous(t, |t|)[Rank(t, i)] == i
    ensures Linked(t + a)[i] == t[i].(callId := Handed(t, Waiting(t + a))[Rank(t, i)])
  {
    hide Anonymous, IsAnonymous, Unmatched;
    RankPlace(t, i);
    AnonymousLocal(t, a, i);
    assert (t + a)[i] == t[i];
  }

  /** In any window: a turn is linked as if it stood alone exactly when the ids waiting in the
      window give each of its anonymous calls what the turn's own ids give it. */
  lemma {:induction false} SameLinksIff(t: seq<Event>, a: seq<Event>)
    ensures SameLinks(t, a) <==> Handed(t, Waiting(t + a)) == Handed(t, Waiting(t))
  {
    hide Anonymous, IsAnonymous, Unmatched, LinkedAt, Rank;
    assert t + [] == t;
    if SameLinks(t, a) {
      forall k | 0 <= k < Nameless(t) ensures Handed(t, Waiting(t + a))[k] == Handed(t, Waiting(t))[k] {
        RankOfCall(t, k);
        var p := Anonymous(t, |t|)[k];
        HandedAt(t, a, p);
        HandedAt(t, [], p);
      }
    }
    if Handed(t, Waiting(t + a)) == Handed(t, Waiting(t)) {
      forall i | 0 <= i < |t| ensures Linked(t + a)[i] == Linked(t)[i] {
        assert (t + a)[i] == t[i];
        if IsAnonymous(t[i]) {
          HandedAt(t, a, i);
          HandedAt(t, [], i);
        } else {
          LinkedKeeps(t + a, i);
          LinkedKeeps(t, i);
        }
      }
    }
  }

  /** No made-up call id of the turn is the id of a result. */
  ghost predicate MadeUpApart(t: seq<Event>, results: seq<Event>) {
    forall i, j :: 0 <= i < |t| && 0 <= j < |results| && IsAnonymous(t[i]) && results[j].kind == ToolResult ==>
      t[i].callId != results[j].callId
  }

  /** What follows the turn does not get between its calls and results: it claims none of the
      ids that are handed out, and brings no unmatched result when some call is left over. */
  ghost predicate LeavesAlone(t: seq<Event>, a: seq<Event>) {
    && (forall k :: 0 <= k < |Waiting(t)| && k < Nameless(t) ==> !Knows(a, Waiting(t)[k]))
    && (Nameless(t) > |Waiting(t)| ==>
          forall j :: 0 <= j < |a| && a[j].kind == ToolResult ==> Knows(t + a, a[j].callId))
  }

  lemma {:induction false} UnmatchedIsResult(all: seq<Event>, events: seq<Event>, n: nat, k: nat)
    requires n <= |events| && k < |Unmatched(all, events, n)|
    ensures exists j :: 0 <= j < n && IsUnmatched(all, events[j]) && events[j].callId == Unmatched(all, events, n)[k]
  {
    hide IsUnmatched;
    if k < |Unmatched(all, events, n - 1)| {
      UnmatchedIsResult(all, events, n - 1, k);
    } else {
      assert IsUnmatched(all, events[n - 1]);
    }
  }

  lemma {:induction false} NothingAdded(t: seq<Event>, a: seq<Event>)
    ensures Added(t, a) == [] <==> forall j :: 0 <= j < |a| && a[j].kind == ToolResult ==> Knows(t + a, a[j].callId)
  {
    hide Knows;
    if Added(t, a) != [] {
      UnmatchedIsResult(t + a, a, |a|, 0);
    }
    forall j | 0 <= j < |a| && a[j].kind == ToolResult && !Knows(t + a, a[j].callId) ensures Added(t, a) != [] {
      UnmatchedMember(t + a, a, |a|, j);
    }
  }

  /** As long as nothing is claimed, the ids stand where they stood. */
  lemma {:induction false} UnclaimedPrefix(ids: seq<string>, a: seq<Event>, n: nat)
    requires n <= |ids| && forall k :: 0 <= k < n ==> !Knows(a, ids[k])
    ensures |Unclaimed(ids, a)| >= n && Unclaimed(ids, a)[..n] == ids[..n]
  {
    hide Knows;
    if n < |ids| {
      UnclaimedPrefix(ids[..|ids| - 1], a, n);
    } else if n > 0 {
      UnclaimedPrefix(ids[..n - 1], a, n - 1);
      UnclaimedShorter(ids[..n - 1], a);
      assert ids[..|ids| - 1] == ids[..n - 1] && !Knows(a, ids[|ids| - 1]);
    }
  }

  /** The id handed to the k-th anonymous call: waiting in the window, or made up. */
  lemma {:induction false} HandedIs(t: seq<Event>, ids: seq<string>, k: nat)
    requires k < Nameless(t)
    ensures Handed(t, ids)[k] == if k < |ids| then ids[k] else t[Anonymous(t, |t|)[k]].callId
    ensures IsAnonymous(t[Anonymous(t, |t|)[k]])
  {
  }

  lemma {:induction false} ClaimedChanges(t: seq<Event>, a: seq<Event>, k: nat)
    requires MadeUpApart(t, t) && k < |Waiting(t)| && k < Nameless(t) && Knows(a, Waiting(t)[k])
    ensures Handed(t, Waiting(t + a))[k] != Handed(t, Waiting(t))[k]
  {
    hide Anonymous, IsAnonymous, Unmatched, Knows;
    HandedIs(t, Waiting(t + a), k);
    HandedIs(t, Waiting(t), k);
    KnowsConcat(t, a, Waiting(t)[k]);
    if k < |Waiting(t + a)| {
      UnmatchedIsUnknown(t + a, t + a, |t + a|, k);
    } else {
      UnmatchedIsResult(t, t, |t|, k);
    }
  }

  lemma {:induction false} AddedChanges(t: seq<Event>, a: seq<Event>)
    requires MadeUpApart(t, a) && Nameless(t) > |Waiting(t)| && Added(t, a) != []
    requires forall k :: 0 <= k < |Waiting(t)| ==> !Knows(a, Waiting(t)[k])
    ensures Handed(t, Waiting(t + a)) != Handed(t, Waiting(t))
  {
    hide Anonymous, IsAnonymous, Unmatched, Knows;
    var k := |Waiting(t)|;
    WaitingInWindow(t, a);
    UnclaimedPrefix(Waiting(t), a, k);
    UnclaimedShorter(Waiting(t), a);
    HandedIs(t, Waiting(t + a), k);
    HandedIs(t, Waiting(t), k);
    UnmatchedIsResult(t + a, a, |a|, 0);
    var j :| 0 <= j < |a| && IsUnmatched(t + a, a[j]) && a[j].callId == Added(t, a)[0];
    assert Waiting(t + a)[k] == a[j].callId;
  }

  lemma {:induction false} UnclaimedShorter(ids: seq<string>, a: seq<Event>)
    ensures |Unclaimed(ids, a)| <= |ids|
  {
    hide Knows;
    if ids != [] {
      UnclaimedShorter(ids[..|ids| - 1], a);
    }
  }

  /** With made-up ids apart from all result ids, a turn is linked as if it stood alone exactly
      when what follows it in the window leaves it alone. */
  lemma {:induction false} WindowKeepsLinksIff(t: seq<Event>, a: seq<Event>)
    requires MadeUpApart(t, t) && MadeUpApart(t, a)
    ensures SameLinks(t, a) <==> LeavesAlone(t, a)
  {
    hide SameLinks, Handed, Anonymous, IsAnonymous, Unmatched, Knows, MadeUpApart;
    SameLinksIff(t, a);
    NothingAdded(t, a);
    var ids := Waiting(t);
    if k :| 0 <= k < |ids| && k < Nameless(t) && Knows(a, ids[k]) {
      ClaimedChanges(t, a, k);
    } else if Nameless(t) > |ids| && Added(t, a) != [] {
      AddedChanges(t, a);
    } else {
      WaitingInWindow(t, a);
      var n := if Nameless(t) < |ids| then Nameless(t) else |ids|;
      UnclaimedPrefix(ids, a, n);
      UnclaimedShorter(ids, a);
      SameHanded(t, ids, Waiting(t + a), n);
    }
  }

  lemma {:induction false} SameHanded(t: seq<Event>, ids: seq<string>, others: seq<string>, n: nat)
    requires n == if Nameless(t) < |ids| then Nameless(t) else |ids|
    requires n <= |others| && others[..n] == ids[..n] && (Nameless(t) > |ids| ==> |others| == |ids|)
    ensures Handed(t, others) == Handed(t, ids)
  {
    hide Anonymous;
    forall k | 0 <= k < Nameless(t) ensures Handed(t, others)[k] == Handed(t, ids)[k] {
      assert k < n ==> others[..n][k] == ids[..n][k];
    }
  }

  // ------------------------------------------------------------------------ every window

  /** An explicit call with this id. */
  function CallWith(id: string): Row {
    Row(0, 0.0, "assistant", Null, "", [RowCall(id, "tool", Null)], "success")
  }

  /** A result with this id. */
  function ResultWith(id: string): Row {
    Row(0, 0.0, "tool", Null, id, [], "success")
  }

  lemma {:induction false} CallRowEvents(row: Row, id: string)
    requires id != "" && row == CallWith(id).(id := row.id)
    ensures |RowEvents(row)| == 1 && IsExplicit(RowEvents(row)[0]) && RowEvents(row)[0].callId == id
  {
  }

  lemma {:induction false} ResultRowEvents(row: Row, id: string)
    requires id != "" && row == ResultWith(id).(id := row.id)
    ensures |RowEvents(row)| == 1 && RowEvents(row)[0].kind == ToolResult && RowEvents(row)[0].callId == id
  {
  }

  /** Longer than every call id of these events. */
  function Longer(events: seq<Event>): (id: string)
    ensures id != "" && forall i :: 0 <= i < |events| ==> |events[i].callId| < |id|
  {
    if events == [] then "x"
    else
      var rest, last := Longer(events[..|events| - 1]), events[|events| - 1].callId;
      if |last| < |rest| then rest else last + "x"
  }

  lemma {:induction false} LongerIsUnknown(t: seq<Event>, a: seq<Event>)
    requires |a| == 1 && a[0].kind == ToolResult && a[0].callId == Longer(t)
    ensures !Knows(t + a, a[0].callId) && MadeUpApart(t, a)
  {
    KnowsConcat(t, a, a[0].callId);
  }

  /** A row that, put after a turn with an anonymous call, changes how the turn is linked: an
      explicit call that claims the first waiting id, or a result when no id is waiting. */
  lemma {:induction false} SomeRowChangesLinks(t: seq<Event>, rowId: nat) returns (row: Row)
    requires MadeUpApart(t, t) && Nameless(t) > 0
    requires forall i :: 0 <= i < |t| && t[i].kind == ToolResult ==> t[i].callId != ""
    ensures row.id == rowId && !UserRow(row) && !SameLinks(t, RowEvents(row))
  {
    hide Anonymous, IsAnonymous, Unmatched, SameLinks, RowEvents, IsExplicit;
    if Waiting(t) != [] {
      var id := Waiting(t)[0];
      UnmatchedIsResult(t, t, |t|, 0);
      row := CallWith(id).(id := rowId);
      CallRowEvents(row, id);
      var a := RowEvents(row);
      assert IsExplicit(a[0]) && a[0].callId == id && Knows(a, id);
      NoResults(t, a);
      WindowKeepsLinksIff(t, a);
    } else {
      row := ResultWith(Longer(t)).(id := rowId);
      ResultRowEvents(row, Longer(t));
      var a := RowEvents(row);
      LongerIsUnknown(t, a);
      assert a[0].kind == ToolResult && !Knows(t + a, a[0].callId);
      WindowKeepsLinksIff(t, a);
    }
  }

  lemma {:induction false} NoResults(t: seq<Event>, a: seq<Event>)
    requires |a| == 1 && IsExplicit(a[0])
    ensures MadeUpApart(t, a)
  {
  }

  // ---------------------------------------------------------------------- reading a round

  lemma {:induction false} TrimmedAtUser(before: seq<Event>, t: seq<Event>, a: seq<Event>, user: nat)
    requires t != [] && IsUser(t[0]) && t[0].id == Decimal(user)
    requires forall i :: 0 <= i < |before| ==> !(IsUser(before[i]) && before[i].id == Decimal(user))
    ensures TrimToRound(before + t + a, Some(user)) == t + a
  {
    hide FirstWhere, LastWhere;
    var events := before + t + a;
    var k := FirstWhere(events, UserWithId(Decimal(user)));
    assert events[|before|] == t[0];
    assert forall i :: 0 <= i < |before| ==> events[i] == before[i];
    assert UserWithId(Decimal(user))(events[|before|]);
    assert k == |before|;
    assert events[|before|..] == t + a;
  }

  lemma {:induction false} FirstTerminal(events: seq<Event>, n: nat)
    requires n < |events| && IsAssistant(events[n]) && events[n].terminal
    requires forall i :: 0 <= i < n ==> !(IsAssistant(events[i]) && events[i].terminal)
    ensures FinalIndex(events, None, true) == Some(n)
  {
    hide FirstWhere, LastWhere;
    var k := FirstWhere(events, Terminal());
    assert Terminal()(events[n]);
    assert forall i :: 0 <= i < n ==> !Terminal()(events[i]);
  }

  /** The events that reading back a window gives: as many as the turn has, each of them the
      turn's own but for the id of an anonymous call. */
  lemma {:induction false} WindowGives(before: seq<Row>, turn: seq<Row>, after: seq<Row>)
    requires CompleteTurn(turn)
    requires forall i :: 0 <= i < |before| && UserRow(before[i]) ==> before[i].id != turn[0].id
    ensures var t, a := AllEvents(turn), AllEvents(after);
      && t != [] && |Linked(t + a)| >= |t|
      && EventsFromRows(before + turn + after, true, Some(turn[0].id), None)
         == Published(Linked(t + a)[..|t|][|t| - 1 := Linked(t + a)[|t| - 1].(final := true)])
  {
    hide RowEvents, LinkedAt, FirstWhere, LastWhere, Anonymous, Unmatched, Knows, TrimToRound, FinalIndex, AllEvents;
    var b, t, a := AllEvents(before), AllEvents(turn), AllEvents(after);
    AllEventsConcat(before, turn);
    AllEventsConcat(before + turn, after);
    TurnShape(turn);
    forall i | 0 <= i < |b| ensures !(IsUser(b[i]) && b[i].id == Decimal(turn[0].id)) {
      NoSuchUser(before, turn[0].id, i);
    }
    TrimmedAtUser(b, t, a, turn[0].id);
    var round := Linked(t + a);
    forall i | 0 <= i < |t|
      ensures round[i].kind == t[i].kind && round[i].role == t[i].role && round[i].terminal == t[i].terminal
    {
      LinkedKeeps(t + a, i);
      assert (t + a)[i] == t[i];
    }
    FirstTerminal(round, |t| - 1);
  }

  /** A complete turn, read back from its user message's id alone out of any window around it,
      comes out as by itself exactly when the window links it as by itself. */
  lemma {:induction false} RecoveredAsAloneIff(before: seq<Row>, turn: seq<Row>, after: seq<Row>)
    requires CompleteTurn(turn)
    requires forall i :: 0 <= i < |before| && UserRow(before[i]) ==> before[i].id != turn[0].id
    ensures AllEvents(turn) != []
    ensures EventsFromRows(before + turn + after, true, Some(turn[0].id), None) == TurnEvents(turn)
       <==> SameLinks(AllEvents(turn), AllEvents(after))
  {
    hide RowEvents, AllEvents, EventsFromRows, LinkedAt, CompleteTurn;
    var t, a := AllEvents(turn), AllEvents(after);
    WindowGives(before, turn, after);
    PublishedSame(t, Linked(t + a)[..|t|], Linked(t));
    if SameLinks(t, a) {
      assert Linked(t + a)[..|t|] == Linked(t);
    }
    forall i | 0 <= i < |t|
      ensures SameButCallId(Linked(t + a)[i], t[i]) && SameButCallId(Linked(t)[i], t[i])
    {
      LinkedKeeps(t + a, i);
      LinkedKeeps(t, i);
      assert (t + a)[i] == t[i];
    }
    assert SameLinks(t, a) <==> forall i :: 0 <= i < |t| ==> Linked(t + a)[..|t|][i] == Linked(t)[i];
  }

  predicate SameButCallId(e: Event, f: Event) {
    e == f.(callId := e.callId)
  }

  /** Marking the last event final and dropping the private marks hides no difference in ids. */
  lemma {:induction false} PublishedSame(t: seq<Event>, x: seq<Event>, y: seq<Event>)
    requires |x| == |y| == |t| > 0
    ensures (forall i :: 0 <= i < |t| ==> SameButCallId(x[i], t[i]) && SameButCallId(y[i], t[i])) ==>
      (Published(x[|t| - 1 := x[|t| - 1].(final := true)]) == Published(y[|t| - 1 := y[|t| - 1].(final := true)])
       <==> x == y)
  {
    var u, v := x[|t| - 1 := x[|t| - 1].(final := true)], y[|t| - 1 := y[|t| - 1].(final := true)];
    var alike := forall i :: 0 <= i < |t| ==> SameButCallId(x[i], t[i]) && SameButCallId(y[i], t[i]);
    if alike && Published(u) == Published(v) {
      forall i | 0 <= i < |t| ensures x[i] == y[i] {
        assert Published(u)[i].callId == u[i].callId == x[i].callId;
        assert Published(v)[i].callId == v[i].callId == y[i].callId;
      }
    }
  }

  /** Whatever rows stand around it, in the order of their ids, the turn comes out as by itself. */
  ghost predicate RecoveredInEveryWindow(turn: seq<Row>)
    requires AllEvents(turn) != []
  {
    forall before, after :: AscendingIds(before + turn + after) ==>
      EventsFromRows(before + turn + after, true, Some(turn[0].id), None) == TurnEvents(turn)
  }

  lemma {:induction false} NamelessIff(t: seq<Event>)
    ensures Nameless(t) == 0 <==> forall i :: 0 <= i < |t| ==> !IsAnonymous(t[i])
  {
    hide IsAnonymous;
    assert forall i :: 0 <= i < |t| && IsAnonymous(t[i]) ==> i in Anonymous(t, |t|);
    assert Nameless(t) > 0 ==> IsAnonymous(t[Anonymous(t, |t|)[0]]);
  }

  lemma {:induction false} NamedTurnKeepsLinks(t: seq<Event>, a: seq<Event>)
    requires Nameless(t) == 0
    ensures SameLinks(t, a)
  {
    hide Anonymous;
    SameLinksIff(t, a);
    assert Handed(t, Waiting(t + a)) == [] == Handed(t, Waiting(t));
  }

  /** Row ids ascend, so no earlier row is the turn's user message. */
  lemma {:induction false} EarlierIdsDiffer(before: seq<Row>, turn: seq<Row>, after: seq<Row>)
    requires AscendingIds(before + turn + after) && turn != []
    ensures forall i :: 0 <= i < |before| ==> before[i].id != turn[0].id
  {
    var rows := before + turn + after;
    assert rows[|before|] == turn[0];
    assert forall i :: 0 <= i < |before| ==> rows[i] == before[i];
  }

  lemma {:induction false} ResultIdsNotEmpty(rows: seq<Row>, i: nat)
    requires i < |AllEvents(rows)| && AllEvents(rows)[i].kind == ToolResult
    ensures AllEvents(rows)[i].callId != ""
    decreases |rows|
  {
    hide RowEvents;
    var before, last := rows[..|rows| - 1], rows[|rows| - 1];
    if i < |AllEvents(before)| {
      ResultIdsNotEmpty(before, i);
    } else {
      RowResultId(last, i - |AllEvents(before)|);
    }
  }

  lemma {:induction false} RowResultId(row: Row, i: nat)
    requires i < |RowEvents(row)| && RowEvents(row)[i].kind == ToolResult
    ensures RowEvents(row)[i].callId != ""
  {
    assert |Decimal(row.id) + ":call"| > 0;
  }

  /** Reading a complete turn back is independent of the window exactly when none of its calls
      is anonymous: with made-up call ids apart from the turn's result ids, there is always a
      row that changes the id of an anonymous call. */
  lemma {:induction false} WindowIndependentIff(turn: seq<Row>)
    requires CompleteTurn(turn) && AscendingIds(turn) && MadeUpApart(AllEvents(turn), AllEvents(turn))
    ensures AllEvents(turn) != []
    ensures RecoveredInEveryWindow(turn)
       <==> forall i :: 0 <= i < |AllEvents(turn)| ==> !IsAnonymous(AllEvents(turn)[i])
  {
    hide RowEvents, AllEvents, EventsFromRows, TurnEvents, SameLinks, IsAnonymous, MadeUpApart, CompleteTurn;
    var t := AllEvents(turn);
    CompleteIsNotEmpty(turn);
    RecoveredAsAloneIff([], turn, []);
    NamelessIff(t);
    if Nameless(t) == 0 {
      forall before, after | AscendingIds(before + turn + after)
        ensures EventsFromRows(before + turn + after, true, Some(turn[0].id), None) == TurnEvents(turn)
      {
        EarlierIdsDiffer(before, turn, after);
        RecoveredAsAloneIff(before, turn, after);
        NamedTurnKeepsLinks(t, AllEvents(after));
      }
    } else {
      forall i | 0 <= i < |t| && t[i].kind == ToolResult ensures t[i].callId != "" {
        ResultIdsNotEmpty(turn, i);
      }
      var row := SomeRowChangesLinks(t, turn[|turn| - 1].id + 1);
      OneRow(row);
      RecoveredAsAloneIff([], turn, [row]);
      OneMoreAscending(turn, row);
    }
  }

  lemma {:induction false} CompleteIsNotEmpty(turn: seq<Row>)
    requires CompleteTurn(turn)
    ensures turn != []
  {
  }

  lemma {:induction false} OneMoreAscending(turn: seq<Row>, row: Row)
    requires AscendingIds(turn) && turn != [] && row.id == turn[|turn| - 1].id + 1
    ensures AscendingIds([] + turn + [row])
  {
    var rows := [] + turn + [row];
    forall i, j | 0 <= i < j < |rows| ensures rows[i].id < rows[j].id {
      if j == |turn| && i < |turn| - 1 {
        assert turn[i].id < turn[|turn| - 1].id;
      }
    }
  }

  // -------------------------------------------------------------------------- the query

  /** Every query that names the turn's user message and lets its rows through recovers exactly
      the turn, whatever its other bounds select around it. */
  lemma {:induction false} EveryWindowGivesTheTurn(table: seq<Row>, i: nat, j: nat, q: Query)
    requires AscendingIds(table) && i < j <= |table| && CompleteTurn(table[i..j])
    requires forall k :: i <= k < j ==> Matches(q, table[k])
    requires q.user == Some(table[i].id) && q.assistant.None?
    requires forall k :: 0 <= k < |AllEvents(table[i..j])| ==> !IsAnonymous(AllEvents(table[i..j])[k])
    ensures AllEvents(table[i..j]) != [] && RoundEvents(table, q) == TurnEvents(table[i..j])
  {
    hide Matches, AllEvents, TurnEvents, EventsFromRows, CompleteTurn, QueryRows, IsAnonymous, SameLinks;
    var a, turn, b := table[..i], table[i..j], table[j..];
    assert table == a + turn + b;
    QueryConcat(a, turn, q);
    QueryConcat(a + turn, b, q);
    QueryAll(turn, q);
    var before := QueryRows(a, q);
    forall k | 0 <= k < |before| ensures before[k].id != turn[0].id {
      QueryMember(a, q, before[k]);
      var m :| 0 <= m < |a| && a[m] == before[k];
      assert table[m].id < table[i].id;
    }
    assert turn[0] == table[i];
    NamelessIff(AllEvents(turn));
    NamedTurnKeepsLinks(AllEvents(turn), AllEvents(QueryRows(b, q)));
    RecoveredAsAloneIff(before, turn, QueryRows(b, q));
    CompleteIsNotEmpty(turn);
  }

  /** On rows of a table: a turn whose only call carries no id and has no result keeps a made-up
      id when it is read alone, and takes the id of a result that a later row brings. */
  lemma {:induction false} LaterResultIsTaken(user: Row, ask: Row, answer: Row, later: Row)
    requires UserRow(user) && AnswerRow(answer) && user.id < ask.id < answer.id < later.id
    requires ask.role == "assistant" && ask.toolCallId == "" && ask.content == Null
    requires |ask.calls| == 1 && ask.calls[0].callId == ""
    requires later.role == "tool" && later.toolCallId != ""
    requires later.toolCallId != Decimal(ask.id) + ":call:" + Decimal(0)
    ensures var turn := [user, ask, answer];
      var alone := EventsFromRows(turn, true, Some(user.id), None);
      var wide := EventsFromRows(turn + [later], true, Some(user.id), None);
      && |alone| == |wide| == 3
      && alone[1].callId == Decimal(ask.id) + ":call:" + Decimal(0) && wide[1].callId == later.toolCallId
  {
    hide FirstWhere, LastWhere, TrimToRound, FinalIndex, EventsFromRows, AllEvents, RowEvents, Unmatched, Anonymous,
         Knows;
    var turn := [user, ask, answer];
    ThreeRows(user, ask, answer);
    LaterRow(later);
    var t, a := AllEvents(turn), AllEvents([later]);
    WindowGives([], turn, []);
    WindowGives([], turn, [later]);
    assert [] + turn + [] == turn && [] + turn + [later] == turn + [later] && t + [] == t;
    assert AllEvents([]) == [] by {
      NoRows();
    }
    TakesLater(t, a);
  }

  lemma {:induction false} NoRows()
    ensures AllEvents([]) == []
  {
  }

  lemma {:induction false} ThreeRows(user: Row, ask: Row, answer: Row)
    requires UserRow(user) && AnswerRow(answer)
    requires ask.role == "assistant" && ask.toolCallId == "" && ask.content == Null
    requires |ask.calls| == 1 && ask.calls[0].callId == ""
    ensures CompleteTurn([user, ask, answer])
    ensures var t := AllEvents([user, ask, answer]);
      && |t| == 3 && t[0].kind == Message && IsAnonymous(t[1]) && t[2].kind == Message
      && t[1].callId == Decimal(ask.id) + ":call:" + Decimal(0)
  {
    hide RowEvents, AllEvents;
    OneRow(user);
    OneRow(ask);
    OneRow(answer);
    AllEventsConcat([user], [ask]);
    AllEventsConcat([user] + [ask], [answer]);
    assert [user, ask, answer] == [user] + [ask] + [answer];
    UserRowEvents(user);
    AnswerRowEvents(answer);
    AskRowEvents(ask);
  }

  lemma {:induction false} AskRowEvents(ask: Row)
    requires ask.role == "assistant" && ask.toolCallId == "" && ask.content == Null
    requires |ask.calls| == 1 && ask.calls[0].callId == ""
    ensures |RowEvents(ask)| == 1 && IsAnonymous(RowEvents(ask)[0])
    ensures RowEvents(ask)[0].callId == Decimal(ask.id) + ":call:" + Decimal(0)
  {
  }

  lemma {:induction false} LaterRow(later: Row)
    requires later.role == "tool" && later.toolCallId != ""
    ensures var a := AllEvents([later]); |a| == 1 && a[0].kind == ToolResult && a[0].callId == later.toolCallId
  {
    OneRow(later);
  }

  lemma {:induction false} TakesLater(t: seq<Event>, a: seq<Event>)
    requires |t| == 3 && t[0].kind == Message && IsAnonymous(t[1]) && t[2].kind == Message
    requires |a| == 1 && a[0].kind == ToolResult && a[0].callId != t[1].callId
    ensures Linked(t)[1].callId == t[1].callId && Linked(t + a)[1].callId == a[0].callId
  {
    hide Knows, Anonymous, Unmatched, IsAnonymous;
    var all := t + a;
    assert all[0] == t[0] && all[1] == t[1] && all[2] == t[2] && all[3] == a[0];
    OnlyOneCall(t, a);
    AnonymousLocal(t, a, 1);
    OnlyOneResult(all);
  }

  lemma {:induction false} OnlyOneCall(t: seq<Event>, a: seq<Event>)
    requires |t| == 3 && t[0].kind == Message && IsAnonymous(t[1]) && t[2].kind == Message
    ensures Anonymous(t, 1) == [] && |Anonymous(t, 3)| == 1 && Unmatched(t, t, 3) == []
  {
    hide Knows, Anonymous, Unmatched;
    AnonymousStep(t, 0);
    AnonymousStep(t, 1);
    AnonymousStep(t, 2);
    UnmatchedStep(t, 0);
    UnmatchedStep(t, 1);
    UnmatchedStep(t, 2);
  }

  lemma {:induction false} OnlyOneResult(all: seq<Event>)
    requires |all| == 4 && all[0].kind == Message && IsAnonymous(all[1]) && all[2].kind == Message
    requires all[3].kind == ToolResult
    ensures Unmatched(all, all, 4) == [all[3].callId]
  {
    NoCallsNoMatches(all);
    hide Knows, Unmatched;
    UnmatchedStep(all, 0);
    UnmatchedStep(all, 1);
    UnmatchedStep(all, 2);
    UnmatchedStep(all, 3);
  }

  lemma {:induction false} AnonymousStep(events: seq<Event>, n: nat)
    requires n < |events|
    ensures Anonymous(events, 0) == []
    ensures Anonymous(events, n + 1)
         == if IsAnonymous(events[n]) then Anonymous(events, n) + [n] else Anonymous(events, n)
  {
    hide IsAnonymous;
    assert Anonymous(events, n) + [] == Anonymous(events, n);
  }

  lemma {:induction false} UnmatchedStep(events: seq<Event>, n: nat)
    requires n < |events|
    ensures Unmatched(events, events, 0) == []
    ensures Unmatched(events, events, n + 1)
         == if IsUnmatched(events, events[n]) then Unmatched(events, events, n) + [events[n].callId]
            else Unmatched(events, events, n)
  {
    hide IsUnmatched;
    assert Unmatched(events, events, n) + [] == Unmatched(events, events, n);
  }

  lemma {:induction false} NoCallsNoMatches(all: seq<Event>)
    requires |all| == 4 && all[0].kind == Message && IsAnonymous(all[1]) && all[2].kind == Message
    requires all[3].kind == ToolResult
    ensures forall id :: !Knows(all, id)
  {
  }
}
