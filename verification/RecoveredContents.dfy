/** What a recovered round says, row by row and member by member; and which rows are read. */
module RecoveredContents {
  import opened Options
  import opened JsonValue
  import opened Decimals
  import opened StateDb
  import opened RecoveredRounds
  import opened WindowLinking

  // --------------------------------------------------------------------------------- rows

  predicate IsResultRow(row: Row) {
    row.role == "tool" || row.toolCallId != ""
  }

  predicate IsCallRow(row: Row) {
    !IsResultRow(row) && row.role == "assistant" && row.calls != []
  }

  /** A row of calls says something of its own. */
  predicate Speaks(row: Row) {
    row.content != Null && row.content != Str("")
  }

  /** How many events a row is read as. */
  function Width(row: Row): nat {
    if IsCallRow(row) then (if Speaks(row) then 1 else 0) + |row.calls| else 1
  }

  /** The dictionary of a message; `final` stands only in that of a final answer. */
  function MessageDict(id: string, role: string, content: Json, final: bool): map<string, Json> {
    map["event_id" := Str(id), "kind" := Str("message"), "role" := Str(role), "content" := content]
    + if final then map["final" := Bool(true)] else map[]
  }

  /** The dictionary of the `i`-th call of a row. A call that names no id may have been given any. */
  predicate CallSays(f: Fields, row: Row, i: nat)
    requires i < |row.calls|
  {
    && f.Keys == {"event_id", "kind", "tool_call_id", "tool_name", "arguments"}
    && f["event_id"] == Str(Decimal(row.id) + ":tool_call:" + Decimal(i)) && f["kind"] == Str("tool_call")
    && (row.calls[i].callId != "" ==> f["tool_call_id"] == Str(row.calls[i].callId))
    && f["tool_name"] == Str(if row.calls[i].tool == "" then "unknown" else row.calls[i].tool)
    && f["arguments"] == if row.calls[i].arguments == Null then Obj(map[]) else row.calls[i].arguments
  }

  predicate CallsSay(fs: seq<Fields>, row: Row) {
    |fs| == |row.calls| && forall i :: 0 <= i < |fs| ==> CallSays(fs[i], row, i)
  }

  /** What the dictionaries of one row say: a result under its call id; or the text of a row of
      calls, if it has one, and each call; or one message, of the user, the assistant, or, for any
      other role, the system. A missing content is an empty text. */
  predicate RowSays(row: Row, fs: seq<Fields>, final: bool) {
    var id := Decimal(row.id);
    var shown := if row.content == Null then Str("") else row.content;
    && |fs| == Width(row)
    && (IsResultRow(row) ==>
          fs[0] == map[
            "event_id" := Str(id), "kind" := Str("tool_result"),
            "tool_call_id" := Str(if row.toolCallId != "" then row.toolCallId else id + ":call"),
            "status" := Str(row.status), "content" := shown])
    && (IsCallRow(row) ==>
          var said := if Speaks(row) then 1 else 0;
          && (Speaks(row) ==> fs[0] == MessageDict(id, "assistant", row.content, false))
          && CallsSay(fs[said..], row))
    && (!IsResultRow(row) && !IsCallRow(row) ==>
          fs[0] == MessageDict(id, if row.role == "user" || row.role == "assistant" then row.role else "system", shown,
                               final))
  }

  /** How many events the first `k` rows are read as. */
  function Place(rows: seq<Row>, k: nat): nat
    requires k <= |rows|
  {
    if k == 0 then 0 else Place(rows, k - 1) + Width(rows[k - 1])
  }

  /** The dictionaries are those of the rows, in their order; the last row's is final. */
  ghost predicate RowsSay(rows: seq<Row>, fs: seq<Fields>) {
    && |fs| == Place(rows, |rows|)
    && forall k :: 0 <= k < |rows| ==>
         && Place(rows, k) + Width(rows[k]) <= |fs|
         && RowSays(rows[k], fs[Place(rows, k)..Place(rows, k) + Width(rows[k])], k == |rows| - 1)
  }

  // --------------------------------------------------------------------------- from events

  /** The event is as its row made it but for finality, the private marks, and the id of a call
      that named none. */
  predicate AsRead(e: Event, read: Event) {
    && e == read.(callId := e.callId, terminal := e.terminal, synthetic := e.synthetic, final := e.final)
    && (!IsAnonymous(read) ==> e.callId == read.callId)
  }

  lemma {:induction false} CallIsRead(e: Event, row: Row, i: nat)
    requires i < |row.calls| && AsRead(e, CallEvent(Decimal(row.id), i, row.calls[i]))
    ensures CallSays(AsDict(e), row, i)
  {
    hide Decimal;
  }

  lemma {:induction false} MessageIsRead(e: Event, id: string, role: Role, content: Json, terminal: bool)
    requires AsRead(e, MessageEvent(id, role, content, terminal)) && role != NoRole
    ensures AsDict(e) == MessageDict(id, RoleText(role), content, e.final)
  {
  }

  lemma {:induction false} ResultIsRead(e: Event, row: Row)
    requires IsResultRow(row) && |RowEvents(row)| == 1 && AsRead(e, RowEvents(row)[0])
    ensures AsDict(e) == map[
      "event_id" := Str(Decimal(row.id)), "kind" := Str("tool_result"),
      "tool_call_id" := Str(if row.toolCallId != "" then row.toolCallId else Decimal(row.id) + ":call"),
      "status" := Str(row.status), "content" := if row.content == Null then Str("") else row.content]
  {
    hide Decimal;
  }

  lemma {:induction false} RowIsRead(row: Row, es: seq<Event>, final: bool)
    requires |es| == |RowEvents(row)| && forall i :: 0 <= i < |es| ==> AsRead(es[i], RowEvents(row)[i])
    requires forall i :: 0 <= i < |es| ==> (es[i].final <==> final && i == |es| - 1)
    requires final ==> AnswerRow(row)
    ensures RowSays(row, Dicts(es), final)
  {
    hide Decimal, CallSays, MessageDict, AsDict, AsRead, CallEvent, MessageEvent;
    RowWidth(row);
    if IsResultRow(row) {
      ResultIsRead(es[0], row);
    } else if IsCallRow(row) {
      CallRowIsRead(row, es);
    } else {
      var role := if row.role == "user" then User else if row.role == "assistant" then Assistant else System;
      MessageIsRead(es[0], Decimal(row.id), role, if row.content == Null then Str("") else row.content,
                    row.role == "assistant");
    }
  }

  lemma {:induction false} CallRowIsRead(row: Row, es: seq<Event>)
    requires IsCallRow(row)
    requires |es| == |RowEvents(row)| && forall i :: 0 <= i < |es| ==> AsRead(es[i], RowEvents(row)[i]) && !es[i].final
    ensures |es| == Width(row)
    ensures Speaks(row) ==> Dicts(es)[0] == MessageDict(Decimal(row.id), "assistant", row.content, false)
    ensures CallsSay(Dicts(es)[if Speaks(row) then 1 else 0..], row)
  {
    hide Decimal, CallSays, MessageDict, AsDict, AsRead, CallEvent, MessageEvent;
    var said := if Speaks(row) then 1 else 0;
    RowWidth(row);
    if Speaks(row) {
      MessageIsRead(es[0], Decimal(row.id), Assistant, row.content, false);
    }
    forall i | 0 <= i < |row.calls| ensures CallSays(Dicts(es)[said..][i], row, i) {
      assert RowEvents(row)[said + i] == CallEvents(Decimal(row.id), row.calls)[i];
      CallIsRead(es[said + i], row, i);
    }
  }

  lemma {:induction false} RowWidth(row: Row)
    ensures |RowEvents(row)| == Width(row)
  {
  }

  lemma {:induction false} RowPlace(rows: seq<Row>, k: nat)
    requires k < |rows|
    ensures Place(rows, k) + Width(rows[k]) <= |AllEvents(rows)| == Place(rows, |rows|)
    ensures AllEvents(rows)[Place(rows, k)..Place(rows, k) + Width(rows[k])] == RowEvents(rows[k])
    decreases |rows|
  {
    hide RowEvents, Width;
    var before, last := rows[..|rows| - 1], rows[|rows| - 1];
    RowWidth(last);
    PlaceBefore(rows, |rows| - 1);
    if |rows| == 1 {
      assert before == [];
    } else {
      RowPlace(before, 0);
    }
    if k < |rows| - 1 {
      RowPlace(before, k);
      PlaceBefore(rows, k);
      var from, upto := Place(rows, k), Place(rows, k) + Width(rows[k]);
      assert AllEvents(rows)[from..upto] == AllEvents(before)[from..upto];
    }
  }

  lemma {:induction false} PlaceBefore(rows: seq<Row>, k: nat)
    requires rows != [] && k < |rows|
    ensures Place(rows[..|rows| - 1], k) == Place(rows, k)
  {
    hide Width;
    if k > 0 {
      PlaceBefore(rows, k - 1);
    }
  }

  /** A recovered turn says what its rows say. */
  lemma {:induction false} TurnSays(turn: seq<Row>)
    requires CompleteTurn(turn) && AllEvents(turn) != []
    ensures RowsSay(turn, Dicts(TurnEvents(turn)))
  {
    hide RowEvents, AllEvents, Width, RowSays, AsDict, LinkedAt, CompleteTurn;
    var read, events := AllEvents(turn), TurnEvents(turn);
    forall i | 0 <= i < |events| ensures |events| == |read| && AsRead(events[i], read[i])
      ensures events[i].final <==> i == |events| - 1
    {
      TurnEndsFinal(turn, i);
      LinkedKeeps(read, i);
    }
    LastIsAnswer(turn);
    RowPlace(turn, 0);
    forall k | 0 <= k < |turn|
      ensures Place(turn, k) + Width(turn[k]) <= |events|
      ensures RowSays(turn[k], Dicts(events)[Place(turn, k)..Place(turn, k) + Width(turn[k])], k == |turn| - 1)
    {
      RowIsReadAt(turn, events, k);
    }
  }

  lemma {:induction false} RowIsReadAt(turn: seq<Row>, events: seq<Event>, k: nat)
    requires k < |turn| && |events| == |AllEvents(turn)| && AnswerRow(turn[|turn| - 1]) && Width(turn[|turn| - 1]) == 1
    requires forall i :: 0 <= i < |events| ==> AsRead(events[i], AllEvents(turn)[i])
    requires forall i :: 0 <= i < |events| ==> (events[i].final <==> i == |events| - 1)
    ensures Place(turn, k) + Width(turn[k]) <= |events|
    ensures RowSays(turn[k], Dicts(events)[Place(turn, k)..Place(turn, k) + Width(turn[k])], k == |turn| - 1)
  {
    hide RowEvents, AllEvents, Width, RowSays, AsDict, AsRead;
    RowPlace(turn, k);
    var from, upto := Place(turn, k), Place(turn, k) + Width(turn[k]);
    RowWidth(turn[k]);
    PlacesGrow(turn, k);
    var es := events[from..upto];
    assert forall i ::
      0 <= i < |es| ==> es[i] == events[from + i] && RowEvents(turn[k])[i] == AllEvents(turn)[from + i];
    assert Dicts(es) == Dicts(events)[from..upto];
    RowIsRead(turn[k], es, k == |turn| - 1);
  }

  lemma {:induction false} LastIsAnswer(turn: seq<Row>)
    requires CompleteTurn(turn)
    ensures AnswerRow(turn[|turn| - 1]) && Width(turn[|turn| - 1]) == 1 && |turn| >= 2
  {
  }

  lemma {:induction false} PlacesGrow(rows: seq<Row>, k: nat)
    requires k < |rows|
    ensures Place(rows, k) + Width(rows[k]) <= Place(rows, |rows|)
    ensures k < |rows| - 1 ==> Place(rows, k) + Width(rows[k]) + Width(rows[|rows| - 1]) <= Place(rows, |rows|)
    ensures k == |rows| - 1 ==> Place(rows, k) + Width(rows[k]) == Place(rows, |rows|)
  {
    hide Width;
    if k < |rows| - 1 {
      PlacesGrowTo(rows, k + 1, |rows| - 1);
    }
  }

  lemma {:induction false} PlacesGrowTo(rows: seq<Row>, j: nat, k: nat)
    requires j <= k <= |rows|
    ensures Place(rows, j) <= Place(rows, k)
  {
    hide Width;
    if j < k {
      PlacesGrowTo(rows, j, k - 1);
    }
  }

  // --------------------------------------------------------------------- what is read at all

  /** The row lies within the bounds: message ids where they are given, of the range before those
      of the round's own messages, and timestamps on a side without an id. */
  predicate Within(q: Query, row: Row) {
    && (match (q.first, q.user, q.from)
        case (Some(id), _, _) => id <= row.id
        case (None, Some(id), _) => id <= row.id
        case (None, None, Some(t)) => t <= row.stamp
        case (None, None, None) => true)
    && (match (q.last, q.assistant, q.upto)
        case (Some(id), _, _) => row.id <= id
        case (None, Some(id), _) => row.id <= id
        case (None, None, Some(t)) => row.stamp <= t
        case (None, None, None) => true)
  }

  /** The query reads the rows within its bounds, each once and in order. */
  lemma {:induction false} QueryReads(table: seq<Row>, q: Query)
    requires AscendingIds(table)
    ensures AscendingIds(QueryRows(table, q))
    ensures forall row :: row in QueryRows(table, q) <==> row in table && Within(q, row)
  {
    hide Within, Matches;
    if table != [] {
      var before, last := table[..|table| - 1], table[|table| - 1];
      QueryReads(before, q);
      WithinIff(q, last);
      var read := QueryRows(before, q);
      forall i | 0 <= i < |read| ensures read[i].id < last.id {
        assert read[i] in before;
        var k :| 0 <= k < |before| && before[k] == read[i];
        assert table[k].id < last.id;
      }
      assert forall row :: row in table <==> row in before || row == last by {
        assert table == before + [last];
      }
    }
  }

  lemma {:induction false} WithinIff(q: Query, row: Row)
    ensures Matches(q, row) <==> Within(q, row)
  {
  }

  /** Some number of events is cut off in front: all before the first user message of the given
      id; or, when there is none, all before the last of several user messages, or nothing. */
  lemma {:induction false} TrimmedTo(events: seq<Event>, user: Option<nat>) returns (k: nat)
    ensures k <= |events| && TrimToRound(events, user) == events[k..]
    ensures if exists i :: 0 <= i < |events| && Named(events[i], user) then
        k < |events| && Named(events[k], user) && forall i :: 0 <= i < k ==> !Named(events[i], user)
      else if exists i, j :: 0 <= i < j < |events| && Asks(events[i]) && Asks(events[j]) then
        k < |events| && Asks(events[k]) && forall i :: k < i < |events| ==> !Asks(events[i])
      else k == 0
  {
    var target := if user.Some? then FirstWhere(events, UserWithId(Decimal(user.value))) else |events|;
    assert forall e: Event :: user.Some? ==> (UserWithId(Decimal(user.value))(e) <==> Named(e, user));
    assert forall e: Event :: AnyUser()(e) <==> Asks(e);
    if target < |events| {
      k := target;
      assert Named(events[k], user);
    } else {
      var first, last := FirstWhere(events, AnyUser()), LastWhere(events, AnyUser());
      k := if last.Some? && first < last.value then last.value else 0;
      assert last.Some? ==> Asks(events[last.value]);
      if i, j :| 0 <= i < j < |events| && Asks(events[i]) && Asks(events[j]) {
        assert first <= i && last.Some? && j <= last.value;
      }
    }
  }

  /** A user message. */
  predicate Asks(e: Event) {
    e.kind == Message && e.role == User
  }

  predicate Named(e: Event, user: Option<nat>) {
    Asks(e) && user.Some? && e.id == Decimal(user.value)
  }

  /** Read through any window that lets its rows through, a complete turn whose calls name their
      ids says what its rows say. */
  lemma {:induction false} RecoveredTurnSays(table: seq<Row>, i: nat, j: nat, q: Query)
    requires AscendingIds(table) && i < j <= |table| && CompleteTurn(table[i..j])
    requires forall k :: i <= k < j ==> Within(q, table[k])
    requires q.user == Some(table[i].id) && q.assistant.None?
    requires forall k :: i <= k < j && IsCallRow(table[k]) ==> forall c :: c in table[k].calls ==> c.callId != ""
    ensures RowsSay(table[i..j], Dicts(RoundEvents(table, q)))
  {
    hide AllEvents, RowEvents, TurnEvents, RoundEvents, RowsSay, AsDict, Within, Matches, CompleteTurn, AscendingIds;
    forall k | i <= k < j ensures Matches(q, table[k]) {
      WithinIff(q, table[k]);
    }
    var turn := table[i..j];
    forall k | 0 <= k < |AllEvents(turn)| ensures !IsAnonymous(AllEvents(turn)[k]) {
      NamedRows(turn, k);
    }
    EveryWindowGivesTheTurn(table, i, j, q);
    TurnSays(turn);
  }

  lemma {:induction false} NamedRows(rows: seq<Row>, k: nat)
    requires k < |AllEvents(rows)|
    requires forall m :: 0 <= m < |rows| && IsCallRow(rows[m]) ==> forall c :: c in rows[m].calls ==> c.callId != ""
    ensures !IsAnonymous(AllEvents(rows)[k])
    decreases |rows|
  {
    hide RowEvents, IsAnonymous;
    var before, last := rows[..|rows| - 1], rows[|rows| - 1];
    if k < |AllEvents(before)| {
      NamedRows(before, k);
    } else {
      NamedRow(last, k - |AllEvents(before)|);
    }
  }

  lemma {:induction false} NamedRow(row: Row, k: nat)
    requires k < |RowEvents(row)| && (IsCallRow(row) ==> forall c :: c in row.calls ==> c.callId != "")
    ensures !IsAnonymous(RowEvents(row)[k])
  {
  }
}
