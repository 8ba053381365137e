/** Reading one round back from the host's message table: rows to events, trimming to a turn,
    linking calls that carry no id, cutting at the final answer. Decoding of the JSON columns
    is not part of the model: a row lists its tool calls already decoded. */
module StateDb {
  import opened Options
  import opened JsonValue
  import opened Decimals

  /** A tool call of an assistant row; an empty call id stands for a missing one. */
  datatype RowCall = RowCall(callId: string, tool: string, arguments: Json)

  datatype Row = Row(id: nat, stamp: real, role: string, content: Json, toolCallId: string, calls: seq<RowCall>,
                     status: string)

  datatype Kind = Message | ToolCall | ToolResult

  datatype Role = User | Assistant | System | NoRole

  /** `terminal` and `synthetic` are the two private marks of the source's dictionaries. */
  datatype Event = Event(
    id: string,
    kind: Kind,
    role: Role,
    callId: string,
    tool: string,
    body: Json,
    status: string,
    terminal: bool,
    synthetic: bool,
    final: bool)

  function Text(content: Json): Json {
    if content == Null then Str("") else content
  }

  function MessageEvent(id: string, role: Role, content: Json, terminal: bool): Event {
    Event(id, Message, role, "", "", content, "", terminal, false, false)
  }

  function RoleOf(role: string): Role {
    if role == "user" then User else if role == "assistant" then Assistant else System
  }

  /** `_tool_call_event`: a call without an id gets one from its row, and is marked. */
  function CallEvent(rowId: string, index: nat, call: RowCall): Event {
    Event(rowId + ":tool_call:" + Decimal(index), ToolCall, NoRole,
          if call.callId == "" then rowId + ":call:" + Decimal(index) else call.callId,
          if call.tool == "" then "unknown" else call.tool,
          if call.arguments == Null then Obj(map[]) else call.arguments,
          "", false, call.callId == "", false)
  }

  function CallEvents(rowId: string, calls: seq<RowCall>): (r: seq<Event>)
    ensures |r| == |calls|
  {
    seq(|calls|, i requires 0 <= i < |calls| => CallEvent(rowId, i, calls[i]))
  }

  /** `_row_events`. */
  function RowEvents(row: Row): seq<Event> {
    var rowId := Decimal(row.id);
    if row.role == "tool" || row.toolCallId != "" then
      [Event(rowId, ToolResult, NoRole, if row.toolCallId != "" then row.toolCallId else rowId + ":call", "",
             Text(row.content), row.status, false, false, false)]
    else if row.role == "assistant" && row.calls != [] then
      (if row.content in {Null, Str("")} then [] else [MessageEvent(rowId, Assistant, row.content, false)])
      + CallEvents(rowId, row.calls)
    else [MessageEvent(rowId, RoleOf(row.role), Text(row.content), row.role == "assistant")]
  }

  function AllEvents(rows: seq<Row>): seq<Event> {
    if rows == [] then [] else AllEvents(rows[..|rows| - 1]) + RowEvents(rows[|rows| - 1])
  }

  // --------------------------------------------------------------------------- trimming

  predicate IsUser(e: Event) {
    e.kind == Message && e.role == User
  }

  predicate IsAssistant(e: Event) {
    e.kind == Message && e.role == Assistant
  }

  /** Position of the first event that satisfies `f`, or the number of events. */
  function FirstWhere(events: seq<Event>, f: Event -> bool): (k: nat)
    ensures k <= |events|
    ensures k < |events| ==> f(events[k])
    ensures forall i :: 0 <= i < k ==> !f(events[i])
  {
    if events == [] || f(events[0]) then 0 else 1 + FirstWhere(events[1..], f)
  }

  /** Position of the last one, if any. */
  function LastWhere(events: seq<Event>, f: Event -> bool): (k: Option<nat>)
    ensures k.Some? ==> k.value < |events| && f(events[k.value])
    ensures forall i :: (if k.Some? then k.value + 1 else 0) <= i < |events| ==> !f(events[i])
  {
    if events == [] then None
    else if f(events[|events| - 1]) then Some(|events| - 1)
    else LastWhere(events[..|events| - 1], f)
  }

  function UserWithId(id: string): Event -> bool {
    e => IsUser(e) && e.id == id
  }

  function AssistantWithId(id: string): Event -> bool {
    e => IsAssistant(e) && e.id == id
  }

  function AnyUser(): Event -> bool {
    e => IsUser(e)
  }

  /** An answer that asks for no tool. */
  function Terminal(): Event -> bool {
    e => IsAssistant(e) && e.terminal
  }

  /** `_trim_to_round`: from the user message with the given id, else from the last user
      message when there are several, else everything. */
  function TrimToRound(events: seq<Event>, user: Option<nat>): seq<Event> {
    var target := if user.Some? then FirstWhere(events, UserWithId(Decimal(user.value))) else |events|;
    if target < |events| then events[target..]
    else
      var first, last := FirstWhere(events, AnyUser()), LastWhere(events, AnyUser());
      if last.Some? && first < last.value then events[last.value..] else events
  }

  /** `k` is the first, or the last, event with `f`; None when there is none. */
  ghost predicate Picks(events: seq<Event>, f: Event -> bool, first: bool, k: Option<nat>) {
    if k.None? then forall i :: 0 <= i < |events| ==> !f(events[i])
    else
      && k.value < |events| && f(events[k.value])
      && forall i :: 0 <= i < |events| && (if first then i < k.value else i > k.value) ==> !f(events[i])
  }

  predicate HasAssistant(events: seq<Event>, id: nat) {
    exists i :: 0 <= i < |events| && AssistantWithId(Decimal(id))(events[i])
  }

  /** `_final_assistant_index`: the first assistant message with the given id; when there is
      none, the first or the last answer that asks for no tool. */
  function FinalIndex(events: seq<Event>, assistant: Option<nat>, preferFirst: bool): (k: Option<nat>)
    ensures k.Some? ==> k.value < |events| && IsAssistant(events[k.value])
    ensures if assistant.Some? && HasAssistant(events, assistant.value)
      then Picks(events, AssistantWithId(Decimal(assistant.value)), true, k)
      else Picks(events, Terminal(), preferFirst, k)
  {
    var target := if assistant.Some? then FirstWhere(events, AssistantWithId(Decimal(assistant.value))) else |events|;
    if target < |events| then Some(target)
    else if preferFirst then
      var k := FirstWhere(events, Terminal());
      if k < |events| then Some(k) else None
    else LastWhere(events, Terminal())
  }

  // ---------------------------------------------------------------------------- linking

  predicate IsAnonymous(e: Event) {
    e.kind == ToolCall && e.synthetic
  }

  predicate IsExplicit(e: Event) {
    e.kind == ToolCall && !e.synthetic
  }

  predicate Knows(events: seq<Event>, callId: string) {
    exists i :: 0 <= i < |events| && IsExplicit(events[i]) && events[i].callId == callId
  }

  /** A result no explicit call of `events` accounts for. */
  predicate IsUnmatched(events: seq<Event>, e: Event) {
    e.kind == ToolResult && !Knows(events, e.callId)
  }

  /** Positions of the anonymous calls among the first `n` events. */
  function Anonymous(events: seq<Event>, n: nat): (r: seq<nat>)
    requires n <= |events|
    ensures forall k :: 0 <= k < |r| ==> r[k] < n && IsAnonymous(events[r[k]])
    ensures forall j, k :: 0 <= j < k < |r| ==> r[j] < r[k]
    ensures forall i :: 0 <= i < n && IsAnonymous(events[i]) ==> i in r
  {
    if n == 0 then [] else Anonymous(events, n - 1) + if IsAnonymous(events[n - 1]) then [n - 1] else []
  }

  /** The call ids of the results among the first `n` events that `all` does not match. */
  function Unmatched(all: seq<Event>, events: seq<Event>, n: nat): (r: seq<string>)
    requires n <= |events|
  {
    if n == 0 then []
    else Unmatched(all, events, n - 1) + if IsUnmatched(all, events[n - 1]) then [events[n - 1].callId] else []
  }

  /** How many anonymous calls come before position `i`. */
  function Rank(events: seq<Event>, i: nat): nat
    requires i <= |events|
  {
    |Anonymous(events, i)|
  }

  /** The i-th event after linking: the r-th anonymous call takes the id of the r-th unmatched
      result. */
  function LinkedAt(events: seq<Event>, i: nat): Event
    requires i < |events|
  {
    var ids := Unmatched(events, events, |events|);
    if IsAnonymous(events[i]) && Rank(events, i) < |ids| then events[i].(callId := ids[Rank(events, i)]) else events[i]
  }

  /** `_link_anonymous_tool_calls` on values. */
  function Linked(events: seq<Event>): (r: seq<Event>)
    ensures |r| == |events|
  {
    seq(|events|, i requires 0 <= i < |events| => LinkedAt(events, i))
  }

  lemma {:induction false} AnonymousPrefix(events: seq<Event>, i: nat, j: nat)
    requires i <= j <= |events|
    ensures Anonymous(events, i) <= Anonymous(events, j)
  {
    if i < j {
      AnonymousPrefix(events, i, j - 1);
    }
  }

  /** An anonymous call stands in the list at its rank. */
  lemma {:induction false} RankPlace(events: seq<Event>, i: nat)
    requires i < |events| && IsAnonymous(events[i])
    ensures Rank(events, i) < |Anonymous(events, |events|)| && Anonymous(events, |events|)[Rank(events, i)] == i
  {
    AnonymousPrefix(events, i + 1, |events|);
    assert Anonymous(events, i + 1)[Rank(events, i)] == i;
  }

  lemma {:induction false} RankOfCall(events: seq<Event>, k: nat)
    requires k < |Anonymous(events, |events|)|
    ensures var p := Anonymous(events, |events|)[k];
      p < |events| && IsAnonymous(events[p]) && Rank(events, p) == k
    ensures forall i ::
      0 <= i < |events| && IsAnonymous(events[i]) && Rank(events, i) == k ==> i == Anonymous(events, |events|)[k]
  {
    hide IsAnonymous;
    var calls := Anonymous(events, |events|);
    RankPlace(events, calls[k]);
    forall i | 0 <= i < |events| && IsAnonymous(events[i]) && Rank(events, i) == k ensures i == calls[k] {
      RankPlace(events, i);
    }
  }

  lemma {:induction false} RankBound(events: seq<Event>)
    ensures forall i :: 0 <= i < |events| && IsAnonymous(events[i]) ==> Rank(events, i) < |Anonymous(events, |events|)|
  {
    hide IsAnonymous;
    forall i | 0 <= i < |events| && IsAnonymous(events[i]) ensures Rank(events, i) < |Anonymous(events, |events|)| {
      RankPlace(events, i);
    }
  }

  /** The anonymous calls and the ids waiting for them. */
  method CollectLinks(a: array<Event>) returns (calls: seq<nat>, ids: seq<string>)
    ensures calls == Anonymous(a[..], a.Length) && ids == Unmatched(a[..], a[..], a.Length)
  {
    ghost var was := a[..];
    var known: set<string> := set i | 0 <= i < a.Length && IsExplicit(a[i]) :: a[i].callId;
    assert forall id :: id in known <==> Knows(was, id);
    calls, ids := [], [];
    for i := 0 to a.Length
      invariant calls == Anonymous(was, i) && ids == Unmatched(was, was, i)
    {
      assert a[i] == was[i];
      if a[i].kind == ToolCall && a[i].synthetic {
        calls := calls + [i];
      }
      if a[i].kind == ToolResult && a[i].callId !in known {
        ids := ids + [a[i].callId];
      }
    }
  }

  /** The same, in place. */
  method LinkAnonymousToolCalls(a: array<Event>)
    modifies a
    ensures a[..] == Linked(old(a[..]))
  {
    hide Rank, LinkedAt, Anonymous, Unmatched, IsAnonymous;
    ghost var was := a[..];
    var calls, ids := CollectLinks(a);
    for k := 0 to if |calls| < |ids| then |calls| else |ids|
      invariant forall i ::
        0 <= i < a.Length ==> a[i] == if IsAnonymous(was[i]) && Rank(was, i) < k then LinkedAt(was, i) else was[i]
    {
      RankOfCall(was, k);
      var p := calls[k];
      LinkedCall(was, p, k);
      a[p] := a[p].(callId := ids[k]);
    }
    RankBound(was);
    forall i | 0 <= i < a.Length ensures a[i] == LinkedAt(was, i) {
      NotLinked(was, i);
    }
    assert forall i :: 0 <= i < a.Length ==> a[..][i] == Linked(was)[i];
  }

  lemma {:induction false} LinkedCall(events: seq<Event>, p: nat, k: nat)
    requires p < |events| && IsAnonymous(events[p]) && Rank(events, p) == k < |Unmatched(events, events, |events|)|
    ensures LinkedAt(events, p) == events[p].(callId := Unmatched(events, events, |events|)[k])
  {
  }

  lemma {:induction false} NotLinked(events: seq<Event>, i: nat)
    requires i < |events|
    ensures !(IsAnonymous(events[i]) && Rank(events, i) < |Unmatched(events, events, |events|)|) ==>
      LinkedAt(events, i) == events[i]
  {
  }

  // ------------------------------------------------------------------ what linking gives

  lemma {:induction false} LinkedKeeps(events: seq<Event>, i: nat)
    requires i < |events|
    ensures LinkedAt(events, i) == events[i].(callId := LinkedAt(events, i).callId)
    ensures !IsAnonymous(events[i]) ==> LinkedAt(events, i) == events[i]
  {
  }

  predicate HasCall(events: seq<Event>, callId: string) {
    exists i :: 0 <= i < |events| && events[i].kind == ToolCall && events[i].callId == callId
  }

  lemma {:induction false} UnmatchedMember(all: seq<Event>, events: seq<Event>, n: nat, i: nat)
    requires i < n <= |events| && IsUnmatched(all, events[i])
    ensures exists k :: 0 <= k < |Unmatched(all, events, n)| && Unmatched(all, events, n)[k] == events[i].callId
  {
    hide IsUnmatched;
    if i < n - 1 {
      UnmatchedMember(all, events, n - 1, i);
      var k :| 0 <= k < |Unmatched(all, events, n - 1)| && Unmatched(all, events, n - 1)[k] == events[i].callId;
      assert Unmatched(all, events, n)[k] == events[i].callId;
    } else {
      assert Unmatched(all, events, n)[|Unmatched(all, events, n - 1)|] == events[i].callId;
    }
  }

  /** With no more unmatched results than anonymous calls, every result finds a call. */
  lemma {:induction false} EveryResultHasACall(events: seq<Event>, i: nat)
    requires i < |events| && events[i].kind == ToolResult
    requires |Unmatched(events, events, |events|)| <= |Anonymous(events, |events|)|
    ensures HasCall(Linked(events), Linked(events)[i].callId)
  {
    hide Rank, LinkedAt, Anonymous, Unmatched;
    LinkedKeeps(events, i);
    if Knows(events, events[i].callId) {
      var j :| 0 <= j < |events| && IsExplicit(events[j]) && events[j].callId == events[i].callId;
      LinkedKeeps(events, j);
      assert Linked(events)[j].kind == ToolCall && Linked(events)[j].callId == Linked(events)[i].callId;
    } else {
      UnmatchedMember(events, events, |events|, i);
      var ids := Unmatched(events, events, |events|);
      var k :| 0 <= k < |ids| && ids[k] == events[i].callId;
      RankOfCall(events, k);
      var p := Anonymous(events, |events|)[k];
      LinkedCall(events, p, k);
      assert Linked(events)[p].kind == ToolCall && Linked(events)[p].callId == Linked(events)[i].callId;
    }
  }

  /** Calls that brought their own id are not touched, and neither is anything that is not a call. */
  lemma {:induction false} OnlyAnonymousChange(events: seq<Event>, i: nat)
    requires i < |events| && !IsAnonymous(events[i])
    ensures Linked(events)[i] == events[i]
  {
  }

  /** The call is explicit, or it was given the id of a result. */
  predicate Settled(events: seq<Event>, i: nat)
    requires i < |events|
  {
    IsExplicit(events[i]) || (IsAnonymous(events[i]) && Rank(events, i) < |Unmatched(events, events, |events|)|)
  }

  predicate AllDifferent(ids: seq<string>) {
    forall j, k :: 0 <= j < k < |ids| ==> ids[j] != ids[k]
  }

  lemma {:induction false} UnmatchedIsUnknown(all: seq<Event>, events: seq<Event>, n: nat, k: nat)
    requires n <= |events| && k < |Unmatched(all, events, n)|
    ensures !Knows(all, Unmatched(all, events, n)[k])
  {
    hide Knows;
    if k < |Unmatched(all, events, n - 1)| {
      UnmatchedIsUnknown(all, events, n - 1, k);
    }
  }

  /** Explicit and linked call ids stay unique when the explicit ones were and the unmatched
      results carry distinct ids. */
  lemma {:induction false} SettledIdsStayUnique(events: seq<Event>, i: nat, j: nat)
    requires i < j < |events| && Settled(events, i) && Settled(events, j)
    requires forall a, b ::
      0 <= a < b < |events| && IsExplicit(events[a]) && IsExplicit(events[b]) ==> events[a].callId != events[b].callId
    requires AllDifferent(Unmatched(events, events, |events|))
    ensures Linked(events)[i].callId != Linked(events)[j].callId
  {
    hide Rank, LinkedAt, Unmatched, Anonymous;
    var ids := Unmatched(events, events, |events|);
    LinkedKeeps(events, i);
    LinkedKeeps(events, j);
    if IsAnonymous(events[i]) {
      LinkedCall(events, i, Rank(events, i));
      UnmatchedIsUnknown(events, events, |events|, Rank(events, i));
    }
    if IsAnonymous(events[j]) {
      LinkedCall(events, j, Rank(events, j));
      UnmatchedIsUnknown(events, events, |events|, Rank(events, j));
    }
    if IsAnonymous(events[i]) && IsAnonymous(events[j]) {
      RanksDiffer(events, i, j);
    } else if IsExplicit(events[i]) && IsAnonymous(events[j]) {
      assert Knows(events, events[i].callId);
    } else if IsAnonymous(events[i]) && IsExplicit(events[j]) {
      assert Knows(events, events[j].callId);
    }
  }

  lemma {:induction false} RanksDiffer(events: seq<Event>, i: nat, j: nat)
    requires i < j < |events| && IsAnonymous(events[i]) && IsAnonymous(events[j])
    ensures Rank(events, i) != Rank(events, j)
  {
    hide IsAnonymous, Rank;
    RankPlace(events, i);
    RankPlace(events, j);
  }

  // --------------------------------------------------------------------- reading a round

  /** Without the private marks. */
  function Published(events: seq<Event>): (r: seq<Event>)
    ensures |r| == |events|
  {
    seq(|events|, i requires 0 <= i < |events| => events[i].(terminal := false, synthetic := false))
  }

  /** Cut after the final answer, which is marked; everything when there is none. */
  function CutAtFinal(events: seq<Event>, k: Option<nat>): seq<Event>
    requires k.Some? ==> k.value < |events|
  {
    if k.Some? then events[..k.value + 1][k.value := events[k.value].(final := true)] else events
  }

  /** `_events_from_rows` on values. */
  function EventsFromRows(rows: seq<Row>, trim: bool, user: Option<nat>, assistant: Option<nat>): seq<Event> {
    var events := AllEvents(rows);
    var round := if trim then Linked(TrimToRound(events, user)) else events;
    Published(CutAtFinal(round, FinalIndex(round, assistant, trim)))
  }

  method Convert(rows: seq<Row>) returns (events: seq<Event>)
    ensures events == AllEvents(rows)
  {
    hide RowEvents;
    events := [];
    for i := 0 to |rows|
      invariant events == AllEvents(rows[..i])
    {
      assert rows[..i + 1][..i] == rows[..i];
      events := events + RowEvents(rows[i]);
    }
    assert rows[..|rows|] == rows;
  }

  /** The same, with the list built up, linked in place and cut. */
  method RecoverEvents(rows: seq<Row>, trim: bool, user: Option<nat>, assistant: Option<nat>) returns (r: seq<Event>)
    ensures r == EventsFromRows(rows, trim, user, assistant)
  {
    hide AllEvents, Linked, FirstWhere, LastWhere, TrimToRound, FinalIndex;
    var events := Convert(rows);
    if events == [] {
      NothingToRecover(trim, user, assistant);
      return [];
    }
    if trim {
      events := TrimToRound(events, user);
      var a := new Event[|events|](i requires 0 <= i < |events| => events[i]);
      assert a[..] == events;
      LinkAnonymousToolCalls(a);
      events := a[..];
    }
    var final := FinalIndex(events, assistant, trim);
    if final.Some? {
      events := events[..final.value + 1];
      events := events[final.value := events[final.value].(final := true)];
    }
    r := Published(events);
  }

  lemma {:induction false} NothingToRecover(trim: bool, user: Option<nat>, assistant: Option<nat>)
    ensures TrimToRound([], user) == [] && Linked([]) == [] && FinalIndex([], assistant, trim).None?
  {
  }

  // ------------------------------------------------------------------ complete turns

  predicate UserRow(row: Row) {
    row.role == "user" && row.toolCallId == ""
  }

  /** A row that ends a turn: an answer without tool calls. */
  predicate AnswerRow(row: Row) {
    row.role == "assistant" && row.toolCallId == "" && row.calls == []
  }

  /** A user row, then rows that neither ask nor answer, then an answer. */
  predicate CompleteTurn(turn: seq<Row>) {
    && |turn| >= 2 && UserRow(turn[0]) && AnswerRow(turn[|turn| - 1])
    && forall i :: 1 <= i < |turn| - 1 ==> !UserRow(turn[i]) && !AnswerRow(turn[i])
  }

  /** What reading the turn by itself gives. */
  function TurnEvents(turn: seq<Row>): seq<Event>
    requires AllEvents(turn) != []
  {
    var events := Linked(AllEvents(turn));
    Published(events[|events| - 1 := events[|events| - 1].(final := true)])
  }

  lemma {:induction false} AllEventsConcat(a: seq<Row>, b: seq<Row>)
    ensures AllEvents(a + b) == AllEvents(a) + AllEvents(b)
    decreases |b|
  {
    hide RowEvents;
    if b == [] {
      assert a + b == a;
    } else {
      AllEventsConcat(a, b[..|b| - 1]);
      assert (a + b)[..|a + b| - 1] == a + b[..|b| - 1];
    }
  }

  lemma {:induction false} OneRow(row: Row)
    ensures AllEvents([row]) == RowEvents(row)
  {
    hide RowEvents;
    assert [row][..0] == [];
  }

  /** What the events of a row can be. */
  lemma {:induction false} RowShape(row: Row, i: nat)
    requires i < |RowEvents(row)|
    ensures IsUser(RowEvents(row)[i]) ==> UserRow(row) && RowEvents(row)[i].id == Decimal(row.id)
    ensures IsAssistant(RowEvents(row)[i]) && RowEvents(row)[i].terminal ==> AnswerRow(row)
    ensures !RowEvents(row)[i].final
  {
  }

  lemma {:induction false} NoSuchUser(rows: seq<Row>, id: nat, i: nat)
    requires forall k :: 0 <= k < |rows| && UserRow(rows[k]) ==> rows[k].id != id
    requires i < |AllEvents(rows)|
    ensures !(IsUser(AllEvents(rows)[i]) && AllEvents(rows)[i].id == Decimal(id))
    decreases |rows|
  {
    hide RowEvents;
    var before, last := rows[..|rows| - 1], rows[|rows| - 1];
    if i < |AllEvents(before)| {
      NoSuchUser(before, id, i);
    } else {
      RowShape(last, i - |AllEvents(before)|);
      if UserRow(last) && Decimal(last.id) == Decimal(id) {
        DecimalInjective(last.id, id);
      }
    }
  }

  lemma {:induction false} NoTerminal(rows: seq<Row>, i: nat)
    requires forall k :: 0 <= k < |rows| ==> !AnswerRow(rows[k])
    requires i < |AllEvents(rows)|
    ensures !(IsAssistant(AllEvents(rows)[i]) && AllEvents(rows)[i].terminal)
    decreases |rows|
  {
    hide RowEvents;
    var before, last := rows[..|rows| - 1], rows[|rows| - 1];
    if i < |AllEvents(before)| {
      NoTerminal(before, i);
    } else {
      RowShape(last, i - |AllEvents(before)|);
    }
  }

  /** A complete turn's events: the user message first, one terminal answer, last. */
  lemma {:induction false} TurnShape(turn: seq<Row>)
    requires CompleteTurn(turn)
    ensures var events := AllEvents(turn);
      && |events| >= 2 && IsUser(events[0]) && events[0].id == Decimal(turn[0].id)
      && IsAssistant(events[|events| - 1]) && events[|events| - 1].terminal
      && forall i :: 0 <= i < |events| - 1 ==> !(IsAssistant(events[i]) && events[i].terminal)
  {
    hide RowEvents;
    var first, rest, last := [turn[0]], turn[1..], turn[|turn| - 1];
    AllEventsConcat(first, rest);
    assert turn == first + rest;
    OneRow(turn[0]);
    UserRowEvents(turn[0]);
    AnswerRowEvents(last);
    var before := turn[..|turn| - 1];
    assert AllEvents(turn) == AllEvents(before) + RowEvents(last);
    forall i | 0 <= i < |AllEvents(before)| ensures !(IsAssistant(AllEvents(turn)[i]) && AllEvents(turn)[i].terminal) {
      NoTerminal(before, i);
    }
    LongEnough(before);
  }

  lemma {:induction false} LongEnough(rows: seq<Row>)
    requires rows != [] && UserRow(rows[0])
    ensures AllEvents(rows) != []
  {
    hide RowEvents;
    AllEventsConcat([rows[0]], rows[1..]);
    assert rows == [rows[0]] + rows[1..];
    OneRow(rows[0]);
    UserRowEvents(rows[0]);
  }

  lemma {:induction false} UserRowEvents(row: Row)
    requires UserRow(row)
    ensures RowEvents(row) == [MessageEvent(Decimal(row.id), User, Text(row.content), false)]
  {
  }

  lemma {:induction false} AnswerRowEvents(row: Row)
    requires AnswerRow(row)
    ensures RowEvents(row) == [MessageEvent(Decimal(row.id), Assistant, Text(row.content), true)]
  {
  }

  /** A recovered turn has exactly one final event, its last. */
  lemma {:induction false} TurnEndsFinal(turn: seq<Row>, i: nat)
    requires CompleteTurn(turn) && AllEvents(turn) != [] && i < |TurnEvents(turn)|
    ensures |TurnEvents(turn)| == |AllEvents(turn)|
    ensures TurnEvents(turn)[i].final <==> i == |TurnEvents(turn)| - 1
    ensures IsUser(TurnEvents(turn)[0]) && IsAssistant(TurnEvents(turn)[|TurnEvents(turn)| - 1])
  {
    hide RowEvents, LinkedAt, AllEvents;
    TurnShape(turn);
    NotYetFinal(turn, i);
    LinkedKeeps(AllEvents(turn), i);
    LinkedKeeps(AllEvents(turn), 0);
    LinkedKeeps(AllEvents(turn), |AllEvents(turn)| - 1);
  }

  lemma {:induction false} NotYetFinal(rows: seq<Row>, i: nat)
    requires i < |AllEvents(rows)|
    ensures !AllEvents(rows)[i].final
    decreases |rows|
  {
    hide RowEvents;
    var before, last := rows[..|rows| - 1], rows[|rows| - 1];
    if i < |AllEvents(before)| {
      NotYetFinal(before, i);
    } else {
      RowShape(last, i - |AllEvents(before)|);
    }
  }

  // -------------------------------------------------------------------------- the query

  datatype Query = Query(first: Option<nat>, last: Option<nat>, from: Option<real>, upto: Option<real>,
                         user: Option<nat>, assistant: Option<nat>)

  /** The WHERE clause of `_query_rows`: message ids bound the range, timestamps only the sides
      that have no id. */
  predicate Matches(q: Query, row: Row) {
    var lower := if q.first.Some? then q.first else q.user;
    var upper := if q.last.Some? then q.last else q.assistant;
    && (lower.Some? ==> row.id >= lower.value) && (upper.Some? ==> row.id <= upper.value)
    && (lower.None? && q.from.Some? ==> row.stamp >= q.from.value)
    && (upper.None? && q.upto.Some? ==> row.stamp <= q.upto.value)
  }

  /** Rows are read in the order of their ids. */
  function QueryRows(table: seq<Row>, q: Query): seq<Row> {
    if table == [] then []
    else QueryRows(table[..|table| - 1], q) + if Matches(q, table[|table| - 1]) then [table[|table| - 1]] else []
  }

  /** `round_events`. */
  function RoundEvents(table: seq<Row>, q: Query): seq<Event> {
    EventsFromRows(QueryRows(table, q), true, q.user, q.assistant)
  }

  lemma {:induction false} QueryConcat(a: seq<Row>, b: seq<Row>, q: Query)
    ensures QueryRows(a + b, q) == QueryRows(a, q) + QueryRows(b, q)
    decreases |b|
  {
    hide Matches;
    if b == [] {
      assert a + b == a;
    } else {
      QueryConcat(a, b[..|b| - 1], q);
      assert (a + b)[..|a + b| - 1] == a + b[..|b| - 1];
    }
  }

  lemma {:induction false} QueryAll(rows: seq<Row>, q: Query)
    requires forall i :: 0 <= i < |rows| ==> Matches(q, rows[i])
    ensures QueryRows(rows, q) == rows
  {
    hide Matches;
    if rows != [] {
      QueryAll(rows[..|rows| - 1], q);
    }
  }

  lemma {:induction false} QueryMember(rows: seq<Row>, q: Query, row: Row)
    requires row in QueryRows(rows, q)
    ensures row in rows
  {
    hide Matches;
    if row in QueryRows(rows[..|rows| - 1], q) {
      QueryMember(rows[..|rows| - 1], q, row);
    }
  }

  ghost predicate AscendingIds(table: seq<Row>) {
    forall i, j :: 0 <= i < j < |table| ==> table[i].id < table[j].id
  }
}
