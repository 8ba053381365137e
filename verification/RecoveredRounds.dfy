/** A round read back from the message table, against the rules of `RawRoundRequest`. */
module RecoveredRounds {
  import opened Options
  import opened JsonValue
  import opened Decimals
  import opened Canonical
  import opened RawRounds
  import opened RoundRequests
  import H = HermesEvents
  import opened HermesRounds
  import opened StateDb
  import opened InlineBinary

  function RoleText(role: Role): string {
    match role
    case User => "user"
    case Assistant => "assistant"
    case _ => "system"
  }

  /** The dictionary of an event, once its private marks are gone. */
  function AsDict(e: Event): Fields {
    match e.kind
    case Message =>
      var m: Fields := map[
        "event_id" := Str(e.id), "kind" := Str("message"), "role" := Str(RoleText(e.role)), "content" := e.body];
      if e.final then m["final" := Bool(true)] else m
    case ToolCall =>
      map["event_id" := Str(e.id), "kind" := Str("tool_call"), "tool_call_id" := Str(e.callId),
          "tool_name" := Str(e.tool), "arguments" := e.body]
    case ToolResult =>
      map["event_id" := Str(e.id), "kind" := Str("tool_result"), "tool_call_id" := Str(e.callId),
          "status" := Str(e.status), "content" := e.body]
  }

  function Dicts(events: seq<Event>): (r: seq<Fields>)
    ensures |r| == |events|
  {
    seq(|events|, i requires 0 <= i < |events| => AsDict(events[i]))
  }

  /** What every event of a table row has. */
  predicate Sound(e: Event) {
    && e.id != ""
    && (e.kind == ToolCall ==> e.callId != "" && e.tool != "")
    && (e.kind == ToolResult ==> e.callId != "" && e.status in {"success", "error", "cancelled", "unknown"})
    && (e.final ==> e.kind == Message && e.role == Assistant)
  }

  function MarkFor(e: Event): H.Mark {
    match e.kind
    case ToolCall => H.Call(e.id, e.callId)
    case ToolResult => H.Result(e.id, e.callId)
    case Message =>
      if e.role == User then H.User(e.id) else if e.role == Assistant && e.final then H.Final(e.id) else H.Odd(e.id)
  }

  lemma {:induction false} DictMark(e: Event)
    requires Sound(e)
    ensures H.MarkOf(AsDict(e)) == MarkFor(e) && H.Shaped(AsDict(e))
  {
  }

  lemma {:induction false} DictMarks(events: seq<Event>)
    requires forall i :: 0 <= i < |events| ==> Sound(events[i])
    ensures |H.Marks(Dicts(events))| == |events|
    ensures forall i ::
      0 <= i < |events| ==> H.Marks(Dicts(events))[i] == MarkFor(events[i]) && H.Shaped(Dicts(events)[i])
  {
    hide Sound, MarkFor, AsDict;
    forall i | 0 <= i < |events|
      ensures H.MarkOf(AsDict(events[i])) == MarkFor(events[i]) && H.Shaped(AsDict(events[i]))
    {
      DictMark(events[i]);
    }
  }

  /** The result status a row was read with is one of the four. */
  predicate StatusKnown(row: Row) {
    row.status in {"success", "error", "cancelled", "unknown"}
  }

  lemma {:induction false} RowIsSound(row: Row, i: nat)
    requires StatusKnown(row) && i < |RowEvents(row)|
    ensures Sound(RowEvents(row)[i])
  {
  }

  lemma {:induction false} RowsAreSound(rows: seq<Row>, i: nat)
    requires (forall k :: 0 <= k < |rows| ==> StatusKnown(rows[k])) && i < |AllEvents(rows)|
    ensures Sound(AllEvents(rows)[i])
    decreases |rows|
  {
    hide RowEvents, Sound;
    var before, last := rows[..|rows| - 1], rows[|rows| - 1];
    if i < |AllEvents(before)| {
      RowsAreSound(before, i);
    } else {
      RowIsSound(last, i - |AllEvents(before)|);
    }
  }

  // ----------------------------------------------------------------------- distinct ids

  lemma {:induction false} DigitsHaveNoColon(n: nat)
    ensures ':' !in Decimal(n)
  {
    assert ':' !in DIGITS;
  }

  lemma {:induction false} BeforeColon(a: string, b: string)
    requires ':' !in a
    ensures Before(a + ":" + b, ':') == a && Before(a, ':') == a
    decreases |a|
  {
    if a != "" {
      assert a[0] in a && forall c :: c in a[1..] ==> c in a;
      BeforeColon(a[1..], b);
      assert (a + ":" + b)[1..] == a[1..] + ":" + b;
    } else {
      assert a + ":" + b == ":" + b;
    }
  }

  /** The number of the row an event id belongs to. */
  lemma {:induction false} RowOfId(row: Row, i: nat)
    requires i < |RowEvents(row)|
    ensures Before(RowEvents(row)[i].id, ':') == Decimal(row.id)
  {
    hide Decimal, Before;
    var d := Decimal(row.id);
    DigitsHaveNoColon(row.id);
    BeforeColon(d, "");
    forall k: nat ensures Before(d + ":tool_call:" + Decimal(k), ':') == d {
      BeforeColon(d, "tool_call:" + Decimal(k));
      assert d + ":tool_call:" + Decimal(k) == d + ":" + ("tool_call:" + Decimal(k));
    }
  }

  lemma {:induction false} CallIdsDiffer(d: string, j: nat, k: nat)
    requires d + ":tool_call:" + Decimal(j) == d + ":tool_call:" + Decimal(k)
    ensures j == k
  {
    hide Decimal;
    assert (d + ":tool_call:" + Decimal(j))[|d| + 11..] == Decimal(j);
    assert (d + ":tool_call:" + Decimal(k))[|d| + 11..] == Decimal(k);
    DecimalInjective(j, k);
  }

  /** The ids of a row with more than one event: its own number, if it has a text, and then one
      for each call. */
  lemma {:induction false} RowIds(row: Row, i: nat)
    requires i < |RowEvents(row)| && |RowEvents(row)| > 1
    ensures var head := if row.content in {Null, Str("")} then 0 else 1;
      RowEvents(row)[i].id
      == if i < head then Decimal(row.id) else Decimal(row.id) + ":tool_call:" + Decimal(i - head)
  {
    hide Decimal;
  }

  lemma {:induction false} OneRowIdsDiffer(row: Row, i: nat, j: nat)
    requires i < j < |RowEvents(row)|
    ensures RowEvents(row)[i].id != RowEvents(row)[j].id
  {
    hide Decimal, RowEvents;
    var d := Decimal(row.id);
    var head := if row.content in {Null, Str("")} then 0 else 1;
    RowIds(row, i);
    RowIds(row, j);
    if i >= head && RowEvents(row)[i].id == RowEvents(row)[j].id {
      CallIdsDiffer(d, i - head, j - head);
    }
    assert |d| < |d + ":tool_call:" + Decimal(j - head)|;
  }

  lemma {:induction false} OwnerOf(rows: seq<Row>, i: nat) returns (p: nat)
    requires i < |AllEvents(rows)|
    ensures p < |rows| && Before(AllEvents(rows)[i].id, ':') == Decimal(rows[p].id)
    decreases |rows|
  {
    hide RowEvents, Before;
    var before, last := rows[..|rows| - 1], rows[|rows| - 1];
    if i < |AllEvents(before)| {
      p := OwnerOf(before, i);
    } else {
      RowOfId(last, i - |AllEvents(before)|);
      p := |rows| - 1;
    }
  }

  lemma {:induction false} EventIdsDiffer(rows: seq<Row>, i: nat, j: nat)
    requires AscendingIds(rows) && i < j < |AllEvents(rows)|
    ensures AllEvents(rows)[i].id != AllEvents(rows)[j].id
    decreases |rows|
  {
    hide RowEvents, Before;
    var before, last := rows[..|rows| - 1], rows[|rows| - 1];
    var n := |AllEvents(before)|;
    if j < n {
      EventIdsDiffer(before, i, j);
    } else if i >= n {
      OneRowIdsDiffer(last, i - n, j - n);
    } else {
      var p := OwnerOf(before, i);
      RowOfId(last, j - n);
      assert rows[p].id < last.id;
      if Decimal(rows[p].id) == Decimal(last.id) {
        DecimalInjective(rows[p].id, last.id);
      }
    }
  }

  // -------------------------------------------------------------------------- acceptance

  /** The turn's calls carry unique ids of their own, and each result names one of them. */
  ghost predicate CallsAreInOrder(events: seq<Event>) {
    && (forall i :: 0 <= i < |events| ==> !IsAnonymous(events[i]))
    && (forall i,
        j :: 0 <= i < j < |events| && events[i].kind == ToolCall && events[j].kind == ToolCall ==>
          events[i].callId != events[j].callId)
    && (forall i :: 0 <= i < |events| && events[i].kind == ToolResult ==> HasCall(events, events[i].callId))
  }

  lemma {:induction false} LinkedNamed(events: seq<Event>)
    requires forall i :: 0 <= i < |events| ==> !IsAnonymous(events[i])
    ensures Linked(events) == events
  {
    hide IsAnonymous;
    forall i | 0 <= i < |events| ensures Linked(events)[i] == events[i] {
      OnlyAnonymousChange(events, i);
    }
  }

  /** The recovered events of a turn obey the round rules. */
  lemma {:induction false} TurnObeysRules(turn: seq<Row>)
    requires CompleteTurn(turn) && AscendingIds(turn) && AllEvents(turn) != [] && CallsAreInOrder(AllEvents(turn))
    requires forall k :: 0 <= k < |turn| ==> StatusKnown(turn[k])
    ensures forall i :: 0 <= i < |TurnEvents(turn)| ==> Sound(TurnEvents(turn)[i])
    ensures MarkRules(H.Marks(Dicts(TurnEvents(turn))))
  {
    hide RowEvents, AllEvents, Sound, AscendingIds, CompleteTurn, MarkFor, AsDict, Linked, IsAnonymous, DistinctIds;
    var events := AllEvents(turn);
    var out := TurnEvents(turn);
    LinkedNamed(events);
    TurnShape(turn);
    forall i | 0 <= i < |out| ensures Sound(out[i]) && SameAs(out[i], events[i]) && (out[i].final <==> i == |out| - 1) {
      RowsAreSound(turn, i);
      TurnEndsFinal(turn, i);
      StaysSound(events[i], out[i]);
    }
    DictMarks(out);
    forall i, j | 0 <= i < j < |out| ensures out[i].id != out[j].id {
      EventIdsDiffer(turn, i, j);
    }
    MarksObey(events, out, H.Marks(Dicts(out)));
  }

  /** Only finality and the private marks differ. */
  predicate SameAs(a: Event, b: Event) {
    a.id == b.id && a.kind == b.kind && a.role == b.role && a.callId == b.callId && a.tool == b.tool
    && a.body == b.body && a.status == b.status
  }

  lemma {:induction false} StaysSound(e: Event, out: Event)
    requires Sound(e) && SameAs(out, e) && (out.final ==> IsAssistant(e))
    ensures Sound(out)
  {
  }

  lemma {:induction false} MarksObey(events: seq<Event>, out: seq<Event>, ms: seq<H.Mark>)
    requires |events| == |out| == |ms| >= 2 && CallsAreInOrder(events)
    requires forall i ::
      0 <= i < |out| ==> SameAs(out[i], events[i]) && (out[i].final <==> i == |out| - 1) && ms[i] == MarkFor(out[i])
    requires IsUser(events[0]) && IsAssistant(events[|events| - 1])
    requires forall i, j :: 0 <= i < j < |out| ==> out[i].id != out[j].id
    ensures MarkRules(ms)
  {
    hide IsAnonymous;
    forall i | 0 <= i < |ms| ensures ms[i].id == out[i].id {
    }
    assert ms[0].User? && ms[|ms| - 1].Final?;
    forall i | 0 <= i < |ms| && ms[i].Result?
      ensures exists j :: 0 <= j < |ms| && ms[j].Call? && ms[j].callId == ms[i].callId
    {
      assert HasCall(events, events[i].callId);
      var j :| 0 <= j < |events| && events[j].kind == ToolCall && events[j].callId == events[i].callId;
      assert ms[j].Call? && ms[j].callId == ms[i].callId;
    }
  }

  /** A complete turn with calls in order and clean contents, read back from the table and
      handed to `build_raw_round`, makes an acceptable request. */
  lemma {:induction false} RecoveredTurnIsAccepted(lib: Library, spec: RoundSpec, turn: seq<Row>, render: Render)
    requires CompleteTurn(turn) && AscendingIds(turn) && AllEvents(turn) != [] && CallsAreInOrder(AllEvents(turn))
    requires forall k :: 0 <= k < |turn| ==> StatusKnown(turn[k])
    requires AllClean(Dicts(TurnEvents(turn)))
    ensures Dicts(TurnEvents(turn)) != [] && Accepts(lib, Build(lib, spec, Dicts(TurnEvents(turn)), render).value)
  {
    hide RowEvents, AllEvents, Sound, AscendingIds, CompleteTurn, Linked, MarkRules, RoundRules, Normalized, Accepts,
         Build, ValidEvent, CleanEvent, NormalizeEvent, TurnEvents, CallsAreInOrder, H.Shaped, AsDict;
    TurnObeysRules(turn);
    TurnNotEmpty(turn);
    var events := Dicts(TurnEvents(turn));
    DictMarks(TurnEvents(turn));
    var normalized := Normalized(spec, events, render);
    forall i | 0 <= i < |events| ensures ValidEvent(normalized[i]) && CleanContent(events[i]) {
      NormalizedAt(spec, events, i, render);
      ShapedIsValid(spec, events[i], i, render);
      CleanIsClean(events[i]);
    }
    CleanBuiltAcceptedIff(lib, spec, events, render);
    RulesByMarks(spec, events, render);
  }

  lemma {:induction false} TurnNotEmpty(turn: seq<Row>)
    requires AllEvents(turn) != []
    ensures TurnEvents(turn) != []
  {
    hide AllEvents, LinkedAt;
  }
}
