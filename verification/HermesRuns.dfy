/** Whole runs of hooks. */
module HermesRuns {
  import opened Options
  import opened JsonValue
  import opened RawRounds
  import opened RoundRequests
  import opened HermesEvents
  import opened HermesSteps
  import opened HermesRounds
  import opened ContextIds
  import opened RoundRecords
  import opened HermesRuntime

  /** One call of a hook, with everything the outside contributes to it. */
  datatype HookCall =
    | PreLlm(s: string, turn: string, ids: HostIds, query: Json, historyUsers: nat, retrieved: Option<ContextView>,
             uuid: string, answers: SpoolAnswers)
    | PreTool(s: string, turn: string, explicit: string, tool: string, arguments: Fields, at: string, uuid: string,
              answers: SpoolAnswers)
    | PostTool(s: string, turn: string, explicit: string, tool: string, status: string, output: Json,
               error: Option<string>, at: string, uuid: string, answers: SpoolAnswers)
    | PostLlm(s: string, turn: string, ids: HostIds, user: Json, reply: string, at: string, uuid: string,
              answers: SpoolAnswers)
    | SessionEnd(s: string, answers: SpoolAnswers)

  /** Host ids are not blank, fresh ids and retrieval ids exist. */
  predicate WellFormed(call: HookCall) {
    && (!call.SessionEnd? ==> call.uuid != "")
    && (call.PreLlm? || call.PostLlm? ==> UserIdOf(call.ids) != Some("") && AssistantIdOf(call.ids) != Some(""))
    && (call.PreLlm? && call.retrieved.Some? ==> call.retrieved.value.requestId != "")
  }

  /** The spool takes every deferral this call can make. */
  predicate SpoolAccepts(call: HookCall) {
    call.answers.deferral.accepted && call.answers.fallback
  }

  // --------------------------------------------------------------------------- round ids

  /** This call opens a new round: there is no round of its session to serve it. */
  predicate Opens(runtime: HermesPluginRuntime, call: HookCall)
    reads runtime, if !call.SessionEnd? && call.s in runtime.activeRounds then {runtime.activeRounds[call.s]} else {}
  {
    match call
    case PreLlm(s, turn, _, _, _, _, _, _) =>
      !(s in runtime.activeRounds && turn != "" && runtime.activeRounds[s].externalTurnId == turn)
    case PreTool(s, turn, _, _, _, _, _, _) => !runtime.Serves(s, turn)
    case PostTool(s, turn, _, _, _, _, _, _, _, _) => !runtime.Serves(s, turn)
    case PostLlm(s, turn, _, _, _, _, _, _) => !runtime.Serves(s, turn)
    case SessionEnd(_, _) => false
  }

  /** The id a round opened by this call gets: the explicit turn id, or a fresh one. */
  function IdFor(call: HookCall): string
    requires !call.SessionEnd?
  {
    if call.turn != "" then call.turn else call.uuid
  }

  ghost function RoundIds(rounds: set<ActiveRoundState>): set<string> {
    set r | r in rounds :: r.roundId
  }

  /** No two rounds have the same id. */
  ghost predicate DistinctRoundIds(rounds: set<ActiveRoundState>) {
    forall r1, r2 :: r1 in rounds && r2 in rounds && r1 != r2 ==> r1.roundId != r2.roundId
  }

  lemma {:induction false} OneMoreRound(rounds: set<ActiveRoundState>, r: ActiveRoundState)
    requires r !in rounds
    ensures RoundIds(rounds + {r}) == RoundIds(rounds) + {r.roundId}
    ensures DistinctRoundIds(rounds + {r}) <==> DistinctRoundIds(rounds) && r.roundId !in RoundIds(rounds)
  {
    assert forall x :: x in rounds ==> x in rounds + {r} && x != r;
    assert r in rounds + {r};
  }

  method Dispatch(runtime: HermesPluginRuntime, call: HookCall) returns (ghost begun: Option<string>)
    requires runtime.Valid() && WellFormed(call)
    modifies runtime, runtime.rounds
    ensures runtime.Valid() && old(runtime.rounds) <= runtime.rounds && fresh(runtime.rounds - old(runtime.rounds))
    ensures old(runtime.emitted) <= runtime.emitted && old(runtime.refused) <= runtime.refused
    ensures SpoolAccepts(call) ==> runtime.refused == old(runtime.refused)
    ensures begun.Some? <==> old(Opens(runtime, call))
    ensures begun.Some? ==> begun.value == IdFor(call)
    ensures RoundIds(runtime.rounds) == RoundIds(old(runtime.rounds)) + if begun.Some? then {begun.value} else {}
    ensures DistinctRoundIds(runtime.rounds)
       <==> DistinctRoundIds(old(runtime.rounds)) && (begun.Some? ==> begun.value !in RoundIds(old(runtime.rounds)))
  {
    hide RoundIds, DistinctRoundIds, After, AppendAssistant, AllClean, DistinctIds, UsesId, TellsNullsApart, Deferred,
         ContextTurnKey, Cached, HermesPluginRuntime.Valid;
    var state: ActiveRoundState?;
    ghost var before := runtime.rounds;
    begun := if Opens(runtime, call) then Some(IdFor(call)) else None;
    match call {
      case PreLlm(s, turn, ids, query, historyUsers, retrieved, uuid, answers) =>
        var served, _, _ := runtime.OnPreLlmCall(s, turn, ids, query, historyUsers, retrieved, uuid, answers.deferral);
        state := served;
      case PreTool(s, turn, explicit, tool, arguments, at, uuid, answers) =>
        state := runtime.OnPreToolCall(s, turn, explicit, tool, arguments, at, uuid, answers.deferral);
      case PostTool(s, turn, explicit, tool, status, output, error, at, uuid, answers) =>
        state := runtime.OnPostToolCall(s, turn, explicit, tool, status, output, error, at, uuid, answers.deferral);
      case PostLlm(s, turn, ids, user, reply, at, uuid, answers) =>
        var served, _ := runtime.OnPostLlmCall(s, turn, ids, user, reply, at, uuid, answers);
        state := served;
      case SessionEnd(s, answers) =>
        state := null;
        runtime.FinishSession(s, answers.deferral);
    }
    if begun.Some? {
      OneMoreRound(before, state);
    }
  }

  /** The ids under which rounds were opened. */
  function OpenedIds(begun: seq<Option<string>>): set<string> {
    set i | 0 <= i < |begun| && begun[i].Some? :: begun[i].value
  }

  /** Some round was opened under an id that was known, or under which one was opened before. */
  ghost predicate Reuses(begun: seq<Option<string>>, known: set<string>) {
    exists i :: 0 <= i < |begun| && begun[i].Some? && begun[i].value in known + OpenedIds(begun[..i])
  }

  lemma {:induction false} ReusesMore(begun: seq<Option<string>>, o: Option<string>, known: set<string>)
    ensures OpenedIds(begun + [o]) == OpenedIds(begun) + if o.Some? then {o.value} else {}
    ensures Reuses(begun + [o], known) <==> Reuses(begun, known) || (o.Some? && o.value in known + OpenedIds(begun))
  {
    var more := begun + [o];
    assert forall i :: 0 <= i < |begun| ==> more[..i] == begun[..i] && more[i] == begun[i];
    assert more[..|begun|] == begun && more[|begun|] == o;
  }

  /** Any sequence of hooks, from any state the runtime can be in: the books stay in order and
      only grow; while the spool takes deferrals no closed round is left out; and the ids of all
      rounds are distinct exactly when they were and no hook opened a round under an id already
      used, which can be seen before the hook. */
  method RunHooks(runtime: HermesPluginRuntime, calls: seq<HookCall>) returns (ghost begun: seq<Option<string>>)
    requires runtime.Valid() && forall i :: 0 <= i < |calls| ==> WellFormed(calls[i])
    modifies runtime, runtime.rounds
    ensures runtime.Valid()
    ensures old(runtime.rounds) <= runtime.rounds && old(runtime.emitted) <= runtime.emitted
    ensures old(runtime.refused) <= runtime.refused
    ensures (forall i :: 0 <= i < |calls| ==> SpoolAccepts(calls[i])) ==> runtime.refused == old(runtime.refused)
    ensures |begun| == |calls|
    ensures forall i ::
      0 <= i < |calls| && begun[i].Some? ==> !calls[i].SessionEnd? && begun[i].value == IdFor(calls[i])
    ensures RoundIds(runtime.rounds) == RoundIds(old(runtime.rounds)) + OpenedIds(begun)
    ensures DistinctRoundIds(runtime.rounds)
       <==> DistinctRoundIds(old(runtime.rounds)) && !Reuses(begun, RoundIds(old(runtime.rounds)))
  {
    hide RoundIds, DistinctRoundIds, OpenedIds, Reuses;
    begun := [];
    ghost var known := RoundIds(runtime.rounds);
    NothingOpened(known);
    for i := 0 to |calls|
      invariant runtime.Valid() && old(runtime.rounds) <= runtime.rounds && fresh(runtime.rounds - old(runtime.rounds))
      invariant old(runtime.emitted) <= runtime.emitted && old(runtime.refused) <= runtime.refused
      invariant (forall k :: 0 <= k < i ==> SpoolAccepts(calls[k])) ==> runtime.refused == old(runtime.refused)
      invariant |begun| == i
      invariant forall k :: 0 <= k < i && begun[k].Some? ==> !calls[k].SessionEnd? && begun[k].value == IdFor(calls[k])
      invariant RoundIds(runtime.rounds) == known + OpenedIds(begun)
      invariant DistinctRoundIds(runtime.rounds) <==> DistinctRoundIds(old(runtime.rounds)) && !Reuses(begun, known)
    {
      ghost var one := Dispatch(runtime, calls[i]);
      ReusesMore(begun, one, known);
      begun := begun + [one];
    }
  }

  lemma {:induction false} NothingOpened(known: set<string>)
    ensures OpenedIds([]) == {} && !Reuses([], known)
  {
  }

  /** Fresh ids are not the id of any round or turn, nor of one another. */
  predicate UuidsFresh(calls: seq<HookCall>, known: set<string>) {
    forall i :: 0 <= i < |calls| && !calls[i].SessionEnd? ==>
      && calls[i].uuid !in known
      && forall j :: 0 <= j < |calls| && j != i && !calls[j].SessionEnd? ==>
           calls[j].uuid != calls[i].uuid && calls[j].turn != calls[i].uuid
  }

  /** The i-th call opened a round under an explicit turn id that a round already had. */
  predicate ReusesTurn(calls: seq<HookCall>, begun: seq<Option<string>>, known: set<string>, i: nat) {
    && i < |calls| == |begun| && begun[i].Some? && !calls[i].SessionEnd? && calls[i].turn != ""
    && (|| calls[i].turn in known
        || exists j :: 0 <= j < i && begun[j].Some? && !calls[j].SessionEnd? && calls[j].turn == calls[i].turn)
  }

  /** With fresh ids that are fresh, an id is used again exactly when a round is opened under an
      explicit turn id that a round already has. */
  lemma {:induction false} ReuseIsByTurn(calls: seq<HookCall>, begun: seq<Option<string>>, known: set<string>)
    requires UuidsFresh(calls, known) && |begun| == |calls|
    requires forall i ::
      0 <= i < |calls| && begun[i].Some? ==> !calls[i].SessionEnd? && begun[i].value == IdFor(calls[i])
    ensures Reuses(begun, known) <==> exists i: nat :: ReusesTurn(calls, begun, known, i)
  {
    if i :| 0 <= i < |begun| && begun[i].Some? && begun[i].value in known + OpenedIds(begun[..i]) {
      if begun[i].value !in known {
        var j :| 0 <= j < |begun[..i]| && begun[..i][j].Some? && begun[..i][j].value == begun[i].value;
        assert begun[j].Some? && IdFor(calls[j]) == IdFor(calls[i]) && calls[j].uuid != calls[i].uuid;
      }
      assert ReusesTurn(calls, begun, known, i);
    }
    if i: nat :| ReusesTurn(calls, begun, known, i) {
      if calls[i].turn !in known {
        var j :| 0 <= j < i && begun[j].Some? && !calls[j].SessionEnd? && calls[j].turn == calls[i].turn;
        assert begun[..i][j].Some? && begun[..i][j].value == begun[i].value;
      }
      assert begun[i].value in known + OpenedIds(begun[..i]);
    }
  }

  /** The round was closed and the spool took it. */
  ghost predicate Sent(runtime: HermesPluginRuntime, r: ActiveRoundState)
    reads runtime, r
  {
    r.completed && r !in runtime.refused
  }

  /** Two rounds of the same id that the spool took. */
  ghost predicate SentUnderOneId(runtime: HermesPluginRuntime, r1: ActiveRoundState, r2: ActiveRoundState)
    reads runtime, r1, r2
  {
    && r1 in runtime.rounds && r2 in runtime.rounds && r1 != r2 && r1.roundId == r2.roundId
    && Sent(runtime, r1) && Sent(runtime, r2)
  }

  predicate SameIdEmitted(emitted: seq<Emission>, i: int, j: int) {
    0 <= i < j < |emitted| && emitted[i].round.roundId == emitted[j].round.roundId
  }

  /** Two emissions carry the same round id exactly when two rounds of the same id were closed
      and taken by the spool: never, while round ids are distinct. */
  lemma {:induction false} EmissionsShareIdIff(runtime: HermesPluginRuntime)
    requires runtime.Valid()
    ensures (exists i, j :: SameIdEmitted(runtime.emitted, i, j))
       <==> (exists r1, r2 :: r1 in runtime.rounds && r2 in runtime.rounds && SentUnderOneId(runtime, r1, r2))
    ensures DistinctRoundIds(runtime.rounds) ==> forall i, j :: !SameIdEmitted(runtime.emitted, i, j)
  {
    hide Recorded, FirstHundred, Faithful;
    var emitted := runtime.emitted;
    forall k | 0 <= k < |emitted| ensures emitted[k].round in runtime.rounds && Sent(runtime, emitted[k].round) {
      assert emitted[k] in emitted;
      assert runtime.RoundFiled(emitted[k].round) && Emits(emitted, emitted[k].round);
    }
    if i, j :| SameIdEmitted(emitted, i, j) {
      assert SentUnderOneId(runtime, emitted[i].round, emitted[j].round);
    }
    if r1, r2 :| r1 in runtime.rounds && r2 in runtime.rounds && SentUnderOneId(runtime, r1, r2) {
      assert runtime.RoundFiled(r1) && runtime.RoundFiled(r2);
      var i :| 0 <= i < |emitted| && emitted[i].round == r1;
      var j :| 0 <= j < |emitted| && emitted[j].round == r2;
      assert SameIdEmitted(emitted, i, j) || SameIdEmitted(emitted, j, i);
    }
  }

  /** The round was enqueued as the `i`-th and no other time. */
  predicate OnlyAt(emitted: seq<Emission>, i: int, r: ActiveRoundState) {
    0 <= i < |emitted| && forall k :: 0 <= k < |emitted| ==> (emitted[k].round == r <==> k == i)
  }

  /** In a valid state a closed round was enqueued exactly once, unless the spool refused it;
      an open one never was, and is the active round of its session. */
  lemma {:induction false} EnqueuedExactlyOnce(runtime: HermesPluginRuntime, r: ActiveRoundState)
    requires runtime.Valid() && r in runtime.rounds && r !in runtime.refused
    ensures r.completed ==> exists i :: OnlyAt(runtime.emitted, i, r)
    ensures !r.completed ==>
      !Emits(runtime.emitted, r) && r.sessionId in runtime.activeRounds && runtime.activeRounds[r.sessionId] == r
  {
    assert runtime.RoundFiled(r);
    if r.completed {
      var i :| 0 <= i < |runtime.emitted| && runtime.emitted[i].round == r;
      assert OneEach(runtime.emitted);
      assert OnlyAt(runtime.emitted, i, r);
    }
  }

  /** `active_round_id` names the session's active round and is empty when there is none. */
  lemma {:induction false} ActiveRoundIdIsRight(runtime: HermesPluginRuntime, s: string)
    requires runtime.Valid() && s in runtime.sessionStates
    ensures runtime.sessionStates[s].activeRoundId
         == if s in runtime.activeRounds then runtime.activeRounds[s].roundId else ""
    ensures s in runtime.activeRounds ==> !runtime.activeRounds[s].completed && runtime.activeRounds[s].roundId != ""
  {
    assert runtime.ActiveNamed(s);
  }

  /** What was written for a round, whatever has become of the round since: a record or request
      that names its session, its id and the time, that refers to the last retrieval of its own
      views and to the first hundred distinct ids of all of them, in order of appearance, or to no
      context when there were no views; and a request holds its events. */
  lemma {:induction false} ContextStaysWithItsRound(runtime: HermesPluginRuntime, i: nat)
    requires runtime.Valid() && i < |runtime.emitted|
    ensures var e := runtime.emitted[i];
      var views, ids := e.round.views, Dedup(Concat(IdLists(e.round.views)));
      && (if views == [] then "extensions" !in e.record
          else SaysIn(e.record, "extensions", "ledgermind_context", Obj(map[
                 "schema_version" := Num(1.0),
                 "retrieval_request_id" := Str(views[|views| - 1].requestId),
                 "delivered_value_ids" := Arr(Strings(if |ids| <= 100 then ids else ids[..100]))])))
      && (e.queue.ReadyQueue? ==>
            && SaysIn(e.record, "source", "session_id", Str(e.round.sessionId))
            && SaysIn(e.record, "source", "round_id", Str(e.round.roundId))
            && SaysIn(e.record, "round", "completed_at", Str(e.at))
            && SaysIn(e.record, "round", "events", Arr(seq(|e.events|, k requires 0 <= k < |e.events| =>
                 Obj(NormalizeEvent(e.events[k], k, e.round.roundId, runtime.config.render))))))
      && (e.queue.PendingQueue? ==>
            && Says(e.record, "session_id", Str(e.round.sessionId))
            && Says(e.record, "round_id", Str(e.round.roundId)) && Says(e.record, "completed_at", Str(e.at)))
  {
    hide NormalizeEvent, Recorded, Dedup, Concat;
    assert runtime.emitted[i] in runtime.emitted;
    assert Faithful(runtime.config, runtime.emitted[i]);
    RecordedIsDedup(IdLists(runtime.emitted[i].round.views));
  }

  /** A tool hook that arrives after its round was closed opens a second round of the same id:
      uniqueness is by round, not by round id. */
  method LateHookReusesRoundId(config: Config) returns (runtime: HermesPluginRuntime)
    ensures runtime.Valid() && |runtime.emitted| == 2
    ensures runtime.emitted[0].round != runtime.emitted[1].round
    ensures runtime.emitted[0].round.roundId == runtime.emitted[1].round.roundId == "turn-1"
  {
    hide After, AllClean, DistinctIds, UsesId, AppendAssistant, TellsNullsApart, Faithful, DeferralFor, ContextTurnKey,
         Cached, Recorded, FirstHundred, HasUser, HermesPluginRuntime.Valid;
    runtime := new HermesPluginRuntime(config);
    var none := HostIds(None, None, None);
    var answers := SpoolAnswers(Deferral("t0", true), true, true);
    var first, outcome := runtime.OnPostLlmCall("s", "turn-1", none, Str("hello"), "hi", "t0", "u0", answers);
    assert runtime.emitted[0].round == first;
    var late := runtime.OnPostToolCall("s", "turn-1", "call-1", "read", "success", Str("ok"), None, "t1", "u1",
                                       Deferral("t1", true));
    assert runtime.emitted[0].round == first && |runtime.emitted| == 1 && late.externalTurnId == "turn-1";
    var next, _, _ := runtime.OnPreLlmCall("s", "turn-2", none, Str("again"), 0, None, "u2", Deferral("t2", true));
  }
}
