/** The Hermes plugin runtime: one active round per session, built up by hooks and closed by
    capture or deferral. What the spool answers to an enqueue, fresh ids, clock readings and
    retrieved context are inputs. Strings arrive stripped; an empty one stands for a missing one. */
module HermesRuntime {
  import opened Options
  import opened JsonValue
  import opened Decimals
  import opened Canonical
  import opened RawRounds
  import opened RoundRequests
  import opened HermesEvents
  import opened HermesRounds
  import opened HermesSteps
  import opened ContextIds
  import opened RoundRecords

  /** The message ids a hook call carries. */
  datatype HostIds = HostIds(user: Option<string>, assistant: Option<string>, message: Option<string>)

  function First(a: Option<string>, b: Option<string>): Option<string> {
    if a.Some? then a else b
  }

  function UserIdOf(ids: HostIds): Option<string> {
    First(ids.user, ids.message)
  }

  function AssistantIdOf(ids: HostIds): Option<string> {
    First(ids.assistant, ids.message)
  }

  /** `_context_turn_key`; `historyUsers` counts the user messages of the given history. */
  function ContextTurnKey(turn: string, user: Option<string>, historyUsers: nat): string {
    if turn != "" then "turn:" + turn
    else if user.Some? then "message:" + user.value
    else if historyUsers > 0 then "history-user:" + Decimal(historyUsers)
    else ""
  }

  class ActiveRoundState {
    const sessionId: string
    const roundId: string
    var externalTurnId: string
    var capturedEvents: seq<Fields>
    var toolCallsById: Calls
    var retrievalRequestId: string
    var deliveredValueIds: seq<string>
    var completed: bool
    /** Every context view recorded for this round. */
    ghost var views: seq<ContextView>

    constructor (sessionId: string, roundId: string, externalTurnId: string)
      ensures this.sessionId == sessionId && this.roundId == roundId && this.externalTurnId == externalTurnId
      ensures CaptureOf() == Capture([], map[]) && !completed
      ensures retrievalRequestId == "" && deliveredValueIds == [] && views == []
    {
      this.sessionId, this.roundId, this.externalTurnId := sessionId, roundId, externalTurnId;
      capturedEvents, toolCallsById, completed := [], map[], false;
      retrievalRequestId, deliveredValueIds, views := "", [], [];
    }

    function CaptureOf(): Capture
      reads this`capturedEvents, this`toolCallsById
    {
      Capture(capturedEvents, toolCallsById)
    }

    /** The extensions to be sent with the round: the context retrieved for it. */
    function ContextExtensions(): Fields
      reads this
    {
      ContextFields(retrievalRequestId, deliveredValueIds)
    }

    /** The context references of an open round are those of its own views. */
    ghost predicate Open()
      reads this
    {
      !completed && deliveredValueIds == Recorded(IdLists(views)) && Refers(retrievalRequestId, views)
    }

    /** The captured events of an open round are what the hooks put there. */
    ghost predicate Tracked()
      reads this
    {
      completed || Capturing(roundId, CaptureOf())
    }

    /** `_record_context_retrieval`. */
    method RecordContext(view: ContextView)
      requires Open() && view.requestId != ""
      modifies this`retrievalRequestId, this`deliveredValueIds, this`views
      ensures Open() && views == old(views) + [view]
    {
      retrievalRequestId := view.requestId;
      ghost var known := deliveredValueIds;
      for i := 0 to |view.valueIds|
        invariant deliveredValueIds == Merge(known, view.valueIds[..i])
        invariant views == old(views) && retrievalRequestId == view.requestId
      {
        assert view.valueIds[..i + 1][..i] == view.valueIds[..i];
        if view.valueIds[i] !in deliveredValueIds && |deliveredValueIds| < MAX_CONTEXT_IDS {
          deliveredValueIds := deliveredValueIds + [view.valueIds[i]];
        }
      }
      assert view.valueIds[..|view.valueIds|] == view.valueIds;
      OneMoreView(views, view);
      views := views + [view];
    }

    /** `_clear_context_refs`. */
    method ClearContext()
      modifies this`retrievalRequestId, this`deliveredValueIds
      ensures retrievalRequestId == "" && deliveredValueIds == []
    {
      retrievalRequestId, deliveredValueIds := "", [];
    }

    /** `_tool_call_id`: scans the events from the last one back. */
    method FindToolCallId(explicit: string) returns (t: string)
      ensures t == ToolCallId(roundId, capturedEvents, explicit)
    {
      if explicit != "" {
        return explicit;
      }
      var n := |capturedEvents|;
      while n > 0
        invariant 0 <= n <= |capturedEvents|
        invariant LastOpenCall(capturedEvents, |capturedEvents|) == LastOpenCall(capturedEvents, n)
      {
        if OpenCall(capturedEvents, n - 1) {
          return capturedEvents[n - 1]["tool_call_id"].s;
        }
        n := n - 1;
      }
      t := roundId + ":tool:" + Decimal(|capturedEvents|);
    }

    /** What `on_pre_tool_call` does to the round. */
    method StartTool(explicit: string, tool: string, arguments: Fields, at: string)
      requires Open() && Tracked()
      modifies this`capturedEvents, this`toolCallsById
      ensures Open() && Tracked()
      ensures CaptureOf() == After(roundId, old(CaptureOf()), ToolStarted(explicit, tool, arguments, at))
    {
      hide Capturing, CallEvent, LastOpenCall;
      AfterKeeps(roundId, CaptureOf(), ToolStarted(explicit, tool, arguments, at));
      var t := FindToolCallId(explicit);
      if t in toolCallsById {
        return;
      }
      var event := CallEvent(roundId, t, ToolName(tool), arguments, at);
      toolCallsById := toolCallsById[t := |capturedEvents|];
      capturedEvents := capturedEvents + [event];
    }

    /** What `on_post_tool_call` does to the round. */
    method FinishTool(explicit: string, tool: string, status: string, output: Json, error: Option<string>, at: string)
      requires Open() && Tracked()
      modifies this`capturedEvents, this`toolCallsById
      ensures Open() && Tracked()
      ensures CaptureOf() == After(roundId, old(CaptureOf()), ToolFinished(explicit, tool, status, output, error, at))
    {
      hide Capturing, CallEvent, ResultEvent, LastOpenCall, Finished, HasResult;
      ghost var c := CaptureOf();
      AfterKeeps(roundId, c, ToolFinished(explicit, tool, status, output, error, at));
      var t := FindToolCallId(explicit);
      ghost var called := WithCall(roundId, c, t, tool, map[], at);
      AfterKeeps(roundId, c, ToolStarted(t, tool, map[], at));
      CallsInRange(roundId, called, t);
      if t !in toolCallsById {
        toolCallsById := toolCallsById[t := |capturedEvents|];
        capturedEvents := capturedEvents + [CallEvent(roundId, t, ToolName(tool), map[], at)];
      }
      if HasResult(capturedEvents, t) {
        return;
      }
      var event := ResultEvent(roundId, t, Status(status), ResultContent(output, error), error, at);
      capturedEvents := capturedEvents + [event];
      var k := toolCallsById[t];
      capturedEvents := capturedEvents[k := Finished(capturedEvents[k], error, at)];
    }

    /** `_ensure_user_event`. */
    method EnsureUserEvent(id: Option<string>, content: Json)
      requires Open() && Tracked() && id != Some("")
      modifies this`capturedEvents
      ensures Open() && Tracked() && HasUser(capturedEvents)
      ensures CaptureOf() == After(roundId, old(CaptureOf()), UserSeen(id, content))
    {
      hide Capturing, UserEvent, HasUser;
      AfterKeeps(roundId, CaptureOf(), UserSeen(id, content));
      if HasUser(capturedEvents) {
        return;
      }
      capturedEvents := capturedEvents + [UserEvent(UserEventId(roundId, id), content)];
    }

    /** `_append_assistant_event`: the loop with its `else`. */
    method AppendAssistantEvent(id: Option<string>, content: string)
      modifies this`capturedEvents
      ensures capturedEvents == AppendAssistant(old(capturedEvents), AssistantEventId(roundId, id), content)
    {
      var eventId := AssistantEventId(roundId, id);
      var i := 0;
      while i < |capturedEvents|
        invariant 0 <= i <= |capturedEvents| && capturedEvents == old(capturedEvents)
        invariant forall k :: 0 <= k < i ==> Get(capturedEvents[k], "event_id") != Str(eventId)
      {
        if Get(capturedEvents[i], "event_id") == Str(eventId) {
          capturedEvents := capturedEvents[i := Answered(capturedEvents[i], content)];
          return;
        }
        i := i + 1;
      }
      capturedEvents := capturedEvents + [AssistantEvent(eventId, content)];
    }
  }

  lemma {:induction false} CallsInRange(r: string, c: Capture, t: string)
    requires Capturing(r, c) && t in c.calls
    ensures c.calls[t] < |c.events|
  {
  }

  datatype SessionState = SessionState(
    activeRoundId: string,
    lastCompletedRoundId: string,
    completedRounds: nat,
    contextTurnKey: string,
    contextView: Option<ContextView>)

  const NEW_SESSION := SessionState("", "", 0, "", None)

  /** The session's cached context is that of this turn. */
  predicate Cached(session: SessionState, asked: bool, key: string) {
    asked && key != "" && session.contextTurnKey == key && session.contextView.Some?
  }

  /** Turns that share a key are the same turn: the same explicit turn id, or else the same user
      message id, or else the same number of user messages in the history. */
  lemma {:induction false} TurnKeysDiffer(turn: string, user: Option<string>, users: nat, turn': string,
                                          user': Option<string>, users': nat)
    requires ContextTurnKey(turn, user, users) != ""
    ensures ContextTurnKey(turn, user, users) == ContextTurnKey(turn', user', users') ==>
      && turn == turn'
      && (turn == "" ==> user == user' && (user.None? ==> users == users'))
  {
    var a, b := ContextTurnKey(turn, user, users), ContextTurnKey(turn', user', users');
    if a == b {
      assert "turn:"[0] == 't' && "message:"[0] == 'm' && "history-user:"[0] == 'h';
      assert a[0] == b[0];
      if turn != "" {
        assert a[|"turn:"|..] == turn && b[|"turn:"|..] == turn';
      } else if user.Some? {
        assert a[|"message:"|..] == user.value && b[|"message:"|..] == user'.value;
      } else {
        assert a[|"history-user:"|..] == Decimal(users) && b[|"history-user:"|..] == Decimal(users');
        DecimalInjective(users, users');
      }
    }
  }

  datatype Queue = ReadyQueue | PendingQueue

  /** One enqueue the spool accepted: for which round, where to, with which events and at what
      time; and what was written. */
  datatype Emission = Emission(round: ActiveRoundState, queue: Queue, events: seq<Fields>, at: string, record: Fields)

  /** What was written names its round and time, refers to the context of its round's own views,
      and, as a request, holds its events. */
  ghost predicate Faithful(config: Config, e: Emission)
    reads e.round`views
  {
    && CarriesContext(e.record, e.round.views)
    && match e.queue {
         case ReadyQueue =>
           RequestOf(e.record, e.round.sessionId, e.round.roundId, e.at, e.events, config.render)
         case PendingQueue => DeferralOf(e.record, e.round.sessionId, e.round.roundId, e.at)
       }
  }

  predicate Emits(emitted: seq<Emission>, r: ActiveRoundState) {
    exists i :: 0 <= i < |emitted| && emitted[i].round == r
  }

  lemma {:induction false} EmitsOneMore(emitted: seq<Emission>, e: Emission)
    ensures forall r :: Emits(emitted + [e], r) <==> Emits(emitted, r) || e.round == r
  {
    forall r ensures Emits(emitted + [e], r) <==> Emits(emitted, r) || e.round == r {
      if Emits(emitted, r) {
        var i :| 0 <= i < |emitted| && emitted[i].round == r;
        assert (emitted + [e])[i].round == r;
      }
      assert (emitted + [e])[|emitted|] == e;
    }
  }

  /** No round is enqueued twice. */
  predicate OneEach(emitted: seq<Emission>) {
    forall i, j :: 0 <= i < j < |emitted| ==> emitted[i].round != emitted[j].round
  }

  lemma {:induction false} EmitsAppended(emitted: seq<Emission>, e: seq<Emission>, state: ActiveRoundState)
    requires |e| <= 1 && (forall x :: x in e ==> x.round == state) && OneEach(emitted) && !Emits(emitted, state)
    ensures forall r :: Emits(emitted + e, r) <==> Emits(emitted, r) || (e != [] && r == state)
    ensures OneEach(emitted + e)
  {
    hide Emits, OneEach;
    if e == [] {
      assert emitted + e == emitted;
    } else {
      assert e == [e[0]] && e[0] in e;
      EmitsOneMore(emitted, e[0]);
      OneEachMore(emitted, e[0]);
    }
  }

  lemma {:induction false} OneEachMore(emitted: seq<Emission>, e: Emission)
    requires OneEach(emitted) && !Emits(emitted, e.round)
    ensures OneEach(emitted + [e])
  {
  }

  /** What does not change from round to round: the hash functions, how values print, and the
      constant parts of a request. */
  datatype Config = Config(lib: Library, render: Render, template: RoundSpec)

  function SpecFor(config: Config, state: ActiveRoundState, at: string): (spec: RoundSpec)
    reads state
    ensures spec.roundId == state.roundId
  {
    config.template.(
      sessionId := state.sessionId,
      roundId := state.roundId,
      completedAt := at,
      extensions := state.ContextExtensions())
  }

  /** The pending record of a round; the events go with it when it was captured. */
  function DeferralFor(state: ActiveRoundState, at: string, events: Option<seq<Fields>>): Fields
    reads state
  {
    PendingFields(state.sessionId, state.roundId, state.externalTurnId, at, events, state.ContextExtensions())
  }

  lemma {:induction false} RequestIsFaithful(config: Config, state: ActiveRoundState, at: string, events: seq<Fields>)
    requires state.Open() && events != []
    ensures var record := Build(config.lib, SpecFor(config, state, at), events, config.render).value;
      Faithful(config, Emission(state, ReadyQueue, events, at, record))
  {
    hide Build, RequestOf, CarriesContext, Recorded;
    BuiltSays(config.lib, SpecFor(config, state, at), events, config.render);
    BuiltCarries(config.lib, SpecFor(config, state, at), events, config.render, state.retrievalRequestId, state.views);
  }

  lemma {:induction false} DeferralIsFaithful(config: Config, state: ActiveRoundState, at: string,
                                              carried: Option<seq<Fields>>, events: seq<Fields>)
    requires state.Open()
    ensures Faithful(config, Emission(state, PendingQueue, events, at, DeferralFor(state, at, carried)))
  {
    hide PendingFields, CarriesContext, Recorded;
    PendingCarries(state.sessionId, state.roundId, state.externalTurnId, at, carried, state.retrievalRequestId,
                   state.views);
  }

  /** The enqueue of a deferred round: when, and whether the spool took it. */
  datatype Deferral = Deferral(at: string, accepted: bool)

  /** What the spool answers: to the enqueue of a deferred older round, of the capture, and of
      the fallback to the pending queue. */
  datatype SpoolAnswers = SpoolAnswers(deferral: Deferral, capture: bool, fallback: bool)

  class HermesPluginRuntime {
    const config: Config
    var activeRounds: map<string, ActiveRoundState>
    var sessionStates: map<string, SessionState>
    /** Every round ever opened. */
    ghost var rounds: set<ActiveRoundState>
    /** What the spool accepted, in order. */
    ghost var emitted: seq<Emission>
    /** Rounds that were closed while the spool took neither capture nor deferral. */
    ghost var refused: set<ActiveRoundState>

    ghost predicate ActiveNamed(s: string)
      reads this, rounds
    {
      && (s in sessionStates && sessionStates[s].contextView.Some? ==>
            sessionStates[s].contextView.value.requestId != "")
      && if s in activeRounds then
        && activeRounds[s] in rounds && activeRounds[s].sessionId == s && activeRounds[s].Open()
        && activeRounds[s].roundId != ""
        && s in sessionStates && sessionStates[s].activeRoundId == activeRounds[s].roundId
      else s in sessionStates ==> sessionStates[s].activeRoundId == ""
    }

    /** An open round is the active one of its session; a closed one was enqueued or refused. */
    ghost predicate RoundFiled(r: ActiveRoundState)
      reads this, r
    {
      && (if r.completed then r.retrievalRequestId == "" && r.deliveredValueIds == []
          else r.sessionId in activeRounds && activeRounds[r.sessionId] == r)
      && (r.completed <==> (Emits(emitted, r) || r in refused))
      && !(Emits(emitted, r) && r in refused)
    }

    /** Each round is enqueued at most once, and faithfully. */
    ghost predicate EmittedOnce()
      reads this, rounds
    {
      && OneEach(emitted)
      && (forall x :: x in emitted ==> x.round in rounds && Faithful(config, x))
    }

    /** The books are in order. */
    ghost predicate Filed()
      reads this, rounds
    {
      && (forall s {:trigger ActiveNamed(s)} :: ActiveNamed(s))
      && (forall r {:trigger RoundFiled(r)} :: r in rounds ==> RoundFiled(r))
      && EmittedOnce() && refused <= rounds
    }

    ghost predicate Valid()
      reads this, rounds
    {
      Filed() && forall r :: r in rounds ==> r.Tracked()
    }

    constructor (config: Config)
      ensures Valid() && rounds == {} && emitted == [] && refused == {} && activeRounds == map[]
      ensures this.config == config
    {
      this.config := config;
      activeRounds, sessionStates := map[], map[];
      rounds, emitted, refused := {}, [], {};
    }

    /** The rounds and sessions of other sessions than `s` are as they were. */
    twostate predicate Elsewhere(s: string)
      reads this, rounds
    {
      && (forall t :: t != s ==>
            (t in activeRounds <==> t in old(activeRounds)) && (t in sessionStates <==> t in old(sessionStates)))
      && (forall t :: t != s && t in activeRounds ==> activeRounds[t] == old(activeRounds[t]))
      && (forall t :: t != s && t in sessionStates ==> sessionStates[t] == old(sessionStates[t]))
      && old(rounds) <= rounds
      && (forall r: ActiveRoundState :: r in rounds && r in old(rounds) && r.sessionId != s ==> unchanged(r))
    }

    /** The session's cached context is as it was; a session just begun has none. */
    twostate predicate SameContext(s: string)
      reads this
    {
      && (s in old(sessionStates) ==> s in sessionStates)
      && (s in sessionStates ==>
            var session := if s in old(sessionStates) then old(sessionStates[s]) else NEW_SESSION;
            sessionStates[s].contextView == session.contextView
            && sessionStates[s].contextTurnKey == session.contextTurnKey)
    }

    /** Flags the round, takes it out of the active map and drops its context references. */
    method Retire(state: ActiveRoundState)
      modifies this`activeRounds, this`sessionStates
      modifies state`completed, state`retrievalRequestId, state`deliveredValueIds
      ensures state.completed && state.retrievalRequestId == "" && state.deliveredValueIds == []
      ensures activeRounds
           == if state.sessionId in old(activeRounds) && old(activeRounds[state.sessionId]) == state
              then old(activeRounds) - {state.sessionId}
              else old(activeRounds)
      ensures sessionStates
           == if state.sessionId in old(sessionStates)
              then old(sessionStates[state.sessionId := sessionStates[state.sessionId].(activeRoundId := "")])
              else old(sessionStates)
    {
      state.completed := true;
      if state.sessionId in activeRounds && activeRounds[state.sessionId] == state {
        activeRounds := activeRounds - {state.sessionId};
      }
      state.ClearContext();
      if state.sessionId in sessionStates {
        sessionStates := sessionStates[state.sessionId := sessionStates[state.sessionId].(activeRoundId := "")];
      }
    }

    /** What deferral and completion share: the round leaves the active map and drops its context
        references. `e` is what the spool accepted for it, if anything. */
    method Close(state: ActiveRoundState, ghost e: seq<Emission>)
      requires Filed() && state in rounds && !state.completed
      requires |e| <= 1 && forall x :: x in e ==> x.round == state && Faithful(config, x)
      modifies this`activeRounds, this`sessionStates, this`emitted, this`refused
      modifies state`completed, state`retrievalRequestId, state`deliveredValueIds
      ensures Filed() && state.completed
      ensures emitted == old(emitted) + e
      ensures refused == old(refused) + if e == [] then {state} else {}
      ensures activeRounds == old(activeRounds) - {state.sessionId}
      ensures state.sessionId in old(sessionStates)
      ensures sessionStates
           == old(sessionStates[state.sessionId := sessionStates[state.sessionId].(activeRoundId := "")])
    {
      hide Capturing, Recorded, FirstHundred, Emits, OneEach, Faithful;
      assert RoundFiled(state) && ActiveNamed(state.sessionId);
      emitted := emitted + e;
      if e == [] {
        refused := refused + {state};
      }
      Retire(state);
      assert forall s {:trigger ActiveNamed(s)} :: ActiveNamed(s) by {
        forall s ensures ActiveNamed(s) {
          assert old(ActiveNamed(s));
        }
      }
      EmitsAppended(old(emitted), e, state);
      assert forall r {:trigger RoundFiled(r)} :: r in rounds ==> RoundFiled(r) by {
        forall r | r in rounds ensures RoundFiled(r) {
          assert old(RoundFiled(r));
        }
      }
      assert EmittedOnce() by {
        assert forall x :: x in emitted ==> x in old(emitted) || x in e;
      }
    }

    /** `_defer_active_round_locked`. */
    method Defer(state: ActiveRoundState, deferral: Deferral)
      requires Valid() && state in rounds && !state.completed
      modifies this`activeRounds, this`sessionStates, this`emitted, this`refused
      modifies state`completed, state`retrievalRequestId, state`deliveredValueIds
      ensures Valid() && state.completed && Elsewhere(state.sessionId)
      ensures emitted == old(emitted) + old(Deferred(state, deferral))
      ensures refused == old(refused) + (if deferral.accepted then {} else {state})
      ensures activeRounds == old(activeRounds) - {state.sessionId}
      ensures state.sessionId in sessionStates && SameContext(state.sessionId)
    {
      assert RoundFiled(state) && ActiveNamed(state.sessionId);
      DeferralIsFaithful(config, state, deferral.at, None, []);
      ghost var e := Deferred(state, deferral);
      Close(state, e);
    }

    /** `_complete_round`, for a round whose capture went where `e` says. */
    method Complete(state: ActiveRoundState, ghost e: seq<Emission>)
      requires Filed() && state in rounds && !state.completed
      requires |e| <= 1 && forall x :: x in e ==> x.round == state && Faithful(config, x)
      modifies this`activeRounds, this`sessionStates, this`emitted, this`refused
      modifies state`completed, state`retrievalRequestId, state`deliveredValueIds
      ensures Filed() && state.completed && Elsewhere(state.sessionId)
      ensures emitted == old(emitted) + e
      ensures refused == old(refused) + if e == [] then {state} else {}
      ensures activeRounds == old(activeRounds) - {state.sessionId}
      ensures state.sessionId in old(sessionStates) && state.sessionId in sessionStates
      ensures var session := old(sessionStates[state.sessionId]);
        sessionStates[state.sessionId] == session.(activeRoundId := "", lastCompletedRoundId := state.roundId,
                                                   completedRounds := session.completedRounds + 1)
    {
      hide Capturing, Recorded, FirstHundred, Emits, Faithful;
      Close(state, e);
      label closed:
      var session := sessionStates[state.sessionId];
      sessionStates := sessionStates[state.sessionId :=
        session.(lastCompletedRoundId := state.roundId, completedRounds := session.completedRounds + 1)];
      forall s ensures ActiveNamed(s) {
        assert old@closed(ActiveNamed(s));
      }
      forall r | r in rounds ensures RoundFiled(r) {
        assert old@closed(RoundFiled(r));
      }
    }

    /** The session's active round serves this turn. */
    predicate Serves(s: string, turn: string)
      reads this, if s in activeRounds then {activeRounds[s]} else {}
    {
      s in activeRounds
      && (turn == "" || activeRounds[s].externalTurnId == "" || activeRounds[s].externalTurnId == turn)
    }

    /** The session's previous round, if there was one, was deferred; nothing else was enqueued. */
    twostate predicate Replaced(s: string, deferral: Deferral)
      reads this
    {
      if s in old(activeRounds) then
        && emitted == old(emitted) + old(Deferred(activeRounds[s], deferral))
        && refused == old(refused) + (if deferral.accepted then {} else {old(activeRounds[s])})
      else emitted == old(emitted) && refused == old(refused)
    }

    /** `state` was opened for this turn. */
    twostate predicate New(s: string, turn: string, uuid: string, new state: ActiveRoundState)
      reads this, state
    {
      && fresh(state) && state.sessionId == s && state.externalTurnId == turn
      && state.roundId == (if turn != "" then turn else uuid)
      && rounds == old(rounds) + {state} && activeRounds == old(activeRounds)[s := state]
    }

    /** A new round is open in place of the session's previous one. */
    twostate predicate Reopened(s: string, turn: string, uuid: string, deferral: Deferral, new state: ActiveRoundState)
      reads this, state
    {
      New(s, turn, uuid, state) && Replaced(s, deferral) && state.CaptureOf() == Capture([], map[]) && state.views == []
    }

    method OpenRound(s: string, turn: string, uuid: string) returns (state: ActiveRoundState)
      requires Valid() && s !in activeRounds && uuid != ""
      modifies this`activeRounds, this`sessionStates, this`rounds
      ensures Valid() && fresh(state) && state.Open() && state.sessionId == s && state.externalTurnId == turn
      ensures state.roundId == (if turn != "" then turn else uuid)
      ensures state.CaptureOf() == Capture([], map[]) && state.views == []
      ensures rounds == old(rounds) + {state} && activeRounds == old(activeRounds)[s := state] && Elsewhere(s)
      ensures SameContext(s)
    {
      hide Capturing, Recorded, FirstHundred, OneEach, Emits, Faithful;
      state := new ActiveRoundState(s, if turn != "" then turn else uuid, turn);
      NotYetEmitted(state);
      NothingCaptured(state.roundId);
      NothingRecorded();
      Install(state);
      forall t ensures ActiveNamed(t) {
        assert old(ActiveNamed(t));
      }
      forall r | r in rounds ensures RoundFiled(r) {
        assert r != state ==> old(RoundFiled(r));
      }
    }

    /** Only rounds that exist have been enqueued. */
    lemma {:induction false} NotYetEmitted(r: ActiveRoundState)
      requires Filed() && r !in rounds
      ensures !Emits(emitted, r)
    {
    }

    /** Makes the round its session's active one. */
    method Install(state: ActiveRoundState)
      modifies this`activeRounds, this`sessionStates, this`rounds
      ensures activeRounds == old(activeRounds)[state.sessionId := state] && rounds == old(rounds) + {state}
      ensures var known := state.sessionId in old(sessionStates);
        var session := if known then old(sessionStates[state.sessionId]) else NEW_SESSION;
        sessionStates == old(sessionStates)[state.sessionId := session.(activeRoundId := state.roundId)]
    {
      activeRounds := activeRounds[state.sessionId := state];
      var session := if state.sessionId in sessionStates then sessionStates[state.sessionId] else NEW_SESSION;
      sessionStates := sessionStates[state.sessionId := session.(activeRoundId := state.roundId)];
      rounds := rounds + {state};
    }

    /** `get_active_round`. */
    method GetActiveRound(s: string, turn: string) returns (state: ActiveRoundState?)
      requires Valid()
      ensures state == if Serves(s, turn) then activeRounds[s] else null
    {
      assert ActiveNamed(s);
      if s !in activeRounds || activeRounds[s].completed {
        return null;
      }
      state := activeRounds[s];
      if turn != "" && state.externalTurnId != "" && turn != state.externalTurnId {
        return null;
      }
    }

    /** Defers the session's active round, if there is one. */
    method DeferActive(s: string, deferral: Deferral)
      requires Valid()
      modifies this`activeRounds, this`sessionStates, this`emitted, this`refused, rounds
      ensures Valid() && s !in activeRounds && activeRounds == old(activeRounds) - {s} && rounds == old(rounds)
      ensures Elsewhere(s) && Replaced(s, deferral) && SameContext(s)
    {
      hide Capturing, Recorded, FirstHundred, OneEach, Emits, Faithful, Filed;
      if s in activeRounds {
        ActiveFacts(s);
        Defer(activeRounds[s], deferral);
      }
    }

    /** Defers what is active and opens a new round. */
    method ReplaceRound(s: string, turn: string, uuid: string, deferral: Deferral) returns (state: ActiveRoundState)
      requires Valid() && uuid != ""
      modifies this, rounds
      ensures Valid() && state.Open() && Elsewhere(s) && SameContext(s) && Reopened(s, turn, uuid, deferral, state)
    {
      hide Capturing, Recorded, FirstHundred, OneEach, Emits, Faithful, Filed;
      DeferActive(s, deferral);
      state := OpenRound(s, turn, uuid);
    }

    /** A round that was opened without a turn id takes the one that now came. */
    method AdoptTurn(state: ActiveRoundState, turn: string)
      requires Valid() && state in rounds
      modifies state`externalTurnId
      ensures Valid() && state.externalTurnId == turn
    {
      hide Capturing, Recorded, FirstHundred, OneEach, Emits, Faithful;
      state.externalTurnId := turn;
      forall t ensures ActiveNamed(t) {
        assert old(ActiveNamed(t));
      }
      forall r | r in rounds ensures RoundFiled(r) {
        assert old(RoundFiled(r));
      }
    }

    /** `get_or_create_active_round`. */
    method GetOrCreateActiveRound(s: string, turn: string, uuid: string, deferral: Deferral)
      returns (state: ActiveRoundState)
      requires Valid() && uuid != ""
      modifies this, rounds
      ensures Valid() && state.Open() && s in activeRounds && activeRounds[s] == state && Elsewhere(s)
      ensures state.sessionId == s && (state in old(rounds) || fresh(state)) && state in rounds && SameContext(s)
      ensures if old(Serves(s, turn)) then
          && state == old(activeRounds[s]) && rounds == old(rounds) && emitted == old(emitted)
          && refused == old(refused) && state.CaptureOf() == old(activeRounds[s].CaptureOf())
        && state.views == old(activeRounds[s].views)
        else Reopened(s, turn, uuid, deferral, state)
    {
      hide Capturing, Recorded, FirstHundred, OneEach, Emits, Faithful, Filed;
      if s in activeRounds {
        ActiveFacts(s);
      }
      if s in activeRounds && !activeRounds[s].completed {
        var current := activeRounds[s];
        if turn != "" && current.externalTurnId == turn {
          return current;
        }
        if turn != "" && current.externalTurnId == "" {
          AdoptTurn(current, turn);
          return current;
        }
        if turn == "" {
          return current;
        }
      }
      state := ReplaceRound(s, turn, uuid, deferral);
    }

    /** `_get_or_create_for_hook`. */
    method GetOrCreateForHook(s: string, turn: string, uuid: string, deferral: Deferral)
      returns (state: ActiveRoundState)
      requires Valid() && uuid != ""
      modifies this, rounds
      ensures Valid() && state.Open() && s in activeRounds && activeRounds[s] == state && Elsewhere(s)
      ensures state.sessionId == s && (state in old(rounds) || fresh(state)) && state in rounds && SameContext(s)
      ensures if old(Serves(s, turn)) then
          && state == old(activeRounds[s]) && rounds == old(rounds) && emitted == old(emitted)
          && refused == old(refused) && state.CaptureOf() == old(activeRounds[s].CaptureOf())
        && state.views == old(activeRounds[s].views)
        else Reopened(s, turn, uuid, deferral, state)
    {
      hide Capturing, Recorded, FirstHundred, OneEach, Emits, Faithful, Filed;
      if s in activeRounds {
        ActiveFacts(s);
      }
      var existing := GetActiveRound(s, turn);
      if existing != null {
        return existing;
      }
      state := GetOrCreateActiveRound(s, turn, uuid, deferral);
    }

    /** `on_pre_tool_call`. */
    method OnPreToolCall(s: string, turn: string, explicit: string, tool: string, arguments: Fields, at: string,
                         uuid: string, deferral: Deferral) returns (state: ActiveRoundState)
      requires Valid() && uuid != ""
      modifies this, rounds
      ensures Valid() && s in activeRounds && activeRounds[s] == state && Elsewhere(s)
      ensures var before := if old(Serves(s, turn)) then old(activeRounds[s].CaptureOf()) else Capture([], map[]);
        state.CaptureOf() == After(state.roundId, before, ToolStarted(explicit, tool, arguments, at))
      ensures if old(Serves(s, turn)) then
          && state == old(activeRounds[s]) && rounds == old(rounds) && emitted == old(emitted)
          && refused == old(refused)
        else New(s, turn, uuid, state) && Replaced(s, deferral)
    {
      hide Capturing, Recorded, FirstHundred, OneEach, Emits, Faithful, After;
      state := GetOrCreateForHook(s, turn, uuid, deferral);
      label begun:
      state.StartTool(explicit, tool, arguments, at);
      forall t ensures ActiveNamed(t) {
        assert old@begun(ActiveNamed(t));
      }
      forall r | r in rounds ensures RoundFiled(r) {
        assert old@begun(RoundFiled(r));
      }
    }

    /** `on_post_tool_call`. */
    method OnPostToolCall(s: string, turn: string, explicit: string, tool: string, status: string, output: Json,
                          error: Option<string>, at: string, uuid: string, deferral: Deferral)
      returns (state: ActiveRoundState)
      requires Valid() && uuid != ""
      modifies this, rounds
      ensures Valid() && s in activeRounds && activeRounds[s] == state && Elsewhere(s)
      ensures var before := if old(Serves(s, turn)) then old(activeRounds[s].CaptureOf()) else Capture([], map[]);
        state.CaptureOf() == After(state.roundId, before, ToolFinished(explicit, tool, status, output, error, at))
      ensures if old(Serves(s, turn)) then
          && state == old(activeRounds[s]) && rounds == old(rounds) && emitted == old(emitted)
          && refused == old(refused)
        else New(s, turn, uuid, state) && Replaced(s, deferral)
    {
      hide Capturing, Recorded, FirstHundred, OneEach, Emits, Faithful, After;
      state := GetOrCreateForHook(s, turn, uuid, deferral);
      label begun:
      state.FinishTool(explicit, tool, status, output, error, at);
      forall t ensures ActiveNamed(t) {
        assert old@begun(ActiveNamed(t));
      }
      forall r | r in rounds ensures RoundFiled(r) {
        assert old@begun(RoundFiled(r));
      }
    }

    /** `_begin_llm_round`. */
    method BeginLlmRound(s: string, turn: string, uuid: string, deferral: Deferral) returns (state: ActiveRoundState)
      requires Valid() && uuid != ""
      modifies this, rounds
      ensures Valid() && state.Open() && s in activeRounds && activeRounds[s] == state && Elsewhere(s)
      ensures state.sessionId == s && (state in old(rounds) || fresh(state)) && state in rounds && SameContext(s)
      ensures if s in old(activeRounds) && turn != "" && old(activeRounds[s].externalTurnId) == turn
        then
          && state == old(activeRounds[s]) && rounds == old(rounds) && emitted == old(emitted)
          && refused == old(refused)
          && state.CaptureOf() == old(activeRounds[s].CaptureOf()) && state.views == old(activeRounds[s].views)
        else Reopened(s, turn, uuid, deferral, state)
    {
      hide Capturing, Recorded, FirstHundred, OneEach, Emits, Faithful, Filed;
      if s in activeRounds {
        ActiveFacts(s);
      }
      var existing := GetActiveRound(s, "");
      if existing != null && turn != "" && existing.externalTurnId == turn {
        state := GetOrCreateActiveRound(s, turn, uuid, deferral);
        return;
      }
      state := ReplaceRound(s, turn, uuid, deferral);
    }

    method EnsureUser(state: ActiveRoundState, id: Option<string>, content: Json)
      requires Valid() && state in rounds && !state.completed && id != Some("")
      modifies state`capturedEvents
      ensures Valid() && HasUser(state.capturedEvents)
      ensures state.CaptureOf() == After(state.roundId, old(state.CaptureOf()), UserSeen(id, content))
    {
      hide Capturing, Recorded, FirstHundred, OneEach, Emits, Faithful, After, HasUser;
      assert RoundFiled(state) && ActiveNamed(state.sessionId);
      state.EnsureUserEvent(id, content);
      forall t ensures ActiveNamed(t) {
        assert old(ActiveNamed(t));
      }
      forall r | r in rounds ensures RoundFiled(r) {
        assert old(RoundFiled(r));
      }
    }

    method NotePrompt(state: ActiveRoundState, id: Option<string>, query: Json)
      requires Valid() && state in rounds && !state.completed && id != Some("")
      modifies state`capturedEvents
      ensures Valid()
      ensures state.CaptureOf()
           == if query == Null then old(state.CaptureOf())
              else After(state.roundId, old(state.CaptureOf()), UserSeen(id, query))
    {
      if query != Null {
        EnsureUser(state, id, query);
      }
    }

    method RecordContextRetrieval(state: ActiveRoundState, view: ContextView)
      requires Valid() && state in rounds && !state.completed && view.requestId != ""
      modifies state`retrievalRequestId, state`deliveredValueIds, state`views
      ensures Valid() && state.views == old(state.views) + [view]
    {
      hide Capturing, Recorded, FirstHundred, OneEach, Emits, Faithful;
      assert RoundFiled(state) && ActiveNamed(state.sessionId);
      NotAmongEmitted(emitted, state);
      state.RecordContext(view);
      forall t ensures ActiveNamed(t) {
        assert old(ActiveNamed(t));
      }
      forall r | r in rounds ensures RoundFiled(r) {
        assert old(RoundFiled(r));
      }
    }

    method CacheContext(s: string, key: string, view: ContextView)
      requires Valid() && s in sessionStates && view.requestId != ""
      modifies this`sessionStates
      ensures Valid()
      ensures sessionStates
           == old(sessionStates)[s := old(sessionStates[s]).(contextTurnKey := key, contextView := Some(view))]
    {
      hide Capturing, Recorded, FirstHundred, OneEach, Emits, Faithful;
      sessionStates := sessionStates[s := sessionStates[s].(contextTurnKey := key, contextView := Some(view))];
      forall t ensures ActiveNamed(t) {
        assert old(ActiveNamed(t));
      }
      forall r | r in rounds ensures RoundFiled(r) {
        assert old(RoundFiled(r));
      }
    }

    /** The context for this turn, when there is a prompt to ask with: cached under `key`, or
        retrieved and then cached. */
    method GiveContext(state: ActiveRoundState, asked: bool, key: string, retrieved: Option<ContextView>)
      returns (seen: Option<ContextView>)
      requires Valid() && state in rounds && !state.completed && state.sessionId in activeRounds
      requires retrieved.Some? ==> retrieved.value.requestId != ""
      modifies this`sessionStates, state`retrievalRequestId, state`deliveredValueIds, state`views
      ensures Valid() && state.views == old(state.views) + (if seen.Some? then [seen.value] else [])
      ensures sessionStates.Keys == old(sessionStates.Keys)
      ensures forall t :: t in sessionStates && t != state.sessionId ==> sessionStates[t] == old(sessionStates[t])
      ensures state.sessionId in old(sessionStates)
      ensures var session := old(sessionStates[state.sessionId]);
        var cached := Cached(session, asked, key);
        && seen == (if cached then session.contextView else if asked then retrieved else None)
        && sessionStates[state.sessionId]
           == if !cached && seen.Some? && key != "" then session.(contextTurnKey := key, contextView := seen)
              else session
    {
      hide Capturing, Recorded, FirstHundred, OneEach, Emits, Faithful, Filed;
      seen := None;
      SessionKnown(state.sessionId);
      if !asked {
        return;
      }
      var session := sessionStates[state.sessionId];
      if key != "" && session.contextTurnKey == key && session.contextView.Some? {
        seen := session.contextView;
        RecordContextRetrieval(state, session.contextView.value);
      } else if retrieved.Some? {
        seen := retrieved;
        RecordContextRetrieval(state, retrieved.value);
        if key != "" {
          CacheContext(state.sessionId, key, retrieved.value);
        }
      }
    }

    /** The first half of `on_pre_llm_call`: the round is begun and the user message noted. */
    method BeginPrompt(s: string, turn: string, id: Option<string>, query: Json, uuid: string, deferral: Deferral)
      returns (state: ActiveRoundState)
      requires Valid() && uuid != "" && id != Some("")
      modifies this, rounds
      ensures Valid() && s in activeRounds && activeRounds[s] == state && Elsewhere(s)
      ensures state in rounds && state.sessionId == s && !state.completed && (state in old(rounds) || fresh(state))
      ensures SameContext(s)
      ensures var kept := s in old(activeRounds) && turn != "" && old(activeRounds[s].externalTurnId) == turn;
        var before := if kept then old(activeRounds[s].CaptureOf()) else Capture([], map[]);
        && state.CaptureOf() == (if query == Null then before else After(state.roundId, before, UserSeen(id, query)))
        && state.views == (if kept then old(activeRounds[s].views) else [])
      ensures if s in old(activeRounds) && turn != "" && old(activeRounds[s].externalTurnId) == turn
        then
          && state == old(activeRounds[s]) && rounds == old(rounds) && emitted == old(emitted)
          && refused == old(refused)
        else New(s, turn, uuid, state) && Replaced(s, deferral)
    {
      hide Capturing, Recorded, FirstHundred, OneEach, Emits, Faithful, After, HasUser, Filed;
      state := BeginLlmRound(s, turn, uuid, deferral);
      NotePrompt(state, id, query);
    }

    /** `on_pre_llm_call`: begins the round, notes the user message, and records the context that
        was cached for this turn or retrieved now. Returns the context to inject. */
    method OnPreLlmCall(s: string, turn: string, ids: HostIds, query: Json, historyUsers: nat,
                        retrieved: Option<ContextView>, uuid: string, deferral: Deferral)
      returns (state: ActiveRoundState, context: Option<string>, seen: Option<ContextView>)
      requires Valid() && uuid != "" && UserIdOf(ids) != Some("")
      requires (retrieved.Some? ==> retrieved.value.requestId != "")
      modifies this, rounds
      ensures Valid() && s in activeRounds && activeRounds[s] == state && Elsewhere(s)
      ensures var kept := s in old(activeRounds) && turn != "" && old(activeRounds[s].externalTurnId) == turn;
        var before := if kept then old(activeRounds[s].CaptureOf()) else Capture([], map[]);
        var views := if kept then old(activeRounds[s].views) else [];
        && state.CaptureOf() == (if query == Null then before
                                 else After(state.roundId, before,
                                            UserSeen(if ids.user.Some? then ids.user else ids.message, query)))
        && state.views == views + (if seen.Some? then [seen.value] else [])
      ensures if s in old(activeRounds) && turn != "" && old(activeRounds[s].externalTurnId) == turn
        then
          && state == old(activeRounds[s]) && rounds == old(rounds) && emitted == old(emitted)
          && refused == old(refused)
        else New(s, turn, uuid, state) && Replaced(s, deferral)
      ensures context == if seen.Some? && seen.value.formatted != "" then Some(seen.value.formatted) else None
      ensures var session := if s in old(sessionStates) then old(sessionStates[s]) else NEW_SESSION;
        var asked, key := query.Str? && query.s != "", ContextTurnKey(turn, ids.user, historyUsers);
        var cached := Cached(session, asked, key);
        && seen == (if cached then session.contextView else if asked then retrieved else None)
        && s in sessionStates
        && var stored := !cached && seen.Some? && key != "";
           && sessionStates[s].contextTurnKey == (if stored then key else session.contextTurnKey)
           && sessionStates[s].contextView == (if stored then seen else session.contextView)
    {
      hide Capturing, Recorded, FirstHundred, OneEach, Emits, Faithful, After, HasUser, Filed, ContextTurnKey,
           Deferred, Refers, IdLists, Valid, ActiveRoundState.Open, ActiveRoundState.CaptureOf;
      var user := UserIdOf(ids);
      assert user == if ids.user.Some? then ids.user else ids.message;
      hide UserIdOf, First, Cached;
      state := BeginPrompt(s, turn, user, query, uuid, deferral);
      seen := GiveContext(state, query.Str? && query.s != "", ContextTurnKey(turn, ids.user, historyUsers), retrieved);
      context := if seen.Some? && seen.value.formatted != "" then Some(seen.value.formatted) else None;
    }

    /** `capture_or_defer`, and the fallback of its caller when it raises: unfinished rounds are
        deferred, finished ones are built, validated and made ready. Returns what was written. */
    method CaptureOrDefer(spec: RoundSpec, events: seq<Fields>, pending: Fields, answers: SpoolAnswers)
      returns (outcome: Option<Queue>, record: Fields)
      ensures var built := Build(config.lib, spec, events, config.render);
        var acceptable := built.Some? && Accepts(config.lib, built.value);
        && (outcome == Some(ReadyQueue) <==> HasFinal(events) && acceptable && answers.capture)
        && (outcome == None <==> !answers.fallback && (answers.capture ==> HasFinal(events) && !acceptable))
        && (outcome == Some(ReadyQueue) ==> record == built.value)
        && (outcome == Some(PendingQueue) ==> record == pending)
    {
      hide HasFinal, Build, Accepts;
      record := pending;
      if !HasFinal(events) {
        if answers.capture {
          return Some(PendingQueue), pending;
        }
      } else {
        var built := Build(config.lib, spec, events, config.render);
        if built.Some? && Accepts(config.lib, built.value) && answers.capture {
          return Some(ReadyQueue), built.value;
        }
      }
      outcome := if answers.fallback then Some(PendingQueue) else None;
    }

    /** The first half of `on_post_llm_call`: user message and answer are in the round. */
    method NoteReply(s: string, turn: string, ids: HostIds, user: Json, reply: string, uuid: string,
                     deferral: Deferral)
      returns (state: ActiveRoundState, ghost c: Capture)
      requires Valid() && uuid != "" && UserIdOf(ids) != Some("")
      modifies this, rounds
      ensures Filed() && (forall r :: r in rounds && r != state ==> r.Tracked()) && Elsewhere(s)
      ensures state in rounds && !state.completed && state.sessionId == s && (state in old(rounds) || fresh(state))
      ensures if old(Serves(s, turn)) then
          state == old(activeRounds[s]) && rounds == old(rounds) && refused == old(refused)
        else New(s, turn, uuid, state) && Replaced(s, deferral)
      ensures old(Serves(s, turn)) ==> emitted == old(emitted)
      ensures Capturing(state.roundId, c) && HasUser(c.events)
      ensures var before := if old(Serves(s, turn)) then old(activeRounds[s].CaptureOf()) else Capture([], map[]);
        c == After(state.roundId, before, UserSeen(UserIdOf(ids), user))
      ensures state.capturedEvents
           == if reply == "" then c.events
              else AppendAssistant(c.events, AssistantEventId(state.roundId, AssistantIdOf(ids)), reply)
    {
      hide Capturing, Recorded, FirstHundred, OneEach, Emits, Faithful, After, HasUser, Filed, AppendAssistant;
      state := GetOrCreateForHook(s, turn, uuid, deferral);
      EnsureUser(state, UserIdOf(ids), user);
      c := state.CaptureOf();
      if reply != "" {
        Answer(state, AssistantIdOf(ids), reply);
      }
    }

    /** The second half: the round is handed to capture and closed in any case. */
    method DeliverReply(state: ActiveRoundState, ghost c: Capture, id: string, reply: string, at: string,
                        answers: SpoolAnswers)
      returns (outcome: Option<Queue>)
      requires Filed() && (forall r :: r in rounds && r != state ==> r.Tracked())
      requires state in rounds && !state.completed && id != ""
      requires Capturing(state.roundId, c) && HasUser(c.events)
      requires state.capturedEvents == if reply == "" then c.events else AppendAssistant(c.events, id, reply)
      modifies this`activeRounds, this`sessionStates, this`emitted, this`refused
      modifies state`completed, state`retrievalRequestId, state`deliveredValueIds
      ensures Valid() && state.completed && state.sessionId !in activeRounds && Elsewhere(state.sessionId)
      ensures old(emitted) <= emitted && |emitted| == |old(emitted)| + if outcome.Some? then 1 else 0
      ensures old(refused) <= refused && rounds == old(rounds)
      ensures reply == "" ==> outcome != Some(ReadyQueue)
      ensures reply != "" && AllClean(c.events) ==>
        (outcome == Some(ReadyQueue)
         <==> answers.capture && DistinctIds(Marks(c.events)) && !UsesId(Marks(c.events), id))
      ensures reply != "" && TellsNullsApart(config.lib) ==>
        (outcome == Some(ReadyQueue)
         <==> answers.capture && AllClean(c.events) && DistinctIds(Marks(c.events)) && !UsesId(Marks(c.events), id))
      ensures answers.fallback ==> outcome.Some? && refused == old(refused)
      ensures outcome.Some? ==>
        |emitted| > 0 && Delivered(emitted[|emitted| - 1], state, outcome.value, at) && state !in refused
      ensures outcome.None? ==> state in refused
    {
      hide Capturing, Recorded, FirstHundred, OneEach, Emits, Faithful, After, HasUser, Filed, HasFinal, Build, Accepts,
           AppendAssistant, DistinctIds, UsesId, AllClean, SpecFor, TellsNullsApart, DeferralFor;
      var events := state.capturedEvents;
      var spec := SpecFor(config, state, at);
      var pending := DeferralFor(state, at, Some(events));
      OpenFacts(state);
      CaptureOutcome(config, spec, state.roundId, c, id, reply, events);
      RequestIsFaithful(config, state, at, events);
      DeferralIsFaithful(config, state, at, Some(events), events);
      var record;
      outcome, record := CaptureOrDefer(spec, events, pending, answers);
      ghost var e := if outcome.Some? then [Emission(state, outcome.value, events, at, record)] else [];
      assert outcome == Some(ReadyQueue) ==> Faithful(config, Emission(state, ReadyQueue, events, at, record));
      assert outcome == Some(PendingQueue) ==> Faithful(config, Emission(state, PendingQueue, events, at, record));
      assert outcome.Some? ==> outcome.value == ReadyQueue || outcome.value == PendingQueue;
      Complete(state, e);
    }

    /** `on_post_llm_call`: notes the user message and the answer, hands the round to capture,
        falls back to the pending queue, and closes the round in any case. `reply` is the
        answer's text, empty when there is none. */
    method OnPostLlmCall(s: string, turn: string, ids: HostIds, user: Json, reply: string, at: string, uuid: string,
                         answers: SpoolAnswers) returns (state: ActiveRoundState, outcome: Option<Queue>)
      requires Valid() && uuid != "" && UserIdOf(ids) != Some("") && AssistantIdOf(ids) != Some("")
      modifies this, rounds
      ensures Valid() && state.completed && s !in activeRounds && Elsewhere(s)
      ensures if old(Serves(s, turn)) then state == old(activeRounds[s]) && rounds == old(rounds)
        else fresh(state) && rounds == old(rounds) + {state} && state.roundId == (if turn != "" then turn else uuid)
      ensures old(emitted) <= emitted && old(refused) <= refused
      ensures old(Serves(s, turn)) || s !in old(activeRounds) ==>
        |emitted| == |old(emitted)| + if outcome.Some? then 1 else 0
      ensures answers.deferral.accepted && answers.fallback ==> refused == old(refused)
      ensures var before := if old(Serves(s, turn)) then old(activeRounds[s].CaptureOf()) else Capture([], map[]);
        var c := After(state.roundId, before, UserSeen(if ids.user.Some? then ids.user else ids.message, user));
        var id := if ids.assistant.Some? then ids.assistant.value
                  else if ids.message.Some? then ids.message.value else state.roundId + ":assistant";
        && state.capturedEvents == (if reply == "" then c.events else AppendAssistant(c.events, id, reply))
        && (reply == "" ==> outcome != Some(ReadyQueue))
        && (reply != "" && AllClean(c.events) ==>
              (outcome == Some(ReadyQueue)
               <==> answers.capture && DistinctIds(Marks(c.events)) && !UsesId(Marks(c.events), id)))
        && (reply != "" && TellsNullsApart(config.lib) ==>
              (outcome == Some(ReadyQueue)
               <==> && answers.capture && AllClean(c.events)
                    && DistinctIds(Marks(c.events)) && !UsesId(Marks(c.events), id)))
        && (answers.fallback ==> outcome.Some?)
      ensures outcome.Some? ==>
        |emitted| > 0 && Delivered(emitted[|emitted| - 1], state, outcome.value, at) && state !in refused
      ensures outcome.None? ==> state in refused
    {
      hide Capturing, Recorded, FirstHundred, OneEach, Emits, Faithful, After, HasUser, Filed, AppendAssistant,
           DistinctIds, UsesId, AllClean, TellsNullsApart;
      ghost var c;
      state, c := NoteReply(s, turn, ids, user, reply, uuid, answers.deferral);
      assert |state.roundId + ":assistant"| > 0;
      outcome := DeliverReply(state, c, AssistantEventId(state.roundId, AssistantIdOf(ids)), reply, at, answers);
    }

    /** The answer goes in; from here on the round is no longer open to hooks. */
    method Answer(state: ActiveRoundState, id: Option<string>, reply: string)
      requires Valid() && state in rounds && !state.completed
      modifies state`capturedEvents
      ensures Filed() && forall r :: r in rounds && r != state ==> r.Tracked()
      ensures state.capturedEvents
           == AppendAssistant(old(state.capturedEvents), AssistantEventId(state.roundId, id), reply)
    {
      hide Capturing, Recorded, FirstHundred, OneEach, Emits, Faithful, AppendAssistant;
      state.AppendAssistantEvent(id, reply);
      forall t ensures ActiveNamed(t) {
        assert old(ActiveNamed(t));
      }
      forall r | r in rounds ensures RoundFiled(r) {
        assert old(RoundFiled(r));
      }
    }

    /** `finish_session`: an open round is deferred, and the session is forgotten. */
    method FinishSession(s: string, deferral: Deferral)
      requires Valid()
      modifies this, rounds
      ensures Valid() && s !in activeRounds && s !in sessionStates && rounds == old(rounds) && Elsewhere(s)
      ensures Replaced(s, deferral)
    {
      hide Capturing, Recorded, FirstHundred, OneEach, Emits, Faithful, Deferred, Refers, IdLists, Filed, Valid;
      DeferActive(s, deferral);
      ForgetSession(s);
    }

    method ForgetSession(s: string)
      requires Valid() && s !in activeRounds
      modifies this`sessionStates
      ensures Valid() && sessionStates == old(sessionStates) - {s}
    {
      hide Capturing, Recorded, FirstHundred, OneEach, Emits, Faithful;
      sessionStates := sessionStates - {s};
      forall t ensures ActiveNamed(t) {
        assert old(ActiveNamed(t));
      }
      forall r | r in rounds ensures RoundFiled(r) {
        assert old(RoundFiled(r));
      }
    }

    lemma {:induction false} ActiveFacts(s: string)
      requires Filed() && s in activeRounds
      ensures activeRounds[s] in rounds && activeRounds[s].sessionId == s && activeRounds[s].Open()
    {
      assert ActiveNamed(s);
    }

    lemma {:induction false} OpenFacts(state: ActiveRoundState)
      requires Filed() && state in rounds && !state.completed
      ensures state !in refused && state.Open()
    {
      assert RoundFiled(state) && ActiveNamed(state.sessionId);
    }

    lemma {:induction false} SessionKnown(s: string)
      requires Filed() && s in activeRounds
      ensures s in sessionStates
      ensures sessionStates[s].contextView.Some? ==> sessionStates[s].contextView.value.requestId != ""
    {
      assert ActiveNamed(s);
    }
  }

  predicate Delivered(e: Emission, state: ActiveRoundState, queue: Queue, at: string)
    reads state
  {
    e.round == state && e.queue == queue && e.events == state.capturedEvents && e.at == at
  }

  /** What the spool took for a deferred round. */
  function Deferred(state: ActiveRoundState, deferral: Deferral): seq<Emission>
    reads state
  {
    if deferral.accepted then
      [Emission(state, PendingQueue, [], deferral.at, DeferralFor(state, deferral.at, None))]
    else []
  }

  /** What decides where a closed round goes. */
  lemma {:induction false} CaptureOutcome(config: Config, spec: RoundSpec, r: string, c: Capture, id: string,
                                          reply: string, events: seq<Fields>)
    requires Capturing(r, c) && HasUser(c.events) && spec.roundId == r && id != ""
    requires events == if reply == "" then c.events else AppendAssistant(c.events, id, reply)
    ensures events != []
    ensures HasFinal(events) <==> reply != ""
    ensures reply != "" && AllClean(c.events) ==>
      (Accepts(config.lib, Build(config.lib, spec, events, config.render).value)
       <==> DistinctIds(Marks(c.events)) && !UsesId(Marks(c.events), id))
    ensures reply != "" && TellsNullsApart(config.lib) ==>
      (Accepts(config.lib, Build(config.lib, spec, events, config.render).value)
       <==> AllClean(c.events) && DistinctIds(Marks(c.events)) && !UsesId(Marks(c.events), id))
  {
    hide Capturing, HasFinal, Build, Accepts, DistinctIds, UsesId, AllClean, IndexOfId, TellsNullsApart;
    NoFinalYet(r, c);
    FinalIsThere(c.events, id, reply);
    if reply != "" && AllClean(c.events) {
      ReplyAcceptedIff(config.lib, spec, c, id, reply, config.render);
    }
    if reply != "" && TellsNullsApart(config.lib) {
      ReplyAcceptedExactly(config.lib, spec, c, id, reply, config.render);
    }
  }

  lemma {:induction false} NoFinalYet(r: string, c: Capture)
    requires Capturing(r, c)
    ensures !HasFinal(c.events)
  {
    forall i | 0 <= i < |c.events| ensures !Truthy(Get(c.events[i], "final")) {
      assert Shaped(c.events[i]);
      assert Marks(c.events)[i] == MarkOf(c.events[i]);
    }
  }

  lemma {:induction false} FinalIsThere(events: seq<Fields>, id: string, content: string)
    ensures HasFinal(AppendAssistant(events, id, content))
  {
    hide IndexOfId;
    var k := IndexOfId(events, id);
    var after := AppendAssistant(events, id, content);
    assert Get(after[k], "final") == Bool(true);
  }

  lemma {:induction false} NotAmongEmitted(emitted: seq<Emission>, r: ActiveRoundState)
    requires !Emits(emitted, r)
    ensures forall x :: x in emitted ==> x.round != r
  {
  }

  lemma {:induction false} NothingRecorded()
    ensures Recorded([]) == []
  {
  }
}
