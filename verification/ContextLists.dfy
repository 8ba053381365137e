/** The context references of rounds as the list objects they are: recorded by appending in
    place, copied into what is enqueued, and cleared in place. What each step makes of a list's
    contents is said with the functions of `ContextIds`, which the runtime uses on values. */
module ContextLists {
  import opened ContextIds

  /** A list that is shared by whoever holds it. */
  class IdList {
    var items: seq<string>

    constructor (items: seq<string>)
      ensures this.items == items
    {
      this.items := items;
    }

    method Append(id: string)
      modifies this
      ensures items == old(items) + [id]
    {
      items := items + [id];
    }

    method Clear()
      modifies this
      ensures items == []
    {
      items := [];
    }
  }

  class RoundContext {
    const delivered: IdList
    var retrievalRequestId: string

    constructor ()
      ensures fresh(delivered) && delivered.items == [] && retrievalRequestId == ""
    {
      delivered := new IdList([]);
      retrievalRequestId := "";
    }

    /** `_record_context_retrieval`, with its set of known ids. */
    method Record(requestId: string, ids: seq<string>)
      modifies this, delivered
      ensures retrievalRequestId == requestId && delivered.items == Merge(old(delivered.items), ids)
    {
      retrievalRequestId := requestId;
      var known := set x | x in delivered.items;
      for i := 0 to |ids|
        invariant delivered.items == Merge(old(delivered.items), ids[..i])
        invariant forall x :: x in known <==> x in delivered.items
        invariant retrievalRequestId == requestId
      {
        assert ids[..i + 1][..i] == ids[..i];
        if ids[i] !in known && |delivered.items| < MAX_CONTEXT_IDS {
          delivered.Append(ids[i]);
          known := known + {ids[i]};
        }
      }
      assert ids[..|ids|] == ids;
    }

    /** The list that goes with an enqueued round: a new one. */
    method Extension() returns (copy: IdList?)
      ensures copy == null <==> retrievalRequestId == ""
      ensures copy != null ==> fresh(copy) && copy.items == FirstHundred(delivered.items)
    {
      if retrievalRequestId == "" {
        return null;
      }
      copy := new IdList(FirstHundred(delivered.items));
    }

    /** `_clear_context_refs`. */
    method ClearRefs()
      modifies this, delivered
      ensures retrievalRequestId == "" && delivered.items == []
    {
      retrievalRequestId := "";
      delivered.Clear();
    }
  }

  function Lists(rounds: seq<RoundContext>): set<IdList> {
    set i | 0 <= i < |rounds| :: rounds[i].delivered
  }

  /** Each round has a list of its own. */
  ghost predicate OwnLists(rounds: seq<RoundContext>) {
    forall i, j :: 0 <= i < j < |rounds| ==> rounds[i] != rounds[j] && rounds[i].delivered != rounds[j].delivered
  }

  /** Rounds are closed one after the other, each copied first and then cleared: every copy keeps
      the ids its own round had, whatever is cleared after it, and every round's list is empty. */
  method CloseAll(rounds: seq<RoundContext>) returns (copies: seq<IdList?>)
    requires OwnLists(rounds)
    modifies rounds, Lists(rounds)
    ensures |copies| == |rounds|
    ensures forall i :: 0 <= i < |rounds| ==> rounds[i].retrievalRequestId == "" && rounds[i].delivered.items == []
    ensures forall i :: 0 <= i < |rounds| ==> (copies[i] == null <==> old(rounds[i].retrievalRequestId) == "")
    ensures forall i :: 0 <= i < |rounds| && copies[i] != null ==>
      fresh(copies[i]) && copies[i].items == FirstHundred(old(rounds[i].delivered.items))
  {
    copies := [];
    for i := 0 to |rounds|
      invariant |copies| == i
      invariant forall k :: 0 <= k < i ==> rounds[k].retrievalRequestId == "" && rounds[k].delivered.items == []
      invariant forall k :: i <= k < |rounds| ==> unchanged(rounds[k]) && unchanged(rounds[k].delivered)
      invariant forall k :: 0 <= k < i ==> (copies[k] == null <==> old(rounds[k].retrievalRequestId) == "")
      invariant forall k :: 0 <= k < i && copies[k] != null ==>
        fresh(copies[k]) && copies[k].items == FirstHundred(old(rounds[k].delivered.items))
    {
      var copy := rounds[i].Extension();
      rounds[i].ClearRefs();
      copies := copies + [copy];
    }
  }
}
