/** The ids of delivered context items: merged over the views of one round, without repeats,
    at most a hundred. */
module ContextIds {

  const MAX_CONTEXT_IDS := 100

  /** First occurrences, in order. */
  function Dedup(ids: seq<string>): (r: seq<string>)
    ensures forall x :: x in r <==> x in ids
    ensures forall i, j :: 0 <= i < j < |r| ==> r[i] != r[j]
  {
    if ids == [] then []
    else
      var before := Dedup(ids[..|ids| - 1]);
      var last := ids[|ids| - 1];
      assert ids == ids[..|ids| - 1] + [last];
      if last in before then before else before + [last]
  }

  /** The part of a list a round keeps. */
  function FirstHundred(ids: seq<string>): seq<string> {
    if |ids| <= MAX_CONTEXT_IDS then ids else ids[..MAX_CONTEXT_IDS]
  }

  function MergeOne(known: seq<string>, id: string): seq<string> {
    if id in known || |known| >= MAX_CONTEXT_IDS then known else known + [id]
  }

  function Merge(known: seq<string>, ids: seq<string>): seq<string> {
    if ids == [] then known else MergeOne(Merge(known, ids[..|ids| - 1]), ids[|ids| - 1])
  }

  function Concat(views: seq<seq<string>>): seq<string> {
    if views == [] then [] else Concat(views[..|views| - 1]) + views[|views| - 1]
  }

  /** What a round has recorded after these views. */
  function Recorded(views: seq<seq<string>>): seq<string> {
    if views == [] then [] else Merge(Recorded(views[..|views| - 1]), views[|views| - 1])
  }

  lemma {:induction false} MergeOneIsDedup(ids: seq<string>, id: string)
    ensures MergeOne(FirstHundred(Dedup(ids)), id) == FirstHundred(Dedup(ids + [id]))
  {
    assert (ids + [id])[..|ids|] == ids;
  }

  lemma {:induction false} MergeIsDedup(seen: seq<string>, ids: seq<string>)
    ensures Merge(FirstHundred(Dedup(seen)), ids) == FirstHundred(Dedup(seen + ids))
    decreases |ids|
  {
    hide Dedup, FirstHundred, MergeOne;
    if ids == [] {
      assert seen + ids == seen;
    } else {
      var before, last := ids[..|ids| - 1], ids[|ids| - 1];
      MergeIsDedup(seen, before);
      MergeOneIsDedup(seen + before, last);
      assert seen + ids == seen + before + [last];
    }
  }

  /** A round's references are the first hundred distinct ids over all its views, in the order
      they first appeared. */
  lemma {:induction false} RecordedIsDedup(views: seq<seq<string>>)
    ensures Recorded(views) == FirstHundred(Dedup(Concat(views)))
    decreases |views|
  {
    if views != [] {
      RecordedIsDedup(views[..|views| - 1]);
      MergeIsDedup(Concat(views[..|views| - 1]), views[|views| - 1]);
    }
  }

  lemma {:induction false} RecordedIsShort(views: seq<seq<string>>)
    ensures FirstHundred(Recorded(views)) == Recorded(views)
  {
    RecordedIsDedup(views);
  }
}
