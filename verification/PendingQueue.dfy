/** The pending directory read as a queue: which captures are due, and in what order
    `pop_pending` hands them out. */
module PendingQueue {
  import opened Options
  import opened StringOrder
  import opened JsonValue
  import opened Disks

  datatype Entry = Entry(at: real, name: string, payload: Fields)

  /** Sort key (next_attempt_at, file name). */
  predicate Before(a: Entry, b: Entry) {
    a.at < b.at || (a.at == b.at && Less(a.name, b.name))
  }

  lemma {:induction false} BeforeTransitive(a: Entry, b: Entry, c: Entry)
    requires Before(a, b) && Before(b, c)
    ensures Before(a, c)
  {
    if a.at == b.at == c.at {
      LeqTransitive(a.name, b.name, c.name);
      if a.name == c.name {
        LeqAntisymmetric(a.name, b.name);
      }
    }
  }

  lemma {:induction false} BeforeTotal(a: Entry, b: Entry)
    requires a.name != b.name
    ensures Before(a, b) || Before(b, a)
    ensures !(Before(a, b) && Before(b, a))
  {
    LeqTotal(a.name, b.name);
    if Leq(a.name, b.name) && Leq(b.name, a.name) {
      LeqAntisymmetric(a.name, b.name);
    }
  }

  ghost predicate InOrder(es: seq<Entry>) {
    forall i, j :: 0 <= i < j < |es| ==> Before(es[i], es[j])
  }

  function Insert(e: Entry, es: seq<Entry>): seq<Entry> {
    if es == [] then [e]
    else if Before(e, es[0]) then [e] + es
    else [es[0]] + Insert(e, es[1..])
  }

  function SortEntries(es: seq<Entry>): seq<Entry> {
    if es == [] then [] else Insert(es[0], SortEntries(es[1..]))
  }

  lemma {:induction false} InsertMembers(e: Entry, es: seq<Entry>)
    ensures forall x :: x in Insert(e, es) <==> x == e || x in es
  {
    if es != [] && !Before(e, es[0]) {
      InsertMembers(e, es[1..]);
      assert forall x :: x in es <==> x == es[0] || x in es[1..];
    }
  }

  lemma {:induction false} SortMembers(es: seq<Entry>)
    ensures forall x :: x in SortEntries(es) <==> x in es
  {
    if es != [] {
      SortMembers(es[1..]);
      InsertMembers(es[0], SortEntries(es[1..]));
      assert forall x :: x in es <==> x == es[0] || x in es[1..];
    }
  }

  lemma {:induction false} InsertInOrder(e: Entry, es: seq<Entry>)
    requires InOrder(es) && forall x :: x in es ==> x.name != e.name
    ensures InOrder(Insert(e, es))
  {
    if es != [] {
      if Before(e, es[0]) {
        forall j | 0 < j < |es| ensures Before(e, es[j]) {
          BeforeTransitive(e, es[0], es[j]);
        }
      } else {
        BeforeTotal(e, es[0]);
        var tail := es[1..];
        InsertInOrder(e, tail);
        InsertMembers(e, tail);
        var rest := Insert(e, tail);
        forall j | 0 <= j < |rest| ensures Before(es[0], rest[j]) {
          assert rest[j] in rest;
          if rest[j] != e {
            var k :| 0 <= k < |tail| && tail[k] == rest[j];
            assert Before(es[0], es[k + 1]);
          }
        }
      }
    }
  }

  predicate NamesDistinct(es: seq<Entry>) {
    forall i, j :: 0 <= i < j < |es| ==> es[i].name != es[j].name
  }

  lemma {:induction false} SortInOrder(es: seq<Entry>)
    requires NamesDistinct(es)
    ensures InOrder(SortEntries(es))
  {
    if es != [] {
      SortInOrder(es[1..]);
      SortMembers(es[1..]);
      InsertInOrder(es[0], SortEntries(es[1..]));
    }
  }

  /** Two lists in order with the same members are the same list. */
  lemma {:induction false} OrderUnique(a: seq<Entry>, b: seq<Entry>)
    requires InOrder(a) && InOrder(b) && forall x :: x in a <==> x in b
    ensures a == b
  {
    assert |b| > 0 ==> b[0] in a;
    if a != [] {
      assert a[0] in b;
      HeadIsFirst(a, b);
      HeadIsFirst(b, a);
      if a[0] != b[0] {
        BeforeTransitive(a[0], b[0], a[0]);
        assert false;
      }
      forall x | x in a[1..] ensures x in b[1..] {
        TailMember(a, b, x);
      }
      forall x | x in b[1..] ensures x in a[1..] {
        TailMember(b, a, x);
      }
      OrderUnique(a[1..], b[1..]);
      assert a == [a[0]] + a[1..] && b == [b[0]] + b[1..];
    }
  }

  lemma {:induction false} HeadIsFirst(a: seq<Entry>, b: seq<Entry>)
    requires a != [] && b != [] && InOrder(b) && a[0] in b
    ensures a[0] == b[0] || Before(b[0], a[0])
  {
    var k :| 0 <= k < |b| && b[k] == a[0];
  }

  lemma {:induction false} TailMember(a: seq<Entry>, b: seq<Entry>, x: Entry)
    requires InOrder(a) && a != [] && b != [] && a[0] == b[0] && x in a[1..] && x in b
    ensures x in b[1..]
  {
    var k :| 0 < k < |a| && a[k] == x;
    assert Before(a[0], x);
    assert !Before(x, x);
  }

  // ------------------------------------------------------------------------ due captures

  /** When a capture is next due; anything that is not a number counts as zero. */
  function NextAt(o: Fields, parse: string -> Option<real>): real {
    var at := ToFloat(if "next_attempt_at" in DeliveryOf(o) then DeliveryOf(o)["next_attempt_at"] else Num(0.0), parse);
    if at.Some? then at.value else 0.0
  }

  predicate IsDue(d: Disk, name: string, now: real, parse: string -> Option<real>) {
    var p := Path(Pending, name);
    p in d && IsObject(d[p]) && NextAt(d[p].value.fields, parse) <= now
  }

  function EntryOf(d: Disk, name: string, parse: string -> Option<real>): Entry
    requires Path(Pending, name) in d && IsObject(d[Path(Pending, name)])
  {
    var o := d[Path(Pending, name)].value.fields;
    Entry(NextAt(o, parse), name, o)
  }

  /** `es` lists exactly the due captures, earliest first. */
  ghost predicate IsDueList(d: Disk, now: real, parse: string -> Option<real>, es: seq<Entry>) {
    && InOrder(es)
    && (forall e :: e in es ==> IsDue(d, e.name, now, parse) && e == EntryOf(d, e.name, parse))
    && (forall name :: IsDue(d, name, now, parse) ==> EntryOf(d, name, parse) in es)
  }

  lemma {:induction false} DueListUnique(d: Disk, now: real, parse: string -> Option<real>, a: seq<Entry>,
                                         b: seq<Entry>)
    requires IsDueList(d, now, parse, a) && IsDueList(d, now, parse, b)
    ensures a == b
  {
    forall x | x in a ensures x in b {
      assert IsDue(d, x.name, now, parse);
    }
    forall x | x in b ensures x in a {
      assert IsDue(d, x.name, now, parse);
    }
    OrderUnique(a, b);
  }
}
