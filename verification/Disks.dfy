/** The four spool directories as one map from path to file, and the file primitives that
    change it. A crash can fall between any two primitives, never inside one: a write goes to
    a temporary name and is renamed into place. */
module Disks {
  import opened JsonValue

  datatype Dir = Pending | Ready | Inflight | Failed

  datatype Path = Path(dir: Dir, name: string)

  /** What a `*.json` file holds: bytes that do not parse, or a JSON value. */
  datatype File = Garbage(bytes: nat) | Doc(value: Json)

  type Disk = map<Path, File>

  datatype Prim =
    | Put(path: Path, file: File)
    | Rename(from: Path, to: Path)
    | Unlink(path: Path)

  function Apply(d: Disk, p: Prim): Disk {
    match p
    case Put(path, file) => d[path := file]
    case Rename(from, to) => if from in d && from != to then d[to := d[from]] - {from} else d
    case Unlink(path) => d - {path}
  }

  function Run(d: Disk, ps: seq<Prim>): Disk
    decreases |ps|
  {
    if ps == [] then d else Run(Apply(d, ps[0]), ps[1..])
  }

  /** The disk after each primitive in turn: the states a crash can leave behind. */
  function States(d: Disk, ps: seq<Prim>): (r: seq<Disk>)
    ensures |r| == |ps|
    decreases |ps|
  {
    if ps == [] then [] else [Apply(d, ps[0])] + States(Apply(d, ps[0]), ps[1..])
  }

  lemma {:induction false} RunNothing(d: Disk)
    ensures Run(d, []) == d && States(d, []) == []
  {
  }

  lemma {:induction false} RunOne(d: Disk, p: Prim)
    ensures Run(d, [p]) == Apply(d, p) && States(d, [p]) == [Apply(d, p)]
  {
  }

  lemma {:induction false} RunConcat(d: Disk, a: seq<Prim>, b: seq<Prim>)
    ensures Run(d, a + b) == Run(Run(d, a), b)
    ensures States(d, a + b) == States(d, a) + States(Run(d, a), b)
    decreases |a|
  {
    if a == [] {
      assert a + b == b;
    } else {
      assert (a + b)[1..] == a[1..] + b;
      RunConcat(Apply(d, a[0]), a[1..], b);
    }
  }

  lemma {:induction false} MoveStates(d: Disk, src: Path, dest: Path, f: File)
    ensures Run(d, [Put(dest, f), Unlink(src)]) == d[dest := f] - {src}
    ensures States(d, [Put(dest, f), Unlink(src)]) == [d[dest := f], d[dest := f] - {src}]
  {
    var d1 := Apply(d, Put(dest, f));
    assert [Put(dest, f), Unlink(src)][1..] == [Unlink(src)];
    assert Run(d1, [Unlink(src)]) == Run(Apply(d1, Unlink(src)), []);
    assert States(d1, [Unlink(src)]) == [Apply(d1, Unlink(src))] + States(Apply(d1, Unlink(src)), []);
  }

  predicate IsObject(f: File) {
    f.Doc? && f.value.Obj?
  }

  /** The member `delivery`, when it is an object. */
  function DeliveryOf(o: Fields): Fields {
    if Get(o, "delivery").Obj? then Get(o, "delivery").fields else map[]
  }

  predicate HasDelivery(o: Fields) {
    Get(o, "delivery").Obj?
  }
}
