/** Relations between the members of records, and between the files of two disks, in terms of
    the members themselves: what the results about whole operations are stated in. */
module Members {
  import opened Options
  import opened JsonValue
  import opened Disks

  /** Alike in every member but these. */
  ghost predicate AlikeBut(a: Fields, b: Fields, keys: set<string>) {
    forall k :: k !in keys ==> (k in a <==> k in b) && (k in a ==> a[k] == b[k])
  }

  /** `r` is `o` with a delivery part that differs in these members alone. */
  ghost predicate Redelivered(o: Fields, r: Fields, keys: set<string>) {
    && AlikeBut(o, r, {"delivery"}) && "delivery" in r && r["delivery"].Obj?
    && AlikeBut(if "delivery" in o && o["delivery"].Obj? then o["delivery"].fields else map[],
                r["delivery"].fields, keys)
  }

  /** The delivery part holds `key`, and Python's `float` reads it as `t`. */
  ghost predicate Reads(o: Fields, key: string, t: real, parse: string -> Option<real>) {
    && "delivery" in o && o["delivery"].Obj? && key in o["delivery"].fields
    && match o["delivery"].fields[key] {
         case Num(v) => t == v
         case Bool(b) => t == (if b then 1.0 else 0.0)
         case Str(s) => parse(s) == Some(t)
         case _ => false
       }
  }

  predicate Readable(f: File) {
    f.Doc? && f.value.Obj?
  }

  ghost predicate Same(d: Disk, d': Disk, p: Path) {
    (p in d <==> p in d') && (p in d ==> d'[p] == d[p])
  }
}
