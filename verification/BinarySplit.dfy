/**
 Splitting a payload into a JSON tree with numbered placeholders plus raw
 buffers, and putting it together again. Objects are visited in whatever order
 the map iteration happens to choose.
 */
module BinarySplit {
  import opened Octets
  import Json

  /** A payload value; a reader is what draining it yields, None when it fails. */
  datatype Value =
    | Null
    | Bool(b: bool)
    | Num(n: Json.Number)
    | Str(s: string)
    | Raw(bytes: Bytes)
    | Reader(drained: Option<Bytes>)
    | Arr(items: seq<Value>)
    | Obj(fields: map<string, Value>)

  const MARK := "_placeholder"
  const NUM := "num"

  function Marker(n: nat): (d: Json.Json)
  {
    Json.Obj(map[MARK := Json.Bool(true), NUM := Json.Num(Json.FromNat(n))])
  }

  predicate IsBinary(v: Value) {
    v.Raw? || v.Reader?
  }

  predicate HasBinary(v: Value)
  {
    match v
    case Raw(_) => true
    case Reader(_) => true
    case Arr(xs) => exists i :: 0 <= i < |xs| && HasBinary(xs[i])
    case Obj(m) => exists k :: k in m && HasBinary(m[k])
    case _ => false
  }

  /** A failing reader somewhere in the value. */
  predicate Unreadable(v: Value)
  {
    match v
    case Reader(r) => r == None
    case Arr(xs) => exists i :: 0 <= i < |xs| && Unreadable(xs[i])
    case Obj(m) => exists k :: k in m && Unreadable(m[k])
    case _ => false
  }

  /** The value with every reader replaced by what it yields. */
  function Resolved(v: Value): (r: Value)
  {
    match v
    case Reader(r) => if r == None then Null else Raw(r.value)
    case Arr(xs) => Arr(seq(|xs|, i requires 0 <= i < |xs| => Resolved(xs[i])))
    case Obj(m) => Obj(map k | k in m :: Resolved(m[k]))
    case _ => v
  }

  function Reconstruct(d: Json.Json, bufs: seq<Bytes>): (r: Value)
  {
    match d
    case Null => Null
    case Bool(b) => Bool(b)
    case Num(n) => Num(n)
    case Str(s) => Str(s)
    case Arr(xs) => Arr(seq(|xs|, i requires 0 <= i < |xs| => Reconstruct(xs[i], bufs)))
    case Obj(m) =>
      if MARK in m && m[MARK] == Json.Bool(true) then
        if NUM in m && m[NUM].Num? then
          var idx := Json.Truncated(m[NUM].n);
          if 0 <= idx < |bufs| then Raw(bufs[idx]) else Null
        else Null
      else Obj(map k | k in m :: Reconstruct(m[k], bufs))
  }

  /** A user object the receiver would mistake for a placeholder. */
  predicate HasDecoy(v: Value)
  {
    match v
    case Arr(xs) => exists i :: 0 <= i < |xs| && HasDecoy(xs[i])
    case Obj(m) => (MARK in m && m[MARK] == Bool(true)) || exists k :: k in m && HasDecoy(m[k])
    case _ => false
  }

  /** d is v with each binary leaf replaced by a marker whose buffer holds the leaf's bytes. */
  ghost predicate Stands(d: Json.Json, v: Value, bufs: seq<Bytes>)
  {
    match v
    case Null => d == Json.Null
    case Bool(b) => d == Json.Bool(b)
    case Num(n) => d == Json.Num(n)
    case Str(s) => d == Json.Str(s)
    case Raw(b) => exists n: nat :: n < |bufs| && d == Marker(n) && bufs[n] == b
    case Reader(r) => exists n: nat :: n < |bufs| && d == Marker(n) && r == Some(bufs[n])
    case Arr(xs) => d.Arr? && |d.items| == |xs| && forall i :: 0 <= i < |xs| ==> Stands(d.items[i], xs[i], bufs)
    case Obj(m) => d.Obj? && d.fields.Keys == m.Keys && forall k :: k in m ==> Stands(d.fields[k], m[k], bufs)
  }

  // ---------- restoring ----------

  /** The receiver gets the payload back, readers drained, exactly when no user object is a decoy. */
  lemma {:induction false} RestoredIffNoDecoy(d: Json.Json, v: Value, bufs: seq<Bytes>)
    requires Stands(d, v, bufs)
    ensures Reconstruct(d, bufs) == Resolved(v) <==> !HasDecoy(v)
    decreases v
  {
    match v
    case Arr(xs) =>
      forall i | 0 <= i < |xs|
        ensures Reconstruct(d.items[i], bufs) == Resolved(xs[i]) <==> !HasDecoy(xs[i])
      {
        RestoredIffNoDecoy(d.items[i], xs[i], bufs);
      }
      var r, w := Reconstruct(d, bufs).items, Resolved(v).items;
      assert forall i :: 0 <= i < |xs| ==> r[i] == Reconstruct(d.items[i], bufs) && w[i] == Resolved(xs[i]);
    case Obj(m) =>
      forall k | k in m
        ensures Reconstruct(d.fields[k], bufs) == Resolved(m[k]) <==> !HasDecoy(m[k])
      {
        RestoredIffNoDecoy(d.fields[k], m[k], bufs);
      }
      MarkComesFromUser(d, m, bufs);
      if !IsMarked(d.fields) {
        ObjRestored(d.fields, m, bufs);
      }
    case _ =>
  }

  predicate IsMarked(m: map<string, Json.Json>) {
    MARK in m && m[MARK] == Json.Bool(true)
  }

  lemma MarkComesFromUser(d: Json.Json, m: map<string, Value>, bufs: seq<Bytes>)
    requires Stands(d, Obj(m), bufs)
    ensures IsMarked(d.fields) <==> MARK in m && m[MARK] == Bool(true)
  {
    if MARK in m {
      assert Stands(d.fields[MARK], m[MARK], bufs);
    }
  }

  lemma ObjRestored(dm: map<string, Json.Json>, m: map<string, Value>, bufs: seq<Bytes>)
    requires dm.Keys == m.Keys && !IsMarked(dm)
    ensures Reconstruct(Json.Obj(dm), bufs) == Resolved(Obj(m))
       <==> forall k :: k in m ==> Reconstruct(dm[k], bufs) == Resolved(m[k])
  {
    var r, w := Reconstruct(Json.Obj(dm), bufs).fields, Resolved(Obj(m)).fields;
    assert r == w <==> forall k :: k in m ==> r[k] == w[k];
  }

  // ---------- numbering ----------

  datatype Step = Index(i: nat) | Key(k: string)

  type Path = seq<Step>

  function At(v: Value, path: Path): (r: Option<Value>)
    decreases |path|
  {
    if path == [] then Some(v)
    else match (v, path[0])
      case (Arr(xs), Index(i)) => if i < |xs| then At(xs[i], path[1..]) else None
      case (Obj(m), Key(k)) => if k in m then At(m[k], path[1..]) else None
      case _ => None
  }

  function JsonAt(d: Json.Json, path: Path): (r: Option<Json.Json>)
    decreases |path|
  {
    if path == [] then Some(d)
    else match (d, path[0])
      case (Arr(xs), Index(i)) => if i < |xs| then JsonAt(xs[i], path[1..]) else None
      case (Obj(m), Key(k)) => if k in m then JsonAt(m[k], path[1..]) else None
      case _ => None
  }

  ghost predicate BinaryAt(v: Value, path: Path) {
    At(v, path).Some? && IsBinary(At(v, path).value)
  }

  /** Placeholder lo+n stands at where[n], and where lists every binary leaf. */
  ghost predicate Numbered(d: Json.Json, v: Value, lo: nat, where: seq<Path>)
  {
    && (forall n :: 0 <= n < |where| ==> BinaryAt(v, where[n]) && JsonAt(d, where[n]) == Some(Marker(lo + n)))
    && (forall path :: BinaryAt(v, path) ==> path in where)
  }

  lemma MarkerInjective(m: nat, n: nat)
    requires Marker(m) == Marker(n)
    ensures m == n
  {
    assert Marker(m).fields[NUM] == Marker(n).fields[NUM];
  }

  /** Each number is used at one place only. */
  lemma NumbersAreUsedOnce(d: Json.Json, v: Value, lo: nat, where: seq<Path>, m: nat, n: nat)
    requires Numbered(d, v, lo, where) && m < |where| && n < |where|
    requires where[m] == where[n]
    ensures m == n
  {
    MarkerInjective(lo + m, lo + n);
  }

  /** There is something to number exactly when the program's test for binary data says so. */
  lemma {:induction false} HasBinaryIffLeaf(v: Value)
    ensures HasBinary(v) <==> exists path :: BinaryAt(v, path)
    decreases v
  {
    if HasBinary(v) {
      var path := LeafOf(v);
    }
    forall path: Path | BinaryAt(v, path)
      ensures HasBinary(v)
    {
      LeafMeansBinary(v, path);
    }
  }

  lemma {:induction false} LeafOf(v: Value) returns (path: Path)
    requires HasBinary(v)
    ensures BinaryAt(v, path)
    decreases v
  {
    match v
    case Raw(_) => path := [];
    case Reader(_) => path := [];
    case Arr(xs) =>
      var i :| 0 <= i < |xs| && HasBinary(xs[i]);
      var rest := LeafOf(xs[i]);
      path := [Index(i)] + rest;
      assert path[1..] == rest;
    case Obj(m) =>
      var k :| k in m && HasBinary(m[k]);
      var rest := LeafOf(m[k]);
      path := [Key(k)] + rest;
      assert path[1..] == rest;
  }

  lemma {:induction false} LeafMeansBinary(v: Value, path: Path)
    requires BinaryAt(v, path)
    ensures HasBinary(v)
    decreases |path|
  {
    if path != [] {
      match v
      case Arr(xs) => LeafMeansBinary(xs[path[0].i], path[1..]);
      case Obj(m) => LeafMeansBinary(m[path[0].k], path[1..]);
      case _ =>
    }
  }

  // ---------- the walk ----------

  lemma {:induction false} StandsLonger(d: Json.Json, v: Value, bufs: seq<Bytes>, longer: seq<Bytes>)
    requires Stands(d, v, bufs) && bufs <= longer
    ensures Stands(d, v, longer)
    decreases v
  {
    match v
    case Raw(b) =>
      var n: nat :| n < |bufs| && d == Marker(n) && bufs[n] == b;
      assert longer[n] == b;
    case Reader(r) =>
      var n: nat :| n < |bufs| && d == Marker(n) && r == Some(bufs[n]);
      assert r == Some(longer[n]);
    case Arr(xs) =>
      forall i | 0 <= i < |xs|
        ensures Stands(d.items[i], xs[i], longer)
      {
        StandsLonger(d.items[i], xs[i], bufs, longer);
      }
    case Obj(m) =>
      forall k | k in m
        ensures Stands(d.fields[k], m[k], longer)
      {
        StandsLonger(d.fields[k], m[k], bufs, longer);
      }
    case _ =>
  }

  ghost function Under(s: Step, paths: seq<Path>): (r: seq<Path>)
    ensures |r| == |paths|
    ensures forall n :: 0 <= n < |paths| ==> r[n] == [s] + paths[n]
  {
    seq(|paths|, n requires 0 <= n < |paths| => [s] + paths[n])
  }

  lemma UnderContains(s: Step, paths: seq<Path>, path: Path)
    requires |path| > 0 && path[0] == s && path[1..] in paths
    ensures path in Under(s, paths)
  {
    var n :| 0 <= n < |paths| && paths[n] == path[1..];
    assert path == [s] + path[1..] == Under(s, paths)[n];
  }

  lemma ItemNumbered(ds: seq<Json.Json>, d: Json.Json, xs: seq<Value>, x: Value, lo: nat, a: seq<Path>, b: seq<Path>)
    requires |ds| == |xs|
    requires Numbered(Json.Arr(ds), Arr(xs), lo, a)
    requires Numbered(d, x, lo + |a|, b)
    ensures Numbered(Json.Arr(ds + [d]), Arr(xs + [x]), lo, a + Under(Index(|xs|), b))
  {
    var D, X, w := Json.Arr(ds + [d]), Arr(xs + [x]), a + Under(Index(|xs|), b);
    forall n | 0 <= n < |w|
      ensures BinaryAt(X, w[n]) && JsonAt(D, w[n]) == Some(Marker(lo + n))
    {
      if n < |a| {
        assert BinaryAt(Arr(xs), a[n]);
        assert a[n] != [];
      } else {
        assert w[n] == [Index(|xs|)] + b[n - |a|];
        assert w[n][1..] == b[n - |a|];
      }
    }
    forall path: Path | BinaryAt(X, path)
      ensures path in w
    {
      assert path != [] && path[0].Index?;
      if path[0].i < |xs| {
        assert BinaryAt(Arr(xs), path);
      } else {
        UnderContains(Index(|xs|), b, path);
      }
    }
  }

  lemma FieldNumbered(dm: map<string, Json.Json>, d: Json.Json, m: map<string, Value>, key: string, x: Value,
                      lo: nat, a: seq<Path>, b: seq<Path>)
    requires dm.Keys == m.Keys && key !in m
    requires Numbered(Json.Obj(dm), Obj(m), lo, a)
    requires Numbered(d, x, lo + |a|, b)
    ensures Numbered(Json.Obj(dm[key := d]), Obj(m[key := x]), lo, a + Under(Key(key), b))
  {
    var D, X, w := Json.Obj(dm[key := d]), Obj(m[key := x]), a + Under(Key(key), b);
    forall n | 0 <= n < |w|
      ensures BinaryAt(X, w[n]) && JsonAt(D, w[n]) == Some(Marker(lo + n))
    {
      if n < |a| {
        assert BinaryAt(Obj(m), a[n]);
        assert a[n] != [];
      } else {
        assert w[n] == [Key(key)] + b[n - |a|];
        assert w[n][1..] == b[n - |a|];
      }
    }
    forall path: Path | BinaryAt(X, path)
      ensures path in w
    {
      assert path != [] && path[0].Key?;
      if path[0].k != key {
        assert BinaryAt(Obj(m), path);
      } else {
        UnderContains(Key(key), b, path);
      }
    }
  }

  /** The outcome of one walk: d stands for v, and the buffers from lo on are v's leaves, listed by where. */
  ghost predicate SplitInto(v: Value, d: Json.Json, lo: nat, bufs: seq<Bytes>, where: seq<Path>)
  {
    Stands(d, v, bufs) && Numbered(d, v, lo, where) && |bufs| == lo + |where|
  }

  lemma RawSplit(b: Bytes, before: seq<Bytes>)
    ensures SplitInto(Raw(b), Marker(|before|), |before|, before + [b], [[]])
    ensures SplitInto(Reader(Some(b)), Marker(|before|), |before|, before + [b], [[]])
  {
    assert (before + [b])[|before|] == b;
  }

  lemma LeafSplit(v: Value, before: seq<Bytes>)
    requires !IsBinary(v) && !v.Arr? && !v.Obj?
    ensures SplitInto(v, LeafJson(v), |before|, before, [])
  {
  }

  lemma ItemSplit(ds: seq<Json.Json>, d: Json.Json, xs: seq<Value>, x: Value,
                  lo: nat, bufs: seq<Bytes>, more: seq<Bytes>, a: seq<Path>, b: seq<Path>)
    requires SplitInto(Arr(xs), Json.Arr(ds), lo, bufs, a)
    requires SplitInto(x, d, |bufs|, more, b) && bufs <= more
    ensures SplitInto(Arr(xs + [x]), Json.Arr(ds + [d]), lo, more, a + Under(Index(|xs|), b))
  {
    ItemNumbered(ds, d, xs, x, lo, a, b);
    StandsLonger(Json.Arr(ds), Arr(xs), bufs, more);
  }

  lemma FieldSplit(dm: map<string, Json.Json>, d: Json.Json, m: map<string, Value>, key: string, x: Value,
                   lo: nat, bufs: seq<Bytes>, more: seq<Bytes>, a: seq<Path>, b: seq<Path>)
    requires key !in m
    requires SplitInto(Obj(m), Json.Obj(dm), lo, bufs, a)
    requires SplitInto(x, d, |bufs|, more, b) && bufs <= more
    ensures SplitInto(Obj(m[key := x]), Json.Obj(dm[key := d]), lo, more, a + Under(Key(key), b))
  {
    FieldNumbered(dm, d, m, key, x, lo, a, b);
    StandsLonger(Json.Obj(dm), Obj(m), bufs, more);
  }

  /** Buffers are attached exactly when the program's test for binary data says so. */
  lemma BuffersIffBinary(v: Value, d: Json.Json, bufs: seq<Bytes>, where: seq<Path>)
    requires SplitInto(v, d, 0, bufs, where)
    ensures HasBinary(v) <==> |bufs| > 0
  {
    HasBinaryIffLeaf(v);
    if |bufs| > 0 {
      assert BinaryAt(v, where[0]);
    }
  }

  function LeafJson(v: Value): Json.Json
    requires !IsBinary(v) && !v.Arr? && !v.Obj?
  {
    match v
    case Null => Json.Null
    case Bool(b) => Json.Bool(b)
    case Num(n) => Json.Num(n)
    case Str(s) => Json.Str(s)
  }

  /**
   The program's walk: binary leaves become markers and their bytes are appended
   to the buffers. A map is ranged over in an arbitrary order, and the first
   failing reader ends the walk.
   */
  method Deconstruct(v: Value, before: seq<Bytes>)
    returns (out: Option<Json.Json>, bufs: seq<Bytes>, ghost where: seq<Path>)
    ensures before <= bufs
    ensures out == None <==> Unreadable(v)
    ensures out.Some? ==> SplitInto(v, out.value, |before|, bufs, where)
    decreases v, 1
  {
    where := [];
    match v
    case Raw(b) =>
      RawSplit(b, before);
      out, bufs, where := Some(Marker(|before|)), before + [b], [[]];
    case Reader(r) =>
      if r == None {
        return None, before, [];
      }
      RawSplit(r.value, before);
      out, bufs, where := Some(Marker(|before|)), before + [r.value], [[]];
    case Arr(xs) =>
      out, bufs, where := DeconstructItems(xs, before, v);
    case Obj(m) =>
      out, bufs, where := DeconstructFields(m, before, v);
    case _ =>
      LeafSplit(v, before);
      out, bufs := Some(LeafJson(v)), before;
  }

  method DeconstructItems(xs: seq<Value>, before: seq<Bytes>, ghost whole: Value)
    returns (out: Option<Json.Json>, bufs: seq<Bytes>, ghost where: seq<Path>)
    requires whole == Arr(xs)
    ensures before <= bufs
    ensures out == None <==> Unreadable(whole)
    ensures out.Some? ==> SplitInto(whole, out.value, |before|, bufs, where)
    decreases whole, 0
  {
    var items: seq<Json.Json> := [];
    bufs, where := before, [];
    for i := 0 to |xs|
      invariant before <= bufs
      invariant forall j :: 0 <= j < i ==> !Unreadable(xs[j])
      invariant SplitInto(Arr(xs[..i]), Json.Arr(items), |before|, bufs, where)
    {
      var d, more;
      ghost var w;
      d, more, w := Deconstruct(xs[i], bufs);
      if d == None {
        return None, more, where;
      }
      ItemSplit(items, d.value, xs[..i], xs[i], |before|, bufs, more, where, w);
      assert xs[..i + 1] == xs[..i] + [xs[i]];
      items, bufs, where := items + [d.value], more, where + Under(Index(i), w);
    }
    assert xs[..|xs|] == xs;
    out := Some(Json.Arr(items));
  }

  method DeconstructFields(m: map<string, Value>, before: seq<Bytes>, ghost whole: Value)
    returns (out: Option<Json.Json>, bufs: seq<Bytes>, ghost where: seq<Path>)
    requires whole == Obj(m)
    ensures before <= bufs
    ensures out == None <==> Unreadable(whole)
    ensures out.Some? ==> SplitInto(whole, out.value, |before|, bufs, where)
    decreases whole, 0
  {
    var fields: map<string, Json.Json> := map[];
    ghost var done: map<string, Value> := map[];
    var left := m.Keys;
    bufs, where := before, [];
    while left != {}
      invariant before <= bufs
      invariant left <= m.Keys && done.Keys == m.Keys - left
      invariant forall k :: k in done ==> done[k] == m[k] && !Unreadable(m[k])
      invariant SplitInto(Obj(done), Json.Obj(fields), |before|, bufs, where)
      decreases left
    {
      var k :| k in left;
      var d, more;
      ghost var w;
      d, more, w := Deconstruct(m[k], bufs);
      if d == None {
        return None, more, where;
      }
      FieldSplit(fields, d.value, done, k, m[k], |before|, bufs, more, where, w);
      fields, bufs, where := fields[k := d.value], more, where + Under(Key(k), w);
      done, left := done[k := m[k]], left - {k};
    }
    assert done == m;
    out := Some(Json.Obj(fields));
  }
}
