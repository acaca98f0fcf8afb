/**
 A library with the two properties the protocol layer relies on. It prints with a
 self-delimiting code of its own, not with JSON's grammar: what matters is that
 the results resting on a lawful library are about something.
 */
module JsonWitness {
  import opened Octets
  import opened Json

  function Count(n: nat): (b: Bytes) {
    if n == 0 then [0] else [1] + Count(n - 1)
  }

  function Text(s: string): (b: Bytes) {
    if s == [] then [0] else [1] + (Count(s[0] as int) + Text(s[1..]))
  }

  ghost function Print(j: Json): (b: Bytes)
    ensures |b| > 0
    ensures j.Arr? || j.Obj? || j.Str? ==> b[0] == Opening(j)
    decreases j, 1
  {
    match j
    case Null => [0]
    case Bool(v) => [1] + Count(if v then 1 else 0)
    case Num(n) => [2] + (Count(if n.negative then 1 else 0) + (Count(n.whole) + Count(n.fraction)))
    case Str(s) => [QUOTE] + Text(s)
    case Arr(items) => [OPEN_BRACKET] + PrintItems(j, items)
    case Obj(fields) => [OPEN_BRACE] + PrintFields(j, fields)
  }

  ghost function PrintItems(j: Json, items: seq<Json>): (b: Bytes)
    requires j.Arr? && |items| <= |j.items| && items == j.items[|j.items| - |items|..]
    decreases j, 0, |items|
  {
    if items == [] then [0] else [1] + (Print(items[0]) + PrintItems(j, items[1..]))
  }

  ghost function Pick(fields: map<string, Json>): (k: string)
    requires fields != map[]
    ensures k in fields
  {
    var k :| k in fields; k
  }

  /** Fields are printed in an order of the library's choosing. */
  ghost function PrintFields(j: Json, fields: map<string, Json>): (b: Bytes)
    requires j.Obj? && forall k :: k in fields ==> k in j.fields && fields[k] == j.fields[k]
    decreases j, 0, |fields|
  {
    if fields == map[] then [0]
    else
      var k := Pick(fields);
      [1] + (Text(k) + (Print(fields[k]) + PrintFields(j, fields - {k})))
  }

  lemma Tail(c: Octet, a: Bytes, d: Octet, b: Bytes, x: Bytes, y: Bytes)
    requires ([c] + a) + x == ([d] + b) + y
    ensures c == d && a + x == b + y
  {
    assert (([c] + a) + x)[0] == c && (([d] + b) + y)[0] == d;
    assert (([c] + a) + x)[1..] == a + x && (([d] + b) + y)[1..] == b + y;
  }

  lemma {:induction false} CountIsDelimited(m: nat, n: nat, x: Bytes, y: Bytes)
    requires Count(m) + x == Count(n) + y
    ensures m == n && x == y
  {
    assert (Count(m) + x)[0] == Count(m)[0] && (Count(n) + y)[0] == Count(n)[0];
    if m == 0 {
      assert (Count(m) + x)[1..] == x && (Count(n) + y)[1..] == y;
    } else {
      Tail(1, Count(m - 1), 1, Count(n - 1), x, y);
      CountIsDelimited(m - 1, n - 1, x, y);
    }
  }

  lemma {:induction false} TextIsDelimited(s: string, t: string, x: Bytes, y: Bytes)
    requires Text(s) + x == Text(t) + y
    ensures s == t && x == y
    decreases |s|
  {
    assert (Text(s) + x)[0] == Text(s)[0] && (Text(t) + y)[0] == Text(t)[0];
    if s == [] {
      assert (Text(s) + x)[1..] == x && (Text(t) + y)[1..] == y;
    } else {
      var a, b := Count(s[0] as int) + Text(s[1..]), Count(t[0] as int) + Text(t[1..]);
      Tail(1, a, 1, b, x, y);
      assert a + x == Count(s[0] as int) + (Text(s[1..]) + x) && b + y == Count(t[0] as int) + (Text(t[1..]) + y);
      CountIsDelimited(s[0] as int, t[0] as int, Text(s[1..]) + x, Text(t[1..]) + y);
      TextIsDelimited(s[1..], t[1..], x, y);
      assert s == [s[0]] + s[1..] && t == [t[0]] + t[1..];
    }
  }

  lemma NumberIsDelimited(m: Number, n: Number, x: Bytes, y: Bytes)
    requires Print(Num(m)) + x == Print(Num(n)) + y
    ensures m == n && x == y
  {
    var p, q := if m.negative then 1 else 0, if n.negative then 1 else 0;
    var a, b := Count(m.whole) + Count(m.fraction), Count(n.whole) + Count(n.fraction);
    Tail(2, Count(p) + a, 2, Count(q) + b, x, y);
    assert (Count(p) + a) + x == Count(p) + (a + x) && (Count(q) + b) + y == Count(q) + (b + y);
    CountIsDelimited(p, q, a + x, b + y);
    assert a + x == Count(m.whole) + (Count(m.fraction) + x) && b + y == Count(n.whole) + (Count(n.fraction) + y);
    CountIsDelimited(m.whole, n.whole, Count(m.fraction) + x, Count(n.fraction) + y);
    CountIsDelimited(m.fraction, n.fraction, x, y);
  }

  lemma {:induction false} ItemsAreDelimited(j: Json, items: seq<Json>, k: Json, others: seq<Json>, x: Bytes, y: Bytes)
    requires j.Arr? && |items| <= |j.items| && items == j.items[|j.items| - |items|..]
    requires k.Arr? && |others| <= |k.items| && others == k.items[|k.items| - |others|..]
    requires PrintItems(j, items) + x == PrintItems(k, others) + y
    ensures items == others && x == y
    decreases j, 0, |items|
  {
    var p, q := PrintItems(j, items), PrintItems(k, others);
    assert (p + x)[0] == p[0] && (q + y)[0] == q[0];
    if items == [] {
      assert (p + x)[1..] == x && (q + y)[1..] == y;
    } else {
      var a, b := PrintItems(j, items[1..]), PrintItems(k, others[1..]);
      Tail(1, Print(items[0]) + a, 1, Print(others[0]) + b, x, y);
      assert (Print(items[0]) + a) + x == Print(items[0]) + (a + x);
      assert (Print(others[0]) + b) + y == Print(others[0]) + (b + y);
      PrintIsDelimited(items[0], others[0], a + x, b + y);
      ItemsAreDelimited(j, items[1..], k, others[1..], x, y);
      assert items == [items[0]] + items[1..] && others == [others[0]] + others[1..];
    }
  }

  lemma FieldIsDelimited(f: string, v: Bytes, a: Bytes, g: string, w: Bytes, b: Bytes, x: Bytes, y: Bytes)
    requires ([1] + (Text(f) + (v + a))) + x == ([1] + (Text(g) + (w + b))) + y
    ensures f == g && v + (a + x) == w + (b + y)
  {
    var c, d := v + a, w + b;
    Tail(1, Text(f) + c, 1, Text(g) + d, x, y);
    assert (Text(f) + c) + x == Text(f) + (c + x) && (Text(g) + d) + y == Text(g) + (d + y);
    TextIsDelimited(f, g, c + x, d + y);
    assert c + x == v + (a + x) && d + y == w + (b + y);
  }

  lemma {:induction false} FieldsAreDelimited(j: Json, m: map<string, Json>, k: Json, n: map<string, Json>,
                                              x: Bytes, y: Bytes)
    requires j.Obj? && forall f :: f in m ==> f in j.fields && m[f] == j.fields[f]
    requires k.Obj? && forall f :: f in n ==> f in k.fields && n[f] == k.fields[f]
    requires PrintFields(j, m) + x == PrintFields(k, n) + y
    ensures m == n && x == y
    decreases j, 0, |m|
  {
    var p, q := PrintFields(j, m), PrintFields(k, n);
    assert (p + x)[0] == p[0] && (q + y)[0] == q[0];
    if m == map[] {
      assert (p + x)[1..] == x && (q + y)[1..] == y;
    } else {
      var f, g := Pick(m), Pick(n);
      var a, b := PrintFields(j, m - {f}), PrintFields(k, n - {g});
      FieldIsDelimited(f, Print(m[f]), a, g, Print(n[g]), b, x, y);
      PrintIsDelimited(m[f], n[g], a + x, b + y);
      FieldsAreDelimited(j, m - {f}, k, n - {g}, x, y);
      assert m == (m - {f})[f := m[f]] && n == (n - {g})[g := n[g]];
    }
  }

  /** No printed document is a proper prefix of another, and equal prints mean equal documents. */
  lemma {:induction false} PrintIsDelimited(j: Json, k: Json, x: Bytes, y: Bytes)
    requires Print(j) + x == Print(k) + y
    ensures j == k && x == y
    decreases j, 1
  {
    assert (Print(j) + x)[0] == Print(j)[0] && (Print(k) + y)[0] == Print(k)[0];
    match j
    case Null =>
      assert (Print(j) + x)[1..] == x && (Print(k) + y)[1..] == y;
    case Bool(v) =>
      var p, q := if v then 1 else 0, if k.b then 1 else 0;
      Tail(1, Count(p), 1, Count(q), x, y);
      CountIsDelimited(p, q, x, y);
    case Num(n) => NumberIsDelimited(n, k.n, x, y);
    case Str(s) =>
      Tail(QUOTE, Text(s), QUOTE, Text(k.s), x, y);
      TextIsDelimited(s, k.s, x, y);
    case Arr(items) =>
      Tail(OPEN_BRACKET, PrintItems(j, items), OPEN_BRACKET, PrintItems(k, k.items), x, y);
      ItemsAreDelimited(j, items, k, k.items, x, y);
    case Obj(fields) =>
      Tail(OPEN_BRACE, PrintFields(j, fields), OPEN_BRACE, PrintFields(k, k.fields), x, y);
      FieldsAreDelimited(j, fields, k, k.fields, x, y);
  }

  ghost function Parse(b: Bytes): (r: Option<Json>) {
    if j: Json :| Print(j) == b then Some(j) else None
  }

  lemma ParsePrints(j: Json)
    ensures Parse(Print(j)) == Some(j)
  {
    var r := Parse(Print(j));
    assert r.Some? && Print(r.value) == Print(j);
    PrintIsDelimited(r.value, j, [], []);
  }

  /** Lawful libraries exist. */
  lemma SomeLibraryIsLawful() returns (lib: Library)
    ensures Lawful(lib)
  {
    lib := Library(j => Print(j), b => Parse(b));
    forall j: Json ensures lib.unmarshal(lib.marshal(j)) == Some(j) {
      ParsePrints(j);
    }
  }
}
