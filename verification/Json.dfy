/**
 JSON documents as the protocol layer sees them once parsed, and the library that
 prints and parses them. Only two facts about that library are used: parsing
 inverts printing, and a container or string prints with its own opening sign.
 */
module Json {
  import opened Octets

  /** A number by its sign, whole part and fraction digits; only the whole part is ever used. */
  datatype Number = Number(negative: bool, whole: nat, fraction: nat)

  function Truncated(n: Number): int {
    if n.negative then -(n.whole as int) else n.whole
  }

  function FromNat(n: nat): Number {
    Number(false, n, 0)
  }

  datatype Json =
    | Null
    | Bool(b: bool)
    | Num(n: Number)
    | Str(s: string)
    | Arr(items: seq<Json>)
    | Obj(fields: map<string, Json>)

  const OPEN_BRACKET: Octet := 91
  const OPEN_BRACE: Octet := 123
  const QUOTE: Octet := 34

  datatype Library = Library(marshal: Json -> Bytes, unmarshal: Bytes -> Option<Json>)

  ghost predicate Lawful(lib: Library) {
    && (forall j: Json :: lib.unmarshal(lib.marshal(j)) == Some(j))
    && (forall j: Json :: j.Arr? || j.Obj? || j.Str? ==>
          |lib.marshal(j)| > 0 && lib.marshal(j)[0] == Opening(j))
  }

  function Opening(j: Json): Octet
    requires j.Arr? || j.Obj? || j.Str?
  {
    match j
    case Arr(_) => OPEN_BRACKET
    case Obj(_) => OPEN_BRACE
    case Str(_) => QUOTE
  }
}
