/** RFC 8785 canonical JSON: the printer, the subject of a wire object, and its digest. */
module Canonical {
  import opened Prelude
  import opened Text
  import opened KeyOrder
  import NumberLayout

  /** A Python value handed to `canonicalize`. A dict is its item list in insertion order;
      `Foreign` is any object that is not JSON-serialisable. */
  datatype Json =
    | Null
    | Bool(b: bool)
    | Str(s: string)
    | Int(n: int)
    | Float(f: NumberLayout.Float)
    | Arr(vs: seq<Json>)
    | Obj(items: seq<(string, Json)>)
    | Foreign

  /** Dict keys are distinct at every level, as in every Python dict. */
  ghost predicate WellFormed(j: Json) {
    match j
    case Arr(vs) => forall i :: 0 <= i < |vs| ==> WellFormed(vs[i])
    case Obj(items) => KeysDistinct(items) && forall i :: 0 <= i < |items| ==> WellFormed(items[i].1)
    case _ => true
  }

  /** No NaN, no infinity and no foreign object inside. */
  predicate Printable(j: Json) {
    match j
    case Float(f) => f.Finite?
    case Arr(vs) => forall i :: 0 <= i < |vs| ==> Printable(vs[i])
    case Obj(items) => forall i :: 0 <= i < |items| ==> Printable(items[i].1)
    case Foreign => false
    case _ => true
  }

  function HexDigit(d: nat): char
    requires d < 16
  {
    if d < 10 then (48 + d) as char else (87 + d) as char
  }

  /** `json.dumps(..., ensure_ascii=False)` on one character. */
  function EscapeChar(c: char): string {
    var n := c as int;
    if c == '"' then "\\\""
    else if c == '\\' then "\\\\"
    else if c == '\n' then "\\n"
    else if c == '\r' then "\\r"
    else if c == '\t' then "\\t"
    else if n == 12 then "\\f"
    else if n == 8 then "\\b"
    else if n < 0x20 then "\\u00" + [HexDigit(n / 16), HexDigit(n % 16)]
    else [c]
  }

  function Escaped(s: string): string {
    if s == [] then [] else EscapeChar(s[0]) + Escaped(s[1..])
  }

  function EncodeString(s: string): string { "\"" + Escaped(s) + "\"" }

  function Join(parts: seq<string>): string {
    if parts == [] then []
    else if |parts| == 1 then parts[0]
    else parts[0] + "," + Join(parts[1..])
  }

  /** `_canon`: None is a raised ValueError or TypeError. */
  function Canon(j: Json): Option<string>
    decreases j, 1, 0
  {
    match j
    case Null => Some("null")
    case Bool(b) => Some(if b then "true" else "false")
    case Str(s) => Some(EncodeString(s))
    case Int(n) => Some(IntText(n))
    case Float(f) => NumberLayout.Layout(f)
    case Arr(vs) =>
      var parts :- CanonAll(vs);
      Some("[" + Join(parts) + "]")
    case Obj(items) =>
      var sorted := SortItems(items);
      SortedBelow(items);
      var parts :- CanonMembers(sorted, j);
      Some("{" + Join(parts) + "}")
    case Foreign => None
  }

  function CanonAll(vs: seq<Json>): Option<seq<string>>
    decreases vs, 0, |vs|
  {
    if vs == [] then Some([])
    else
      var first :- Canon(vs[0]);
      var rest :- CanonAll(vs[1..]);
      Some([first] + rest)
  }

  function CanonMembers(items: seq<(string, Json)>, ghost parent: Json): Option<seq<string>>
    requires forall i :: 0 <= i < |items| ==> items[i].1 < parent
    decreases parent, 0, |items|
  {
    if items == [] then Some([])
    else
      var first :- Canon(items[0].1);
      var rest :- CanonMembers(items[1..], parent);
      Some([EncodeString(items[0].0) + ":" + first] + rest)
  }

  lemma SortedBelow(items: seq<(string, Json)>)
    ensures forall i :: 0 <= i < |SortItems(items)| ==> SortItems(items)[i].1 < Obj(items)
  {
    SortPermutes(items);
    forall i | 0 <= i < |SortItems(items)| ensures SortItems(items)[i].1 < Obj(items) {
      SameMembers(SortItems(items), items, SortItems(items)[i]);
    }
  }
}
