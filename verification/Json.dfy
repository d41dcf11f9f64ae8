/** Compact JSON text with sorted keys, and its UTF-8 bytes. */
module Json {
  import opened Decimals
  import opened Text

  datatype Json =
    | Null
    | Bool(b: bool)
    | Num(n: int)
    | Str(s: string)
    | Arr(items: seq<Json>)
    | Obj(fields: seq<Field>)

  datatype Field = Field(name: string, value: Json)

  // ----- text

  function HexDigit(n: nat): char
    requires n < 16
  {
    if n < 10 then ('0' as int + n) as char else ('a' as int + n - 10) as char
  }

  function Escape(c: char): string {
    if c == '"' then "\\\""
    else if c == '\\' then "\\\\"
    else if c == '\n' then "\\n"
    else if c == '\r' then "\\r"
    else if c == '\t' then "\\t"
    else if c as int == 8 then "\\b"
    else if c as int == 12 then "\\f"
    else if c as int < 32 then "\\u00" + [HexDigit(c as int / 16), HexDigit(c as int % 16)]
    else [c]
  }

  function EscapeAll(s: string): string {
    if s == "" then "" else Escape(s[0]) + EscapeAll(s[1..])
  }

  function Quote(s: string): string { "\"" + EscapeAll(s) + "\"" }

  /** The compact text of a value, with object fields in the given order. */
  function Print(j: Json): string
    decreases j, 0
  {
    match j
    case Null => "null"
    case Bool(b) => if b then "true" else "false"
    case Num(n) => if n < 0 then "-" + Decimal(-n) else Decimal(n)
    case Str(s) => Quote(s)
    case Arr(items) => "[" + PrintItems(items) + "]"
    case Obj(fields) => "{" + PrintFields(fields) + "}"
  }

  /** The items with commas between them. */
  function PrintItems(items: seq<Json>): string
    decreases items, 1
  {
    if items == [] then ""
    else if |items| == 1 then Print(items[0])
    else PrintItems(items[..|items| - 1]) + "," + Print(items[|items| - 1])
  }

  function PrintFields(fields: seq<Field>): string
    decreases fields, 1
  {
    if fields == [] then ""
    else
      var last := fields[|fields| - 1];
      (if |fields| == 1 then "" else PrintFields(fields[..|fields| - 1]) + ",")
      + Quote(last.name) + ":" + Print(last.value)
  }

  /** A field without the comma before it. */
  function FieldText(f: Field): string { Quote(f.name) + ":" + Print(f.value) }

  lemma Associative<T>(a: seq<T>, b: seq<T>, c: seq<T>)
    ensures (a + b) + c == a + (b + c)
  {
  }

  lemma ItemsOfAppend(items: seq<Json>, j: Json)
    ensures PrintItems(items + [j]) == (if items == [] then "" else PrintItems(items) + ",") + Print(j)
  {
    assert (items + [j])[..|items|] == items;
  }

  lemma FieldsOfAppend(fields: seq<Field>, f: Field)
    ensures PrintFields(fields + [f])
         == (if fields == [] then "" else PrintFields(fields) + ",") + Quote(f.name) + ":" + Print(f.value)
  {
    assert (fields + [f])[..|fields|] == fields;
  }

  // ----- key order

  function InsertField(fields: seq<Field>, f: Field): seq<Field> {
    if fields == [] || TextLess(f.name, fields[0].name) then [f] + fields
    else [fields[0]] + InsertField(fields[1..], f)
  }

  function SortFields(fields: seq<Field>): seq<Field> {
    if fields == [] then [] else InsertField(SortFields(fields[..|fields| - 1]), fields[|fields| - 1])
  }

  lemma {:induction false} InsertKeepsFields(fields: seq<Field>, f: Field)
    ensures multiset(InsertField(fields, f)) == multiset(fields) + multiset{f}
  {
    if fields == [] || TextLess(f.name, fields[0].name) {
    } else {
      InsertKeepsFields(fields[1..], f);
      assert fields == [fields[0]] + fields[1..];
    }
  }

  /** Sorting the keys loses and invents no field. */
  lemma {:induction false} SortKeepsFields(fields: seq<Field>)
    ensures multiset(SortFields(fields)) == multiset(fields)
  {
    if fields != [] {
      var rest, last := fields[..|fields| - 1], fields[|fields| - 1];
      SortKeepsFields(rest);
      InsertKeepsFields(SortFields(rest), last);
      assert fields == rest + [last];
    }
  }

  predicate KeysAscend(fields: seq<Field>) {
    forall i | 0 < i < |fields| :: !TextLess(fields[i].name, fields[i - 1].name)
  }

  lemma {:induction false} InsertAscends(fields: seq<Field>, f: Field)
    requires KeysAscend(fields)
    ensures KeysAscend(InsertField(fields, f))
    ensures fields != [] && !TextLess(f.name, fields[0].name) ==> InsertField(fields, f)[0] == fields[0]
    ensures fields == [] || TextLess(f.name, fields[0].name) ==> InsertField(fields, f)[0] == f
  {
    if fields == [] {
    } else if TextLess(f.name, fields[0].name) {
      TextAsymmetric(f.name, fields[0].name);
    } else {
      var rest := fields[1..];
      assert forall i | 0 < i < |rest| :: rest[i - 1] == fields[i] && rest[i] == fields[i + 1];
      InsertAscends(rest, f);
    }
  }

  /** The keys of a sorted object are in order. */
  lemma {:induction false} SortAscends(fields: seq<Field>)
    ensures KeysAscend(SortFields(fields))
  {
    if fields != [] {
      var rest, last := fields[..|fields| - 1], fields[|fields| - 1];
      SortAscends(rest);
      InsertAscends(SortFields(rest), last);
    }
  }

  /** Sorts the keys of all objects inside a value, as `sort_keys` does. */
  function SortKeys(j: Json): Json
    decreases j, 0
  {
    match j
    case Arr(items) => Arr(SortItems(items))
    case Obj(fields) => Obj(SortFields(SortValues(fields)))
    case _ => j
  }

  function SortItems(items: seq<Json>): (r: seq<Json>)
    ensures |r| == |items|
    decreases items, 1
  {
    if items == [] then [] else SortItems(items[..|items| - 1]) + [SortKeys(items[|items| - 1])]
  }

  function SortValues(fields: seq<Field>): (r: seq<Field>)
    ensures |r| == |fields|
    decreases fields, 1
  {
    if fields == [] then []
    else
      var last := fields[|fields| - 1];
      SortValues(fields[..|fields| - 1]) + [Field(last.name, SortKeys(last.value))]
  }

  lemma {:induction false} SortedItem(items: seq<Json>, i: nat)
    requires i < |items|
    ensures SortItems(items)[i] == SortKeys(items[i])
  {
    var n := |items| - 1;
    if i < n { SortedItem(items[..n], i); }
  }

  lemma {:induction false} SortedValue(fields: seq<Field>, i: nat)
    requires i < |fields|
    ensures SortValues(fields)[i] == Field(fields[i].name, SortKeys(fields[i].value))
  {
    var n := |fields| - 1;
    if i < n { SortedValue(fields[..n], i); }
  }

  /** Every field of a sorted object is there under its name, with its value sorted inside. */
  lemma FieldIsKept(fields: seq<Field>, i: nat) returns (k: nat)
    requires i < |fields|
    ensures SortKeys(Obj(fields)).Obj? && |SortKeys(Obj(fields)).fields| == |fields|
    ensures k < |fields|
    ensures SortKeys(Obj(fields)).fields[k] == Field(fields[i].name, SortKeys(fields[i].value))
  {
    var values := SortValues(fields);
    var sorted := SortFields(values);
    SortedValue(fields, i);
    SortKeepsFields(values);
    assert values[i] in multiset(values) && values[i] in multiset(sorted);
    assert |multiset(sorted)| == |multiset(values)|;
    k :| 0 <= k < |sorted| && sorted[k] == values[i];
  }

  function Dump(j: Json): string { Print(SortKeys(j)) }

  // ----- bytes

  type byte = b: int | 0 <= b < 256

  function EncodeChar(c: char): seq<byte> {
    var n := c as int;
    if n < 0x80 then [n]
    else if n < 0x800 then [0xC0 + n / 0x40, 0x80 + n % 0x40]
    else if n < 0x10000 then [0xE0 + n / 0x1000, 0x80 + n / 0x40 % 0x40, 0x80 + n % 0x40]
    else [0xF0 + n / 0x40000, 0x80 + n / 0x1000 % 0x40, 0x80 + n / 0x40 % 0x40, 0x80 + n % 0x40]
  }

  function Encode(s: string): seq<byte> {
    if s == "" then [] else EncodeChar(s[0]) + Encode(s[1..])
  }

  /** Encoding piece by piece is encoding the whole. */
  lemma {:induction false} EncodeConcat(a: string, b: string)
    ensures Encode(a + b) == Encode(a) + Encode(b)
  {
    if a == "" {
      assert a + b == b;
    } else {
      assert (a + b)[0] == a[0] && (a + b)[1..] == a[1..] + b;
      EncodeConcat(a[1..], b);
    }
  }
}
