/** A reader for compact JSON and for UTF-8, and what it makes of the text that is written. */
module JsonText {
  import opened Wrappers
  import opened Decimals
  import opened Json

  /** A value at the front of a text, and the text after it. */
  datatype Read<T> = Read(value: T, rest: string)

  lemma Enclosed(open: string, inner: string, close: string, x: string)
    ensures (open + inner + close) + x == open + (inner + (close + x))
  {
    Associative(open + inner, close, x);
    Associative(open, inner, close + x);
  }

  // ----- numbers

  predicate StartsWithDigit(s: string) { s != "" && IsDigit(s[0]) }

  /** How many digits a text starts with. */
  function LeadingDigits(s: string): (n: nat)
    ensures n <= |s| && AllDigits(s[..n])
  {
    if StartsWithDigit(s) then
      var n := LeadingDigits(s[1..]);
      assert s[..n + 1] == [s[0]] + s[1..][..n];
      n + 1
    else 0
  }

  lemma {:induction false} DigitsEnd(s: string, x: string)
    requires AllDigits(s) && !StartsWithDigit(x)
    ensures LeadingDigits(s + x) == |s|
  {
    if s == "" {
      assert s + x == x;
    } else {
      assert (s + x)[0] == s[0] && (s + x)[1..] == s[1..] + x;
      DigitsEnd(s[1..], x);
    }
  }

  /** Digits without a leading zero, section 6 of RFC 8259; fractions and exponents are never written. */
  function ReadNatural(s: string): Option<Read<nat>> {
    var n := LeadingDigits(s);
    if n == 0 || (n > 1 && s[0] == '0') then None else Some(Read(DigitsValue(s[..n]), s[n..]))
  }

  lemma NaturalIsRead(n: nat, x: string)
    requires !StartsWithDigit(x)
    ensures ReadNatural(Decimal(n) + x) == Some(Read(n, x))
  {
    var s := Decimal(n);
    DigitsEnd(s, x);
    NoLeadingZero(n);
    DecimalValue(n);
    assert (s + x)[..|s|] == s && (s + x)[|s|..] == x;
    if n == 0 { assert s == "0"; }
  }

  // ----- strings

  function HexValue(c: char): Option<nat> {
    if '0' <= c <= '9' then Some(c as int - '0' as int)
    else if 'a' <= c <= 'f' then Some(c as int - 'a' as int + 10)
    else if 'A' <= c <= 'F' then Some(c as int - 'A' as int + 10)
    else None
  }

  /** The number of four hexadecimal digits. */
  function CodeOf(s: string): Option<nat>
    requires |s| == 4
  {
    match (HexValue(s[0]), HexValue(s[1]), HexValue(s[2]), HexValue(s[3]))
    case (Some(a), Some(b), Some(c), Some(d)) => Some(0x1000 * a + 0x100 * b + 0x10 * c + d)
    case _ => None
  }

  /** The character that a string starts with, and the length of its escape, section 7 of RFC 8259. */
  function Unescape(s: string): Option<(nat, char)>
    requires s != ""
  {
    if s[0] as int < 32 then None
    else if s[0] != '\\' then Some((1, s[0]))
    else if |s| < 2 then None
    else if s[1] == '"' || s[1] == '\\' || s[1] == '/' then Some((2, s[1]))
    else if s[1] == 'b' then Some((2, 8 as char))
    else if s[1] == 'f' then Some((2, 12 as char))
    else if s[1] == 'n' then Some((2, 10 as char))
    else if s[1] == 'r' then Some((2, 13 as char))
    else if s[1] == 't' then Some((2, 9 as char))
    else if s[1] == 'u' && |s| >= 6 && CodeOf(s[2..6]).Some? && CodeOf(s[2..6]).value < 0xD800 then
      Some((6, CodeOf(s[2..6]).value as char))
    else None
  }

  lemma HexRoundTrip(n: nat)
    requires n < 16
    ensures HexValue(HexDigit(n)) == Some(n)
  {
  }

  lemma EscapeIsRead(c: char, x: string)
    ensures Escape(c) != "" && Unescape(Escape(c) + x) == Some((|Escape(c)|, c))
  {
    var s := Escape(c) + x;
    assert forall i | 0 <= i < |Escape(c)| :: s[i] == Escape(c)[i];
    if c as int < 32 {
      HexRoundTrip(c as int / 16);
      HexRoundTrip(c as int % 16);
      assert |Escape(c)| == 6 ==> s[2..6] == "00" + [HexDigit(c as int / 16), HexDigit(c as int % 16)];
    }
  }

  lemma EscapeStart(c: char)
    ensures Escape(c) != "" && Escape(c)[0] != '"'
  {
  }

  /**
   * Only quotes, backslashes and control characters are escaped, in two characters if there is
   * such a form and otherwise as a number in lower case.
   */
  lemma EscapeShape(c: char)
    ensures var n := c as int;
            |Escape(c)| == if n in {34, 92, 8, 9, 10, 12, 13} then 2 else if n < 32 then 6 else 1
    ensures |Escape(c)| == 6 ==> forall i | 0 <= i < 6 :: !('A' <= Escape(c)[i] <= 'Z')
  {
  }

  /** The string after its opening quote, up to the closing one. */
  function ReadString(s: string): (r: Option<Read<string>>)
    ensures r.Some? ==> |r.value.rest| < |s|
    decreases |s|
  {
    if s == "" then None
    else if s[0] == '"' then Some(Read("", s[1..]))
    else
      match Unescape(s)
      case None => None
      case Some((n, c)) =>
        if n > |s| then None
        else
          match ReadString(s[n..])
          case None => None
          case Some(r) => Some(Read([c] + r.value, r.rest))
  }

  /** The escaped text before the closing quote. */
  function UpToQuote(s: string, x: string): string { EscapeAll(s) + ("\"" + x) }

  lemma QuoteIsFirst(s: string, x: string)
    ensures UpToQuote(s, x)[0] == '"' <==> s == ""
    ensures s == "" ==> UpToQuote(s, x) == "\"" + x
  {
    if s != "" {
      EscapeStart(s[0]);
      assert EscapeAll(s)[0] == Escape(s[0])[0];
    }
  }

  lemma FirstEscape(s: string, x: string)
    requires s != ""
    ensures UpToQuote(s, x) == Escape(s[0]) + UpToQuote(s[1..], x)
  {
    Associative(Escape(s[0]), EscapeAll(s[1..]), "\"" + x);
  }

  lemma {:induction false} StringIsRead(s: string, x: string)
    ensures ReadString(UpToQuote(s, x)) == Some(Read(s, x))
  {
    QuoteIsFirst(s, x);
    if s == "" {
      assert ("\"" + x)[1..] == x;
    } else {
      var text, rest := UpToQuote(s, x), UpToQuote(s[1..], x);
      FirstEscape(s, x);
      EscapeIsRead(s[0], rest);
      StringIsRead(s[1..], x);
      assert text[|Escape(s[0])|..] == rest;
      assert s == [s[0]] + s[1..];
    }
  }

  // ----- values

  /** What may follow a value inside a document. */
  predicate Follows(x: string) { x == "" || x[0] == ',' || x[0] == ']' || x[0] == '}' }

  predicate StartsWith(s: string, word: string) { |word| <= |s| && s[..|word|] == word }

  function ReadWord(s: string, word: string, j: Json): Option<Read<Json>> {
    if StartsWith(s, word) then Some(Read(j, s[|word|..])) else None
  }

  function ReadNumber(s: string): Option<Read<Json>> {
    if s != "" && s[0] == '-' then
      match ReadNatural(s[1..]) case None => None case Some(r) => Some(Read(Num(0 - r.value), r.rest))
    else
      match ReadNatural(s) case None => None case Some(r) => Some(Read(Num(r.value), r.rest))
  }

  /** The value that a text starts with, in the grammar of RFC 8259 without white space. */
  function ReadValue(s: string): (r: Option<Read<Json>>)
    ensures r.Some? ==> |r.value.rest| < |s|
    decreases |s|, 3
  {
    if s == "" then None else ReadKind(s)
  }

  /** The first character tells the kind of the value. */
  function ReadKind(s: string): (r: Option<Read<Json>>)
    requires s != ""
    ensures r.Some? ==> |r.value.rest| < |s|
    decreases |s|, 2
  {
    if s[0] == 'n' then ReadWord(s, "null", Null)
    else if s[0] == 't' then ReadWord(s, "true", Bool(true))
    else if s[0] == 'f' then ReadWord(s, "false", Bool(false))
    else if s[0] == '"' then
      match ReadString(s[1..]) case None => None case Some(r) => Some(Read(Str(r.value), r.rest))
    else if s[0] == '[' then ReadArray(s[1..])
    else if s[0] == '{' then ReadObject(s[1..])
    else ReadNumber(s)
  }

  /** An array after its opening bracket. */
  function ReadArray(s: string): (r: Option<Read<Json>>)
    ensures r.Some? ==> |r.value.rest| < |s|
    decreases |s|, 6
  {
    if StartsWith(s, "]") then Some(Read(Arr([]), s[1..]))
    else match ReadItems(s) case None => None case Some(r) => Some(Read(Arr(r.value), r.rest))
  }

  /** An object after its opening brace. */
  function ReadObject(s: string): (r: Option<Read<Json>>)
    ensures r.Some? ==> |r.value.rest| < |s|
    decreases |s|, 6
  {
    if StartsWith(s, "}") then Some(Read(Obj([]), s[1..]))
    else match ReadFields(s) case None => None case Some(r) => Some(Read(Obj(r.value), r.rest))
  }

  /** Items with commas between them, and the closing bracket. */
  function ReadItems(s: string): (r: Option<Read<seq<Json>>>)
    ensures r.Some? ==> |r.value.rest| < |s|
    decreases |s|, 5
  {
    match ReadValue(s)
    case None => None
    case Some(first) =>
      if StartsWith(first.rest, "]") then Some(Read([first.value], first.rest[1..]))
      else if StartsWith(first.rest, ",") then
        match ReadItems(first.rest[1..])
        case None => None
        case Some(others) => Some(Read([first.value] + others.value, others.rest))
      else None
  }

  /** A quoted name, a colon and a value. */
  function ReadField(s: string): (r: Option<Read<Field>>)
    ensures r.Some? ==> |r.value.rest| < |s|
    decreases |s|, 4
  {
    if s == "" || s[0] != '"' then None
    else
      match ReadString(s[1..])
      case None => None
      case Some(name) =>
        if !StartsWith(name.rest, ":") then None
        else
          match ReadValue(name.rest[1..])
          case None => None
          case Some(r) => Some(Read(Field(name.value, r.value), r.rest))
  }

  function ReadFields(s: string): (r: Option<Read<seq<Field>>>)
    ensures r.Some? ==> |r.value.rest| < |s|
    decreases |s|, 5
  {
    match ReadField(s)
    case None => None
    case Some(first) =>
      if StartsWith(first.rest, "}") then Some(Read([first.value], first.rest[1..]))
      else if StartsWith(first.rest, ",") then
        match ReadFields(first.rest[1..])
        case None => None
        case Some(others) => Some(Read([first.value] + others.value, others.rest))
      else None
  }

  // ----- what is printed

  /** No value starts with a closing bracket. */
  lemma PrintStarts(j: Json)
    ensures Print(j) != "" && Print(j)[0] != ']'
  {
  }

  /** The text after the first item. */
  function ItemsTail(items: seq<Json>): string { if items == [] then "" else "," + PrintItems(items) }

  lemma MoveTail(first: string, tail: string, last: string)
    ensures first + tail + "," + last == first + (tail + "," + last)
  {
    Associative(first, tail, ",");
    Associative(first, tail + ",", last);
  }

  lemma ItemsTailOfAppend(items: seq<Json>, j: Json)
    ensures ItemsTail(items + [j]) == ItemsTail(items) + "," + Print(j)
  {
    ItemsOfAppend(items, j);
    MoveTail(",", PrintItems(items), Print(j));
  }

  lemma {:induction false} ItemsFromFront(items: seq<Json>)
    requires items != []
    ensures PrintItems(items) == Print(items[0]) + ItemsTail(items[1..])
  {
    var n := |items| - 1;
    var init, last := items[..n], items[n];
    assert items == init + [last];
    ItemsOfAppend(init, last);
    if n > 0 {
      ItemsFromFront(init);
      assert items[1..] == init[1..] + [last];
      ItemsTailOfAppend(init[1..], last);
      MoveTail(Print(items[0]), ItemsTail(init[1..]), Print(last));
    }
  }

  function FieldsTail(fields: seq<Field>): string { if fields == [] then "" else "," + PrintFields(fields) }

  lemma PrintFieldsOfAppend(fields: seq<Field>, f: Field)
    ensures PrintFields(fields + [f]) == (if fields == [] then "" else PrintFields(fields) + ",") + FieldText(f)
  {
    FieldsOfAppend(fields, f);
    var front := if fields == [] then "" else PrintFields(fields) + ",";
    Associative(front, Quote(f.name), ":");
    Associative(front, Quote(f.name) + ":", Print(f.value));
  }

  lemma FieldsTailOfAppend(fields: seq<Field>, f: Field)
    ensures FieldsTail(fields + [f]) == FieldsTail(fields) + "," + FieldText(f)
  {
    PrintFieldsOfAppend(fields, f);
    MoveTail(",", PrintFields(fields), FieldText(f));
  }

  lemma {:induction false} FieldsFromFront(fields: seq<Field>)
    requires fields != []
    ensures PrintFields(fields) == FieldText(fields[0]) + FieldsTail(fields[1..])
  {
    var n := |fields| - 1;
    var init, last := fields[..n], fields[n];
    assert fields == init + [last];
    PrintFieldsOfAppend(init, last);
    if n > 0 {
      FieldsFromFront(init);
      assert fields[1..] == init[1..] + [last];
      FieldsTailOfAppend(init[1..], last);
      MoveTail(FieldText(fields[0]), FieldsTail(init[1..]), FieldText(last));
    }
  }

  // ----- where a value ends

  /** The text up to the closing bracket. */
  function UpToBracket(items: seq<Json>, x: string): string { PrintItems(items) + ("]" + x) }

  function TailToBracket(items: seq<Json>, x: string): string { ItemsTail(items) + ("]" + x) }

  lemma BracketIsFirst(items: seq<Json>, x: string)
    ensures UpToBracket(items, x)[0] == ']' <==> items == []
    ensures items == [] ==> UpToBracket(items, x) == "]" + x
  {
    if items != [] {
      ItemsFromFront(items);
      PrintStarts(items[0]);
    }
  }

  lemma FirstItem(items: seq<Json>, x: string)
    requires items != []
    ensures UpToBracket(items, x) == Print(items[0]) + TailToBracket(items[1..], x)
  {
    ItemsFromFront(items);
    Associative(Print(items[0]), ItemsTail(items[1..]), "]" + x);
  }

  lemma CommaIsFirst(items: seq<Json>, x: string)
    ensures TailToBracket(items, x)[0] == ',' <==> items != []
    ensures items != [] ==> TailToBracket(items, x) == "," + UpToBracket(items, x)
    ensures items == [] ==> TailToBracket(items, x) == "]" + x
    ensures Follows(TailToBracket(items, x))
  {
    if items != [] { Associative(",", PrintItems(items), "]" + x); }
  }

  function UpToBrace(fields: seq<Field>, x: string): string { PrintFields(fields) + ("}" + x) }

  function TailToBrace(fields: seq<Field>, x: string): string { FieldsTail(fields) + ("}" + x) }

  lemma BraceIsFirst(fields: seq<Field>, x: string)
    ensures UpToBrace(fields, x)[0] == '}' <==> fields == []
    ensures fields == [] ==> UpToBrace(fields, x) == "}" + x
  {
    if fields != [] { FieldsFromFront(fields); }
  }

  lemma FirstField(fields: seq<Field>, x: string)
    requires fields != []
    ensures UpToBrace(fields, x)
         == Quote(fields[0].name) + (":" + (Print(fields[0].value) + TailToBrace(fields[1..], x)))
  {
    var name, value, tail := Quote(fields[0].name), Print(fields[0].value), TailToBrace(fields[1..], x);
    FieldsFromFront(fields);
    Associative(FieldText(fields[0]), FieldsTail(fields[1..]), "}" + x);
    Associative(name + ":", value, tail);
    Associative(name, ":", value + tail);
  }

  lemma FieldCommaIsFirst(fields: seq<Field>, x: string)
    ensures TailToBrace(fields, x)[0] == ',' <==> fields != []
    ensures fields != [] ==> TailToBrace(fields, x) == "," + UpToBrace(fields, x)
    ensures fields == [] ==> TailToBrace(fields, x) == "}" + x
    ensures Follows(TailToBrace(fields, x))
  {
    if fields != [] { Associative(",", PrintFields(fields), "}" + x); }
  }

  // ----- what is printed is read back

  lemma WordIsRead(word: string, j: Json, x: string)
    ensures ReadWord(word + x, word, j) == Some(Read(j, x))
    ensures word != "" ==> (word + x)[0] == word[0]
  {
    assert (word + x)[..|word|] == word && (word + x)[|word|..] == x;
  }

  lemma NegativeIsRead(s: string, n: nat, x: string)
    requires s != "" && s[0] == '-' && ReadNatural(s[1..]) == Some(Read(n, x))
    ensures ReadValue(s) == Some(Read(Num(-(n as int)), x))
  {
    assert ReadNumber(s) == Some(Read(Num(0 - n), x));
  }

  lemma PositiveIsRead(s: string, n: nat, x: string)
    requires s != "" && IsDigit(s[0]) && ReadNatural(s) == Some(Read(n, x))
    ensures ReadValue(s) == Some(Read(Num(n), x))
  {
    assert ReadNumber(s) == Some(Read(Num(n), x));
  }

  lemma NumberIsRead(n: int, x: string)
    requires Follows(x)
    ensures ReadValue(Print(Num(n)) + x) == Some(Read(Num(n), x))
  {
    if n < 0 {
      Associative("-", Decimal(-n), x);
      NaturalIsRead(-n, x);
      AfterOpening("-", Decimal(-n) + x);
      NegativeIsRead("-" + (Decimal(-n) + x), -n, x);
    } else {
      NaturalIsRead(n, x);
      assert (Decimal(n) + x)[0] == Decimal(n)[0];
      PositiveIsRead(Decimal(n) + x, n, x);
    }
  }

  lemma QuotedIsRead(s: string, x: string)
    ensures Quote(s) + x == "\"" + UpToQuote(s, x)
    ensures (Quote(s) + x)[1..] == UpToQuote(s, x) && (Quote(s) + x)[0] == '"'
    ensures ReadString(UpToQuote(s, x)) == Some(Read(s, x))
  {
    Enclosed("\"", EscapeAll(s), "\"", x);
    StringIsRead(s, x);
  }

  /** The words and numbers, which have no parts. */
  lemma PlainIsRead(j: Json, x: string)
    requires Follows(x) && (j.Null? || j.Bool? || j.Num?)
    ensures ReadValue(Print(j) + x) == Some(Read(j, x))
  {
    match j
    case Null => WordIsRead("null", j, x);
    case Bool(b) => WordIsRead(if b then "true" else "false", j, x);
    case Num(n) => NumberIsRead(n, x);
  }

  lemma AfterOpening(open: string, inner: string)
    requires |open| == 1
    ensures (open + inner)[0] == open[0] && (open + inner)[1..] == inner
  {
  }

  /** A printed value is read back, whatever follows it in a document. */
  lemma {:induction false} ValueIsRead(j: Json, x: string)
    requires Follows(x)
    ensures ReadValue(Print(j) + x) == Some(Read(j, x))
    decreases j, 0
  {
    match j
    case Str(s) => QuotedIsRead(s, x);
    case Arr(items) =>
      Enclosed("[", PrintItems(items), "]", x);
      AfterOpening("[", UpToBracket(items, x));
      ArrayIsRead(items, x);
    case Obj(fields) =>
      Enclosed("{", PrintFields(fields), "}", x);
      AfterOpening("{", UpToBrace(fields, x));
      ObjectIsRead(fields, x);
    case _ => PlainIsRead(j, x);
  }

  lemma {:induction false} ArrayIsRead(items: seq<Json>, x: string)
    ensures ReadArray(UpToBracket(items, x)) == Some(Read(Arr(items), x))
    decreases items, 2
  {
    BracketIsFirst(items, x);
    if items == [] {
      AfterOpening("]", x);
    } else {
      ItemsAreRead(items, x);
    }
  }

  lemma LastItemIsRead(s: string, j: Json, x: string)
    requires ReadValue(s) == Some(Read(j, "]" + x))
    ensures ReadItems(s) == Some(Read([j], x))
  {
    AfterOpening("]", x);
  }

  lemma FirstItemIsRead(s: string, j: Json, rest: string, others: seq<Json>, x: string)
    requires ReadValue(s) == Some(Read(j, "," + rest)) && ReadItems(rest) == Some(Read(others, x))
    ensures ReadItems(s) == Some(Read([j] + others, x))
  {
    AfterOpening(",", rest);
  }

  lemma {:induction false} ItemsAreRead(items: seq<Json>, x: string)
    requires items != []
    ensures ReadItems(UpToBracket(items, x)) == Some(Read(items, x))
    decreases items, 1
  {
    var others := items[1..];
    FollowsItem(others, x);
    ValueIsRead(items[0], TailToBracket(others, x));
    if others != [] { ItemsAreRead(others, x); }
    ItemsStep(items, others, x);
  }

  lemma FollowsItem(items: seq<Json>, x: string)
    ensures Follows(TailToBracket(items, x))
  {
    CommaIsFirst(items, x);
  }

  lemma ItemsStep(items: seq<Json>, others: seq<Json>, x: string)
    requires items != [] && others == items[1..]
    requires ReadValue(Print(items[0]) + TailToBracket(others, x)) == Some(Read(items[0], TailToBracket(others, x)))
    requires others != [] ==> ReadItems(UpToBracket(others, x)) == Some(Read(others, x))
    ensures ReadItems(UpToBracket(items, x)) == Some(Read(items, x))
  {
    FirstItem(items, x);
    CommaIsFirst(others, x);
    ItemThenOthers(UpToBracket(items, x), items[0], TailToBracket(others, x), UpToBracket(others, x), others, x, items);
  }

  /** One item, and then the closing bracket or a comma and the others. */
  lemma ItemThenOthers(s: string, first: Json, tail: string, rest: string, others: seq<Json>, x: string,
                       items: seq<Json>)
    requires ReadValue(s) == Some(Read(first, tail)) && items == [first] + others
    requires tail == if others == [] then "]" + x else "," + rest
    requires others != [] ==> ReadItems(rest) == Some(Read(others, x))
    ensures ReadItems(s) == Some(Read(items, x))
  {
    if others == [] {
      LastItemIsRead(s, first, x);
      assert items == [first];
    } else {
      FirstItemIsRead(s, first, rest, others, x);
    }
  }

  lemma {:induction false} ObjectIsRead(fields: seq<Field>, x: string)
    ensures ReadObject(UpToBrace(fields, x)) == Some(Read(Obj(fields), x))
    decreases fields, 2
  {
    BraceIsFirst(fields, x);
    if fields == [] {
      AfterOpening("}", x);
    } else {
      FieldsAreRead(fields, x);
    }
  }

  lemma FieldIsRead(f: Field, x: string)
    requires ReadValue(Print(f.value) + x) == Some(Read(f.value, x))
    ensures ReadField(Quote(f.name) + (":" + (Print(f.value) + x))) == Some(Read(f, x))
  {
    QuotedIsRead(f.name, ":" + (Print(f.value) + x));
    AfterOpening(":", Print(f.value) + x);
  }

  lemma LastFieldIsRead(s: string, f: Field, x: string)
    requires ReadField(s) == Some(Read(f, "}" + x))
    ensures ReadFields(s) == Some(Read([f], x))
  {
    AfterOpening("}", x);
  }

  lemma FirstFieldIsRead(s: string, f: Field, rest: string, others: seq<Field>, x: string)
    requires ReadField(s) == Some(Read(f, "," + rest)) && ReadFields(rest) == Some(Read(others, x))
    ensures ReadFields(s) == Some(Read([f] + others, x))
  {
    AfterOpening(",", rest);
  }

  lemma {:induction false} FieldsAreRead(fields: seq<Field>, x: string)
    requires fields != []
    ensures ReadFields(UpToBrace(fields, x)) == Some(Read(fields, x))
    decreases fields, 1
  {
    var others := fields[1..];
    FollowsField(others, x);
    ValueIsRead(fields[0].value, TailToBrace(others, x));
    if others != [] { FieldsAreRead(others, x); }
    FieldsStep(fields, others, x);
  }

  lemma FollowsField(fields: seq<Field>, x: string)
    ensures Follows(TailToBrace(fields, x))
  {
    FieldCommaIsFirst(fields, x);
  }

  lemma FieldsStep(fields: seq<Field>, others: seq<Field>, x: string)
    requires fields != [] && others == fields[1..]
    requires var tail := TailToBrace(others, x);
             ReadValue(Print(fields[0].value) + tail) == Some(Read(fields[0].value, tail))
    requires others != [] ==> ReadFields(UpToBrace(others, x)) == Some(Read(others, x))
    ensures ReadFields(UpToBrace(fields, x)) == Some(Read(fields, x))
  {
    FieldIsRead(fields[0], TailToBrace(others, x));
    FirstField(fields, x);
    FieldCommaIsFirst(others, x);
    FieldThenOthers(UpToBrace(fields, x), fields[0], TailToBrace(others, x), UpToBrace(others, x), others, x, fields);
  }

  lemma FieldThenOthers(s: string, first: Field, tail: string, rest: string, others: seq<Field>, x: string,
                        fields: seq<Field>)
    requires ReadField(s) == Some(Read(first, tail)) && fields == [first] + others
    requires tail == if others == [] then "}" + x else "," + rest
    requires others != [] ==> ReadFields(rest) == Some(Read(others, x))
    ensures ReadFields(s) == Some(Read(fields, x))
  {
    if others == [] {
      LastFieldIsRead(s, first, x);
      assert fields == [first];
    } else {
      FirstFieldIsRead(s, first, rest, others, x);
    }
  }

  /** Reading a whole text. */
  function ReadText(s: string): Option<Json> {
    match ReadValue(s)
    case Some(r) => if r.rest == "" then Some(r.value) else None
    case None => None
  }

  /** The text of a value is read back as that value. */
  lemma TextReadsBack(j: Json)
    ensures ReadText(Print(j)) == Some(j)
  {
    ValueIsRead(j, "");
    assert Print(j) + "" == Print(j);
  }

  /** So different values have different texts. */
  lemma TextDeterminesValue(a: Json, b: Json)
    ensures Print(a) == Print(b) <==> a == b
  {
    TextReadsBack(a);
    TextReadsBack(b);
  }

  // ----- bytes

  /** The lead byte tells the length of the encoding of a character. */
  function EncodedLength(lead: byte): nat {
    if lead < 0x80 then 1 else if lead < 0xE0 then 2 else if lead < 0xF0 then 3 else 4
  }

  lemma LeadTellsLength(c: char)
    ensures EncodeChar(c) != [] && |EncodeChar(c)| == EncodedLength(EncodeChar(c)[0])
  {
  }

  /** The code point that one to four bytes stand for. */
  function CodePoint(bytes: seq<byte>): int {
    if |bytes| == 1 then bytes[0]
    else if |bytes| == 2 then Shifted(bytes, 0, 0xC0, 0x40) + Shifted(bytes, 1, 0x80, 1)
    else if |bytes| == 3 then
      Shifted(bytes, 0, 0xE0, 0x1000) + Shifted(bytes, 1, 0x80, 0x40) + Shifted(bytes, 2, 0x80, 1)
    else if |bytes| == 4 then
      Shifted(bytes, 0, 0xF0, 0x40000) + Shifted(bytes, 1, 0x80, 0x1000)
      + Shifted(bytes, 2, 0x80, 0x40) + Shifted(bytes, 3, 0x80, 1)
    else 0
  }

  /** The payload of one byte at its place. */
  function Shifted(bytes: seq<byte>, i: nat, mark: int, place: int): int
    requires i < |bytes|
  {
    (bytes[i] as int - mark) * place
  }

  lemma DivisionSplits(n: nat, place: nat)
    requires place > 0
    ensures n / place == 0x40 * (n / place / 0x40) + n / place % 0x40
  {
  }

  lemma NestedDivision(n: nat)
    ensures n / 0x40 / 0x40 == n / 0x1000 && n / 0x1000 / 0x40 == n / 0x40000
  {
  }

  lemma CodePointOfChar(c: char)
    ensures CodePoint(EncodeChar(c)) == c as int
  {
    DivisionSplits(c as int, 0x40);
    DivisionSplits(c as int, 0x1000);
    NestedDivision(c as int);
  }

  /** The table in section 3 of RFC 3629: the shortest form, and continuation bytes after the first. */
  lemma Utf8Shape(c: char)
    ensures var n, bytes := c as int, EncodeChar(c);
            && |bytes| == (if n < 128 then 1 else if n < 2048 then 2 else if n < 65536 then 3 else 4)
            && forall i | 0 < i < |bytes| :: 128 <= bytes[i] as int <= 191
  {
  }

  predicate IsCharacter(n: int) { 0 <= n < 0xD800 || 0xE000 <= n < 0x110000 }

  function ReadUtf8(bytes: seq<byte>): Option<string>
    decreases |bytes|
  {
    if bytes == [] then Some("")
    else
      var n := EncodedLength(bytes[0]);
      if n > |bytes| || !IsCharacter(CodePoint(bytes[..n])) then None
      else
        match ReadUtf8(bytes[n..])
        case None => None
        case Some(s) => Some([CodePoint(bytes[..n]) as char] + s)
  }

  /** The bytes of a text are read back as that text. */
  lemma {:induction false} Utf8ReadsBack(s: string)
    ensures ReadUtf8(Encode(s)) == Some(s)
  {
    if s != "" {
      var first, rest := EncodeChar(s[0]), Encode(s[1..]);
      LeadTellsLength(s[0]);
      CodePointOfChar(s[0]);
      Utf8ReadsBack(s[1..]);
      assert (first + rest)[0] == first[0];
      assert (first + rest)[..|first|] == first && (first + rest)[|first|..] == rest;
      assert s == [s[0]] + s[1..];
    }
  }

  function ReadBytes(bytes: seq<byte>): Option<Json> {
    match ReadUtf8(bytes)
    case Some(s) => ReadText(s)
    case None => None
  }

  /** A document is read back from its bytes. */
  lemma BytesReadBack(j: Json)
    ensures ReadBytes(Encode(Print(j))) == Some(j)
  {
    Utf8ReadsBack(Print(j));
    TextReadsBack(j);
  }

  /** So the bytes of a document determine it. */
  lemma BytesDetermineValue(a: Json, b: Json)
    ensures Encode(Print(a)) == Encode(Print(b)) <==> a == b
  {
    BytesReadBack(a);
    BytesReadBack(b);
  }
}
