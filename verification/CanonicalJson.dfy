/** The JSON text that `JSON.stringify` prints for nested arrays of strings, natural
    numbers and null, and that no two different values share. */
module CanonicalJson {

  datatype Json = Null | Number(n: nat) | Text(text: string) | Array(items: Items)

  datatype Items = Nil | Cons(head: Json, tail: Items)

  function List(values: seq<Json>): Items {
    if values == [] then Nil else Cons(values[0], List(values[1..]))
  }

  lemma {:induction false} ListInjective(a: seq<Json>, b: seq<Json>)
    requires List(a) == List(b)
    ensures a == b
  {
    if a != [] && b != [] {
      ListInjective(a[1..], b[1..]);
      assert a == [a[0]] + a[1..] && b == [b[0]] + b[1..];
    }
  }

  // ----- printing -----

  predicate IsDigit(c: char) { '0' <= c <= '9' }

  function Digit(d: nat): char
    requires d < 10
  {
    '0' + d as char
  }

  function Decimal(n: nat): (text: string)
    ensures text != [] && forall c <- text :: IsDigit(c)
  {
    if n < 10 then [Digit(n)] else Decimal(n / 10) + [Digit(n % 10)]
  }

  function Hex(d: nat): char
    requires d < 16
  {
    if d < 10 then '0' + d as char else 'a' + (d - 10) as char
  }

  function Escaped(c: char): (text: string)
    ensures text != []
  {
    if c == '"' then "\\\""
    else if c == '\\' then "\\\\"
    else if c as int == 8 then "\\b"
    else if c as int == 9 then "\\t"
    else if c as int == 10 then "\\n"
    else if c as int == 12 then "\\f"
    else if c as int == 13 then "\\r"
    else if c as int < 32 then "\\u00" + [Hex(c as int / 16), Hex(c as int % 16)]
    else [c]
  }

  /** A string's characters and its closing quote, then `rest`. */
  function Quoted(text: string, rest: string): string {
    if text == [] then "\"" + rest else Escaped(text[0]) + Quoted(text[1..], rest)
  }

  /** The text of a value, then `rest`. */
  function PrintTo(j: Json, rest: string): string {
    match j
    case Null => "null" + rest
    case Number(n) => Decimal(n) + rest
    case Text(text) => "\"" + Quoted(text, rest)
    case Array(Nil) => "[]" + rest
    case Array(Cons(head, tail)) => "[" + PrintTo(head, TailTo(tail, rest))
  }

  function TailTo(items: Items, rest: string): string {
    match items
    case Nil => "]" + rest
    case Cons(head, tail) => "," + PrintTo(head, TailTo(tail, rest))
  }

  function Print(j: Json): string { PrintTo(j, "") }

  // ----- reading back, one piece at a time -----

  function Value(digits: string): int {
    if digits == [] then 0 else Value(digits[..|digits| - 1]) * 10 + (digits[|digits| - 1] as int - '0' as int)
  }

  lemma {:induction false} ValueOfDecimal(n: nat)
    ensures Value(Decimal(n)) == n
  {
    if n >= 10 {
      ValueOfDecimal(n / 10);
      var text := Decimal(n);
      assert text[..|text| - 1] == Decimal(n / 10);
    }
  }

  /** Whether what follows a number ends it. */
  predicate Ends(rest: string) { rest == [] || !IsDigit(rest[0]) }

  function Span(text: string): nat {
    if Ends(text) then 0 else 1 + Span(text[1..])
  }

  lemma {:induction false} SpanOfDigits(digits: string, rest: string)
    requires (forall c <- digits :: IsDigit(c)) && Ends(rest)
    ensures Span(digits + rest) == |digits|
  {
    if digits == [] {
      assert digits + rest == rest;
    } else {
      assert (digits + rest)[1..] == digits[1..] + rest;
      SpanOfDigits(digits[1..], rest);
    }
  }

  lemma SameDecimal(a: nat, b: nat, x: string, y: string)
    requires Decimal(a) + x == Decimal(b) + y && Ends(x) && Ends(y)
    ensures a == b && x == y
  {
    SpanOfDigits(Decimal(a), x);
    SpanOfDigits(Decimal(b), y);
    var n := |Decimal(a)|;
    assert (Decimal(a) + x)[..n] == Decimal(a) && (Decimal(b) + y)[..n] == Decimal(b);
    assert (Decimal(a) + x)[n..] == x && (Decimal(b) + y)[n..] == y;
    ValueOfDecimal(a);
    ValueOfDecimal(b);
  }

  lemma Dropped(c: char, x: string, y: string)
    requires [c] + x == [c] + y
    ensures x == y
  {
    assert ([c] + x)[1..] == x && ([c] + y)[1..] == y;
  }

  /** One escape tells its character, and where it ends. */
  lemma SameEscape(c: char, d: char, x: string, y: string)
    requires Escaped(c) + x == Escaped(d) + y
    ensures c == d && x == y
  {
    var a, b := Escaped(c) + x, Escaped(d) + y;
    assert a[0] == Escaped(c)[0] && b[0] == Escaped(d)[0];
    if a[0] == '\\' {
      assert a[1] == Escaped(c)[1] && b[1] == Escaped(d)[1];
      if a[1] == 'u' {
        assert a[4] == Escaped(c)[4] && b[4] == Escaped(d)[4];
        assert a[5] == Escaped(c)[5] && b[5] == Escaped(d)[5];
      }
    }
    assert a[|Escaped(c)|..] == x && b[|Escaped(d)|..] == y;
  }

  lemma QuotedStarts(text: string, rest: string)
    ensures var q := Quoted(text, rest); q != [] && (q[0] == '"' <==> text == [])
  {
  }

  lemma {:induction false} SameQuoted(a: string, b: string, x: string, y: string)
    requires Quoted(a, x) == Quoted(b, y)
    ensures a == b && x == y
  {
    QuotedStarts(a, x);
    QuotedStarts(b, y);
    if a == [] {
      Dropped('"', x, y);
    } else {
      hide Escaped;
      SameEscape(a[0], b[0], Quoted(a[1..], x), Quoted(b[1..], y));
      SameQuoted(a[1..], b[1..], x, y);
      assert a == [a[0]] + a[1..] && b == [b[0]] + b[1..];
    }
  }

  /** The first character of a printed value tells what kind it is. */
  lemma FirstTells(j: Json, rest: string)
    ensures PrintTo(j, rest) != []
    ensures var c := PrintTo(j, rest)[0];
      && (c == 'n' <==> j.Null?) && (IsDigit(c) <==> j.Number?) && (c == '"' <==> j.Text?) && (c == '[' <==> j.Array?)
      && c != ']' && c != ','
  {
    if j.Number? {
      assert PrintTo(j, rest)[0] == Decimal(j.n)[0] && Decimal(j.n)[0] in Decimal(j.n);
    }
  }

  /** A value's text and what follows it, when that ends a number, read back in one way. */
  lemma {:induction false} SamePrint(a: Json, b: Json, x: string, y: string)
    requires PrintTo(a, x) == PrintTo(b, y) && Ends(x) && Ends(y)
    ensures a == b && x == y
    decreases a, 1
  {
    FirstTells(a, x);
    FirstTells(b, y);
    match a
    case Null =>
      assert ("null" + x)[4..] == x && ("null" + y)[4..] == y;
    case Number(n) =>
      SameDecimal(n, b.n, x, y);
    case Text(text) =>
      Dropped('"', Quoted(text, x), Quoted(b.text, y));
      SameQuoted(text, b.text, x, y);
    case Array(_) =>
      SameArray(a, b, x, y);
  }

  lemma {:induction false} SameArray(a: Json, b: Json, x: string, y: string)
    requires a.Array? && b.Array? && PrintTo(a, x) == PrintTo(b, y)
    requires Ends(x) && Ends(y)
    ensures a == b && x == y
    decreases a, 0
  {
    SecondTells(a, x);
    SecondTells(b, y);
    match a.items
    case Nil =>
      assert ("[]" + x)[2..] == x && ("[]" + y)[2..] == y;
    case Cons(head, tail) =>
      Dropped('[', PrintTo(head, TailTo(tail, x)), PrintTo(b.items.head, TailTo(b.items.tail, y)));
      SamePrint(head, b.items.head, TailTo(tail, x), TailTo(b.items.tail, y));
      SameTail(tail, b.items.tail, x, y);
  }

  /** The second character of an array tells whether it is empty. */
  lemma SecondTells(j: Json, rest: string)
    requires j.Array?
    ensures |PrintTo(j, rest)| > 1 && (PrintTo(j, rest)[1] == ']' <==> j.items.Nil?)
  {
    if j.items.Cons? {
      FirstTells(j.items.head, TailTo(j.items.tail, rest));
      assert PrintTo(j, rest)[1] == PrintTo(j.items.head, TailTo(j.items.tail, rest))[0];
    }
  }

  lemma {:induction false} SameTail(a: Items, b: Items, x: string, y: string)
    requires TailTo(a, x) == TailTo(b, y) && Ends(x) && Ends(y)
    ensures a == b && x == y
    decreases a
  {
    assert TailTo(a, x)[0] == (if a.Nil? then ']' else ',') && TailTo(b, y)[0] == (if b.Nil? then ']' else ',');
    match a
    case Nil =>
      Dropped(']', x, y);
    case Cons(head, tail) =>
      Dropped(',', PrintTo(head, TailTo(tail, x)), PrintTo(b.head, TailTo(b.tail, y)));
      SamePrint(head, b.head, TailTo(tail, x), TailTo(b.tail, y));
      SameTail(tail, b.tail, x, y);
  }

  /** No two values print the same. */
  lemma PrintInjective(a: Json, b: Json)
    requires Print(a) == Print(b)
    ensures a == b
  {
    SamePrint(a, b, "", "");
  }
}
