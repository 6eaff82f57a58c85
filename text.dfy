/** Text building: Kotlin's `StringBuilder` (appended in place and shared between
    printers), the platform line separator, `joinToString`, and decimal rendering of
    integers. */
module Text {

  /** `System.lineSeparator()`, taken as a constant. */
  const LineSeparator: string := "\n"

  /** `kotlin.text.StringBuilder`: a growing text. */
  class StringBuilder {
    var text: string

    constructor ()
      ensures text == ""
    {
      text := "";
    }

    /** `append(s)` */
    method Append(s: string)
      modifies this
      ensures text == old(text) + s
    {
      text := text + s;
    }

    /** `appendln()` */
    method AppendNewLine()
      modifies this
      ensures text == old(text) + LineSeparator
    {
      text := text + LineSeparator;
    }

    /** `appendln(s)` */
    method AppendLine(s: string)
      modifies this
      ensures text == old(text) + s + LineSeparator
    {
      text := text + s + LineSeparator;
    }
  }

  /** `joinToString(separator)`: the items with `separator` between neighbours. */
  function Join(items: seq<string>, separator: string): (r: string)
    ensures items == [] ==> r == ""
  {
    if items == [] then ""
    else if |items| == 1 then items[0]
    else items[0] + separator + Join(items[1..], separator)
  }

  /** The items one after the other. */
  function Concat(items: seq<string>): string {
    if items == [] then "" else items[0] + Concat(items[1..])
  }

  /** Appending one more item to a non-empty list appends the separator and the item. */
  lemma {:induction false} JoinSnoc(items: seq<string>, item: string, separator: string)
    requires items != []
    ensures Join(items + [item], separator) == Join(items, separator) + separator + item
  {
    if |items| == 1 {
      assert items + [item] == [items[0], item];
      assert [items[0], item][1..] == [item];
    } else {
      assert (items + [item])[1..] == items[1..] + [item];
      JoinSnoc(items[1..], item, separator);
    }
  }

  /** Two items joined are the first, the separator and the second. */
  lemma JoinPair(a: string, b: string, separator: string)
    ensures Join([a, b], separator) == a + separator + b
  {
    assert [a, b][1..] == [b];
  }

  /** Concatenation distributes over appending lists. */
  lemma {:induction false} ConcatAppend(a: seq<string>, b: seq<string>)
    ensures Concat(a + b) == Concat(a) + Concat(b)
  {
    if a == [] {
      assert a + b == b;
    } else {
      assert (a + b)[1..] == a[1..] + b;
      ConcatAppend(a[1..], b);
    }
  }

  /** Appending two texts one after the other is appending their concatenation. */
  lemma AppendAssociative(s: string, a: string, b: string)
    ensures s + a + b == s + (a + b)
  {
  }

  /** Three texts appended one after the other are their concatenation appended at once. */
  lemma AppendThree(s: string, a: string, b: string, c: string)
    ensures s + a + b + c == s + (a + b + c)
  {
  }

  /** Four texts appended one after the other are their concatenation appended at once. */
  lemma AppendFour(s: string, a: string, b: string, c: string, d: string)
    ensures s + a + b + c + d == s + (a + b + c + d)
  {
  }

  /** The decimal digit for `d`. */
  function Digit(d: int): char
    requires 0 <= d < 10
  {
    "0123456789"[d]
  }

  /** `Int.toString()` for a non-negative value: decimal digits, no leading zero. */
  function NatToString(n: nat): (r: string)
    ensures |r| >= 1 && forall i :: 0 <= i < |r| ==> '0' <= r[i] <= '9'
    ensures |r| == 1 <==> n < 10
  {
    if n < 10 then [Digit(n)] else NatToString(n / 10) + [Digit(n % 10)]
  }

  /** `Int.toString()` / `Long.toString()`: a minus sign, then the digits of the magnitude. */
  function IntToString(i: int): string {
    if i < 0 then "-" + NatToString(-i) else NatToString(i)
  }

  /** Different non-negative numbers have different decimal renderings. */
  lemma {:induction false} NatToStringInjective(m: nat, n: nat)
    requires NatToString(m) == NatToString(n)
    ensures m == n
  {
    if 10 <= m {
      var r := NatToString(m);
      var a, b := NatToString(m / 10), NatToString(n / 10);
      assert r == a + [Digit(m % 10)] == b + [Digit(n % 10)];
      assert a == r[..|r| - 1] == b;
      NatToStringInjective(m / 10, n / 10);
    }
  }

  /** A rendering starts with a minus sign exactly when the number is negative. */
  lemma IntToStringSign(i: int)
    ensures |IntToString(i)| >= 1
    ensures IntToString(i)[0] == '-' <==> i < 0
  {
  }

  /** Different integers have different decimal renderings. */
  lemma IntToStringInjective(i: int, j: int)
    requires IntToString(i) == IntToString(j)
    ensures i == j
  {
    IntToStringSign(i);
    IntToStringSign(j);
    if i < 0 {
      assert NatToString(-i) == IntToString(i)[1..] == NatToString(-j);
      NatToStringInjective(-i, -j);
    } else {
      NatToStringInjective(i, j);
    }
  }
}
