/**
 * The item columns of the printed receipt and of the kitchen order ticket
 * (`generateHardcodedReceipt`, main.js:980-987): a 14-character name
 * column, a 3-character quantity column and, on the receipt only, an
 * 8-character price column with two decimals. Prices are whole paise so
 * that two-decimal rendering is exact.
 */
module Receipt {

  const NameWidth := 14
  const QtyWidth := 3
  const PriceWidth := 8

  function Spaces(k: nat): (r: string)
    ensures |r| == k && forall i :: 0 <= i < k ==> r[i] == ' '
  {
    seq(k, _ => ' ')
  }

  /** `String.prototype.padStart` with spaces: never truncates. */
  function PadStart(s: string, n: nat): (r: string)
    ensures |s| >= n ==> r == s
    ensures |s| < n ==> |r| == n && r[n - |s|..] == s && r[..n - |s|] == Spaces(n - |s|)
  {
    if |s| >= n then s else Spaces(n - |s|) + s
  }

  /** `String.prototype.padEnd` with spaces: never truncates. */
  function PadEnd(s: string, n: nat): (r: string)
    ensures |s| >= n ==> r == s
    ensures |s| < n ==> |r| == n && r[..|s|] == s && r[|s|..] == Spaces(n - |s|)
  {
    if |s| >= n then s else s + Spaces(n - |s|)
  }

  /** `substring(0, n)`. */
  function Take(s: string, n: nat): (r: string)
    ensures |r| == if |s| <= n then |s| else n
    ensures r == s[..|r|]
  {
    if |s| <= n then s else s[..n]
  }

  predicate IsDigit(c: char)
  {
    '0' <= c <= '9'
  }

  function DigitValue(c: char): nat
  {
    if IsDigit(c) then (c as int - 48) as nat else 0
  }

  function Digit(d: nat): (c: char)
    requires d < 10
    ensures IsDigit(c) && DigitValue(c) == d
  {
    (48 + d) as char
  }

  /** `Number.prototype.toString()` of a non-negative integer. */
  function NatToString(n: nat): (r: string)
    ensures |r| >= 1 && (forall i :: 0 <= i < |r| ==> IsDigit(r[i]))
    ensures r[0] == '0' ==> n == 0
    decreases n
  {
    if n < 10 then [Digit(n)] else NatToString(n / 10) + [Digit(n % 10)]
  }

  /** Reads a run of decimal digits. */
  function ParseNat(s: string): nat
    decreases |s|
  {
    if s == [] then 0 else ParseNat(s[..|s| - 1]) * 10 + DigitValue(s[|s| - 1])
  }

  lemma {:induction false} ParseNatToString(n: nat)
    ensures ParseNat(NatToString(n)) == n
    decreases n
  {
    var r := NatToString(n);
    if n < 10 {
      assert r[..0] == [];
    } else {
      var a := NatToString(n / 10);
      assert r[..|r| - 1] == a;
      ParseNatToString(n / 10);
    }
  }

  function Pow10(k: nat): nat
  {
    if k == 0 then 1 else 10 * Pow10(k - 1)
  }

  /** A number below 10^k has at most k digits. */
  lemma {:induction false} DigitCount(n: nat, k: nat)
    requires 1 <= k && n < Pow10(k)
    ensures |NatToString(n)| <= k
    decreases k
  {
    if n >= 10 {
      assert k > 1;
      DigitCount(n / 10, k - 1);
    }
  }

  /** `toFixed(2)` of `paise / 100`. */
  function Fixed2(paise: nat): (r: string)
    ensures |r| >= 4 && r[|r| - 3] == '.'
    ensures forall i :: 0 <= i < |r| && i != |r| - 3 ==> IsDigit(r[i])
  {
    NatToString(paise / 100) + "." + [Digit(paise % 100 / 10), Digit(paise % 10)]
  }

  /** Reads a `toFixed(2)` rendering back into paise. */
  function ParseFixed2(s: string): nat
  {
    if |s| < 3 then 0 else ParseNat(s[..|s| - 3]) * 100 + ParseNat(s[|s| - 2..])
  }

  lemma Fixed2RoundTrip(paise: nat)
    ensures ParseFixed2(Fixed2(paise)) == paise
  {
    var r := Fixed2(paise);
    var a := NatToString(paise / 100);
    assert r[..|r| - 3] == a;
    ParseNatToString(paise / 100);
    var t := r[|r| - 2..];
    assert t == [Digit(paise % 100 / 10), Digit(paise % 10)];
    assert t[..1] == [t[0]] && [t[0]][..0] == [];
    assert ParseNat([t[0]]) == DigitValue(t[0]);
    assert ParseNat(t) == ParseNat(t[..1]) * 10 + DigitValue(t[1]);
    assert ParseNat(t) == paise % 100 / 10 * 10 + paise % 10;
    assert paise / 100 * 100 + paise % 100 / 10 * 10 + paise % 10 == paise;
  }

  /** One line of the receipt's item list. */
  function ReceiptLine(name: string, quantity: nat, pricePaise: nat): string
  {
    PadEnd(Take(name, NameWidth), NameWidth) + PadStart(NatToString(quantity), QtyWidth)
    + PadStart(Fixed2(pricePaise), PriceWidth)
  }

  /** One line of the kitchen ticket's item list: the same columns
      without the price. */
  function KotLine(name: string, quantity: nat): string
  {
    PadEnd(Take(name, NameWidth), NameWidth) + PadStart(NatToString(quantity), QtyWidth)
  }

  /** Drops leading spaces. */
  function TrimStart(s: string): (r: string)
    ensures |r| <= |s| && r == s[|s| - |r|..]
    decreases |s|
  {
    if s != [] && s[0] == ' ' then TrimStart(s[1..]) else s
  }

  lemma {:induction false} TrimSpaces(k: nat, s: string)
    requires s == [] || s[0] != ' '
    ensures TrimStart(Spaces(k) + s) == s
    decreases k
  {
    if k > 0 {
      assert (Spaces(k) + s)[1..] == Spaces(k - 1) + s;
      TrimSpaces(k - 1, s);
    } else {
      assert Spaces(0) + s == s;
    }
  }

  lemma TrimPadStart(s: string, n: nat)
    requires s != [] && s[0] != ' '
    ensures TrimStart(PadStart(s, n)) == s
  {
    if |s| < n {
      TrimSpaces(n - |s|, s);
    } else {
      TrimSpaces(0, s);
    }
  }

  /** The three columns of a 14 + 3 + 8 layout, cut back out. */
  lemma Columns(c1: string, c2: string, c3: string)
    requires |c1| == NameWidth && |c2| == QtyWidth && |c3| == PriceWidth
    ensures var line := c1 + c2 + c3;
            && |line| == NameWidth + QtyWidth + PriceWidth
            && line[..NameWidth + QtyWidth] == c1 + c2
            && line[..NameWidth] == c1
            && line[NameWidth..NameWidth + QtyWidth] == c2
            && line[NameWidth + QtyWidth..] == c3
  {
  }

  /** A padded number column reads back as the number. */
  lemma QtyColumn(quantity: nat)
    requires quantity < 1000
    ensures |PadStart(NatToString(quantity), QtyWidth)| == QtyWidth
    ensures ParseNat(TrimStart(PadStart(NatToString(quantity), QtyWidth))) == quantity
  {
    DigitCount(quantity, 3);
    TrimPadStart(NatToString(quantity), QtyWidth);
    ParseNatToString(quantity);
  }

  lemma PriceColumn(pricePaise: nat)
    requires pricePaise < 10000000
    ensures |PadStart(Fixed2(pricePaise), PriceWidth)| == PriceWidth
    ensures ParseFixed2(TrimStart(PadStart(Fixed2(pricePaise), PriceWidth))) == pricePaise
  {
    DigitCount(pricePaise / 100, 5);
    TrimPadStart(Fixed2(pricePaise), PriceWidth);
    Fixed2RoundTrip(pricePaise);
  }

  /** When the quantity has at most three digits and the price at most five
      rupee digits, the receipt line is exactly 25 characters, the kitchen
      line is its first 17, and each column reads back as what was
      printed: the name cut to 14 characters, the quantity and the price. */
  lemma ReceiptColumns(name: string, quantity: nat, pricePaise: nat)
    requires quantity < 1000 && pricePaise < 10000000
    ensures var line := ReceiptLine(name, quantity, pricePaise);
            && |line| == NameWidth + QtyWidth + PriceWidth
            && line[..NameWidth + QtyWidth] == KotLine(name, quantity)
            && line[..|Take(name, NameWidth)|] == Take(name, NameWidth)
            && (forall i :: |Take(name, NameWidth)| <= i < NameWidth ==> line[i] == ' ')
            && ParseNat(TrimStart(line[NameWidth..NameWidth + QtyWidth])) == quantity
            && ParseFixed2(TrimStart(line[NameWidth + QtyWidth..])) == pricePaise
  {
    var t := Take(name, NameWidth);
    var col1 := PadEnd(t, NameWidth);
    var col2 := PadStart(NatToString(quantity), QtyWidth);
    var col3 := PadStart(Fixed2(pricePaise), PriceWidth);
    QtyColumn(quantity);
    PriceColumn(pricePaise);
    Columns(col1, col2, col3);
    var line := col1 + col2 + col3;
    assert line[..|t|] == col1[..|t|] == t;
    forall i | |t| <= i < NameWidth ensures line[i] == ' ' {
      assert line[i] == col1[i];
    }
  }

  /** `Array.prototype.join("\n")`. */
  function JoinLines(lines: seq<string>): string
  {
    if lines == [] then ""
    else if |lines| == 1 then lines[0]
    else lines[0] + "\n" + JoinLines(lines[1..])
  }

  /** Position of the first newline, if any. */
  function NewlineAt(s: string): (r: int)
    ensures -1 <= r < |s|
    ensures r >= 0 ==> s[r] == '\n' && forall i :: 0 <= i < r ==> s[i] != '\n'
    ensures r == -1 ==> forall i :: 0 <= i < |s| ==> s[i] != '\n'
    decreases |s|
  {
    if s == [] then -1
    else if s[0] == '\n' then 0
    else
      var k := NewlineAt(s[1..]);
      if k == -1 then -1 else k + 1
  }

  /** `String.prototype.split("\n")`: always at least one piece. */
  function SplitLines(s: string): (r: seq<string>)
    ensures |r| >= 1
    decreases |s|
  {
    var k := NewlineAt(s);
    if k == -1 then [s] else [s[..k]] + SplitLines(s[k + 1..])
  }

  predicate NoNewline(s: string)
  {
    forall i :: 0 <= i < |s| ==> s[i] != '\n'
  }

  lemma NewlineAfter(a: string, b: string)
    requires NoNewline(a)
    ensures NewlineAt(a + "\n" + b) == |a|
    ensures (a + "\n" + b)[..|a|] == a && (a + "\n" + b)[|a| + 1..] == b
  {
    var s := a + "\n" + b;
    assert s[|a|] == '\n';
    assert forall i :: 0 <= i < |a| ==> s[i] == a[i];
  }

  /** The item block has one printed line per bill item: splitting it at
      the newlines gives the formatted lines back, provided no item name
      holds a newline. */
  lemma {:induction false} SplitJoin(lines: seq<string>)
    requires lines != []
    requires forall i :: 0 <= i < |lines| ==> NoNewline(lines[i])
    ensures SplitLines(JoinLines(lines)) == lines
    decreases |lines|
  {
    if |lines| == 1 {
      assert NewlineAt(lines[0]) == -1;
    } else {
      var rest := JoinLines(lines[1..]);
      NewlineAfter(lines[0], rest);
      SplitJoin(lines[1..]);
      assert [lines[0]] + lines[1..] == lines;
    }
  }

  /** A receipt line has a newline only where the item name does. */
  lemma ReceiptLineNoNewline(name: string, quantity: nat, pricePaise: nat)
    requires NoNewline(name)
    ensures NoNewline(ReceiptLine(name, quantity, pricePaise))
  {
  }
}
