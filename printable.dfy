/**
 * The `filter` translation table: a 256-entry string in which a byte is kept
 * when its character occurs in `string.printable[:-5]` and becomes '.'
 * otherwise. `string.printable` is Python's digits + letters + punctuation +
 * whitespace (C locale); dropping its last five characters removes
 * "\t\n\r\x0b\x0c" and keeps the space.
 */
module Printable {
  import opened Common

  const Digits := "0123456789"
  const Lowercase := "abcdefghijklmnopqrstuvwxyz"
  const Uppercase := "ABCDEFGHIJKLMNOPQRSTUVWXYZ"
  const Letters := Lowercase + Uppercase
  const Punctuation := "!\"#$%&'()*+,-./:;<=>?@[\\]^_`{|}~"
  const Whitespace := " \t\n\r\U{0b}\U{0c}"
  const StringPrintable := Digits + Letters + Punctuation + Whitespace

  /** `string.printable[:-5]`. */
  const KeptChars := StringPrintable[..|StringPrintable| - 5]

  /** The `filter` table, indexed by byte value. */
  const FilterTable: seq<char> :=
    seq(256, x requires 0 <= x < 256 => if (x as char) in KeptChars then x as char else '.')

  /** `bytes.translate(filter)`: the printable rendering of a payload. */
  function Render(bs: seq<byte>): (plain: string)
    ensures |plain| == |bs|
  {
    seq(|bs|, i requires 0 <= i < |bs| => FilterTable[bs[i]])
  }

  /** The visible-ASCII-plus-space test the table amounts to. */
  predicate IsVisible(x: int) {
    0x20 <= x <= 0x7e
  }

  lemma LowercaseAt(k: int)
    requires 0 <= k < 26
    ensures Lowercase[k] as int == 0x61 + k
  {
    assert k == 0 || k == 1 || k == 2 || k == 3 || k == 4 || k == 5 || k == 6 || k == 7 || k == 8
      || k == 9 || k == 10 || k == 11 || k == 12 || k == 13 || k == 14 || k == 15 || k == 16
      || k == 17 || k == 18 || k == 19 || k == 20 || k == 21 || k == 22 || k == 23 || k == 24
      || k == 25;
  }

  lemma UppercaseAt(k: int)
    requires 0 <= k < 26
    ensures Uppercase[k] as int == 0x41 + k
  {
    assert k == 0 || k == 1 || k == 2 || k == 3 || k == 4 || k == 5 || k == 6 || k == 7 || k == 8
      || k == 9 || k == 10 || k == 11 || k == 12 || k == 13 || k == 14 || k == 15 || k == 16
      || k == 17 || k == 18 || k == 19 || k == 20 || k == 21 || k == 22 || k == 23 || k == 24
      || k == 25;
  }

  lemma DigitsAt(k: int)
    requires 0 <= k < 10
    ensures Digits[k] as int == 0x30 + k
  {
    assert k == 0 || k == 1 || k == 2 || k == 3 || k == 4 || k == 5 || k == 6 || k == 7 || k == 8
      || k == 9;
  }

  /** The code of the k-th punctuation character: four runs of visible ASCII. */
  function PunctuationCode(k: int): int
    requires 0 <= k < 32
  {
    if k < 15 then 0x21 + k
    else if k < 22 then 0x3a + (k - 15)
    else if k < 28 then 0x5b + (k - 22)
    else 0x7b + (k - 28)
  }

  lemma PunctuationAt(k: int)
    requires 0 <= k < 32
    ensures Punctuation[k] as int == PunctuationCode(k)
  {
    assert k == 0 || k == 1 || k == 2 || k == 3 || k == 4 || k == 5 || k == 6 || k == 7 || k == 8
      || k == 9 || k == 10 || k == 11 || k == 12 || k == 13 || k == 14 || k == 15 || k == 16
      || k == 17 || k == 18 || k == 19 || k == 20 || k == 21 || k == 22 || k == 23 || k == 24
      || k == 25 || k == 26 || k == 27 || k == 28 || k == 29 || k == 30 || k == 31;
  }

  /** The code of the k-th character of `string.printable[:-5]`. */
  function KeptCode(k: int): int
    requires 0 <= k < 95
  {
    if k < 10 then 0x30 + k
    else if k < 36 then 0x61 + (k - 10)
    else if k < 62 then 0x41 + (k - 36)
    else if k < 94 then PunctuationCode(k - 62)
    else 0x20
  }

  lemma KeptLength()
    ensures |KeptChars| == 95
  {
  }

  /** Where each part of `string.printable[:-5]` sits. */
  lemma KeptAt(k: int)
    requires 0 <= k < 95
    ensures |KeptChars| == 95 && KeptChars[k] as int == KeptCode(k)
  {
    KeptLength();
    if k < 10 { KeptDigitAt(k); }
    else if k < 36 { KeptLowerAt(k - 10); }
    else if k < 62 { KeptUpperAt(k - 36); }
    else if k < 94 { KeptPunctuationAt(k - 62); }
    else { KeptIsPrintable(k); PartLengths(); assert StringPrintable[k] == Whitespace[0]; }
  }

  lemma PartLengths()
    ensures |Digits| == 10 && |Lowercase| == 26 && |Letters| == 52 && |Punctuation| == 32 && |Whitespace| == 6
  {
  }

  lemma KeptIsPrintable(j: int)
    requires 0 <= j < 95
    ensures KeptChars[j] == StringPrintable[j]
  {
    PartLengths();
  }

  lemma KeptDigitAt(k: int)
    requires 0 <= k < 10
    ensures KeptChars[k] as int == 0x30 + k
  {
    PartLengths();
    KeptIsPrintable(k);
    assert StringPrintable[k] == (Digits + Letters)[k] == Digits[k];
    DigitsAt(k);
  }

  lemma KeptLowerAt(k: int)
    requires 0 <= k < 26
    ensures KeptChars[10 + k] as int == 0x61 + k
  {
    PartLengths();
    KeptIsPrintable(10 + k);
    assert StringPrintable[10 + k] == (Digits + Letters)[10 + k] == Letters[k];
    assert Letters[k] == Lowercase[k];
    LowercaseAt(k);
  }

  lemma KeptUpperAt(k: int)
    requires 0 <= k < 26
    ensures KeptChars[36 + k] as int == 0x41 + k
  {
    PartLengths();
    KeptIsPrintable(36 + k);
    assert StringPrintable[36 + k] == (Digits + Letters)[36 + k] == Letters[26 + k];
    assert Letters[26 + k] == Uppercase[k];
    UppercaseAt(k);
  }

  lemma KeptPunctuationAt(k: int)
    requires 0 <= k < 32
    ensures KeptChars[62 + k] as int == PunctuationCode(k)
  {
    PartLengths();
    KeptIsPrintable(62 + k);
    assert StringPrintable[62 + k] == (Digits + Letters + Punctuation)[62 + k] == Punctuation[k];
    PunctuationAt(k);
  }

  /** Every kept character is visible. */
  lemma KeptIsVisible(k: int)
    requires 0 <= k < |KeptChars|
    ensures IsVisible(KeptChars[k] as int)
  {
    KeptLength();
    KeptAt(k);
  }

  /** Where a visible character sits within `string.printable[:-5]`. */
  function KeptIndex(x: int): (k: int)
    requires IsVisible(x)
    ensures 0 <= k < 95 && KeptCode(k) == x
  {
    if 0x30 <= x <= 0x39 then x - 0x30
    else if 0x61 <= x <= 0x7a then 10 + x - 0x61
    else if 0x41 <= x <= 0x5a then 36 + x - 0x41
    else if x == 0x20 then 94
    else if x <= 0x2f then 62 + x - 0x21
    else if x <= 0x40 then 62 + 15 + x - 0x3a
    else if x <= 0x60 then 62 + 22 + x - 0x5b
    else 62 + 28 + x - 0x7b
  }

  /** Every visible character is kept. */
  lemma VisibleIsKept(x: int)
    requires IsVisible(x)
    ensures (x as char) in KeptChars
  {
    var k := KeptIndex(x);
    KeptAt(k);
    assert KeptChars[k] == x as char;
  }

  /** The characters kept are exactly the visible ASCII characters and space. */
  lemma KeptCharsAreVisible(x: int)
    requires 0 <= x < 256
    ensures (x as char) in KeptChars <==> IsVisible(x)
  {
    if (x as char) in KeptChars {
      var k :| 0 <= k < |KeptChars| && KeptChars[k] == x as char;
      KeptIsVisible(k);
    }
    if IsVisible(x) {
      VisibleIsKept(x);
    }
  }

  /** Each table entry keeps a visible byte and maps every other byte to '.'. */
  lemma FilterTableEntry(x: int)
    requires 0 <= x < 256
    ensures FilterTable[x] == if IsVisible(x) then x as char else '.'
  {
    KeptCharsAreVisible(x);
  }

  /**
   * The rendering has one character per byte: visible bytes unchanged and every
   * other byte replaced by '.'.
   */
  lemma RenderChars(bs: seq<byte>)
    ensures |Render(bs)| == |bs|
    ensures forall i :: 0 <= i < |bs| ==>
      Render(bs)[i] == if IsVisible(bs[i] as int) then bs[i] as int as char else '.'
  {
    forall i | 0 <= i < |bs|
      ensures Render(bs)[i] == if IsVisible(bs[i] as int) then bs[i] as int as char else '.'
    {
      FilterTableEntry(bs[i] as int);
    }
  }

  /** No rendering contains a tab or a newline, so it can sit in the last log field. */
  lemma RenderHasNoSeparators(bs: seq<byte>)
    ensures '\t' !in Render(bs) && '\n' !in Render(bs)
  {
    RenderChars(bs);
  }
}
