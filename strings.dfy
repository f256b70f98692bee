/** The few Python string operations the core relies on: `str.split(sep)`,
    deleting a class of characters (`str.replace("-", "")`,
    `re.sub(r"\d+", "", s)`) and `int(s)` on a decimal string. */
module Strings {
  import opened Wrappers
  import Seqs

  /** Python's `s.split(sep)` for a one-character separator: every
      occurrence splits, so the result always has one more part than `s`
      has separators. */
  function Split(s: string, sep: char): (parts: seq<string>)
    ensures |parts| >= 1
    ensures forall i :: 0 <= i < |parts| ==> sep !in parts[i]
  {
    if s == [] then [""]
    else
      var rest := Split(s[1..], sep);
      if s[0] == sep then [""] + rest
      else [[s[0]] + rest[0]] + rest[1..]
  }

  /** Python's `sep.join(parts)`. */
  function Join(parts: seq<string>, sep: char): string
    requires |parts| >= 1
  {
    if |parts| == 1 then parts[0] else parts[0] + [sep] + Join(parts[1..], sep)
  }

  lemma {:induction false} SplitPrefix(a: string, b: string, sep: char)
    requires sep !in a
    ensures Split(a + b, sep) == [a + Split(b, sep)[0]] + Split(b, sep)[1..]
  {
    var tail := Split(b, sep);
    if a == [] {
      assert a + b == b;
      assert a + tail[0] == tail[0];
      assert tail == [tail[0]] + tail[1..];
    } else {
      assert (a + b)[1..] == a[1..] + b;
      SplitPrefix(a[1..], b, sep);
      var inner := Split(a[1..] + b, sep);
      assert inner[0] == a[1..] + tail[0] && inner[1..] == tail[1..];
      assert [a[0]] + (a[1..] + tail[0]) == a + tail[0];
    }
  }

  /** Splitting a join of separator-free parts gives the parts back. */
  lemma {:induction false} SplitJoin(parts: seq<string>, sep: char)
    requires |parts| >= 1
    requires forall i :: 0 <= i < |parts| ==> sep !in parts[i]
    ensures Split(Join(parts, sep), sep) == parts
  {
    if |parts| == 1 {
      SplitPrefix(parts[0], [], sep);
      assert parts[0] + [] == parts[0];
    } else {
      SplitJoin(parts[1..], sep);
      var tail := [sep] + Join(parts[1..], sep);
      assert parts[0] + [sep] + Join(parts[1..], sep) == parts[0] + tail;
      assert tail[0] == sep && tail[1..] == Join(parts[1..], sep);
      assert Split(tail, sep) == [""] + parts[1..];
      SplitPrefix(parts[0], tail, sep);
      assert parts[0] + "" == parts[0];
      assert parts == [parts[0]] + parts[1..];
    }
  }

  /** `n` lies in the run of ten digits that starts at `zero`. */
  predicate InRun(n: int, zero: int) {
    zero <= n < zero + 10
  }

  /** The digit zero of the run of ten decimal digits that holds `c`, or -1
      when `c` is no decimal digit. The runs are those of the Unicode
      general category Nd (Unicode 15.0): the characters that `\d` matches
      in a `str` pattern and that `int` reads as digits. */
  function DigitZero(c: char): (z: int)
    ensures z == -1 || InRun(c as int, z)
  {
    var n := c as int;
    if InRun(n, 0x0030) then 0x0030  // ASCII
    else if InRun(n, 0x0660) then 0x0660  // Arabic-Indic
    else if InRun(n, 0x06F0) then 0x06F0  // Extended Arabic-Indic
    else if InRun(n, 0x07C0) then 0x07C0  // Nko
    else if InRun(n, 0x0966) then 0x0966  // Devanagari
    else if InRun(n, 0x09E6) then 0x09E6  // Bengali
    else if InRun(n, 0x0A66) then 0x0A66  // Gurmukhi
    else if InRun(n, 0x0AE6) then 0x0AE6  // Gujarati
    else if InRun(n, 0x0B66) then 0x0B66  // Oriya
    else if InRun(n, 0x0BE6) then 0x0BE6  // Tamil
    else if InRun(n, 0x0C66) then 0x0C66  // Telugu
    else if InRun(n, 0x0CE6) then 0x0CE6  // Kannada
    else if InRun(n, 0x0D66) then 0x0D66  // Malayalam
    else if InRun(n, 0x0DE6) then 0x0DE6  // Sinhala Lith
    else if InRun(n, 0x0E50) then 0x0E50  // Thai
    else if InRun(n, 0x0ED0) then 0x0ED0  // Lao
    else if InRun(n, 0x0F20) then 0x0F20  // Tibetan
    else if InRun(n, 0x1040) then 0x1040  // Myanmar
    else if InRun(n, 0x1090) then 0x1090  // Myanmar Shan
    else if InRun(n, 0x17E0) then 0x17E0  // Khmer
    else if InRun(n, 0x1810) then 0x1810  // Mongolian
    else if InRun(n, 0x1946) then 0x1946  // Limbu
    else if InRun(n, 0x19D0) then 0x19D0  // New Tai Lue
    else if InRun(n, 0x1A80) then 0x1A80  // Tai Tham Hora
    else if InRun(n, 0x1A90) then 0x1A90  // Tai Tham Tham
    else if InRun(n, 0x1B50) then 0x1B50  // Balinese
    else if InRun(n, 0x1BB0) then 0x1BB0  // Sundanese
    else if InRun(n, 0x1C40) then 0x1C40  // Lepcha
    else if InRun(n, 0x1C50) then 0x1C50  // Ol Chiki
    else if InRun(n, 0xA620) then 0xA620  // Vai
    else if InRun(n, 0xA8D0) then 0xA8D0  // Saurashtra
    else if InRun(n, 0xA900) then 0xA900  // Kayah Li
    else if InRun(n, 0xA9D0) then 0xA9D0  // Javanese
    else if InRun(n, 0xA9F0) then 0xA9F0  // Myanmar Tai Laing
    else if InRun(n, 0xAA50) then 0xAA50  // Cham
    else if InRun(n, 0xABF0) then 0xABF0  // Meetei Mayek
    else if InRun(n, 0xFF10) then 0xFF10  // Fullwidth
    else if InRun(n, 0x104A0) then 0x104A0  // Osmanya
    else if InRun(n, 0x10D30) then 0x10D30  // Hanifi Rohingya
    else if InRun(n, 0x11066) then 0x11066  // Brahmi
    else if InRun(n, 0x110F0) then 0x110F0  // Sora Sompeng
    else if InRun(n, 0x11136) then 0x11136  // Chakma
    else if InRun(n, 0x111D0) then 0x111D0  // Sharada
    else if InRun(n, 0x112F0) then 0x112F0  // Khudawadi
    else if InRun(n, 0x11450) then 0x11450  // Newa
    else if InRun(n, 0x114D0) then 0x114D0  // Tirhuta
    else if InRun(n, 0x11650) then 0x11650  // Modi
    else if InRun(n, 0x116C0) then 0x116C0  // Takri
    else if InRun(n, 0x11730) then 0x11730  // Ahom
    else if InRun(n, 0x118E0) then 0x118E0  // Warang Citi
    else if InRun(n, 0x11950) then 0x11950  // Dives Akuru
    else if InRun(n, 0x11C50) then 0x11C50  // Bhaiksuki
    else if InRun(n, 0x11D50) then 0x11D50  // Masaram Gondi
    else if InRun(n, 0x11DA0) then 0x11DA0  // Gunjala Gondi
    else if InRun(n, 0x11F50) then 0x11F50  // Kawi
    else if InRun(n, 0x16A60) then 0x16A60  // Mro
    else if InRun(n, 0x16AC0) then 0x16AC0  // Tangsa
    else if InRun(n, 0x16B50) then 0x16B50  // Pahawh Hmong
    else if InRun(n, 0x1D7CE) then 0x1D7CE  // Mathematical Bold
    else if InRun(n, 0x1D7D8) then 0x1D7D8  // Mathematical Double-Struck
    else if InRun(n, 0x1D7E2) then 0x1D7E2  // Mathematical Sans-Serif
    else if InRun(n, 0x1D7EC) then 0x1D7EC  // Mathematical Sans-Serif Bold
    else if InRun(n, 0x1D7F6) then 0x1D7F6  // Mathematical Monospace
    else if InRun(n, 0x1E140) then 0x1E140  // Nyiakeng Puachue Hmong
    else if InRun(n, 0x1E2F0) then 0x1E2F0  // Wancho
    else if InRun(n, 0x1E4F0) then 0x1E4F0  // Nag Mundari
    else if InRun(n, 0x1E950) then 0x1E950  // Adlam
    else if InRun(n, 0x1FBF0) then 0x1FBF0  // Segmented
    else -1
  }

  predicate IsDigit(c: char) {
    DigitZero(c) != -1
  }

  predicate IsNotDigit(c: char) {
    !IsDigit(c)
  }

  predicate IsNotHyphen(c: char) {
    c != '-'
  }

  /** `re.sub(r"\d+", "", s)`: `s` with every decimal digit deleted. */
  function RemoveDigits(s: string): string {
    Seqs.Filter(s, IsNotDigit)
  }

  /** `s.replace("-", "")`: `s` with every hyphen deleted. */
  function RemoveHyphens(s: string): string {
    Seqs.Filter(s, IsNotHyphen)
  }

  predicate AllDigits(s: string) {
    forall i :: 0 <= i < |s| ==> IsDigit(s[i])
  }

  /** Inserting a run of digits anywhere in a string does not change what
      remains once the digits are deleted. */
  lemma {:induction false} RemoveDigitsIgnoresDigitRun(p: string, d: string, q: string)
    requires AllDigits(d)
    ensures RemoveDigits(p + d + q) == RemoveDigits(p + q)
  {
    Seqs.FilterAppend(p + d, q, IsNotDigit);
    Seqs.FilterAppend(p, d, IsNotDigit);
    Seqs.FilterAppend(p, q, IsNotDigit);
    Seqs.FilterDropsAll(d, IsNotDigit);
    assert Seqs.Filter(p, IsNotDigit) + [] == Seqs.Filter(p, IsNotDigit);
  }

  /** The license plate as stored: exactly the input without its hyphens.
      No hyphen remains, every other character keeps its number of
      occurrences, and the characters keep their order. */
  lemma {:induction false} RemoveHyphensSpec(s: string)
    ensures '-' !in RemoveHyphens(s)
    ensures forall c :: c != '-' ==> multiset(RemoveHyphens(s))[c] == multiset(s)[c]
    ensures Seqs.IsSubsequence(RemoveHyphens(s), s)
  {
    Seqs.FilterMultiset(s, IsNotHyphen);
    Seqs.FilterIsSubsequence(s, IsNotHyphen);
  }

  /** The value of a decimal digit: its distance from its run's zero. */
  function DigitValue(c: char): (d: nat)
    requires IsDigit(c)
    ensures d < 10
  {
    (c as int) - DigitZero(c)
  }

  /** The value of a non-empty run of decimal digits. */
  function DigitsValue(s: string): (n: nat)
    requires AllDigits(s)
  {
    if s == [] then 0 else 10 * DigitsValue(s[..|s| - 1]) + DigitValue(s[|s| - 1])
  }

  /** Python's `int(s)` for an optionally signed run of decimal digits;
      `None` stands for the ValueError `int` raises on anything else. */
  function ParseInt(s: string): (r: Option<int>)
    ensures r.Some? <==>
      (s != [] && AllDigits(s)) || (|s| > 1 && (s[0] == '+' || s[0] == '-') && AllDigits(s[1..]))
    ensures s != [] && AllDigits(s) ==> r == Some(DigitsValue(s))
    ensures |s| > 1 && s[0] == '+' && AllDigits(s[1..]) ==> r == Some(DigitsValue(s[1..]))
    ensures |s| > 1 && s[0] == '-' && AllDigits(s[1..]) ==> r == Some(-(DigitsValue(s[1..]) as int))
  {
    if s == [] then None
    else if (s[0] == '-' || s[0] == '+') && |s| > 1 && AllDigits(s[1..]) then
      var n: int := DigitsValue(s[1..]);
      Some(if s[0] == '-' then -n else n)
    else if AllDigits(s) then Some(DigitsValue(s))
    else None
  }
}
