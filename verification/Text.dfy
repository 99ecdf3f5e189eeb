/** Numbers and fields, as both sides write and read them. */
module Text {
  predicate IsDigit(c: char) {
    '0' <= c <= '9'
  }

  predicate AllDigits(s: string) {
    forall c :: c in s ==> IsDigit(c)
  }

  function DigitValue(c: char): nat
    requires IsDigit(c)
  {
    c as int - '0' as int
  }

  function DigitOf(d: nat): (c: char)
    requires d < 10
    ensures IsDigit(c) && DigitValue(c) == d
  {
    ('0' as int + d) as char
  }

  /** A number in decimal, as `str` and the shell write it. */
  function Decimal(n: nat): string {
    if n < 10 then [DigitOf(n)] else Decimal(n / 10) + [DigitOf(n % 10)]
  }

  /** The number that digits write, leading zeros or not. */
  function Value(s: string): nat
    requires AllDigits(s)
  {
    if s == "" then 0
    else
      assert s[|s| - 1] in s;
      Value(s[..|s| - 1]) * 10 + DigitValue(s[|s| - 1])
  }

  lemma {:induction false} DecimalReadsBack(n: nat)
    ensures Decimal(n) != "" && AllDigits(Decimal(n)) && Value(Decimal(n)) == n
  {
    var s := Decimal(n);
    if n < 10 {
      assert s[..0] == "";
    } else {
      DecimalReadsBack(n / 10);
      assert s[..|s| - 1] == Decimal(n / 10);
    }
  }

  function Zeros(count: nat): string {
    seq(count, _ => '0')
  }

  lemma {:induction false} ZerosAddNothing(count: nat, s: string)
    requires AllDigits(s)
    ensures AllDigits(Zeros(count) + s) && Value(Zeros(count) + s) == Value(s)
    decreases |s|, count
  {
    var all := Zeros(count) + s;
    if s != "" {
      ZerosAddNothing(count, s[..|s| - 1]);
      assert all[..|all| - 1] == Zeros(count) + s[..|s| - 1];
    } else if count > 0 {
      ZerosAddNothing(count - 1, s);
      assert all[..|all| - 1] == Zeros(count - 1) + s;
    }
  }

  /** At least `width` digits, with zeros before them if need be. */
  function Padded(n: nat, width: nat): string {
    var digits := Decimal(n);
    if |digits| < width then Zeros(width - |digits|) + digits else digits
  }

  lemma PaddedReadsBack(n: nat, width: nat)
    ensures AllDigits(Padded(n, width)) && Value(Padded(n, width)) == n
  {
    var digits := Decimal(n);
    DecimalReadsBack(n);
    if |digits| < width {
      ZerosAddNothing(width - |digits|, digits);
      assert Padded(n, width) == Zeros(width - |digits|) + digits;
    } else {
      assert Padded(n, width) == digits;
    }
  }

  /** The length of `s` up to the first of its characters that is in `stops`, or all of it. */
  function Before(s: string, stops: set<char>): (n: nat)
    ensures n <= |s|
    ensures forall i :: 0 <= i < n ==> s[i] !in stops
    ensures n < |s| ==> s[n] in stops
  {
    if s == "" || s[0] in stops then 0 else 1 + Before(s[1..], stops)
  }

  /** Without the characters in `drop` at its start. */
  function Stripped(s: string, drop: set<char>): (t: string)
    ensures |t| <= |s|
    ensures t == "" || t[0] !in drop
  {
    if s != "" && s[0] in drop then Stripped(s[1..], drop) else s
  }

  function Spaces(count: nat): string {
    seq(count, _ => ' ')
  }

  lemma {:induction false} SpacesStripped(count: nat, s: string)
    requires s == "" || s[0] != ' '
    ensures Stripped(Spaces(count) + s, {' '}) == s
  {
    if count > 0 {
      assert (Spaces(count) + s)[1..] == Spaces(count - 1) + s;
      SpacesStripped(count - 1, s);
    } else {
      assert Spaces(count) + s == s;
    }
  }

  /** What was stripped are spaces. */
  lemma {:induction false} StrippedSpaces(s: string) returns (count: nat)
    ensures s == Spaces(count) + Stripped(s, {' '})
  {
    if s != "" && s[0] == ' ' {
      count := StrippedSpaces(s[1..]);
      count := count + 1;
      assert s == [s[0]] + s[1..];
    } else {
      count := 0;
    }
  }

  /** ASCII white space, as Python sees it. */
  const SPACES: set<char> := {
    ' ', '\t', '\n', '\U{0B}', '\U{0C}', '\r', '\U{1C}', '\U{1D}', '\U{1E}', '\U{1F}'
  }

  /** `str.split()`: what runs of white space separate. */
  function Fields(s: string): seq<string>
    decreases |s|
  {
    var t := Stripped(s, SPACES);
    if t == "" then []
    else
      var n := Before(t, SPACES);
      [t[..n]] + Fields(t[n..])
  }

  lemma {:induction false} FieldsAreNotEmpty(s: string)
    ensures forall i :: 0 <= i < |Fields(s)| ==> Fields(s)[i] != ""
    decreases |s|
  {
    var t := Stripped(s, SPACES);
    if t != "" {
      FieldsAreNotEmpty(t[Before(t, SPACES)..]);
    }
  }

  /** A word: something, without white space. */
  predicate IsWord(s: string) {
    s != "" && forall c :: c in s ==> c !in SPACES
  }

  /** As every character of a word in ASCII is. */
  predicate AllVisible(s: string) {
    forall i :: 0 <= i < |s| ==> '!' <= s[i] <= '~'
  }

  lemma VisibleIsWord(s: string)
    requires s != "" && AllVisible(s)
    ensures IsWord(s)
  {
  }

  lemma {:induction false} BeforeWord(word: string, rest: string, stops: set<char>)
    requires forall c :: c in word ==> c !in stops
    requires rest == "" || rest[0] in stops
    ensures Before(word + rest, stops) == |word|
  {
    if word == "" {
      assert word + rest == rest;
    } else {
      assert (word + rest)[1..] == word[1..] + rest;
      BeforeWord(word[1..], rest, stops);
    }
  }

  /** A word followed by white space, or by nothing, is the first field. */
  lemma FirstField(word: string, rest: string)
    requires IsWord(word) && (rest == "" || rest[0] in SPACES)
    ensures Fields(word + rest) == [word] + Fields(rest)
  {
    assert word[0] in word;
    BeforeWord(word, rest, SPACES);
    assert (word + rest)[..|word|] == word && (word + rest)[|word|..] == rest;
  }

  /** White space before a field does not matter. */
  lemma SpaceBefore(space: char, s: string)
    requires space in SPACES
    ensures Fields([space] + s) == Fields(s)
  {
    assert ([space] + s)[1..] == s;
  }

  lemma DecimalIsWord(n: nat)
    ensures IsWord(Decimal(n))
  {
    DecimalReadsBack(n);
  }

  /** `separator.join(parts)`. */
  function Joined(parts: seq<string>, separator: string): string {
    if |parts| == 0 then ""
    else if |parts| == 1 then parts[0]
    else parts[0] + separator + Joined(parts[1..], separator)
  }

  /** One more part at the end. */
  lemma {:induction false} JoinedEnds(parts: seq<string>, last: string, separator: string)
    requires parts != []
    ensures Joined(parts + [last], separator) == Joined(parts, separator) + separator + last
  {
    var all := parts + [last];
    if |parts| == 1 {
      assert all == [parts[0], last] && all[1..] == [last];
    } else {
      JoinedEnds(parts[1..], last, separator);
      assert all[1..] == parts[1..] + [last];
      assert parts[0] + separator + (Joined(parts[1..], separator) + separator + last)
          == Joined(parts, separator) + separator + last;
    }
  }

  /** A word, a space, and the rest. */
  lemma NextField(word: string, rest: string)
    requires IsWord(word)
    ensures Fields(word + " " + rest) == [word] + Fields(rest)
  {
    var spaced := [' '] + rest;
    SpaceBefore(' ', rest);
    FirstField(word, spaced);
    assert word + " " + rest == word + spaced;
  }

  lemma NextFields(words: seq<string>, rest: string, after: seq<string>)
    requires |words| > 1 && IsWord(words[0])
    requires Fields(Joined(words[1..], " ") + rest) == words[1..] + after
    ensures Fields(Joined(words, " ") + rest) == words + after
  {
    var tail := Joined(words[1..], " ") + rest;
    NextField(words[0], tail);
    calc {
      Joined(words, " ") + rest;
      words[0] + " " + Joined(words[1..], " ") + rest;
      words[0] + " " + tail;
    }
    assert [words[0]] + (words[1..] + after) == words + after;
  }

  /** Words joined by spaces are the fields of what they make. */
  lemma {:induction false} FieldsOfJoined(words: seq<string>, rest: string)
    requires words != [] && (rest == "" || rest[0] in SPACES)
    requires forall i :: 0 <= i < |words| ==> IsWord(words[i])
    ensures Fields(Joined(words, " ") + rest) == words + Fields(rest)
  {
    if |words| == 1 {
      FirstField(words[0], rest);
    } else {
      FieldsOfJoined(words[1..], rest);
      NextFields(words, rest, Fields(rest));
    }
  }
}
