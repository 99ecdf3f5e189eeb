/**
 An interactive job's output: the search for its job ID while the submission starts,
 then its lines for the log. Neither depends on how the output is cut into chunks.
 */
module JobOutput {
  import opened Prelude
  import opened Utf8

  function Concat<T>(chunks: seq<seq<T>>): seq<T> {
    if chunks == [] then [] else Concat(chunks[..|chunks| - 1]) + chunks[|chunks| - 1]
  }

  lemma {:induction false} ConcatParts<T>(a: seq<seq<T>>, b: seq<seq<T>>)
    ensures Concat(a + b) == Concat(a) + Concat(b)
  {
    if b == [] {
      assert a + b == a;
    } else {
      var front, last := b[..|b| - 1], b[|b| - 1];
      assert (a + b)[..|a + b| - 1] == a + front && (a + b)[|a + b| - 1] == last;
      ConcatParts(a, front);
      assert Concat(a) + Concat(front) + last == Concat(a) + (Concat(front) + last);
    }
  }

  // The job ID

  function Ascii(s: string): (cs: seq<Char>)
    requires forall i :: 0 <= i < |s| ==> s[i] < 128 as char
    ensures |cs| == |s| && forall i :: 0 <= i < |s| ==> cs[i] == s[i] as int && cs[i] < 128
  {
    seq(|s|, i requires 0 <= i < |s| => s[i] as int)
  }

  const OPENING: seq<Char> := Ascii("Job <")
  const CLOSING: seq<Char> := Ascii("> is submitted")

  /** What `\d` matches: `others` are the decimal digits outside ASCII. */
  predicate IsDigit(others: set<Char>, c: Char) {
    '0' as int <= c <= '9' as int || c in others
  }

  predicate AreOthers(others: set<Char>) {
    forall c <- others :: c >= 128 && c != REPLACEMENT
  }

  function Digits(others: set<Char>, s: seq<Char>): (n: nat)
    ensures n <= |s|
    ensures forall i :: 0 <= i < n ==> IsDigit(others, s[i])
    ensures n < |s| ==> !IsDigit(others, s[n])
  {
    if s == [] || !IsDigit(others, s[0]) then 0 else 1 + Digits(others, s[1..])
  }

  /** LSF's pattern for a job ID, matched at the start of `s`. */
  function IdAtStart(others: set<Char>, s: seq<Char>): Option<seq<Char>> {
    if !(OPENING <= s) then None
    else
      var rest := s[|OPENING|..];
      var n := Digits(others, rest);
      if n > 0 && CLOSING <= rest[n..] then Some(rest[..n]) else None
  }

  /** Searched for: the leftmost match's job ID. */
  function FindId(others: set<Char>, s: seq<Char>): Option<seq<Char>> {
    if IdAtStart(others, s).Some? then IdAtStart(others, s)
    else if s == [] then None
    else FindId(others, s[1..])
  }

  /** What else the pattern can match: a J only at its start, and no replacement character. */
  lemma Pattern(others: set<Char>)
    requires AreOthers(others)
    ensures |OPENING| == 5 && |CLOSING| == 14
    ensures OPENING[0] == 'J' as int && !IsDigit(others, CLOSING[0])
    ensures forall i :: 0 < i < |OPENING| ==> OPENING[i] != 'J' as int
    ensures forall i :: 0 <= i < |CLOSING| ==> CLOSING[i] != 'J' as int
    ensures forall c :: IsDigit(others, c) ==> c != 'J' as int && c != REPLACEMENT
  {
  }

  /** How long a match is. */
  function MatchLength(id: seq<Char>): nat {
    |OPENING| + |id| + |CLOSING|
  }

  lemma MatchedText(others: set<Char>, s: seq<Char>)
    requires AreOthers(others) && IdAtStart(others, s).Some?
    ensures var n := MatchLength(IdAtStart(others, s).value);
            && 20 <= n <= |s| && s[0] == 'J' as int
            && (forall i :: 0 < i < n ==> s[i] != 'J' as int)
            && (forall i :: 0 <= i < n ==> s[i] != REPLACEMENT)
  {
    Pattern(others);
    var id := IdAtStart(others, s).value;
    assert s[..5] == OPENING && s[5..][..|id|] == id && s[5..][|id|..][..14] == CLOSING;
    assert s == OPENING + id + CLOSING + s[MatchLength(id)..];
  }

  lemma {:induction false} DigitsStand(others: set<Char>, s: seq<Char>, more: seq<Char>)
    requires Digits(others, s) < |s|
    ensures Digits(others, s + more) == Digits(others, s)
  {
    if IsDigit(others, s[0]) {
      assert (s + more)[1..] == s[1..] + more;
      DigitsStand(others, s[1..], more);
    }
  }

  /** A match stands whatever follows. */
  lemma MatchStands(others: set<Char>, s: seq<Char>, more: seq<Char>)
    requires AreOthers(others) && IdAtStart(others, s).Some?
    ensures IdAtStart(others, s + more) == IdAtStart(others, s)
  {
    Pattern(others);
    var rest := s[|OPENING|..];
    var n := Digits(others, rest);
    DigitsStand(others, rest, more);
    assert (s + more)[|OPENING|..] == rest + more;
    assert (rest + more)[n..] == rest[n..] + more && (rest + more)[..n] == rest[..n];
  }

  lemma {:induction false} DigitsBefore(others: set<Char>, s: seq<Char>, more: seq<Char>)
    requires Digits(others, s + more) < |s|
    ensures Digits(others, s) == Digits(others, s + more)
  {
    if IsDigit(others, s[0]) {
      assert (s + more)[1..] == s[1..] + more;
      DigitsBefore(others, s[1..], more);
    }
  }

  /** A match that ends within `s` is one without what follows. */
  lemma MatchIsWithin(others: set<Char>, s: seq<Char>, more: seq<Char>)
    requires AreOthers(others) && IdAtStart(others, s + more).Some?
    requires MatchLength(IdAtStart(others, s + more).value) <= |s|
    ensures IdAtStart(others, s) == IdAtStart(others, s + more)
  {
    Pattern(others);
    PrefixWithin(OPENING, s, more);
    var rest := s[|OPENING|..];
    assert (s + more)[|OPENING|..] == rest + more;
    var n := Digits(others, rest + more);
    DigitsBefore(others, rest, more);
    assert (rest + more)[n..] == rest[n..] + more && (rest + more)[..n] == rest[..n];
    PrefixWithin(CLOSING, rest[n..], more);
  }

  lemma PrefixWithin<T>(prefix: seq<T>, s: seq<T>, more: seq<T>)
    requires prefix <= s + more && |prefix| <= |s|
    ensures prefix <= s
  {
    assert (s + more)[..|prefix|] == s[..|prefix|];
  }

  /** A match found has its text in `s`, and none starts before it. */
  lemma {:induction false} FoundAt(others: set<Char>, s: seq<Char>) returns (i: nat)
    requires FindId(others, s).Some?
    ensures i <= |s| && IdAtStart(others, s[i..]) == FindId(others, s)
    ensures forall j :: 0 <= j < i ==> IdAtStart(others, s[j..]).None?
  {
    if IdAtStart(others, s).Some? {
      i := 0;
      assert s[0..] == s;
    } else {
      i := FoundAt(others, s[1..]);
      forall j | 0 <= j < i + 1
        ensures IdAtStart(others, s[j..]).None?
      {
        if j == 0 {
          assert s[0..] == s;
        } else {
          assert s[j..] == s[1..][j - 1..];
        }
      }
      assert s[i + 1..] == s[1..][i..];
      i := i + 1;
    }
  }

  /** `Job <id> is submitted` is in `s` from `i` on. */
  ghost predicate OccursAt(others: set<Char>, s: seq<Char>, i: nat, id: seq<Char>) {
    && i + MatchLength(id) <= |s| && s[i..i + MatchLength(id)] == Ascii("Job <") + id + Ascii("> is submitted")
    && id != [] && forall k :: 0 <= k < |id| ==> '0' as int <= id[k] <= '9' as int || id[k] in others
  }

  lemma {:induction false} AllTheDigits(others: set<Char>, id: seq<Char>, rest: seq<Char>)
    requires forall k :: 0 <= k < |id| ==> IsDigit(others, id[k])
    requires rest != [] && !IsDigit(others, rest[0])
    ensures Digits(others, id + rest) == |id|
  {
    if id == [] {
      assert id + rest == rest;
    } else {
      assert (id + rest)[1..] == id[1..] + rest;
      AllTheDigits(others, id[1..], rest);
    }
  }

  lemma MatchOccurs(others: set<Char>, s: seq<Char>, i: nat, id: seq<Char>)
    requires AreOthers(others) && i <= |s| && IdAtStart(others, s[i..]) == Some(id)
    ensures OccursAt(others, s, i, id)
  {
    Pattern(others);
    var rest := s[i..][5..];
    assert s[i..][..5] == OPENING && rest[..|id|] == id && rest[|id|..][..14] == CLOSING;
  }

  lemma MatchOfText(others: set<Char>, text: seq<Char>, id: seq<Char>, tail: seq<Char>)
    requires AreOthers(others) && id != [] && forall k :: 0 <= k < |id| ==> IsDigit(others, id[k])
    requires text == OPENING + (id + (CLOSING + tail))
    ensures IdAtStart(others, text) == Some(id)
  {
    Pattern(others);
    var rest := id + (CLOSING + tail);
    AllTheDigits(others, id, CLOSING + tail);
    assert text[5..] == rest && rest[|id|..] == CLOSING + tail && rest[..|id|] == id;
  }

  lemma OccurrenceMatches(others: set<Char>, s: seq<Char>, i: nat, id: seq<Char>)
    requires AreOthers(others) && OccursAt(others, s, i, id)
    ensures IdAtStart(others, s[i..]) == Some(id)
  {
    var end := i + MatchLength(id);
    InTwo(s, i, end);
    Nested(OPENING, id, CLOSING, s[end..]);
    MatchOfText(others, s[i..], id, s[end..]);
  }

  lemma InTwo<T>(s: seq<T>, i: nat, end: nat)
    requires i <= end <= |s|
    ensures s[i..] == s[i..end] + s[end..]
  {
  }

  lemma Nested<T>(a: seq<T>, b: seq<T>, c: seq<T>, d: seq<T>)
    ensures a + b + c + d == a + (b + (c + d))
  {
  }

  /** What is found is the leftmost of what there is. */
  lemma TheLeftmostIsFound(others: set<Char>, s: seq<Char>)
    requires AreOthers(others)
    ensures FindId(others, s).None? <==> forall i: nat, id :: !OccursAt(others, s, i, id)
    ensures FindId(others, s).Some? ==>
              exists i: nat :: OccursAt(others, s, i, FindId(others, s).value)
                               && forall j: nat, id :: j < i ==> !OccursAt(others, s, j, id)
  {
    if FindId(others, s).Some? {
      var i := FoundAt(others, s);
      MatchOccurs(others, s, i, FindId(others, s).value);
      forall j: nat, id | j < i
        ensures !OccursAt(others, s, j, id)
      {
        if OccursAt(others, s, j, id) {
          OccurrenceMatches(others, s, j, id);
        }
      }
    } else {
      forall i: nat, id
        ensures !OccursAt(others, s, i, id)
      {
        if OccursAt(others, s, i, id) {
          OccurrenceMatches(others, s, i, id);
          FoundLater(others, s, i);
        }
      }
    }
  }

  /** The ID found does not change with more output: no earlier match can come to be. */
  lemma {:induction false} FoundStands(others: set<Char>, s: seq<Char>, more: seq<Char>)
    requires AreOthers(others) && FindId(others, s).Some?
    ensures FindId(others, s + more) == FindId(others, s)
  {
    if IdAtStart(others, s).Some? {
      MatchStands(others, s, more);
    } else {
      FoundStands(others, s[1..], more);
      assert (s + more)[1..] == s[1..] + more;
      if IdAtStart(others, s + more).Some? {
        NoMatchAcross(others, s, more);
      }
    }
  }

  lemma NoMatchAcross(others: set<Char>, s: seq<Char>, more: seq<Char>)
    requires AreOthers(others) && s != [] && FindId(others, s[1..]).Some?
    requires IdAtStart(others, s + more).Some?
    ensures IdAtStart(others, s).Some?
  {
    var i := FoundAt(others, s[1..]);
    MatchedText(others, s[1..][i..]);
    assert s[1..][i..][0] == s[i + 1];
    MatchedText(others, s + more);
    assert (s + more)[i + 1] == s[i + 1];
    MatchIsWithin(others, s, more);
  }

  /** A replacement character at the end, for what is not complete yet, makes no match. */
  lemma FoundWithoutFlush(others: set<Char>, s: seq<Char>, rest: seq<Byte>)
    requires AreOthers(others)
    ensures FindId(others, s + Flushed(rest)) == FindId(others, s)
  {
    var all := s + Flushed(rest);
    if FindId(others, s).Some? {
      FoundStands(others, s, Flushed(rest));
    } else if FindId(others, all).Some? {
      var i := FoundAt(others, all);
      MatchedText(others, all[i..]);
      MatchBeforeFlush(others, s, rest, i);
      FoundLater(others, s, i);
    }
  }

  lemma MatchBeforeFlush(others: set<Char>, s: seq<Char>, rest: seq<Byte>, i: nat)
    requires AreOthers(others)
    requires var all := s + Flushed(rest); i < |all| && IdAtStart(others, all[i..]).Some?
    ensures i < |s| && IdAtStart(others, s[i..]).Some?
  {
    var all := s + Flushed(rest);
    var text := all[i..];
    MatchedText(others, text);
    assert |all| <= |s| + 1;
    assert text == s[i..] + Flushed(rest);
    assert |s| < |all| ==> text[|s| - i] == REPLACEMENT;
    MatchIsWithin(others, s[i..], Flushed(rest));
  }

  lemma {:induction false} FoundLater(others: set<Char>, s: seq<Char>, i: nat)
    requires i <= |s| && IdAtStart(others, s[i..]).Some?
    ensures FindId(others, s).Some?
  {
    if i > 0 {
      assert s[1..][i - 1..] == s[i..];
      FoundLater(others, s[1..], i - 1);
    } else {
      assert s[0..] == s;
    }
  }

  /** The ID in part of the output is the ID in all of it. */
  lemma FoundInPart(others: set<Char>, part: seq<Byte>, more: seq<Byte>)
    requires AreOthers(others) && FindId(others, Decode(part)).Some?
    ensures FindId(others, Decode(part + more)) == FindId(others, Decode(part))
  {
    var (cs, rest) := DecodeSome(part);
    var (later, end) := DecodeSome(rest + more);
    DecodeIsSomeAndFlush(part);
    DecodeIsSomeAndFlush(part + more);
    DecodeSomeOfParts(part, more);
    FoundWithoutFlush(others, cs, rest);
    FoundStands(others, cs, later);
    FoundWithoutFlush(others, cs + later, end);
  }

  /**
   `_read_job_id`, of output that comes in `chunks`, up to its end or the timeout: the
   job ID, and the output read to find it; None for the error. `k` chunks were read.
   */
  method ReadJobId(others: set<Char>, chunks: seq<seq<Byte>>) returns (found: Option<(seq<Char>, seq<Byte>)>, k: nat)
    requires AreOthers(others)
    ensures k <= |chunks|
    ensures found.Some? <==> FindId(others, Decode(Concat(chunks))).Some?
    ensures found.Some? ==> FindId(others, Decode(Concat(chunks))) == Some(found.value.0)
    ensures found.Some? ==> found.value.1 == Concat(chunks[..k])
    ensures forall j :: 0 <= j < k ==> FindId(others, Decode(Concat(chunks[..j]))).None?
  {
    var output: seq<Byte> := [];
    k := 0;
    while true
      invariant 0 <= k <= |chunks| && output == Concat(chunks[..k])
      invariant forall j :: 0 <= j < k ==> FindId(others, Decode(Concat(chunks[..j]))).None?
      decreases |chunks| - k
    {
      var id := FindId(others, Decode(output));
      assert chunks == chunks[..k] + chunks[k..];
      ConcatParts(chunks[..k], chunks[k..]);
      if id.Some? {
        FoundInPart(others, output, Concat(chunks[k..]));
        return Some((id.value, output)), k;
      }
      if k == |chunks| {
        assert chunks[..k] == chunks;
        return None, k;
      }
      assert chunks[..k + 1][..k] == chunks[..k];
      output := output + chunks[k];
      k := k + 1;
    }
  }

  // The log

  const NEWLINE: Char := 10

  /** `text.split("\n")` */
  function Split(text: seq<Char>): (lines: seq<seq<Char>>)
    ensures lines != []
  {
    if text == [] then [[]] else Prepended(text[0], Split(text[1..]))
  }

  function Prepended(c: Char, lines: seq<seq<Char>>): (all: seq<seq<Char>>)
    requires lines != []
    ensures all != []
  {
    if c == NEWLINE then [[]] + lines else [[c] + lines[0]] + lines[1..]
  }

  /** The lines, without an empty one at the end. */
  function Lines(text: seq<Char>): seq<seq<Char>> {
    var lines := Split(text);
    if lines[|lines| - 1] == [] then lines[..|lines| - 1] else lines
  }

  /** Splitting what comes later needs, of what came before, only the line that has not ended. */
  lemma {:induction false} SplitParts(text: seq<Char>, more: seq<Char>)
    ensures var last := |Split(text)| - 1;
            Split(text + more) == Split(text)[..last] + Split(Split(text)[last] + more)
  {
    if text == [] {
      assert [] + more == more && text + more == more;
    } else {
      var c, rest := text[0], Split(text[1..]);
      var m := |rest| - 1;
      SplitParts(text[1..], more);
      assert (text + more)[0] == c && (text + more)[1..] == text[1..] + more;
      if m == 0 && c != NEWLINE {
        var begun := [c] + rest[0] + more;
        assert begun[0] == c && begun[1..] == rest[0] + more;
      } else {
        PrependedParts(c, rest, Split(rest[m] + more));
      }
    }
  }

  lemma PrependedParts(c: Char, lines: seq<seq<Char>>, more: seq<seq<Char>>)
    requires lines != [] && more != [] && (|lines| > 1 || c == NEWLINE)
    ensures var m := |lines| - 1;
            var all := Prepended(c, lines);
            && Prepended(c, lines[..m] + more) == all[..|all| - 1] + more
            && all[|all| - 1] == lines[m]
  {
    var m := |lines| - 1;
    if c == NEWLINE {
      assert ([[]] + lines)[..m + 1] == [[]] + lines[..m];
      assert [[]] + (lines[..m] + more) == [[]] + lines[..m] + more;
    } else {
      var joined := lines[..m] + more;
      assert joined[0] == lines[0] && joined[1..] == lines[1..m] + more;
      assert Prepended(c, lines)[..m] == [[c] + lines[0]] + lines[1..m];
    }
  }

  /** The lines make up the text again. */
  function Unsplit(lines: seq<seq<Char>>): seq<Char>
    requires lines != []
  {
    if |lines| == 1 then lines[0] else lines[0] + [NEWLINE] + Unsplit(lines[1..])
  }

  lemma {:induction false} SplitsIntoLines(text: seq<Char>)
    ensures Unsplit(Split(text)) == text
    ensures forall i :: 0 <= i < |Split(text)| ==> NEWLINE !in Split(text)[i]
  {
    if text != [] {
      SplitsIntoLines(text[1..]);
      assert text == [text[0]] + text[1..];
      assert Split(text)[1..] == if text[0] == NEWLINE then Split(text[1..]) else Split(text[1..])[1..];
    }
  }

  /** Each line, and the newline that ends it. */
  function Ended(lines: seq<seq<Char>>): seq<Char> {
    if lines == [] then [] else lines[0] + [NEWLINE] + Ended(lines[1..])
  }

  lemma {:induction false} UnsplitEnds(front: seq<seq<Char>>, last: seq<Char>)
    ensures Unsplit(front + [last]) == Ended(front) + last
  {
    if front == [] {
      assert front + [last] == [last];
    } else {
      assert (front + [last])[1..] == front[1..] + [last];
      UnsplitEnds(front[1..], last);
    }
  }

  lemma {:induction false} EndedMore(lines: seq<seq<Char>>, last: seq<Char>)
    ensures Ended(lines + [last]) == Ended(lines) + last + [NEWLINE]
    ensures lines != [] ==> Ended(lines) != [] && Ended(lines)[|Ended(lines)| - 1] == NEWLINE
  {
    if lines == [] {
      assert lines + [last] == [last];
    } else {
      assert (lines + [last])[1..] == lines[1..] + [last];
      EndedMore(lines[1..], last);
    }
  }

  /** The lines, each ended, are the text with its last line ended, if it was not. */
  lemma LinesMakeUpTheText(text: seq<Char>)
    ensures Ended(Lines(text)) == if text == [] || text[|text| - 1] == 10 then text else text + [10]
    ensures forall i :: 0 <= i < |Lines(text)| ==> 10 !in Lines(text)[i]
  {
    var s := Split(text);
    var front, last := s[..|s| - 1], s[|s| - 1];
    assert s == front + [last];
    SplitsIntoLines(text);
    UnsplitEnds(front, last);
    EndedMore(front, last);
    assert NEWLINE !in last;
    if last == [] {
      assert Ended(front) + last == Ended(front);
    } else {
      assert text[|text| - 1] == last[|last| - 1];
    }
  }

  /**
   `_log_job_output`: the lines it logs, as `drain` passes on the early output and
   then each chunk, until the output ends or fails.
   */
  method LogJobOutput(early: seq<Byte>, chunks: seq<seq<Byte>>) returns (logged: seq<seq<Char>>)
    ensures logged == Lines(Decode(early + Concat(chunks)))
  {
    var decoder := new IncrementalDecoder();
    var partial: seq<Char> := [];
    logged := [];
    if early != [] {
      logged, partial := LogLines(decoder, logged, partial, early);
    }
    assert early + Concat(chunks[..0]) == early && [] + early == early;
    for i := 0 to |chunks|
      invariant fresh(decoder) && decoder.Valid() && decoder.read == early + Concat(chunks[..i])
      invariant logged + [partial] == Split(DecodeSome(decoder.read).0)
    {
      OneMoreChunk(early, chunks, i);
      logged, partial := LogLines(decoder, logged, partial, chunks[i]);
    }
    assert chunks[..|chunks|] == chunks;
    logged := EndLog(decoder, logged, partial);
  }

  lemma OneMoreChunk<T>(early: seq<T>, chunks: seq<seq<T>>, i: nat)
    requires i < |chunks|
    ensures early + Concat(chunks[..i + 1]) == early + Concat(chunks[..i]) + chunks[i]
  {
    assert chunks[..i + 1][..i] == chunks[..i];
  }

  method EndLog(decoder: IncrementalDecoder, logged: seq<seq<Char>>, partial: seq<Char>)
    returns (allLogged: seq<seq<Char>>)
    requires decoder.Valid() && logged + [partial] == Split(DecodeSome(decoder.read).0)
    modifies decoder
    ensures allLogged == Lines(Decode(old(decoder.read)))
  {
    ghost var text := DecodeSome(decoder.read).0;
    Apart(logged, partial);
    var rest := decoder.Finish();
    var last := partial + rest;
    MoreLines(text, rest, logged, partial);
    LastLine(partial, rest, text);
    allLogged := if last != [] then logged + [last] else logged;
  }

  lemma LastLine(partial: seq<Char>, rest: seq<Char>, text: seq<Char>)
    requires partial == Split(text)[|Split(text)| - 1] && (rest == [] || rest == [REPLACEMENT])
    ensures Split(partial + rest) == [partial + rest]
  {
    SplitsIntoLines(text);
    OneLine(partial + rest);
  }

  lemma {:induction false} OneLine(line: seq<Char>)
    requires NEWLINE !in line
    ensures Split(line) == [line]
  {
    if line != [] {
      OneLine(line[1..]);
      assert [line[0]] + line[1..] == line;
    }
  }

  lemma Apart<T>(front: seq<T>, last: T)
    ensures var all := front + [last]; all[..|all| - 1] == front && all[|all| - 1] == last
  {
  }

  lemma Regrouped<T>(a: seq<T>, b: seq<T>)
    requires b != []
    ensures a + b == a + b[..|b| - 1] + [b[|b| - 1]]
  {
  }

  lemma MoreLines(text: seq<Char>, decoded: seq<Char>, logged: seq<seq<Char>>, partial: seq<Char>)
    requires logged + [partial] == Split(text)
    ensures Split(text + decoded) == logged + Split(partial + decoded)
  {
    Apart(logged, partial);
    SplitParts(text, decoded);
  }

  method LogLines(decoder: IncrementalDecoder, logged: seq<seq<Char>>, partial: seq<Char>, output: seq<Byte>)
    returns (nowLogged: seq<seq<Char>>, nowPartial: seq<Char>)
    requires decoder.Valid() && logged + [partial] == Split(DecodeSome(decoder.read).0)
    modifies decoder
    ensures decoder.Valid() && decoder.read == old(decoder.read) + output
    ensures nowLogged + [nowPartial] == Split(DecodeSome(decoder.read).0)
  {
    ghost var text := DecodeSome(decoder.read).0;
    var decoded := decoder.DecodeNext(output);
    MoreLines(text, decoded, logged, partial);
    var lines := Split(partial + decoded);
    Regrouped(logged, lines);
    nowLogged, nowPartial := logged + lines[..|lines| - 1], lines[|lines| - 1];
  }

  /**
   An interactive submission and its log together. Whatever the chunks, the job ID is
   the leftmost in the whole output, and the log has all of the output's lines.
   */
  method FollowJob(others: set<Char>, chunks: seq<seq<Byte>>) returns (jobId: Option<seq<Char>>, logged: seq<seq<Char>>)
    requires AreOthers(others)
    ensures var text := Decode(Concat(chunks));
            jobId == FindId(others, text) && (jobId.Some? ==> logged == Lines(text))
  {
    var found, k := ReadJobId(others, chunks);
    jobId, logged := None, [];
    if found.Some? {
      assert chunks == chunks[..k] + chunks[k..];
      ConcatParts(chunks[..k], chunks[k..]);
      jobId := Some(found.value.0);
      logged := LogJobOutput(found.value.1, chunks[k..]);
    }
  }
}
