/**
 What a page shows. The reference reads the bytes by the UTF-8 standard alone and states the display
 of a character by what a reader makes of it, so that it does not depend on how a page is computed.
 */
module PageDisplay {
  import opened Wrappers
  import opened Sequences
  import opened CaptureTypes
  import opened Utf8
  import opened Json
  import opened JsonReader
  import opened Paginator
  import opened Polling

  // ---------------------------------------------------------------- one character

  predicate LowerHex(c: char) {
    '0' <= c <= '9' || 'a' <= c <= 'f'
  }

  /**
   A character that does nothing to a terminal is shown as itself, a carriage return by its usual
   escape, and every other one by two hexadecimal digits that spell its code.
   */
  ghost predicate Shows(c: char, text: string) {
    if Harmless(c) then text == [c]
    else if c == '\r' then text == ['\\', 'r']
    else
      && |text| == 4 && text[0] == '\\' && text[1] == 'x' && LowerHex(text[2]) && LowerHex(text[3])
      && HexNumber(text[2..]) == Some(c as nat)
  }

  lemma PairReads(a: char, b: char)
    requires HexValue(a).Some? && HexValue(b).Some?
    ensures HexNumber([a, b]) == Some(16 * HexValue(a).value + HexValue(b).value)
  {
    hide HexValue;
    assert [a][..0] == "" && HexNumber([a]) == HexValue(a);
    assert [a, b][..1] == [a];
  }

  lemma SanitizeShows(c: char)
    ensures Shows(c, Sanitize(c))
  {
    if !Harmless(c) && c != '\r' {
      var a, b := Digit(c as int / 16), Digit(c as int % 16);
      DigitReads(c as int / 16);
      DigitReads(c as int % 16);
      PairReads(a, b);
      assert Sanitize(c) == ['\\', 'x', a, b] && Sanitize(c)[2..] == [a, b];
      hide Digit, HexNumber, HexValue, Sanitize;
    }
  }

  lemma HexNumberIsInjective(a: string, b: string)
    requires |a| == |b| == 2 && HexNumber(a).Some? && HexNumber(a) == HexNumber(b)
    requires LowerHex(a[0]) && LowerHex(a[1]) && LowerHex(b[0]) && LowerHex(b[1])
    ensures a == b
  {
    assert a == [a[0], a[1]] && b == [b[0], b[1]];
    PairReads(a[0], a[1]);
    PairReads(b[0], b[1]);
    DigitsDiffer(a[0], b[0]);
    DigitsDiffer(a[1], b[1]);
    hide HexNumber, HexValue, LowerHex;
  }

  lemma DigitsDiffer(a: char, b: char)
    requires LowerHex(a) && LowerHex(b)
    ensures HexValue(a).Some? && HexValue(b).Some? && (HexValue(a) == HexValue(b) ==> a == b)
  {
  }

  /** There is only one text that shows a character. */
  lemma ShowsIsUnique(c: char, a: string, b: string)
    requires Shows(c, a) && Shows(c, b)
    ensures a == b
  {
    if !Harmless(c) && c != '\r' {
      HexNumberIsInjective(a[2..], b[2..]);
      assert a == ['\\', 'x'] + a[2..] && b == ['\\', 'x'] + b[2..];
    }
  }

  // ---------------------------------------------------------------- a page

  /** The first n bytes of s are these tokens, one after the other, by the standard. */
  ghost predicate Reads(s: seq<Byte>, n: nat, toks: seq<Token>)
    decreases |toks|
  {
    if toks == [] then n == 0
    else
      && s != [] && IsToken(s, toks[0]) && 1 <= toks[0].consumed <= |s| && toks[0].consumed <= n
      && Reads(s[toks[0].consumed..], n - toks[0].consumed, toks[1..])
  }

  function Joined(parts: seq<string>): string {
    if parts == [] then "" else Joined(parts[..|parts| - 1]) + parts[|parts| - 1]
  }

  ghost predicate ShownIn(toks: seq<Token>, parts: seq<string>) {
    |parts| == |toks| && forall i :: 0 <= i < |toks| ==> Shows(toks[i].scalar, parts[i])
  }

  /** The first n bytes of s, read by the standard, are shown as this text, scalar by scalar. */
  ghost predicate Displays(s: seq<Byte>, n: nat, text: string) {
    exists toks, parts :: Reads(s, n, toks) && ShownIn(toks, parts) && text == Joined(parts)
  }

  lemma {:induction false} TokensRead(s: seq<Byte>, growing: bool, k: nat)
    requires k <= |Tokens(s, growing)|
    ensures Reads(s, Consumed(Tokens(s, growing)[..k]), Tokens(s, growing)[..k])
    decreases k
  {
    if k > 0 {
      FirstToken(s, growing, k);
      TokenMeetsStandard(s, growing);
      var t := NextToken(s, growing).value;
      var rest := Tokens(s[t.consumed..], growing)[..k - 1];
      assert Tokens(s, growing)[..k] == [t] + rest;
      TokensRead(s[t.consumed..], growing, k - 1);
      ConsumedConcat([t], rest);
      ConsumedOne(t);
      assert ([t] + rest)[1..] == rest;
      hide Tokens, NextToken, IsToken, Consumed;
    }
  }

  function Parts(toks: seq<Token>): seq<string> {
    seq(|toks|, i requires 0 <= i < |toks| => Sanitize(toks[i].scalar))
  }

  lemma {:induction false} DisplayJoins(toks: seq<Token>)
    ensures ShownIn(toks, Parts(toks)) && Display(toks) == Joined(Parts(toks))
  {
    forall i | 0 <= i < |toks| ensures Shows(toks[i].scalar, Parts(toks)[i]) {
      SanitizeShows(toks[i].scalar);
    }
    if toks != [] {
      DisplayJoins(toks[..|toks| - 1]);
      assert Parts(toks)[..|toks| - 1] == Parts(toks[..|toks| - 1]);
      hide Shows, Sanitize;
    }
  }

  /** Every page shows exactly the bytes between its offset and the next offset. */
  lemma PageShows(facts: PageFacts, rest: seq<Byte>)
    ensures var page := BestPage(facts, rest);
            page.next >= facts.offset && Displays(rest, page.next - facts.offset, page.text)
  {
    hide Reads, ShownIn, Joined, Parts, Tokens, LongestFit, Consumed, Display, Displays;
    var toks := Tokens(rest, facts.canGrow);
    var k := LongestFit(facts, toks);
    TokensRead(rest, facts.canGrow, k);
    DisplayJoins(toks[..k]);
    DisplaysBy(rest, Consumed(toks[..k]), toks[..k], Parts(toks[..k]));
  }

  /** The sanitized decode of a closed file shows all of it. */
  lemma DecodeShows(s: seq<Byte>)
    ensures Displays(s, |s|, SanitizedDecode(s))
  {
    hide Reads, ShownIn, Joined, Parts, Tokens, Consumed, Display, Displays;
    var toks := Tokens(s, false);
    TokensRead(s, false, |toks|);
    assert toks[..|toks|] == toks;
    AllIsRead(s);
    DisplayJoins(toks);
    DisplaysBy(s, |s|, toks, Parts(toks));
  }

  lemma DisplaysBy(s: seq<Byte>, n: nat, toks: seq<Token>, parts: seq<string>)
    requires Reads(s, n, toks) && ShownIn(toks, parts)
    ensures Displays(s, n, Joined(parts))
  {
    hide Reads, ShownIn, Joined;
  }

  /** Whoever follows the offsets over growing snapshots has been shown exactly the bytes up to the last of them. */
  lemma FollowShows(final: seq<Byte>, polls: seq<Poll>)
    requires Chain(final, polls)
    ensures var r := Follow(final, polls); r.offset <= |final| && Displays(final, r.offset, r.text)
  {
    var done := FollowReads(final, polls);
    var n := |done|;
    assert Tokens(final, false)[..n] == done;
    hide Reads, ShownIn, Joined, Parts, Tokens, Consumed, Display, Displays, Follow;
    TokensRead(final, false, n);
    DisplayJoins(done);
    DisplaysBy(final, Consumed(done), done, Parts(done));
  }

  lemma {:induction false} AllIsRead(s: seq<Byte>)
    ensures Consumed(Tokens(s, false)) == |s|
    decreases |s|
  {
    if s != [] {
      TokenMeetsStandard(s, false);
      var t := NextToken(s, false).value;
      AllIsRead(s[t.consumed..]);
      ConsumedConcat([t], Tokens(s[t.consumed..], false));
      ConsumedOne(t);
      hide Consumed;
    }
  }

  lemma {:induction false} ReadsOneWay(s: seq<Byte>, n: nat, a: seq<Token>, b: seq<Token>)
    requires Reads(s, n, a) && Reads(s, n, b)
    ensures a == b
    decreases |a|
  {
    if a != [] {
      TokenIsUnique(s, a[0], b[0]);
      ReadsOneWay(s[a[0].consumed..], n - a[0].consumed, a[1..], b[1..]);
      assert a == [a[0]] + a[1..] && b == [b[0]] + b[1..];
    }
  }

  /** Bytes have one display: no other text shows them. */
  lemma DisplaysOneText(s: seq<Byte>, n: nat, a: string, b: string)
    requires Displays(s, n, a) && Displays(s, n, b)
    ensures a == b
  {
    hide Reads, Joined, Shows;
    var toks: seq<Token>, parts: seq<string> :| Reads(s, n, toks) && ShownIn(toks, parts) && a == Joined(parts);
    var toks': seq<Token>, parts': seq<string> :| Reads(s, n, toks') && ShownIn(toks', parts') && b == Joined(parts');
    ReadsOneWay(s, n, toks, toks');
    forall i | 0 <= i < |toks| ensures parts[i] == parts'[i] {
      ShowsIsUnique(toks[i].scalar, parts[i], parts'[i]);
    }
    assert parts == parts';
  }

  // ---------------------------------------------------------------- lines

  /** A text without a line feed is one line; otherwise each line feed ends one. */
  lemma LinesCount(line: string, rest: string)
    requires '\n' !in line
    ensures line != "" ==> LogicalLines(line) == 1
    ensures LogicalLines(line + "\n" + rest) == 1 + LogicalLines(rest)
  {
    if line != "" { LineFeedCount(line); }
    LineFeedCount(line + "\n");
    LineFeedsConcat(line + "\n", rest);
    assert rest != "" ==> (line + "\n" + rest)[|line + "\n" + rest| - 1] == rest[|rest| - 1];
  }

  // ---------------------------------------------------------------- where a page ends

  /** The page with one more scalar on it. */
  function Longer(page: Page, t: Token, shown: string): Page {
    var next := page.next + t.consumed;
    page.(next := next, hasMore := next < page.facts.retained, text := page.text + shown)
  }

  /** One more scalar would exceed a limit: 51200 serialized bytes or 2000 lines. */
  ghost predicate Full(page: Page, rest: seq<Byte>) {
    exists t, shown :: IsToken(rest, t) && Shows(t.scalar, shown)
                       && (SerializedBytes(Longer(page, t, shown)) > 51_200 || LogicalLines(Longer(page, t, shown).text) > 2_000)
  }

  lemma FirstTail(s: seq<Byte>, growing: bool)
    requires s != [] && NextToken(s, growing).Some?
    ensures var t := NextToken(s, growing).value; Tokens(s, growing) == [t] + Tokens(s[t.consumed..], growing)
  {
  }

  lemma SplitTail(t: Token, tail: seq<Token>, k: nat)
    requires 0 < k <= |tail| + 1
    ensures ([t] + tail)[..k] == [t] + tail[..k - 1] && ([t] + tail)[k..] == tail[k - 1..]
    ensures Consumed(([t] + tail)[..k]) == t.consumed + Consumed(tail[..k - 1])
  {
    ConsumedConcat([t], tail[..k - 1]);
    ConsumedOne(t);
    hide Consumed;
  }

  /** The tokens after the first k are those of the bytes after them. */
  lemma {:induction false} TokensFrom(s: seq<Byte>, growing: bool, k: nat)
    requires k <= |Tokens(s, growing)|
    ensures var n := Consumed(Tokens(s, growing)[..k]); n <= |s| && Tokens(s, growing)[k..] == Tokens(s[n..], growing)
    decreases k
  {
    hide Tokens, NextToken;
    if k == 0 {
      assert s[0..] == s;
    } else {
      hide Consumed;
      FirstToken(s, growing, k);
      FirstTail(s, growing);
      var t := NextToken(s, growing).value;
      var rest := s[t.consumed..];
      TokensFrom(rest, growing, k - 1);
      SplitTail(t, Tokens(rest, growing), k);
      var n := Consumed(Tokens(rest, growing)[..k - 1]);
      assert rest[n..] == s[t.consumed + n..];
    }
  }

  /** A page ends at the end, before a sequence that more bytes may complete, or when it is full. */
  lemma PageIsFull(facts: PageFacts, rest: seq<Byte>)
    requires facts.offset + |rest| == facts.retained <= CAPTURE_LIMIT
    ensures var page := BestPage(facts, rest);
            var n := page.next - facts.offset;
            && 0 <= n <= |rest|
            && (n == |rest| || (facts.canGrow && ProperPrefix(rest[n..])) || Full(page, rest[n..]))
  {
    hide Full, ProperPrefix, IsToken, Display, LongestFit, Consumed, NextToken;
    var toks := Tokens(rest, facts.canGrow);
    var k := LongestFit(facts, toks);
    TokensFrom(rest, facts.canGrow, k);
    var n := Consumed(toks[..k]);
    assert BestPage(facts, rest).next == facts.offset + n;
    if n < |rest| {
      TokenMeetsStandard(rest[n..], facts.canGrow);
      if k < |toks| {
        NextIsFull(facts, rest, n, k);
      }
    }
  }

  lemma NextIsFull(facts: PageFacts, rest: seq<Byte>, n: nat, k: nat)
    requires facts.offset + |rest| == facts.retained <= CAPTURE_LIMIT && n < |rest|
    requires var toks := Tokens(rest, facts.canGrow);
             k == LongestFit(facts, toks) < |toks| && n == Consumed(toks[..k]) && toks[k..] == Tokens(rest[n..], facts.canGrow)
    ensures Full(BestPage(facts, rest), rest[n..])
  {
    hide Full, ProperPrefix, IsToken, Display, LongestFit, Consumed, NextToken, SerializedBytes, LogicalLines, Shows;
    var toks := Tokens(rest, facts.canGrow);
    var t := toks[k];
    assert t == Tokens(rest[n..], facts.canGrow)[0];
    TokenMeetsStandard(rest[n..], facts.canGrow);
    LongestFitIsMaximal(facts, toks, k + 1);
    assert toks[..k + 1] == toks[..k] + [t];
    hide Tokens;
    OneMore(facts, toks[..k], t);
    SanitizeShows(t.scalar);
    FullBy(PageOf(facts, toks[..k]), rest[n..], t, Show(t));
  }

  lemma OneMore(facts: PageFacts, toks: seq<Token>, t: Token)
    ensures PageOf(facts, toks + [t]) == Longer(PageOf(facts, toks), t, Show(t))
  {
    DisplayAppend(toks, t);
    ConsumedConcat(toks, [t]);
    ConsumedOne(t);
    hide Consumed, Display, Show;
  }

  lemma FullBy(page: Page, rest: seq<Byte>, t: Token, shown: string)
    requires IsToken(rest, t) && Shows(t.scalar, shown)
    requires SerializedBytes(Longer(page, t, shown)) > 51_200 || LogicalLines(Longer(page, t, shown).text) > 2_000
    ensures Full(page, rest)
  {
    hide IsToken, Shows, SerializedBytes, LogicalLines, Longer;
  }
}
