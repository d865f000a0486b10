/**
 paginate and its helpers in src/output.ts. A page is specified without any window: it is the
 longest prefix of the token stream of everything retained after the offset whose complete
 serialized envelope meets the byte limit and the line limit.
 */
module Paginator {
  import opened Sequences
  import opened CaptureTypes
  import opened Wrappers
  import opened Utf8
  import opened Json

  const ENVELOPE_LIMIT := 51_200
  const LINE_LIMIT := 2_000
  const LOOKAHEAD := 3

  datatype PageFacts = PageFacts(
    stream: CaptureStream, offset: nat, retained: nat, canGrow: bool,
    available: bool, truncated: bool, incomplete: bool, openAtCutover: bool)

  datatype Page = Page(facts: PageFacts, next: nat, hasMore: bool, text: string)

  datatype OutputError =
    InvalidOffset | OffsetOutOfRange | CaptureUnavailable | CaptureCorrupt | OutputReadFailed

  // ---------------------------------------------------------------- the serialized envelope

  function FactsJson(f: PageFacts): string {
    "\"stream\":\"" + StreamName(f.stream)
    + "\",\"offsetBytes\":" + Decimal(f.offset)
    + ",\"retainedBytes\":" + Decimal(f.retained)
    + ",\"canGrow\":" + Boolean(f.canGrow)
    + ",\"available\":" + Boolean(f.available)
    + ",\"truncated\":" + Boolean(f.truncated)
    + ",\"incomplete\":" + Boolean(f.incomplete)
    + ",\"openAtCutover\":" + Boolean(f.openAtCutover)
  }

  /** The whole envelope as JSON.stringify prints it, in insertion order of the properties. */
  function EnvelopeJson(p: Page): string {
    ("{\"schemaVersion\":1,\"ok\":true,\"data\":{" + FactsJson(p.facts))
    + (",\"nextOffsetBytes\":" + Decimal(p.next))
    + (",\"hasMore\":" + Boolean(p.hasMore))
    + (",\"text\":" + Quote(p.text) + "}}")
  }

  function SerializedBytes(p: Page): nat {
    ByteLength(EnvelopeJson(p))
  }

  /** The size of everything but the three parts that change while a page is built. */
  function FixedBytes(f: PageFacts): nat {
    ByteLength("{\"schemaVersion\":1,\"ok\":true,\"data\":{" + FactsJson(f))
    + ByteLength(",\"nextOffsetBytes\":") + ByteLength(",\"hasMore\":")
    + ByteLength(",\"text\":") + ByteLength("\"") + ByteLength("\"") + ByteLength("}}")
  }

  /** Serialized size is additive: the incremental count of the code is exact. */
  lemma SerializedSize(p: Page)
    ensures SerializedBytes(p)
         == FixedBytes(p.facts) + ByteLength(Decimal(p.next)) + ByteLength(Boolean(p.hasMore)) + ByteLength(Escape(p.text))
    ensures SerializedBytes(p) == SerializedBytes(p.(text := "")) + ByteLength(Escape(p.text))
  {
    SerializedParts(p);
    SerializedParts(p.(text := ""));
  }

  lemma SerializedParts(p: Page)
    ensures SerializedBytes(p)
         == FixedBytes(p.facts) + ByteLength(Decimal(p.next)) + ByteLength(Boolean(p.hasMore)) + ByteLength(Escape(p.text))
  {
    var a := "{\"schemaVersion\":1,\"ok\":true,\"data\":{" + FactsJson(p.facts);
    var n, b := ",\"nextOffsetBytes\":", Decimal(p.next);
    var h, c := ",\"hasMore\":", Boolean(p.hasMore);
    var t, q, d, z := ",\"text\":", "\"", Escape(p.text), "}}";
    SizeOfParts(a, n, b, h, c, t, q, d, z);
    assert EnvelopeJson(p) == a + (n + b) + (h + c) + (t + (q + d + q) + z);
  }

  lemma SizeOfParts(a: string, n: string, b: string, h: string, c: string, t: string, q: string, d: string, z: string)
    ensures ByteLength(a + (n + b) + (h + c) + (t + (q + d + q) + z))
         == ByteLength(a) + ByteLength(n) + ByteLength(b) + ByteLength(h) + ByteLength(c)
            + ByteLength(t) + ByteLength(q) + ByteLength(d) + ByteLength(q) + ByteLength(z)
  {
    ByteLengthConcat(a + (n + b) + (h + c), t + (q + d + q) + z);
    ByteLengthConcat(a + (n + b), h + c);
    ByteLengthConcat(a, n + b);
    ByteLengthConcat(n, b);
    ByteLengthConcat(h, c);
    ByteLengthConcat(t + (q + d + q), z);
    ByteLengthConcat(t, q + d + q);
    ByteLengthConcat(q + d, q);
    ByteLengthConcat(q, d);
  }

  lemma FactsAreShort(f: PageFacts)
    requires f.offset < PowerOfTen(7) && f.retained < PowerOfTen(7)
    ensures |FactsJson(f)| <= 200
  {
    DecimalLength(f.offset, 7);
    DecimalLength(f.retained, 7);
  }

  lemma FixedPartIsSmall(f: PageFacts)
    requires |FactsJson(f)| <= 200
    ensures FixedBytes(f) <= 1_500
  {
    var head := "{\"schemaVersion\":1,\"ok\":true,\"data\":{";
    ByteLengthConcat(head, FactsJson(f));
    ByteLengthBounds(head);
    ByteLengthBounds(FactsJson(f));
    ByteLengthBounds(",\"nextOffsetBytes\":");
    ByteLengthBounds(",\"hasMore\":");
    ByteLengthBounds(",\"text\":");
    ByteLengthBounds("\"");
    ByteLengthBounds("}}");
  }

  /** An envelope without text is far below the limit for every offset a caller can pass. */
  lemma EmptyPageIsSmall(p: Page)
    requires p.facts.offset <= CAPTURE_LIMIT && p.facts.retained <= CAPTURE_LIMIT && p.next <= CAPTURE_LIMIT
    requires p.text == ""
    ensures SerializedBytes(p) <= 2_000
  {
    assert PowerOfTen(7) == 10 * (10 * (10 * PowerOfTen(4)));
    assert PowerOfTen(4) == 10 * (10 * (10 * PowerOfTen(1)));
    SerializedParts(p);
    FactsAreShort(p.facts);
    FixedPartIsSmall(p.facts);
    DecimalLength(p.next, 7);
    ByteLengthBounds(Decimal(p.next));
    ByteLengthBounds(Boolean(p.hasMore));
  }

  // ---------------------------------------------------------------- tokens and their display

  /** Terminal-safe form of one scalar. */
  function Sanitize(c: char): (s: string)
    ensures |s| >= 1
  {
    var v := c as int;
    if c == '\t' || c == '\n' then [c]
    else if c == '\r' then "\\r"
    else if v < 0x20 || 0x7F <= v <= 0x9F then "\\x" + [Digit(v / 16), Digit(v % 16)]
    else [c]
  }

  function Show(t: Token): string {
    Sanitize(t.scalar)
  }

  function Display(toks: seq<Token>): string {
    FlatMap(Show, toks)
  }

  function Consumed(toks: seq<Token>): nat {
    if toks == [] then 0 else Consumed(toks[..|toks| - 1]) + toks[|toks| - 1].consumed
  }

  /** The tokens of s; a sequence that appended bytes could complete is withheld while growing. */
  function Tokens(s: seq<Byte>, growing: bool): seq<Token> {
    if s == [] then []
    else
      var t := NextToken(s, growing);
      if t.None? then [] else [t.value] + Tokens(s[t.value.consumed..], growing)
  }

  function LineFeeds(text: string): nat {
    if text == [] then 0
    else LineFeeds(text[..|text| - 1]) + if text[|text| - 1] == '\n' then 1 else 0
  }

  function LogicalLines(text: string): nat {
    if text == [] then 0
    else LineFeeds(text) + if text[|text| - 1] == '\n' then 0 else 1
  }

  // ---------------------------------------------------------------- the page

  function PageOf(facts: PageFacts, toks: seq<Token>): Page {
    var next := facts.offset + Consumed(toks);
    Page(facts, next, next < facts.retained, Display(toks))
  }

  predicate Fits(facts: PageFacts, toks: seq<Token>) {
    && SerializedBytes(PageOf(facts, toks)) <= ENVELOPE_LIMIT
    && LogicalLines(Display(toks)) <= LINE_LIMIT
  }

  /** The first j tokens fit. */
  predicate FirstFit(facts: PageFacts, toks: seq<Token>, j: nat) {
    j <= |toks| && Fits(facts, toks[..j])
  }

  /** The largest number of tokens, at most k, that fit, or 0. */
  function LongestFitUpTo(facts: PageFacts, toks: seq<Token>, k: nat): (n: nat) {
    if k == 0 || FirstFit(facts, toks, k) then k else LongestFitUpTo(facts, toks, k - 1)
  }

  lemma {:induction false} LongestFitBounds(facts: PageFacts, toks: seq<Token>, k: nat)
    ensures var n := LongestFitUpTo(facts, toks, k);
            n <= k && (n == 0 || FirstFit(facts, toks, n)) && forall j :: n < j <= k ==> !FirstFit(facts, toks, j)
  {
    hide FirstFit;
    if k > 0 && !FirstFit(facts, toks, k) {
      LongestFitBounds(facts, toks, k - 1);
    }
  }

  function LongestFit(facts: PageFacts, toks: seq<Token>): (n: nat)
    ensures n <= |toks|
  {
    LongestFitBounds(facts, toks, |toks|);
    LongestFitUpTo(facts, toks, |toks|)
  }

  /** The page of everything retained after the offset. */
  function BestPage(facts: PageFacts, rest: seq<Byte>): Page {
    var toks := Tokens(rest, facts.canGrow);
    PageOf(facts, toks[..LongestFit(facts, toks)])
  }

  // ---------------------------------------------------------------- facts about tokens

  lemma {:induction false} ConsumedConcat(a: seq<Token>, b: seq<Token>)
    ensures Consumed(a + b) == Consumed(a) + Consumed(b)
  {
    if b == [] {
      assert a + b == a;
    } else {
      assert (a + b)[..|a + b| - 1] == a + b[..|b| - 1];
      ConsumedConcat(a, b[..|b| - 1]);
    }
  }

  lemma {:induction false} LineFeedsConcat(a: string, b: string)
    ensures LineFeeds(a + b) == LineFeeds(a) + LineFeeds(b)
  {
    if b == [] {
      assert a + b == a;
    } else {
      assert (a + b)[..|a + b| - 1] == a + b[..|b| - 1];
      LineFeedsConcat(a, b[..|b| - 1]);
    }
  }

  lemma DisplayAppend(toks: seq<Token>, t: Token)
    ensures Display(toks + [t]) == Display(toks) + Show(t)
  {
    assert (toks + [t])[..|toks|] == toks;
  }

  lemma {:induction false} EscapeGrows(s: string)
    ensures |Escape(s)| >= |s|
  {
    if s != [] {
      EscapeGrows(s[..|s| - 1]);
    }
  }

  lemma ScalarCost(c: char)
    ensures ByteLength(Escape(Sanitize(c))) >= |Encode(c)|
  {
    var shown := Sanitize(c);
    ByteLengthBounds(Escape(shown));
    EscapeGrows(shown);
    if |shown| == 1 {
      assert Escape([c]) == Escape([c][..0]) + EscapeChar(c);
      if EscapeChar(c) == [c] {
        assert ByteLength([c]) == ByteLength([c][..0]) + |Encode(c)|;
      }
    }
  }

  /** Every token costs at least as many envelope bytes as the raw bytes it consumes. */
  lemma TokenCost(s: seq<Byte>, growing: bool)
    requires s != [] && NextToken(s, growing).Some?
    ensures ByteLength(Escape(Show(NextToken(s, growing).value))) >= NextToken(s, growing).value.consumed
  {
    ScalarCost(NextToken(s, growing).value.scalar);
    if Width(s[0]) > 0 && ValidRun(s, Width(s[0])) {
      ValidRunIsEncoding(s);
    }
  }

  /** Four bytes of lookahead settle a token: a window that long reads it as the whole file would. */
  lemma WindowToken(window: seq<Byte>, more: seq<Byte>, growing: bool)
    requires window != [] && (|window| > LOOKAHEAD || more == [])
    ensures NextToken(window, more == [] && growing) == NextToken(window + more, growing)
  {
    if more == [] {
      assert window + more == window;
    } else {
      TokenStable(window, more, growing);
    }
  }

  lemma LogicalLinesAppend(text: string, c: char)
    ensures LogicalLines(text + Sanitize(c))
         == LineFeeds(text) + 1
    ensures LineFeeds(text + Sanitize(c)) == LineFeeds(text) + if Sanitize(c) == "\n" then 1 else 0
    ensures LogicalLines(text) <= LogicalLines(text + Sanitize(c))
  {
    LineFeedsConcat(text, Sanitize(c));
    NoInnerLineFeed(c);
  }

  lemma NoInnerLineFeed(c: char)
    ensures LineFeeds(Sanitize(c)) == if Sanitize(c) == "\n" then 1 else 0
    ensures Sanitize(c)[|Sanitize(c)| - 1] == '\n' ==> Sanitize(c) == "\n"
  {
    var s := Sanitize(c);
    LineFeedCount(s);
  }

  lemma {:induction false} LineFeedCount(s: string)
    requires |s| > 0 && forall i :: 0 <= i < |s| - 1 ==> s[i] != '\n'
    ensures LineFeeds(s) == if s[|s| - 1] == '\n' then 1 else 0
  {
    if |s| > 1 {
      LineFeedCount(s[..|s| - 1]);
    }
  }

  // ---------------------------------------------------------------- the longest fitting prefix

  /** Taking a token back never makes a page larger. */
  lemma FitsMonotone(facts: PageFacts, toks: seq<Token>, t: Token)
    requires Fits(facts, toks + [t])
    ensures Fits(facts, toks)
  {
    var p, q := PageOf(facts, toks), PageOf(facts, toks + [t]);
    SerializedSize(p);
    SerializedSize(q);
    ConsumedConcat(toks, [t]);
    DecimalMonotone(p.next, q.next);
    DisplayAppend(toks, t);
    FlatMapConcat(EscapeChar, Display(toks), Show(t));
    ByteLengthConcat(Escape(Display(toks)), Escape(Show(t)));
    LogicalLinesAppend(Display(toks), t.scalar);
    BooleanSize(p.hasMore, q.hasMore);
  }

  lemma BooleanSize(a: bool, b: bool)
    requires b ==> a
    ensures ByteLength(Boolean(a)) <= ByteLength(Boolean(b))
  {
    AsciiByteLength("true");
    AsciiByteLength("false");
  }

  lemma {:induction false} LongerDoesNotFit(facts: PageFacts, toks: seq<Token>, k: nat, j: nat)
    requires k < j <= |toks| && !FirstFit(facts, toks, k + 1)
    ensures !FirstFit(facts, toks, j)
  {
    hide Fits;
    if j > k + 1 {
      LongerDoesNotFit(facts, toks, k, j - 1);
      assert toks[..j] == toks[..j - 1] + [toks[j - 1]];
      if Fits(facts, toks[..j]) {
        FitsMonotone(facts, toks[..j - 1], toks[j - 1]);
      }
    }
  }

  /** A greedy scan that stops at the first token that does not fit finds the longest prefix. */
  lemma GreedyIsLongest(facts: PageFacts, toks: seq<Token>, k: nat)
    requires k <= |toks| && (k == 0 || FirstFit(facts, toks, k))
    requires k < |toks| ==> !FirstFit(facts, toks, k + 1)
    ensures LongestFit(facts, toks) == k
  {
    hide Fits, FirstFit;
    LongestFitBounds(facts, toks, |toks|);
    var n := LongestFit(facts, toks);
    if n > k {
      LongerDoesNotFit(facts, toks, k, n);
    }
  }

  lemma EmptyPageFits(facts: PageFacts)
    requires facts.offset <= facts.retained <= CAPTURE_LIMIT
    ensures Fits(facts, [])
  {
    EmptyPageIsSmall(PageOf(facts, []));
  }

  /** The page always fits, and no longer prefix of the tokens does. */
  lemma LongestFitIsMaximal(facts: PageFacts, toks: seq<Token>, j: nat)
    requires facts.offset <= facts.retained <= CAPTURE_LIMIT
    ensures FirstFit(facts, toks, LongestFit(facts, toks))
    ensures FirstFit(facts, toks, j) ==> j <= LongestFit(facts, toks)
  {
    EmptyPageFits(facts);
    assert toks[..0] == [];
    assert FirstFit(facts, toks, 0);
    hide FirstFit;
    LongestFitBounds(facts, toks, |toks|);
  }

  // ---------------------------------------------------------------- the windowed scan

  /** The state of a scan after the tokens done, with consumed bytes of rest behind it. */
  ghost predicate Scanned(facts: PageFacts, rest: seq<Byte>, done: seq<Token>, consumed: nat) {
    && consumed == Consumed(done) <= |rest|
    && Tokens(rest, facts.canGrow) == done + Tokens(rest[consumed..], facts.canGrow)
    && (done == [] || Fits(facts, done))
  }

  lemma ScanStarts(facts: PageFacts, rest: seq<Byte>)
    ensures Scanned(facts, rest, [], 0)
    ensures Display([]) == "" && ByteLength(Escape("")) == 0 && LineFeeds("") == 0
  {
    assert rest[0..] == rest;
  }

  /** The scan is over when nothing is left, the next token is withheld, or it does not fit. */
  lemma ScanEnds(facts: PageFacts, rest: seq<Byte>, done: seq<Token>, consumed: nat)
    requires Scanned(facts, rest, done, consumed)
    requires consumed < |rest| ==>
               var t := NextToken(rest[consumed..], facts.canGrow);
               t.None? || !Fits(facts, done + [t.value])
    ensures BestPage(facts, rest) == PageOf(facts, done)
  {
    hide Fits;
    var toks := Tokens(rest, facts.canGrow);
    var k := |done|;
    assert toks[..k] == done;
    if k < |toks| {
      assert toks[..k + 1] == done + [Tokens(rest[consumed..], facts.canGrow)[0]];
    }
    GreedyIsLongest(facts, toks, k);
  }

  /** The code's incremental counts for one more token are those of the longer text. */
  lemma CandidateText(done: seq<Token>, t: Token, text: string, displayed: string)
    requires text == Display(done) && displayed == Sanitize(t.scalar)
    ensures text + displayed == Display(done + [t])
    ensures LineFeeds(text + displayed) == LineFeeds(text) + if displayed == "\n" then 1 else 0
    ensures LogicalLines(Display(done + [t])) == LineFeeds(text) + 1
    ensures ByteLength(Escape(text + displayed)) == ByteLength(Escape(text)) + ByteLength(Quote(displayed)) - 2
  {
    DisplayAppend(done, t);
    LogicalLinesAppend(text, t.scalar);
    FlatMapConcat(EscapeChar, text, displayed);
    ByteLengthConcat(Escape(text), Escape(displayed));
    QuoteSize(displayed);
  }

  lemma CandidateSize(facts: PageFacts, done: seq<Token>, t: Token, next: nat)
    requires next == facts.offset + Consumed(done) + t.consumed
    ensures SerializedBytes(Page(facts, next, next < facts.retained, "")) + ByteLength(Escape(Display(done + [t])))
         == SerializedBytes(PageOf(facts, done + [t]))
  {
    var q := PageOf(facts, done + [t]);
    assert q.next == next by {
      ConsumedConcat(done, [t]);
      assert Consumed([t]) == Consumed([t][..0]) + t.consumed;
    }
    hide *;
    SerializedSize(q);
  }

  lemma QuoteSize(s: string)
    ensures ByteLength(Quote(s)) == ByteLength(Escape(s)) + 2
  {
    AsciiByteLength("\"");
    ByteLengthConcat("\"" + Escape(s), "\"");
    ByteLengthConcat("\"", Escape(s));
  }

  lemma ScanStep(facts: PageFacts, rest: seq<Byte>, done: seq<Token>, consumed: nat, t: Token)
    requires Scanned(facts, rest, done, consumed) && consumed < |rest|
    requires NextToken(rest[consumed..], facts.canGrow) == Some(t)
    requires Fits(facts, done + [t])
    ensures Scanned(facts, rest, done + [t], consumed + t.consumed)
  {
    hide Fits;
    ConsumedConcat(done, [t]);
    assert Consumed([t]) == Consumed([t][..0]) + t.consumed;
    assert rest[consumed..][t.consumed..] == rest[consumed + t.consumed..];
  }

  predicate Costly(t: Token) {
    ByteLength(Escape(Show(t))) >= t.consumed
  }

  lemma {:induction false} TokensAreCostly(s: seq<Byte>, growing: bool, i: nat)
    requires i < |Tokens(s, growing)|
    ensures Costly(Tokens(s, growing)[i])
  {
    TokenCost(s, growing);
    if i > 0 {
      TokensAreCostly(s[NextToken(s, growing).value.consumed..], growing, i - 1);
    }
  }

  /** A text costs at least as many escaped bytes as the raw bytes its tokens consumed. */
  lemma {:induction false} TextCost(toks: seq<Token>)
    requires forall i :: 0 <= i < |toks| ==> Costly(toks[i])
    ensures ByteLength(Escape(Display(toks))) >= Consumed(toks)
  {
    if toks != [] {
      var init, last := toks[..|toks| - 1], toks[|toks| - 1];
      TextCost(init);
      FlatMapConcat(EscapeChar, Display(init), Show(last));
      ByteLengthConcat(Escape(Display(init)), Escape(Show(last)));
      assert Costly(last);
    }
  }

  /** A scan that fits has not consumed a full window: the window never cuts a page short. */
  lemma FittingScanIsShort(facts: PageFacts, rest: seq<Byte>, done: seq<Token>, consumed: nat)
    requires Scanned(facts, rest, done, consumed)
    ensures consumed < ENVELOPE_LIMIT
  {
    if done != [] {
      forall i | 0 <= i < |done| ensures Costly(done[i]) {
        TokensAreCostly(rest, facts.canGrow, i);
      }
      TextCost(done);
      SerializedSize(PageOf(facts, done));
      DecimalBytes(PageOf(facts, done).next);
    }
  }

  lemma PageBuilt(facts: PageFacts, rest: seq<Byte>, done: seq<Token>, consumed: nat, next: nat, text: string)
    requires facts.offset <= facts.retained <= CAPTURE_LIMIT
    requires Scanned(facts, rest, done, consumed) && text == Display(done) && next == facts.offset + consumed
    ensures Page(facts, next, next < facts.retained, text) == PageOf(facts, done)
    ensures SerializedBytes(PageOf(facts, done)) <= ENVELOPE_LIMIT
  {
    EmptyPageFits(facts);
  }

  /**
   The code's loop over a bounded window. Its result is the page of everything retained after the
   offset, and the final size check never fails.
   */
  method Paginate(bytes: seq<Byte>, canGrow: bool, facts: PageFacts, ghost rest: seq<Byte>)
    returns (r: Result<Page, OutputError>)
    requires facts.canGrow == canGrow
    requires facts.offset + |rest| == facts.retained <= CAPTURE_LIMIT
    requires bytes == if |rest| <= ENVELOPE_LIMIT + LOOKAHEAD then rest else rest[..ENVELOPE_LIMIT + LOOKAHEAD]
    ensures r == Success(BestPage(facts, rest))
  {
    hide PageOf, BestPage, SerializedBytes, LogicalLines, Display, Escape, ByteLength, Quote, LineFeeds;
    hide Tokens, Consumed, NextToken, Sanitize;
    var primaryLength := if |bytes| <= ENVELOPE_LIMIT then |bytes| else ENVELOPE_LIMIT;
    var snapshotEndsHere := facts.offset + |bytes| == facts.retained;
    var text, escapedTextBytes, consumed, lineFeeds := "", 0, 0, 0;
    ghost var done: seq<Token> := [];
    ghost var more := rest[|bytes|..];
    ScanStarts(facts, rest);
    while consumed < primaryLength
      invariant consumed <= |bytes| && Scanned(facts, rest, done, consumed)
      invariant text == Display(done)
      invariant escapedTextBytes == ByteLength(Escape(text))
      invariant lineFeeds == LineFeeds(text)
      decreases primaryLength - consumed
    {
      assert bytes[consumed..] + more == rest[consumed..];
      WindowToken(bytes[consumed..], more, canGrow);
      var token := Utf8Token(bytes, consumed, snapshotEndsHere, canGrow);
      if token.None? {
        ScanEnds(facts, rest, done, consumed);
        break;
      }
      var t := token.value;
      if consumed + t.consumed > |bytes| { break; }
      var displayed := Sanitize(t.scalar);
      var candidateConsumed := consumed + t.consumed;
      var candidateLineFeeds := lineFeeds + if displayed == "\n" then 1 else 0;
      var logicalLines := candidateLineFeeds + if displayed == "\n" then 0 else 1;
      var next := facts.offset + candidateConsumed;
      CandidateText(done, t, text, displayed);
      CandidateSize(facts, done, t, next);
      if logicalLines > LINE_LIMIT {
        ScanEnds(facts, rest, done, consumed);
        break;
      }
      var metadata := Page(facts, next, next < facts.retained, "");
      var candidateEscapedBytes := escapedTextBytes + ByteLength(Quote(displayed)) - 2;
      if SerializedBytes(metadata) + candidateEscapedBytes > ENVELOPE_LIMIT {
        ScanEnds(facts, rest, done, consumed);
        break;
      }
      ScanStep(facts, rest, done, consumed, t);
      text := text + displayed;
      escapedTextBytes := candidateEscapedBytes;
      consumed := candidateConsumed;
      lineFeeds := candidateLineFeeds;
      done := done + [t];
    }
    FittingScanIsShort(facts, rest, done, consumed);
    if consumed >= primaryLength {
      ScanEnds(facts, rest, done, consumed);
    }
    var nextOffset := facts.offset + consumed;
    var page := Page(facts, nextOffset, nextOffset < facts.retained, text);
    PageBuilt(facts, rest, done, consumed, nextOffset, text);
    if SerializedBytes(page) > ENVELOPE_LIMIT { return Failure(OutputReadFailed); }
    return Success(page);
  }

  // ---------------------------------------------------------------- what every page satisfies

  /** Neither C0, DEL nor C1, except tab and line feed. */
  predicate Harmless(c: char) {
    c == '\t' || c == '\n' || (c as int >= 0x20 && !(0x7F <= c as int <= 0x9F))
  }

  lemma DigitsAreHarmless(d: nat)
    requires d < 16
    ensures Harmless(Digit(d))
  {
  }

  lemma SanitizedIsHarmless(c: char, k: nat)
    requires k < |Sanitize(c)|
    ensures Harmless(Sanitize(c)[k])
  {
    if c as int < 0x20 || 0x7F <= c as int <= 0x9F {
      DigitsAreHarmless(c as int / 16);
      DigitsAreHarmless(c as int % 16);
      hide Digit;
    }
  }

  lemma DisplayIsHarmless(toks: seq<Token>)
    ensures forall i :: 0 <= i < |Display(toks)| ==> Harmless(Display(toks)[i])
  {
    forall i, k | 0 <= i < |toks| && 0 <= k < |Show(toks[i])| ensures Harmless(Show(toks[i])[k]) {
      SanitizedIsHarmless(toks[i].scalar, k);
    }
    FlatMapAll(Show, toks, Harmless);
  }

  /** Every page meets the byte limit and the line limit, is safe to print and stays within what was retained. */
  lemma PageMeetsLimits(facts: PageFacts, rest: seq<Byte>)
    requires facts.offset <= facts.retained <= CAPTURE_LIMIT
    ensures var page := BestPage(facts, rest);
            && SerializedBytes(page) <= 51_200
            && LogicalLines(page.text) <= 2_000
            && (forall i :: 0 <= i < |page.text| ==> Harmless(page.text[i]))
            && page.hasMore == (page.next < facts.retained) && page.facts == facts
  {
    var toks := Tokens(rest, facts.canGrow);
    LongestFitIsMaximal(facts, toks, 0);
    DisplayIsHarmless(toks[..LongestFit(facts, toks)]);
    hide SerializedBytes, LogicalLines, Display, LongestFit, Harmless, Tokens;
  }
}
