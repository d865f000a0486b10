/**
 What a caller sees who follows nextOffsetBytes from page to page, over a file that may still be
 growing: the concatenated pages are one decode of the final bytes, wherever the pages end.
 */
module Polling {
  import opened Sequences
  import opened CaptureTypes
  import opened Wrappers
  import opened Utf8
  import opened Json
  import opened Paginator

  // ---------------------------------------------------------------- the reference decode

  /** toks is a complete tokenization of s under the standard. */
  ghost predicate Decodes(s: seq<Byte>, toks: seq<Token>) {
    if s == [] then toks == []
    else
      && toks != [] && IsToken(s, toks[0]) && 1 <= toks[0].consumed <= |s|
      && Decodes(s[toks[0].consumed..], toks[1..])
  }

  /** The sanitized text of a closed file. */
  function SanitizedDecode(s: seq<Byte>): string {
    Display(Tokens(s, false))
  }

  /** The token stream of a closed file is its only tokenization under the standard. */
  lemma {:induction false} TokensDecode(s: seq<Byte>, toks: seq<Token>)
    ensures Decodes(s, toks) <==> toks == Tokens(s, false)
    decreases |s|
  {
    if s != [] {
      TokenMeetsStandard(s, false);
      var t := NextToken(s, false).value;
      TokensDecode(s[t.consumed..], if toks == [] then [] else toks[1..]);
      if toks != [] && IsToken(s, toks[0]) {
        TokenIsUnique(s, t, toks[0]);
      }
      assert toks != [] ==> toks == [toks[0]] + toks[1..];
    }
  }

  // ---------------------------------------------------------------- stability

  /** done are the first tokens of the closed file s; decoding resumes at byte n. */
  ghost predicate Resumes(s: seq<Byte>, done: seq<Token>, n: nat) {
    && n == Consumed(done) <= |s|
    && Tokens(s, false) == done + Tokens(s[n..], false)
  }

  lemma ResumesFromStart(s: seq<Byte>)
    ensures Resumes(s, [], 0)
  {
    assert s[0..] == s;
  }

  lemma ResumesTransitive(s: seq<Byte>, a: seq<Token>, m: nat, b: seq<Token>, n: nat)
    requires Resumes(s, a, m) && Resumes(s[m..], b, n)
    ensures Resumes(s, a + b, m + n)
  {
    hide Tokens;
    ConsumedConcat(a, b);
    assert s[m..][n..] == s[m + n..];
  }

  lemma OneTokenResumes(s: seq<Byte>, more: seq<Byte>, growing: bool)
    requires s != [] && NextToken(s, growing).Some? && (growing || more == [])
    ensures var t := NextToken(s, growing).value;
            Resumes(s + more, [t], t.consumed) && (s + more)[t.consumed..] == s[t.consumed..] + more
  {
    var t := NextToken(s, growing).value;
    if growing {
      TokenStable(s, more, false);
    } else {
      assert s + more == s;
    }
    assert Consumed([t]) == Consumed([t][..0]) + t.consumed;
  }

  lemma FirstToken(s: seq<Byte>, growing: bool, k: nat)
    requires 0 < k <= |Tokens(s, growing)|
    ensures s != [] && NextToken(s, growing).Some?
    ensures var t := NextToken(s, growing).value;
            k - 1 <= |Tokens(s[t.consumed..], growing)| && Tokens(s, growing)[..k] == [t] + Tokens(s[t.consumed..], growing)[..k - 1]
  {
  }

  /**
   Any prefix of the tokens of a snapshot is a prefix of the tokens of every later state of the
   file, and decoding resumes where it ends.
   */
  lemma {:induction false} PrefixStable(s: seq<Byte>, more: seq<Byte>, growing: bool, k: nat)
    requires k <= |Tokens(s, growing)| && (growing || more == [])
    ensures var chosen := Tokens(s, growing)[..k];
            Consumed(chosen) <= |s| && Resumes(s + more, chosen, Consumed(chosen))
  {
    if k == 0 {
      assert Tokens(s, growing)[..0] == [];
      ResumesFromStart(s + more);
    } else {
      FirstToken(s, growing, k);
      var t := NextToken(s, growing).value;
      var rest := s[t.consumed..];
      OneTokenResumes(s, more, growing);
      hide Resumes, NextToken, Consumed, Tokens;
      PrefixStable(rest, more, growing, k - 1);
      OneMoreResumes(s, more, t, Tokens(rest, growing)[..k - 1]);
    }
  }

  lemma OneMoreResumes(s: seq<Byte>, more: seq<Byte>, t: Token, chosen: seq<Token>)
    requires t.consumed <= |s| && Resumes(s + more, [t], t.consumed) && (s + more)[t.consumed..] == s[t.consumed..] + more
    requires Consumed(chosen) <= |s| - t.consumed && Resumes(s[t.consumed..] + more, chosen, Consumed(chosen))
    ensures Consumed([t] + chosen) <= |s| && Resumes(s + more, [t] + chosen, Consumed([t] + chosen))
  {
    hide Resumes, Consumed;
    ConsumedOne(t);
    ConsumedConcat([t], chosen);
    ResumesTransitive(s + more, [t], t.consumed, chosen, Consumed(chosen));
  }

  lemma ConsumedOne(t: Token)
    ensures Consumed([t]) == t.consumed
  {
    assert Consumed([t]) == Consumed([t][..0]) + t.consumed;
  }

  // ---------------------------------------------------------------- following the offsets

  /** One read: how much was retained, whether it could grow, and the other page facts. */
  datatype Poll = Poll(length: nat, canGrow: bool, template: PageFacts)

  function FactsAt(p: Poll, offset: nat): PageFacts {
    p.template.(offset := offset, retained := p.length, canGrow := p.canGrow)
  }

  /** Growing snapshots of the file that ends as final; only the closed file refuses growth. */
  ghost predicate Chain(final: seq<Byte>, polls: seq<Poll>) {
    && (forall i :: 0 <= i < |polls| ==> polls[i].length <= |final|)
    && (forall i :: 0 <= i < |polls| ==> polls[i].canGrow || polls[i].length == |final|)
    && (forall i, j :: 0 <= i < j < |polls| ==> polls[i].length <= polls[j].length)
  }

  datatype Reading = Reading(offset: nat, text: string)

  /** Each poll starts at the next offset of the one before it. */
  function Follow(final: seq<Byte>, polls: seq<Poll>): Reading {
    if polls == [] then Reading(0, "")
    else
      var last := polls[|polls| - 1];
      var before := Follow(final, polls[..|polls| - 1]);
      if before.offset <= last.length <= |final| then
        var page := BestPage(FactsAt(last, before.offset), final[before.offset..last.length]);
        Reading(page.next, before.text + page.text)
      else before
  }

  /** A page of a snapshot shows tokens of the final file, and decoding resumes after them. */
  lemma PageReads(final: seq<Byte>, p: Poll, offset: nat) returns (chosen: seq<Token>)
    requires offset <= p.length <= |final| && (p.canGrow || p.length == |final|)
    ensures var page := BestPage(FactsAt(p, offset), final[offset..p.length]);
            && page.text == Display(chosen) && page.next == offset + Consumed(chosen) <= p.length
            && Resumes(final[offset..], chosen, Consumed(chosen))
  {
    hide LongestFit, Resumes, Tokens, Consumed;
    var snapshot, more := final[offset..p.length], final[p.length..];
    var toks := Tokens(snapshot, p.canGrow);
    var k := LongestFit(FactsAt(p, offset), toks);
    assert snapshot + more == final[offset..];
    PrefixStable(snapshot, more, p.canGrow, k);
    chosen := toks[..k];
  }

  lemma {:induction false} FollowReads(final: seq<Byte>, polls: seq<Poll>) returns (done: seq<Token>)
    requires Chain(final, polls)
    ensures Follow(final, polls).text == Display(done)
    ensures Resumes(final, done, Follow(final, polls).offset)
    ensures Follow(final, polls).offset <= if polls == [] then 0 else polls[|polls| - 1].length
  {
    hide Resumes, BestPage;
    if polls == [] {
      done := [];
      ResumesFromStart(final);
    } else {
      var last, init := polls[|polls| - 1], polls[..|polls| - 1];
      var before := Follow(final, init);
      done := FollowReads(final, init);
      var chosen := PageReads(final, last, before.offset);
      ResumesTransitive(final, done, before.offset, chosen, Consumed(chosen));
      FlatMapConcat(Show, done, chosen);
      done := done + chosen;
    }
  }

  /**
   Over any growing chain of snapshots the pages read so far are a prefix of the sanitized decode
   of the final bytes, and once the offset reaches the end they are all of it.
   */
  lemma PollingEquivalence(final: seq<Byte>, polls: seq<Poll>)
    requires Chain(final, polls)
    ensures Follow(final, polls).offset <= |final|
    ensures SanitizedDecode(final)
         == Follow(final, polls).text + SanitizedDecode(final[Follow(final, polls).offset..])
    ensures Follow(final, polls).offset == |final| ==> Follow(final, polls).text == SanitizedDecode(final)
  {
    var done := FollowReads(final, polls);
    var r := Follow(final, polls);
    ResumedText(final, done, r.offset);
    hide Follow, Tokens, Consumed;
  }

  // ---------------------------------------------------------------- progress

  lemma ShownIsSmall(t: Token)
    ensures ByteLength(Escape(Show(t))) <= 100
  {
    var s := Show(t);
    assert |s| <= 4;
    EscapeAtMost(s);
    ByteLengthBounds(Escape(s));
  }

  lemma {:induction false} EscapeAtMost(s: string)
    ensures |Escape(s)| <= 6 * |s|
  {
    if s != [] {
      EscapeAtMost(s[..|s| - 1]);
    }
  }

  lemma FirstTokenSize(facts: PageFacts, t: Token)
    requires facts.offset <= facts.retained <= CAPTURE_LIMIT && facts.offset + t.consumed <= CAPTURE_LIMIT
    ensures SerializedBytes(PageOf(facts, [t])) <= ENVELOPE_LIMIT
  {
    var next := facts.offset + t.consumed;
    CandidateSize(facts, [], t, next);
    EmptyPageIsSmall(Page(facts, next, next < facts.retained, ""));
    ShownIsSmall(t);
    assert [] + [t] == [t];
    assert Display([t]) == Display([t][..0]) + Show(t);
    assert Display([t]) == Show(t);
    hide *;
  }

  lemma FirstTokenLines(t: Token)
    ensures LogicalLines(Display([t])) == 1
  {
    assert [] + [t] == [t];
    CandidateText([], t, "", Show(t));
    hide *;
  }

  /** Neither limit can keep out the first token of a page. */
  lemma FirstTokenFits(facts: PageFacts, t: Token)
    requires facts.offset <= facts.retained <= CAPTURE_LIMIT && facts.offset + t.consumed <= CAPTURE_LIMIT
    ensures Fits(facts, [t])
  {
    hide SerializedBytes, LogicalLines, Display;
    FirstTokenSize(facts, t);
    FirstTokenLines(t);
  }

  /**
   A page that makes no progress before the end is withheld on purpose: the file may grow and its
   last few bytes are the beginning of one encoding.
   */
  lemma StalledPage(facts: PageFacts, rest: seq<Byte>)
    requires facts.offset + |rest| == facts.retained <= CAPTURE_LIMIT && rest != []
    ensures BestPage(facts, rest).next == facts.offset <==> facts.canGrow && ProperPrefix(rest)
    ensures BestPage(facts, rest).next == facts.offset ==> |rest| <= 3
  {
    TokenMeetsStandard(rest, facts.canGrow);
    ProperPrefixIffShortRun(rest);
    var toks := Tokens(rest, facts.canGrow);
    var k := LongestFit(facts, toks);
    assert BestPage(facts, rest).next == facts.offset + Consumed(toks[..k]);
    assert toks == [] <==> NextToken(rest, facts.canGrow).None?;
    assert toks != [] ==> toks[0].consumed >= 1;
    hide Tokens, NextToken, ProperPrefix, BestPage, Fits, LongestFit;
    if toks != [] {
      FirstTokenFits(facts, toks[0]);
      LongestFitIsMaximal(facts, toks, 1) by {
        assert toks[..1] == [toks[0]];
      }
      FirstTokenCounts(toks[..k]);
    }
  }

  lemma FirstTokenCounts(toks: seq<Token>)
    requires toks != []
    ensures Consumed(toks) >= toks[0].consumed
  {
    assert toks == [toks[0]] + toks[1..];
    ConsumedConcat([toks[0]], toks[1..]);
    ConsumedOne(toks[0]);
  }

  /** The page a read of the closed file returns. */
  function ClosedPage(final: seq<Byte>, template: PageFacts, offset: nat): Page
    requires offset <= |final|
  {
    BestPage(FactsAt(Poll(|final|, false, template), offset), final[offset..])
  }

  lemma ClosedPageReads(final: seq<Byte>, template: PageFacts, offset: nat)
    requires offset < |final| <= CAPTURE_LIMIT
    ensures var page := ClosedPage(final, template, offset);
            && offset < page.next <= |final|
            && SanitizedDecode(final[offset..]) == page.text + SanitizedDecode(final[page.next..])
  {
    hide BestPage, Tokens, Consumed, NextToken, ProperPrefix, Display, SanitizedDecode, Resumes;
    var p := Poll(|final|, false, template);
    var rest := final[offset..];
    assert final[offset..p.length] == rest;
    var chosen := PageReads(final, p, offset);
    var page := BestPage(FactsAt(p, offset), rest);
    assert ClosedPage(final, template, offset) == page;
    assert page.next != offset by {
      StalledPage(FactsAt(p, offset), rest);
    }
    assert rest[Consumed(chosen)..] == final[page.next..];
    ResumedText(rest, chosen, Consumed(chosen));
  }

  lemma ResumedText(s: seq<Byte>, done: seq<Token>, n: nat)
    requires Resumes(s, done, n)
    ensures SanitizedDecode(s) == Display(done) + SanitizedDecode(s[n..])
  {
    hide Tokens, Consumed;
    FlatMapConcat(Show, done, Tokens(s[n..], false));
  }

  /** Reading a closed file page after page, from an offset to the end. */
  ghost function Drain(final: seq<Byte>, template: PageFacts, offset: nat): string
    requires offset <= |final| <= CAPTURE_LIMIT
    decreases |final| - offset
  {
    if offset == |final| then ""
    else
      var page := ClosedPage(final, template, offset);
      ClosedPageReads(final, template, offset);
      page.text + Drain(final, template, page.next)
  }

  /** Every read of a closed file advances, so reading ends, and it shows the whole decode. */
  lemma {:induction false} DrainShowsAll(final: seq<Byte>, template: PageFacts, offset: nat)
    requires offset <= |final| <= CAPTURE_LIMIT
    ensures Drain(final, template, offset) == SanitizedDecode(final[offset..])
    decreases |final| - offset
  {
    if offset < |final| {
      hide ClosedPage, SanitizedDecode;
      ClosedPageReads(final, template, offset);
      DrainShowsAll(final, template, ClosedPage(final, template, offset).next);
    }
  }
}
