/** `extractSummary` of src/composables/useChat.ts: the case summary read out
    of a chat answer. A structured summary in the metadata wins; otherwise the
    answer is cut at the first anchor found (in the anchors' list order), its
    trimmed non-empty lines become the body, and the lines that mention
    keywords contribute the words after their first colon. `Date.now()` is
    the parameter `now`. */
module ChatSummary {
  import opened Wrappers
  import opened JsString
  import opened Types

  const SUMMARY_TRIGGER: string := "【我已整理完毕，以下是你的情感陈述摘要】"

  predicate IsLenticular(c: char) {
    c == '【' || c == '】'
  }

  /** `SUMMARY_TRIGGER.replace(/[【】]/g, '')`, as `BareTrigger` shows. */
  const BARE_TRIGGER: string := "我已整理完毕，以下是你的情感陈述摘要"

  /** The anchors, tried in this order. */
  const ANCHORS: seq<string> := ["情感陈述摘要", "案情摘要", "摘要", BARE_TRIGGER, SUMMARY_TRIGGER, "总结"]

  predicate IsNewline(c: char) {
    c == '\n'
  }

  /** `/[:：]/` */
  predicate IsColon(c: char) {
    c == ':' || c == '：'
  }

  /** `/[,，\s]/` */
  predicate IsKeywordSep(c: char) {
    c == ',' || c == '，' || IsSpace(c)
  }

  // ---------------------------------------------------------------------
  // The anchor loop

  /** The `idx` the loop over `anchors` ends with: the first occurrence of the
      first anchor that occurs at all, or -1. */
  function AnchorIdx(text: string, anchors: seq<string>): (r: int)
    ensures r == -1 || 0 <= r <= |text|
  {
    if anchors == [] then -1
    else
      var prev := AnchorIdx(text, anchors[..|anchors| - 1]);
      if prev >= 0 then prev else IndexOf(text, anchors[|anchors| - 1])
  }

  /** The loop searches the anchors in list order: the result is the first
      occurrence of the first anchor in the list that occurs, which need not
      be the anchor that occurs earliest in the text; -1 exactly when no
      anchor occurs. */
  lemma {:induction false} AnchorIdxIs(text: string, anchors: seq<string>)
    ensures AnchorIdx(text, anchors) == -1 <==> forall i :: 0 <= i < |anchors| ==> !Includes(text, anchors[i])
    ensures AnchorIdx(text, anchors) != -1 ==>
      exists i :: 0 <= i < |anchors| && AnchorIdx(text, anchors) == IndexOf(text, anchors[i])
        && Includes(text, anchors[i]) && forall j :: 0 <= j < i ==> !Includes(text, anchors[j])
    decreases |anchors|
  {
    if anchors != [] {
      var init := anchors[..|anchors| - 1];
      AnchorIdxIs(text, init);
      if AnchorIdx(text, init) != -1 {
        var i :| 0 <= i < |init| && AnchorIdx(text, init) == IndexOf(text, init[i])
          && Includes(text, init[i]) && forall j :: 0 <= j < i ==> !Includes(text, init[j]);
        assert anchors[i] == init[i];
        forall j | 0 <= j < i ensures !Includes(text, anchors[j]) {
          assert anchors[j] == init[j];
        }
      } else {
        forall j | 0 <= j < |init| ensures !Includes(text, anchors[j]) {
          assert anchors[j] == init[j];
        }
      }
    }
  }

  /** Once an anchor is found, later anchors change nothing. */
  lemma {:induction false} AnchorIdxStable(text: string, anchors: seq<string>, n: nat)
    requires n <= |anchors| && AnchorIdx(text, anchors[..n]) >= 0
    ensures AnchorIdx(text, anchors) == AnchorIdx(text, anchors[..n])
    decreases |anchors|
  {
    if n < |anchors| {
      var init := anchors[..|anchors| - 1];
      assert init[..n] == anchors[..n];
      AnchorIdxStable(text, init, n);
    } else {
      assert anchors[..n] == anchors;
    }
  }

  /** The `for (const a of anchors)` loop with its `break`. */
  method PickAnchor(text: string) returns (idx: int)
    ensures idx == AnchorIdx(text, ANCHORS)
  {
    idx := -1;
    var i := 0;
    while i < |ANCHORS|
      invariant 0 <= i <= |ANCHORS|
      invariant idx == AnchorIdx(text, ANCHORS[..i])
      invariant idx == -1
    {
      assert ANCHORS[..i + 1][..i] == ANCHORS[..i];
      idx := IndexOf(text, ANCHORS[i]);
      if idx >= 0 {
        AnchorIdxStable(text, ANCHORS, i + 1);
        return;
      }
      i := i + 1;
    }
    assert ANCHORS[..i] == ANCHORS;
  }

  // ---------------------------------------------------------------------
  // Lines, keywords and the body

  /** `idx >= 0 ? text.slice(idx) : text` */
  function Picked(text: string): string {
    var idx := AnchorIdx(text, ANCHORS);
    if idx >= 0 then text[idx..] else text
  }

  /** `split('\n').map(trim).filter(Boolean)` */
  function Lines(picked: string): seq<string> {
    NonEmpty(TrimEach(Split(picked, IsNewline)))
  }

  /** `/keywords?/i`, `关键字` or `关键词` */
  predicate MentionsKeywords(line: string) {
    Includes(line, "关键字") || Includes(line, "关键词") || IncludesFolded(line, "keyword")
  }

  /** `line.split(/[:：]/)[1] || ''` */
  function Segment(line: string): string {
    var parts := Split(line, IsColon);
    if |parts| > 1 then parts[1] else ""
  }

  /** `seg.split(/[,，\s]+/).map(trim).filter(Boolean)`. Splitting on single
      separators and dropping the empty pieces gives the same pieces as
      splitting on runs of them, and no piece holds white space to trim. */
  function LineKeywords(line: string): seq<string> {
    NonEmpty(TrimEach(Split(Segment(line), IsKeywordSep)))
  }

  /** The keywords a single line pushes. */
  function Pushed(line: string): seq<string> {
    if MentionsKeywords(line) then LineKeywords(line) else []
  }

  /** The keywords pushed by `lines.forEach`, in order. */
  function Keywords(lines: seq<string>): seq<string> {
    if lines == [] then []
    else
      var last := lines[|lines| - 1];
      Keywords(lines[..|lines| - 1]) + Pushed(last)
  }

  /** The `forEach` over the lines, pushing into `keywords`. */
  method CollectKeywords(lines: seq<string>) returns (keywords: seq<string>)
    ensures keywords == Keywords(lines)
  {
    keywords := [];
    for i := 0 to |lines|
      invariant keywords == Keywords(lines[..i])
    {
      assert lines[..i + 1][..i] == lines[..i];
      if MentionsKeywords(lines[i]) {
        keywords := keywords + LineKeywords(lines[i]);
      }
    }
    assert lines[..|lines|] == lines;
  }

  /** Every keyword is non-empty and holds no separator, and comes from a line
      that mentions keywords. */
  lemma {:induction false} KeywordsAreWords(lines: seq<string>)
    ensures forall k :: k in Keywords(lines) ==>
      k != "" && NoneOf(k, IsKeywordSep) && exists l :: l in lines && MentionsKeywords(l) && k in LineKeywords(l)
  {
    if lines != [] {
      var init := lines[..|lines| - 1];
      var last := lines[|lines| - 1];
      KeywordsAreWords(init);
      var pieces := Split(Segment(last), IsKeywordSep);
      forall k | k in LineKeywords(last)
        ensures k != "" && NoneOf(k, IsKeywordSep)
      {
        var j :| 0 <= j < |TrimEach(pieces)| && TrimEach(pieces)[j] == k;
        assert NoneOf(pieces[j], IsKeywordSep);
        TrimStartRemovesSpace(pieces[j]);
        assert TrimStart(pieces[j]) == pieces[j];
        TrimEndRemovesSpace(pieces[j]);
        assert TrimEnd(pieces[j]) == pieces[j];
      }
      forall k | k in Keywords(lines)
        ensures exists l :: l in lines && MentionsKeywords(l) && k in LineKeywords(l)
      {
        if k in Keywords(init) {
          var l :| l in init && MentionsKeywords(l) && k in LineKeywords(l);
          assert l in lines;
        } else {
          assert last in lines;
        }
      }
    }
  }

  lemma KeywordsSnoc(lines: seq<string>, line: string)
    ensures Keywords(lines + [line]) == Keywords(lines) + Pushed(line)
  {
    assert (lines + [line])[..|lines|] == lines;
  }

  lemma KeywordsConcatStep(a: seq<string>, init: seq<string>, last: string)
    requires Keywords(a + init) == Keywords(a) + Keywords(init)
    ensures Keywords(a + (init + [last])) == Keywords(a) + Keywords(init + [last])
  {
    var ka, ki, p := Keywords(a), Keywords(init), Pushed(last);
    SeqAssoc(a, init, [last]);
    KeywordsSnoc(a + init, last);
    KeywordsSnoc(init, last);
    SeqAssoc(ka, ki, p);
  }

  lemma SeqAssoc<T>(x: seq<T>, y: seq<T>, z: seq<T>)
    ensures x + (y + z) == (x + y) + z
  {
  }

  /** The `forEach` over two runs of lines pushes the keywords of the first
      run and then those of the second: the collection is line by line. */
  lemma {:induction false} KeywordsConcat(a: seq<string>, b: seq<string>)
    ensures Keywords(a + b) == Keywords(a) + Keywords(b)
    decreases |b|
  {
    if b == [] {
      assert a + b == a;
    } else {
      var init := b[..|b| - 1];
      assert b == init + [b[|b| - 1]];
      KeywordsConcat(a, init);
      KeywordsConcatStep(a, init, b[|b| - 1]);
    }
  }

  /** The keywords of a line, written one after the other, give back the
      segment after its colon with every separator removed: nothing but the
      separators is lost, and the order is kept. */
  lemma LineKeywordsRejoin(line: string)
    ensures Join(LineKeywords(line), "") == RemoveAll(Segment(line), IsKeywordSep)
  {
    var pieces := Split(Segment(line), IsKeywordSep);
    forall j | 0 <= j < |pieces| ensures Trim(pieces[j]) == pieces[j] {
      assert NoneOf(pieces[j], IsKeywordSep);
      TrimUnchanged(pieces[j]);
    }
    assert TrimEach(pieces) == pieces;
    JoinNonEmpty(pieces);
    JoinSplit(Segment(line), IsKeywordSep);
  }

  /** `tryParseFromText(text)` */
  function TryParse(text: string, now: int): Option<CaseSummary> {
    var lines := Lines(Picked(text));
    var keywords := Keywords(lines);
    var body := Trim(Join(lines, "\n"));
    if body == "" then None
    else Some(CaseSummary("local_" + IntToString(now), body, if keywords != [] then Some(keywords) else None))
  }

  /** A joined run of lines that are non-empty and not blank at either end is
      itself not blank at either end. */
  lemma {:induction false} JoinEnds(lines: seq<string>)
    requires forall i :: 0 <= i < |lines| ==>
      lines[i] != [] && !IsSpace(lines[i][0]) && !IsSpace(lines[i][|lines[i]| - 1])
    ensures lines != [] ==> var j := Join(lines, "\n");
      j != [] && !IsSpace(j[0]) && !IsSpace(j[|j| - 1])
  {
    if |lines| >= 2 {
      JoinEnds(lines[1..]);
      var rest := Join(lines[1..], "\n");
      var j := lines[0] + "\n" + rest;
      assert j[0] == lines[0][0];
      assert j[|j| - 1] == rest[|rest| - 1];
    }
  }

  /** The lines are trimmed and non-empty. */
  lemma LinesTrimmed(picked: string)
    ensures forall i :: 0 <= i < |Lines(picked)| ==> var l := Lines(picked)[i];
      l != [] && !IsSpace(l[0]) && !IsSpace(l[|l| - 1])
  {
    var trimmed := TrimEach(Split(picked, IsNewline));
    forall i | 0 <= i < |Lines(picked)|
      ensures var l := Lines(picked)[i]; l != [] && !IsSpace(l[0]) && !IsSpace(l[|l| - 1])
    {
      var l := Lines(picked)[i];
      var j :| 0 <= j < |trimmed| && trimmed[j] == l;
      TrimEnds(Split(picked, IsNewline)[j]);
    }
  }

  /** Only white space gives no lines. */
  lemma {:induction false} NoLinesMeansBlank(s: string)
    requires Lines(s) == []
    ensures IsBlank(s)
  {
    if s != [] {
      var rest := Split(s[1..], IsNewline);
      if IsNewline(s[0]) {
        var parts := [""] + rest;
        assert Split(s, IsNewline) == parts && parts[1..] == rest;
        assert TrimEach(parts) == [Trim("")] + TrimEach(rest);
        assert Trim("") == "";
        assert NonEmpty(TrimEach(parts)) == NonEmpty(TrimEach(rest));
        NoLinesMeansBlank(s[1..]);
      } else {
        var first := [s[0]] + rest[0];
        var parts := [first] + rest[1..];
        assert Split(s, IsNewline) == parts && parts[1..] == rest[1..];
        assert TrimEach(parts) == [Trim(first)] + TrimEach(rest[1..]);
        assert Trim(first) == "" && NonEmpty(TrimEach(rest[1..])) == [];
        TrimEmptyIffBlank(first);
        assert IsSpace(first[0]);
        assert IsBlank(rest[0]) by {
          forall i | 0 <= i < |rest[0]| ensures IsSpace(rest[0][i]) {
            assert rest[0][i] == first[i + 1];
          }
        }
        TrimEmptyIffBlank(rest[0]);
        assert rest == [rest[0]] + rest[1..];
        assert TrimEach(rest) == [Trim(rest[0])] + TrimEach(rest[1..]);
        assert NonEmpty(TrimEach(rest)) == [];
        NoLinesMeansBlank(s[1..]);
      }
      assert IsBlank(s) by {
        forall i | 0 <= i < |s| ensures IsSpace(s[i]) {
          if i > 0 {
            assert s[i] == s[1..][i - 1];
          }
        }
      }
    }
  }

  /** The parsed body is the lines joined with newlines, untouched by the
      final `trim`; there is no summary exactly when there are no lines. */
  lemma TryParseBody(text: string, now: int)
    ensures var lines := Lines(Picked(text));
      && (TryParse(text, now).None? <==> lines == [])
      && (TryParse(text, now).Some? ==> TryParse(text, now).value.text == Join(lines, "\n"))
  {
    var lines := Lines(Picked(text));
    LinesTrimmed(Picked(text));
    JoinEnds(lines);
    TrimUnchanged(Join(lines, "\n"));
  }

  /** No summary can be parsed out of a blank answer and only out of one:
      an anchor found leaves a non-blank text, no anchor leaves the answer. */
  lemma TryParseNoneIffBlank(text: string, now: int)
    ensures TryParse(text, now).None? <==> IsBlank(text)
  {
    TryParseBody(text, now);
    AnchoredNotBlank(text);
    var picked := Picked(text);
    if Lines(picked) == [] {
      NoLinesMeansBlank(picked);
    } else {
      var l := Lines(picked)[0];
      LinesTrimmed(picked);
      LinesNotBlank(picked);
      assert !IsBlank(picked);
      if AnchorIdx(text, ANCHORS) != -1 {
        var idx := AnchorIdx(text, ANCHORS);
        assert !IsBlank(text) by {
          var k :| 0 <= k < |picked| && !IsSpace(picked[k]);
          assert text[idx + k] == picked[k];
        }
      }
    }
  }

  /** Text cut at an anchor starts with the anchor, which is not white space. */
  lemma AnchoredNotBlank(text: string)
    ensures AnchorIdx(text, ANCHORS) != -1 ==> !IsBlank(Picked(text))
  {
    AnchorIdxIs(text, ANCHORS);
    if AnchorIdx(text, ANCHORS) != -1 {
      var i :| 0 <= i < |ANCHORS| && AnchorIdx(text, ANCHORS) == IndexOf(text, ANCHORS[i]) && Includes(text, ANCHORS[i]);
      var idx := AnchorIdx(text, ANCHORS);
      var a := ANCHORS[i];
      assert OccursAt(text, a, idx);
      assert text[idx..idx + |a|][0] == a[0];
      assert !IsSpace(a[0]);
    }
  }

  /** Non-empty lines leave the text they came from non-blank. */
  lemma LinesNotBlank(picked: string)
    requires Lines(picked) != []
    ensures !IsBlank(picked)
  {
    if IsBlank(picked) {
      BlankHasNoLines(picked);
    }
  }

  lemma {:induction false} BlankHasNoLines(s: string)
    requires IsBlank(s)
    ensures Lines(s) == []
  {
    if s != [] {
      BlankHasNoLines(s[1..]);
      var rest := Split(s[1..], IsNewline);
      if IsNewline(s[0]) {
        var parts := [""] + rest;
        assert Split(s, IsNewline) == parts && parts[1..] == rest;
        assert TrimEach(parts) == [Trim("")] + TrimEach(rest);
        assert Trim("") == "";
      } else {
        var first := [s[0]] + rest[0];
        var parts := [first] + rest[1..];
        assert Split(s, IsNewline) == parts && parts[1..] == rest[1..];
        assert rest == [rest[0]] + rest[1..];
        assert TrimEach(rest) == [Trim(rest[0])] + TrimEach(rest[1..]);
        assert Trim(rest[0]) == "" && NonEmpty(TrimEach(rest[1..])) == [];
        TrimEmptyIffBlank(rest[0]);
        assert IsBlank(first) by {
          forall i | 0 <= i < |first| ensures IsSpace(first[i]) {
            if i > 0 {
              assert first[i] == rest[0][i - 1];
            }
          }
        }
        TrimEmptyIffBlank(first);
        assert TrimEach(parts) == [Trim(first)] + TrimEach(rest[1..]);
      }
    }
  }

  /** The trigger without its lenticular brackets. */
  lemma BareTrigger()
    ensures RemoveAll(SUMMARY_TRIGGER, IsLenticular) == BARE_TRIGGER
  {
    var t := SUMMARY_TRIGGER;
    assert t == ['【'] + BARE_TRIGGER + ['】'];
    assert RemoveAll(['】'], IsLenticular) == "";
    RemoveAllPlain(BARE_TRIGGER, ['】']);
  }

  lemma {:induction false} RemoveAllPlain(s: string, tail: string)
    requires NoneOf(s, IsLenticular)
    ensures RemoveAll(['【'] + s + tail, IsLenticular) == s + RemoveAll(tail, IsLenticular)
  {
    assert (['【'] + s + tail)[1..] == s + tail;
    KeepPlain(s, tail);
  }

  lemma {:induction false} KeepPlain(s: string, tail: string)
    requires NoneOf(s, IsLenticular)
    ensures RemoveAll(s + tail, IsLenticular) == s + RemoveAll(tail, IsLenticular)
  {
    if s != [] {
      assert (s + tail)[1..] == s[1..] + tail;
      assert (s + tail)[0] == s[0];
      KeepPlain(s[1..], tail);
      assert s == [s[0]] + s[1..];
    } else {
      assert s + tail == tail;
    }
  }

  // ---------------------------------------------------------------------
  // extractSummary

  /** `/情感陈述摘要|案情摘要|摘要|总结/.test(answer)` */
  predicate MentionsSummary(answer: string) {
    Includes(answer, "情感陈述摘要") || Includes(answer, "案情摘要") || Includes(answer, "摘要") || Includes(answer, "总结")
  }

  /** `extractSummary(answer, metadata)` */
  function ExtractSummarySpec(answer: string, metadata: Option<Metadata>, now: int): Option<CaseSummary> {
    if metadata.Some? && metadata.value.summary.Some? then metadata.value.summary
    else if metadata.Some? && metadata.value.summaryReady then
      var parsed := TryParse(answer, now);
      if parsed.Some? then parsed else Some(CaseSummary("local_" + IntToString(now), Trim(answer), None))
    else if Includes(answer, SUMMARY_TRIGGER) || MentionsSummary(answer) then TryParse(answer, now)
    else None
  }

  /** `extractSummary`, running the anchor loop and the keyword loop. */
  method ExtractSummary(answer: string, metadata: Option<Metadata>, now: int) returns (r: Option<CaseSummary>)
    ensures r == ExtractSummarySpec(answer, metadata, now)
  {
    if metadata.Some? && metadata.value.summary.Some? {
      return metadata.value.summary;
    }
    var parsed: Option<CaseSummary> := None;
    if (metadata.Some? && metadata.value.summaryReady) || Includes(answer, SUMMARY_TRIGGER) || MentionsSummary(answer) {
      var idx := PickAnchor(answer);
      var picked := if idx >= 0 then answer[idx..] else answer;
      var lines := Lines(picked);
      var keywords := CollectKeywords(lines);
      var body := Trim(Join(lines, "\n"));
      if body != "" {
        parsed := Some(CaseSummary("local_" + IntToString(now), body, if keywords != [] then Some(keywords) else None));
      }
    }
    if metadata.Some? && metadata.value.summaryReady {
      r := if parsed.Some? then parsed else Some(CaseSummary("local_" + IntToString(now), Trim(answer), None));
    } else {
      r := parsed;
    }
  }

  /** A structured summary in the metadata is returned as it is. */
  lemma MetadataSummaryWins(answer: string, metadata: Option<Metadata>, now: int)
    requires metadata.Some? && metadata.value.summary.Some?
    ensures ExtractSummarySpec(answer, metadata, now) == metadata.value.summary
  {
  }

  /** With `summary_ready` there is always a summary; the fallback on the
      trimmed answer is only ever taken for a blank answer, so its text is
      always empty. */
  lemma SummaryReadyNeverNull(answer: string, metadata: Option<Metadata>, now: int)
    requires metadata.Some? && metadata.value.summaryReady && metadata.value.summary.None?
    ensures ExtractSummarySpec(answer, metadata, now).Some?
    ensures TryParse(answer, now).None? ==> ExtractSummarySpec(answer, metadata, now).value.text == ""
  {
    TryParseNoneIffBlank(answer, now);
    TrimEmptyIffBlank(answer);
  }

  /** Without the metadata flags, an answer that contains neither 摘要 nor
      总结 gives no summary: the trigger and the longer words all contain 摘要. */
  lemma NoSummaryWithoutMention(answer: string, metadata: Option<Metadata>, now: int)
    requires metadata.None? || (metadata.value.summary.None? && !metadata.value.summaryReady)
    requires !Includes(answer, "摘要") && !Includes(answer, "总结")
    ensures ExtractSummarySpec(answer, metadata, now).None?
  {
    ContainsSummaryWord(answer, SUMMARY_TRIGGER, 17);
    ContainsSummaryWord(answer, "情感陈述摘要", 4);
    ContainsSummaryWord(answer, "案情摘要", 2);
  }

  lemma ContainsSummaryWord(answer: string, word: string, k: int)
    requires OccursAt(word, "摘要", k)
    ensures Includes(answer, word) ==> Includes(answer, "摘要")
  {
    if Includes(answer, word) {
      var i :| OccursAt(answer, word, i);
      OccursWithin(answer, word, "摘要", i, k);
    }
  }

  /** The two trigger anchors are never the one chosen: any text holding
      either of them holds 摘要, which comes earlier in the list. */
  lemma TriggerAnchorsUnused(text: string)
    ensures AnchorIdx(text, ANCHORS) == AnchorIdx(text, ["情感陈述摘要", "案情摘要", "摘要", "总结"])
  {
    ContainsSummaryWord(text, SUMMARY_TRIGGER, 17);
    ContainsSummaryWord(text, ANCHORS[3], 16);
    var short := ["情感陈述摘要", "案情摘要", "摘要", "总结"];
    assert ANCHORS[..3] == short[..3];
    if AnchorIdx(text, ANCHORS[..3]) >= 0 {
      AnchorIdxStable(text, ANCHORS, 3);
      AnchorIdxStable(text, short, 3);
    } else {
      AnchorIdxIs(text, ANCHORS[..3]);
      assert !Includes(text, "摘要") by {
        assert ANCHORS[..3][2] == "摘要";
      }
      assert ANCHORS[..4][..3] == ANCHORS[..3] && ANCHORS[..5][..4] == ANCHORS[..4] && ANCHORS[..6][..5] == ANCHORS[..5];
      assert AnchorIdx(text, ANCHORS[..5]) == -1;
      assert ANCHORS[..6] == ANCHORS && short[..4] == short && short[..4][..3] == short[..3];
    }
  }
}
