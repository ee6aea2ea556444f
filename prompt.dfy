/**
 * `build_prompt`: the instruction text sent to the model. With sources it
 * opens with a sources section holding one numbered block per source,
 * `[1]` .. `[n]` in list order; with none that section is left out. It always
 * ends with the fixed instructions, the student's question and the answer cue.
 */
module PromptBuilder {
  import opened Py
  import opened Search

  const SourcesHeader := "=== CURRENT WEB SOURCES " + "(Use this information to answer) ==="
  const SourcesFooter := "\n=== END OF SOURCES ===\n"
  const ContentLimit := 400

  /** The instructions' title line. */
  const InstructionsTitle := "IMPORTANT INSTRUCTIONS:\n"

  /** The instructions' bullet points. */
  const InstructionBullets :=
    "- You are a helpful AI tutor answering questions for students\n"
    + "- The web sources above contain CURRENT, UP-TO-DATE information\n"
    + "- For questions about recent events, news, or current information: USE THE WEB SOURCES PROVIDED\n"
    + "- Trust the sources - they are from reliable websites and contain factual current information\n"
    + "- Answer directly based on what the sources say\n"
    + "- Cite sources using [1], [2], [3] etc.\n"
    + "- If sources have dates/timelines, include them in your answer\n"
    + "- Be clear, educational, and step-by-step\n"
    + "- If the question is about current events or recent news, prioritize the web sources over general knowledge\n"

  /** The fixed instructions that follow the sources section, or open the prompt when there is none. */
  const Instructions := InstructionsTitle + InstructionBullets

  const AnswerCue := "Your Answer:"

  function QuestionLine(userPrompt: string): string
  {
    "\nStudent Question: " + userPrompt + "\n"
  }

  /** The three lines every prompt ends with. */
  function ClosingLines(userPrompt: string): seq<string>
  {
    [Instructions, QuestionLine(userPrompt), AnswerCue]
  }

  /** A decimal digit. */
  function Digit(d: nat): char
    requires d < 10
  {
    ('0' as int + d) as char
  }

  /** The number a string of decimal digits denotes, most significant digit first. */
  function DigitsValue(s: string): nat
    requires forall i :: 0 <= i < |s| ==> '0' <= s[i] <= '9'
    decreases |s|
  {
    if s == [] then 0 else DigitsValue(s[..|s| - 1]) * 10 + (s[|s| - 1] as int - '0' as int)
  }

  /** `str(n)` for a natural number: the decimal digits that denote `n`, with no leading zero. */
  function NatToString(n: nat): (s: string)
    ensures s != [] && forall i :: 0 <= i < |s| ==> '0' <= s[i] <= '9'
    ensures DigitsValue(s) == n
    ensures n > 0 ==> s[0] != '0'
  {
    if n < 10 then
      assert [Digit(n)][..0] == [];
      [Digit(n)]
    else
      var front := NatToString(n / 10);
      var s := front + [Digit(n % 10)];
      assert s[..|s| - 1] == front;
      s
  }

  /** How an f-string shows a value: a string as itself, anything else by `render` (Python's `str`). */
  function Format(j: Json, render: Json -> string): string
  {
    if j.JString? then j.s else render(j)
  }

  /** The line `\n[i] title` that opens the block of the `i`-th source. */
  function MarkerLine(i: nat, hit: SearchResult, render: Json -> string): (r: string)
    ensures StartsWith(r, "\n[")
  {
    "\n[" + NatToString(i) + "] " + Format(hit.title, render)
  }

  function UrlLine(hit: SearchResult, render: Json -> string): string
  {
    "URL: " + Format(hit.url, render)
  }

  /**
   * `(s.get("snippet") or "").strip()`; `None` when the snippet is a truthy
   * non-string (a list has no `strip`). `SnippetStripped` states what the text is.
   */
  function StrippedSnippet(hit: SearchResult): (r: Option<string>)
    ensures r.Some? <==> Strippable(hit)
  {
    if !Truthy(hit.snippet) then Some("")
    else if hit.snippet.JString? then
      var r := Strip(hit.snippet.s);
      Some(r)
    else None
  }

  /**
   * A stripped snippet is empty exactly when the snippet is missing, falsy or
   * blank; otherwise it is the snippet text with only its surrounding white
   * space removed, and neither starts nor ends with white space.
   */
  lemma SnippetStripped(hit: SearchResult)
    ensures var r := StrippedSnippet(hit);
            r.Some? ==> (r.value == "" <==> !Truthy(hit.snippet) || AllSpace(hit.snippet.s))
    ensures var r := StrippedSnippet(hit);
            r.Some? && r.value != "" ==>
              && !IsSpace(r.value[0]) && !IsSpace(r.value[|r.value| - 1])
              && exists i, j :: StripsAt(hit.snippet.s, i, j) && r.value == hit.snippet.s[i..j]
  {
    if hit.snippet.JString? {
      StripKeepsMiddle(hit.snippet.s);
    }
  }

  /** A snippet that `(snippet or "").strip()` accepts: missing or falsy, or a string. */
  predicate Strippable(hit: SearchResult)
  {
    !Truthy(hit.snippet) || hit.snippet.JString?
  }

  /** Every snippet of the list is one `strip` accepts. */
  predicate AllStrippable(hits: seq<SearchResult>)
  {
    forall k :: 0 <= k < |hits| ==> Strippable(hits[k])
  }

  /** `Content: ` and the stripped snippet cut to 400 characters, or no line at all when the snippet is blank. */
  function ContentLines(snip: string): (r: seq<string>)
    ensures |r| <= 1
    ensures r != [] <==> snip != ""
    ensures r != [] ==> r[0] == "Content: " + Take(snip, ContentLimit) && |r[0]| <= |"Content: "| + ContentLimit
  {
    if snip != "" then ["Content: " + Take(snip, ContentLimit)] else []
  }

  /**
   * The lines for the `i`-th source: its marker, its URL, and a `Content:`
   * line only when the stripped snippet is non-empty. `None` when stripping raises.
   */
  function SourceBlock(i: nat, hit: SearchResult, render: Json -> string): (r: Option<seq<string>>)
    ensures r.Some? <==> StrippedSnippet(hit).Some?
  {
    match StrippedSnippet(hit)
    case None => None
    case Some(snip) => Some([MarkerLine(i, hit, render)] + ([UrlLine(hit, render)] + ContentLines(snip)))
  }

  /** The blocks of all sources, numbered from 1 in list order; `None` when one of them raises. */
  function SourceLines(hits: seq<SearchResult>, render: Json -> string): Option<seq<string>>
    decreases |hits|
  {
    if hits == [] then Some([])
    else
      match SourceLines(hits[..|hits| - 1], render)
      case None => None
      case Some(prev) =>
        match SourceBlock(|hits|, hits[|hits| - 1], render)
        case None => None
        case Some(block) => Some(prev + block)
  }

  /** The sources section: header, the sources' blocks, footer. */
  function SourcesSection(src: seq<string>): seq<string>
  {
    [SourcesHeader] + src + [SourcesFooter]
  }

  /** The list `lines` that `build_prompt` joins. */
  function PromptLines(userPrompt: string, hits: seq<SearchResult>, render: Json -> string): Option<seq<string>>
  {
    if hits == [] then Some(ClosingLines(userPrompt))
    else
      match SourceLines(hits, render)
      case None => None
      case Some(src) => Some(SourcesSection(src) + ClosingLines(userPrompt))
  }

  /** `build_prompt`'s result: the lines joined with newlines, or `None` when it raises. */
  function PromptText(userPrompt: string, hits: seq<SearchResult>, render: Json -> string): Option<string>
  {
    match PromptLines(userPrompt, hits, render)
    case None => None
    case Some(lines) => Some(Join("\n", lines))
  }

  /**
   * The sources render exactly when every snippet can be stripped, and then
   * as one block of two or three lines per source.
   */
  lemma {:induction false} SourceLinesDefined(hits: seq<SearchResult>, render: Json -> string)
    ensures SourceLines(hits, render).Some? <==> AllStrippable(hits)
    ensures SourceLines(hits, render).Some? ==> 2 * |hits| <= |SourceLines(hits, render).value| <= 3 * |hits|
    decreases |hits|
  {
    if hits != [] {
      var n := |hits| - 1;
      var front := hits[..n];
      SourceLinesDefined(front, render);
      SourceLinesLast(hits, render);
      AllStrippableLast(hits);
    }
  }

  /** Every snippet of a list can be stripped exactly when every snippet before the last one and the last one can. */
  lemma AllStrippableLast(hits: seq<SearchResult>)
    requires hits != []
    ensures AllStrippable(hits) <==> AllStrippable(hits[..|hits| - 1]) && Strippable(hits[|hits| - 1])
  {
    assert forall k :: 0 <= k < |hits| - 1 ==> hits[..|hits| - 1][k] == hits[k];
  }

  /** The last source adds a block of two or three lines, and fails exactly when its snippet cannot be stripped. */
  lemma SourceLinesLast(hits: seq<SearchResult>, render: Json -> string)
    requires hits != []
    ensures SourceLines(hits, render).Some? <==> SourceLines(hits[..|hits| - 1], render).Some? && Strippable(hits[|hits| - 1])
    ensures SourceLines(hits, render).Some? ==>
              |SourceLines(hits[..|hits| - 1], render).value| + 2 <= |SourceLines(hits, render).value|
              <= |SourceLines(hits[..|hits| - 1], render).value| + 3
  {
    var block := SourceBlock(|hits|, hits[|hits| - 1], render);
    assert block.Some? ==> 2 <= |block.value| <= 3;
  }

  /**
   * `build_prompt` raises exactly when some snippet cannot be stripped. Its
   * lines are the three closing lines alone when there are no sources, and at
   * least seven (header, two lines per source, footer, closing lines) when
   * there are; the last is always the answer cue.
   */
  lemma PromptDefined(userPrompt: string, hits: seq<SearchResult>, render: Json -> string)
    ensures PromptText(userPrompt, hits, render).Some? <==> AllStrippable(hits)
    ensures PromptLines(userPrompt, hits, render).Some? <==> PromptText(userPrompt, hits, render).Some?
    ensures var lines := PromptLines(userPrompt, hits, render);
            lines.Some? ==> lines.value[|lines.value| - 1] == AnswerCue && (hits == [] <==> |lines.value| == 3)
  {
    SourceLinesDefined(hits, render);
  }

  /** If a list of sources can be rendered, so can each of its prefixes. */
  lemma SourceLinesPrefix(hits: seq<SearchResult>, j: nat, render: Json -> string)
    requires j <= |hits|
    requires SourceLines(hits, render).Some?
    ensures SourceLines(hits[..j], render).Some?
  {
    SourceLinesDefined(hits, render);
    SourceLinesDefined(hits[..j], render);
    assert forall k :: 0 <= k < j ==> hits[..j][k] == hits[k];
  }

  /** Rendering one more source appends its block, numbered one past the sources before it. */
  lemma SourceLinesStep(hits: seq<SearchResult>, i: nat, render: Json -> string)
    requires i < |hits|
    ensures SourceLines(hits[..i + 1], render)
            == match SourceLines(hits[..i], render)
               case None => None
               case Some(prev) =>
                 match SourceBlock(i + 1, hits[i], render)
                 case None => None
                 case Some(block) => Some(prev + block)
  {
    assert hits[..i + 1][..i] == hits[..i];
  }

  /** Appending a block line by line after a header and earlier lines is appending the block to those lines. */
  lemma AppendBlock(start: seq<string>, prev: seq<string>, marker: string, url: string, content: seq<string>)
    ensures start + prev + [marker] + [url] + content == start + (prev + ([marker] + ([url] + content)))
  {
  }

  /** Appending three lines one at a time. */
  lemma AppendThree(front: seq<string>, a: string, b: string, c: string)
    ensures front + [a] + [b] + [c] == front + [a, b, c]
  {
  }

  /** A source whose snippet cannot be stripped makes the whole prompt fail. */
  lemma SnippetRaises(hits: seq<SearchResult>, i: nat, render: Json -> string)
    requires i < |hits| && StrippedSnippet(hits[i]).None?
    ensures SourceLines(hits, render).None?
  {
    SourceLinesStep(hits, i, render);
    if SourceLines(hits, render).Some? {
      SourceLinesPrefix(hits, i + 1, render);
    }
  }

  /** Appending the `i+1`-th block to the lines built so far gives the lines for one more source. */
  lemma BlockAppended(hits: seq<SearchResult>, i: nat, render: Json -> string, src: seq<string>,
                      snip: string, after: seq<string>)
      returns (next: seq<string>)
    requires i < |hits| && SourceLines(hits[..i], render) == Some(src) && StrippedSnippet(hits[i]) == Some(snip)
    requires after == [SourcesHeader] + src + [MarkerLine(i + 1, hits[i], render)] + [UrlLine(hits[i], render)] + ContentLines(snip)
    ensures SourceLines(hits[..i + 1], render) == Some(next)
    ensures after == [SourcesHeader] + next
  {
    SourceLinesStep(hits, i, render);
    next := src + ([MarkerLine(i + 1, hits[i], render)] + ([UrlLine(hits[i], render)] + ContentLines(snip)));
    AppendBlock([SourcesHeader], src, MarkerLine(i + 1, hits[i], render), UrlLine(hits[i], render), ContentLines(snip));
  }

  /**
   * The sources part of `build_prompt`: the header, then the `for` loop that
   * appends each source's marker line, URL line and (when the stripped snippet
   * is not empty) content line, numbering from 1. `None` when stripping a
   * snippet raises.
   */
  method SourcesPart(webHits: seq<SearchResult>, render: Json -> string) returns (result: Option<seq<string>>)
    ensures SourceLines(webHits, render).None? ==> result.None?
    ensures SourceLines(webHits, render).Some? ==> result == Some([SourcesHeader] + SourceLines(webHits, render).value)
  {
    var lines := [SourcesHeader];
    ghost var src: seq<string> := [];
    var i := 0;
    while i < |webHits|
      invariant 0 <= i <= |webHits|
      invariant SourceLines(webHits[..i], render) == Some(src)
      invariant lines == [SourcesHeader] + src
    {
      var s := webHits[i];
      lines := lines + [MarkerLine(i + 1, s, render)];
      lines := lines + [UrlLine(s, render)];
      var snip := StrippedSnippet(s);
      if snip.None? {
        SnippetRaises(webHits, i, render);
        return None;
      }
      if snip.value != "" {
        lines := lines + ["Content: " + Take(snip.value, ContentLimit)];
      }
      src := BlockAppended(webHits, i, render, src, snip.value, lines);
      i := i + 1;
    }
    assert webHits[..i] == webHits;
    assert SourceLines(webHits, render) == Some(src);
    result := Some(lines);
  }

  /**
   * `build_prompt` itself: the sources section when there are sources (the
   * part above and the footer), then the instructions, the question
   * and the answer cue, joined with newlines. `None` when stripping a snippet raises.
   */
  method BuildPrompt(userPrompt: string, webHits: seq<SearchResult>, render: Json -> string) returns (prompt: Option<string>)
    ensures prompt == PromptText(userPrompt, webHits, render)
  {
    var lines: seq<string> := [];
    if webHits != [] {
      var section := SourcesPart(webHits, render);
      if section.None? {
        return None;
      }
      lines := section.value + [SourcesFooter];
    }
    ghost var front := lines;
    lines := lines + [Instructions];
    lines := lines + [QuestionLine(userPrompt)];
    lines := lines + [AnswerCue];
    PromptClosed(userPrompt, webHits, render, front, lines);
    prompt := Some(Join("\n", lines));
  }

  /** Appending the closing lines to the sources section (or to nothing) gives the prompt's lines. */
  lemma PromptClosed(userPrompt: string, hits: seq<SearchResult>, render: Json -> string,
                     front: seq<string>, lines: seq<string>)
    requires hits == [] ==> front == []
    requires hits != [] ==> SourceLines(hits, render).Some? && front == [SourcesHeader] + SourceLines(hits, render).value + [SourcesFooter]
    requires lines == front + [Instructions] + [QuestionLine(userPrompt)] + [AnswerCue]
    ensures PromptText(userPrompt, hits, render) == Some(Join("\n", lines))
  {
    AppendThree(front, Instructions, QuestionLine(userPrompt), AnswerCue);
    if hits == [] {
      assert lines == ClosingLines(userPrompt);
    } else {
      assert front == SourcesSection(SourceLines(hits, render).value);
    }
  }

  /** The lines that start with `prefix`, in order. */
  function LinesStartingWith(lines: seq<string>, prefix: string): seq<string>
    decreases |lines|
  {
    if lines == [] then []
    else (if StartsWith(lines[0], prefix) then [lines[0]] else []) + LinesStartingWith(lines[1..], prefix)
  }

  lemma {:induction false} LinesStartingWithAppend(a: seq<string>, b: seq<string>, prefix: string)
    ensures LinesStartingWith(a + b, prefix) == LinesStartingWith(a, prefix) + LinesStartingWith(b, prefix)
    decreases |a|
  {
    if a != [] {
      assert (a + b)[1..] == a[1..] + b;
      LinesStartingWithAppend(a[1..], b, prefix);
    } else {
      assert a + b == b;
    }
  }

  /** Filtering a list that starts with `x` looks at `x` first. */
  lemma LinesStartingWithCons(x: string, rest: seq<string>, prefix: string)
    ensures LinesStartingWith([x] + rest, prefix)
            == (if StartsWith(x, prefix) then [x] else []) + LinesStartingWith(rest, prefix)
  {
    assert ([x] + rest)[1..] == rest;
  }

  /** The marker lines of a list of sources, numbered from 1 in list order. */
  function Markers(hits: seq<SearchResult>, render: Json -> string): (r: seq<string>)
    decreases |hits|
  {
    if hits == [] then [] else Markers(hits[..|hits| - 1], render) + [MarkerLine(|hits|, hits[|hits| - 1], render)]
  }

  /** The URL lines of a list of sources, in list order. */
  function Urls(hits: seq<SearchResult>, render: Json -> string): (r: seq<string>)
    decreases |hits|
  {
    if hits == [] then [] else Urls(hits[..|hits| - 1], render) + [UrlLine(hits[|hits| - 1], render)]
  }

  /** The `k`-th marker (from 0) is `[k+1]` followed by the `k`-th source's title. */
  lemma {:induction false} MarkersAt(hits: seq<SearchResult>, render: Json -> string)
    ensures |Markers(hits, render)| == |hits|
    ensures forall k :: 0 <= k < |hits| ==> Markers(hits, render)[k] == MarkerLine(k + 1, hits[k], render)
    decreases |hits|
  {
    if hits != [] {
      var init := hits[..|hits| - 1];
      MarkersAt(init, render);
      var m := Markers(hits, render);
      assert m == Markers(init, render) + [MarkerLine(|hits|, hits[|hits| - 1], render)];
      forall k | 0 <= k < |hits|
        ensures m[k] == MarkerLine(k + 1, hits[k], render)
      {
        if k < |init| {
          assert m[k] == Markers(init, render)[k];
          assert init[k] == hits[k];
        }
      }
    }
  }

  /** The `k`-th URL line (from 0) is the `k`-th source's URL. */
  lemma {:induction false} UrlsAt(hits: seq<SearchResult>, render: Json -> string)
    ensures |Urls(hits, render)| == |hits|
    ensures forall k :: 0 <= k < |hits| ==> Urls(hits, render)[k] == UrlLine(hits[k], render)
    decreases |hits|
  {
    if hits != [] {
      var init := hits[..|hits| - 1];
      UrlsAt(init, render);
      var u := Urls(hits, render);
      assert u == Urls(init, render) + [UrlLine(hits[|hits| - 1], render)];
      forall k | 0 <= k < |hits|
        ensures u[k] == UrlLine(hits[k], render)
      {
        if k < |init| {
          assert u[k] == Urls(init, render)[k];
          assert init[k] == hits[k];
        }
      }
    }
  }

  lemma MarkerLineKind(i: nat, hit: SearchResult, render: Json -> string)
    ensures StartsWith(MarkerLine(i, hit, render), "\n[") && !StartsWith(MarkerLine(i, hit, render), "URL: ")
  {
    var m := MarkerLine(i, hit, render);
    assert m[0] == '\n' && m[1] == '[';
  }

  lemma UrlLineKind(hit: SearchResult, render: Json -> string)
    ensures StartsWith(UrlLine(hit, render), "URL: ") && !StartsWith(UrlLine(hit, render), "\n[")
  {
    assert UrlLine(hit, render)[0] == 'U';
  }

  lemma ContentLineKind(snip: string)
    ensures LinesStartingWith(ContentLines(snip), "\n[") == []
    ensures LinesStartingWith(ContentLines(snip), "URL: ") == []
  {
    if snip != "" {
      var c := ContentLines(snip)[0];
      assert c[0] == 'C';
      LinesStartingWithCons(c, [], "\n[");
      LinesStartingWithCons(c, [], "URL: ");
    }
  }

  /** Within one block, exactly the first line is a marker and exactly the second a URL line. */
  lemma BlockLineKinds(i: nat, hit: SearchResult, render: Json -> string)
    requires SourceBlock(i, hit, render).Some?
    ensures LinesStartingWith(SourceBlock(i, hit, render).value, "\n[") == [MarkerLine(i, hit, render)]
    ensures LinesStartingWith(SourceBlock(i, hit, render).value, "URL: ") == [UrlLine(hit, render)]
  {
    var m, u := MarkerLine(i, hit, render), UrlLine(hit, render);
    var content := ContentLines(StrippedSnippet(hit).value);
    MarkerLineKind(i, hit, render);
    UrlLineKind(hit, render);
    ContentLineKind(StrippedSnippet(hit).value);
    LinesStartingWithCons(u, content, "\n[");
    LinesStartingWithCons(u, content, "URL: ");
    LinesStartingWithCons(m, [u] + content, "\n[");
    LinesStartingWithCons(m, [u] + content, "URL: ");
  }

  /** The rendered sources carry the markers `[1]`..`[n]` and one URL line per source, all in list order. */
  lemma {:induction false} SourceLinesMarkersAndUrls(hits: seq<SearchResult>, render: Json -> string)
    requires SourceLines(hits, render).Some?
    ensures LinesStartingWith(SourceLines(hits, render).value, "\n[") == Markers(hits, render)
    ensures LinesStartingWith(SourceLines(hits, render).value, "URL: ") == Urls(hits, render)
    decreases |hits|
  {
    if hits != [] {
      var init := hits[..|hits| - 1];
      var last := hits[|hits| - 1];
      SourceLinesMarkersAndUrls(init, render);
      var prev := SourceLines(init, render).value;
      var block := SourceBlock(|hits|, last, render).value;
      LinesStartingWithAppend(prev, block, "\n[");
      LinesStartingWithAppend(prev, block, "URL: ");
      BlockLineKinds(|hits|, last, render);
    }
  }

  /** A line that opens with neither `\n[` nor `U` is neither a marker nor a URL line. */
  lemma FixedLineKind(line: string)
    requires |line| >= 2 && line[0] != 'U' && (line[0] != '\n' || line[1] != '[')
    ensures !StartsWith(line, "\n[") && !StartsWith(line, "URL: ")
  {
  }

  lemma FixedLinesDropped(x: string, rest: seq<string>, prefix: string)
    requires !StartsWith(x, prefix)
    ensures LinesStartingWith([x] + rest, prefix) == LinesStartingWith(rest, prefix)
  {
    LinesStartingWithCons(x, rest, prefix);
  }

  /** None of the fixed lines around the sources is a marker or a URL line. */
  lemma FrameLineKinds(userPrompt: string)
    ensures LinesStartingWith([SourcesHeader], "\n[") == [] && LinesStartingWith([SourcesHeader], "URL: ") == []
    ensures LinesStartingWith([SourcesFooter] + ClosingLines(userPrompt), "\n[") == []
    ensures LinesStartingWith([SourcesFooter] + ClosingLines(userPrompt), "URL: ") == []
    ensures LinesStartingWith(ClosingLines(userPrompt), "\n[") == []
    ensures LinesStartingWith(ClosingLines(userPrompt), "URL: ") == []
  {
    var q := QuestionLine(userPrompt);
    assert SourcesHeader[0] == '=' && SourcesHeader[1] == '=';
    FixedLineKind(SourcesHeader);
    assert SourcesFooter[1] == '=';
    FixedLineKind(SourcesFooter);
    assert Instructions[0] == 'I' && Instructions[1] == 'M';
    FixedLineKind(Instructions);
    assert q[1] == 'S';
    FixedLineKind(q);
    assert AnswerCue[0] == 'Y';
    FixedLineKind(AnswerCue);
    assert ClosingLines(userPrompt) == [Instructions] + ([q] + ([AnswerCue] + []));
    FixedLinesDropped(SourcesHeader, [], "\n[");
    FixedLinesDropped(SourcesHeader, [], "URL: ");
    FixedLinesDropped(AnswerCue, [], "\n[");
    FixedLinesDropped(AnswerCue, [], "URL: ");
    FixedLinesDropped(q, [AnswerCue] + [], "\n[");
    FixedLinesDropped(q, [AnswerCue] + [], "URL: ");
    FixedLinesDropped(Instructions, [q] + ([AnswerCue] + []), "\n[");
    FixedLinesDropped(Instructions, [q] + ([AnswerCue] + []), "URL: ");
    FixedLinesDropped(SourcesFooter, ClosingLines(userPrompt), "\n[");
    FixedLinesDropped(SourcesFooter, ClosingLines(userPrompt), "URL: ");
  }

  /** Filtering a section and what follows it, when only the section's body can match. */
  lemma SectionFilter(header: string, body: seq<string>, footer: string, closing: seq<string>, prefix: string)
    requires LinesStartingWith([header], prefix) == []
    requires LinesStartingWith([footer] + closing, prefix) == []
    ensures LinesStartingWith([header] + body + [footer] + closing, prefix) == LinesStartingWith(body, prefix)
  {
    assert [header] + body + [footer] + closing == [header] + (body + ([footer] + closing));
    LinesStartingWithAppend([header], body + ([footer] + closing), prefix);
    LinesStartingWithAppend(body, [footer] + closing, prefix);
  }

  /**
   * With `n` sources the prompt's lines hold the markers `[1]`..`[n]` and the
   * `n` URL lines in list order, and no others.
   */
  lemma MarkersInOrder(userPrompt: string, hits: seq<SearchResult>, render: Json -> string)
    requires PromptLines(userPrompt, hits, render).Some?
    ensures LinesStartingWith(PromptLines(userPrompt, hits, render).value, "\n[") == Markers(hits, render)
    ensures LinesStartingWith(PromptLines(userPrompt, hits, render).value, "URL: ") == Urls(hits, render)
  {
    FrameLineKinds(userPrompt);
    if hits != [] {
      var src := SourceLines(hits, render).value;
      SourceLinesMarkersAndUrls(hits, render);
      SectionFilter(SourcesHeader, src, SourcesFooter, ClosingLines(userPrompt), "\n[");
      SectionFilter(SourcesHeader, src, SourcesFooter, ClosingLines(userPrompt), "URL: ");
    }
  }

  /** The three closing lines, joined. */
  lemma JoinClosing(userPrompt: string)
    ensures Join("\n", ClosingLines(userPrompt)) == Instructions + "\n" + QuestionLine(userPrompt) + "\n" + AnswerCue
  {
    JoinThree("\n", Instructions, QuestionLine(userPrompt), AnswerCue);
  }

  lemma InstructionsOpening()
    ensures StartsWith(Instructions, "IMPORTANT INSTRUCTIONS:")
  {
    assert StartsWith(InstructionsTitle, "IMPORTANT INSTRUCTIONS:");
    PrefixOfAppend(InstructionsTitle, InstructionBullets, "IMPORTANT INSTRUCTIONS:");
  }

  /** Without sources the prompt is exactly the instructions, the question and the answer cue. */
  lemma NoSourcesPrompt(userPrompt: string, render: Json -> string)
    ensures PromptText(userPrompt, [], render) == Some(Instructions + "\n" + QuestionLine(userPrompt) + "\n" + AnswerCue)
  {
    JoinClosing(userPrompt);
  }

  /** The text in front of the instructions: the joined sources section and a newline, or nothing. */
  function Preamble(hits: seq<SearchResult>, render: Json -> string): string
    requires SourceLines(hits, render).Some?
  {
    if hits == [] then "" else Join("\n", SourcesSection(SourceLines(hits, render).value)) + "\n"
  }

  /** A prompt is its preamble followed by the joined closing lines. */
  lemma PromptTextShape(userPrompt: string, hits: seq<SearchResult>, render: Json -> string)
    requires PromptText(userPrompt, hits, render).Some?
    ensures SourceLines(hits, render).Some?
    ensures PromptText(userPrompt, hits, render).value == Preamble(hits, render) + Join("\n", ClosingLines(userPrompt))
  {
    if hits != [] {
      JoinAppend("\n", SourcesSection(SourceLines(hits, render).value), ClosingLines(userPrompt));
    } else {
      assert Preamble(hits, render) == [];
    }
  }

  /** Every prompt ends with the answer cue. */
  lemma PromptEndsWithCue(userPrompt: string, hits: seq<SearchResult>, render: Json -> string)
    requires PromptText(userPrompt, hits, render).Some?
    ensures EndsWith(PromptText(userPrompt, hits, render).value, AnswerCue)
  {
    PromptTextShape(userPrompt, hits, render);
    SuffixOfAppend(Preamble(hits, render), Join("\n", ClosingLines(userPrompt)), AnswerCue);
  }

  /** The question line, wherever it stands, carries the question. */
  lemma QuestionInside(pre: string, userPrompt: string, post: string)
    ensures Contains(pre + QuestionLine(userPrompt) + "\n" + post, "Student Question: " + userPrompt)
  {
    var w := "Student Question: " + userPrompt;
    assert pre + QuestionLine(userPrompt) + "\n" + post == (pre + "\n") + w + ("\n" + "\n" + post);
    ContainsInfix(pre + "\n", w, "\n" + "\n" + post);
  }

  /** Every prompt carries the student's question. */
  lemma PromptAsksQuestion(userPrompt: string, hits: seq<SearchResult>, render: Json -> string)
    requires PromptText(userPrompt, hits, render).Some?
    ensures Contains(PromptText(userPrompt, hits, render).value, "Student Question: " + userPrompt)
  {
    var w := "Student Question: " + userPrompt;
    PromptTextShape(userPrompt, hits, render);
    JoinClosing(userPrompt);
    QuestionInside(Instructions + "\n", userPrompt, AnswerCue);
    ContainsInSuffix(Preamble(hits, render), Join("\n", ClosingLines(userPrompt)), w);
  }

  /**
   * A prompt opens with the sources header exactly when there are sources, and
   * with the instructions exactly when there are none.
   */
  lemma PromptOpening(userPrompt: string, hits: seq<SearchResult>, render: Json -> string)
    requires PromptText(userPrompt, hits, render).Some?
    ensures StartsWith(PromptText(userPrompt, hits, render).value, SourcesHeader) <==> hits != []
    ensures StartsWith(PromptText(userPrompt, hits, render).value, "IMPORTANT INSTRUCTIONS:") <==> hits == []
  {
    PromptTextShape(userPrompt, hits, render);
    var text := PromptText(userPrompt, hits, render).value;
    if hits == [] {
      InstructionsFirst(userPrompt, text);
    } else {
      SourcesFirst(Preamble(hits, render), Join("\n", SourcesSection(SourceLines(hits, render).value)), userPrompt, text);
    }
    OneOpening(text, hits != []);
  }

  /** The two openings differ in their first character, so a text has at most one of them. */
  lemma OneOpening(text: string, sources: bool)
    requires sources ==> StartsWith(text, SourcesHeader)
    requires !sources ==> StartsWith(text, "IMPORTANT INSTRUCTIONS:")
    ensures StartsWith(text, SourcesHeader) <==> sources
    ensures StartsWith(text, "IMPORTANT INSTRUCTIONS:") <==> !sources
  {
    var ii := "IMPORTANT INSTRUCTIONS:";
    assert SourcesHeader[0] == '=' && ii[0] == 'I';
  }

  /** Without sources the prompt is the joined closing lines, which open with the instructions. */
  lemma InstructionsFirst(userPrompt: string, text: string)
    requires text == Join("\n", ClosingLines(userPrompt))
    ensures StartsWith(text, "IMPORTANT INSTRUCTIONS:")
  {
    InstructionsOpening();
    PrefixOfPrefix(text, Instructions, "IMPORTANT INSTRUCTIONS:");
  }

  /** With sources the prompt opens with the joined sources section, and so with its header. */
  lemma SourcesFirst(preamble: string, section: string, userPrompt: string, text: string)
    requires StartsWith(section, SourcesHeader)
    requires preamble == section + "\n"
    requires text == preamble + Join("\n", ClosingLines(userPrompt))
    ensures StartsWith(text, SourcesHeader)
  {
    PrefixOfAppend(section, "\n", SourcesHeader);
    PrefixOfAppend(preamble, Join("\n", ClosingLines(userPrompt)), SourcesHeader);
  }
}
