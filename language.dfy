/**
 * `detect_language`: a substring heuristic that calls a text Spanish when any
 * word of a fixed list occurs anywhere in its lower-cased form. Lower-casing
 * (Python's Unicode `str.lower`) is left abstract and passed in.
 */
module Language {
  import opened Py

  /** The indicator list, in the order the source scans it. */
  const SpanishIndicators: seq<string> := [
    "qué", "cómo", "cuál", "cuándo", "dónde", "quién", "por qué",
    "el", "la", "los", "las", "un", "una", "es", "son", "está",
    "de", "del", "para", "con", "sin", "sobre", "entre",
    "yo", "tú", "él", "ella", "nosotros", "ustedes",
    "explica", "explicar", "dime", "cuéntame", "ayuda"
  ]

  /**
   * `sum(1 for word in words if word in text)`: one per word that occurs, so
   * never more than the list's length. What the count means for detection,
   * positive exactly when some word occurs, is SpanishCountPositive.
   */
  function SpanishCount(words: seq<string>, text: string): (n: nat)
    ensures n <= |words|
    decreases |words|
  {
    if words == [] then 0
    else (if Contains(text, words[0]) then 1 else 0) + SpanishCount(words[1..], text)
  }

  /** The count is positive exactly when some word of the list occurs in the text. */
  lemma {:induction false} SpanishCountPositive(words: seq<string>, text: string)
    ensures SpanishCount(words, text) >= 1 <==> exists k :: 0 <= k < |words| && Contains(text, words[k])
    decreases |words|
  {
    if words != [] {
      SpanishCountPositive(words[1..], text);
      if exists k :: 0 <= k < |words| && Contains(text, words[k]) {
        var k :| 0 <= k < |words| && Contains(text, words[k]);
        if k > 0 { assert words[1..][k - 1] == words[k]; }
      }
      if exists k :: 0 <= k < |words[1..]| && Contains(text, words[1..][k]) {
        var k :| 0 <= k < |words[1..]| && Contains(text, words[1..][k]);
        assert words[k + 1] == words[1..][k];
      }
    }
  }

  /** Some word of the list occurs in the text. */
  predicate MentionsAny(words: seq<string>, text: string)
  {
    exists k :: 0 <= k < |words| && Contains(text, words[k])
  }

  /** `"es"` when the count of indicators found in `textLower` is at least one, else `"en"`. */
  function Classify(words: seq<string>, textLower: string): (lang: string)
    ensures lang == "es" || lang == "en"
    ensures lang == "es" <==> MentionsAny(words, textLower)
  {
    SpanishCountPositive(words, textLower);
    if SpanishCount(words, textLower) >= 1 then "es" else "en"
  }

  /**
   * `detect_language`: `"es"` exactly when some indicator is a substring of the
   * lower-cased text, otherwise `"en"`.
   */
  function DetectLanguage(text: string, lower: string -> string): (lang: string)
    ensures lang == "es" || lang == "en"
    ensures lang == "es" <==> MentionsAny(SpanishIndicators, lower(text))
  {
    Classify(SpanishIndicators, lower(text))
  }

  /**
   * Because the test is a bare substring search, the handler's own English
   * default prompt is classified as Spanish: "la" occurs inside "explain".
   */
  lemma DefaultPromptReadsAsSpanish(lower: string -> string)
    requires lower("Explain recursion in simple steps.") == "explain recursion in simple steps."
    ensures DetectLanguage("Explain recursion in simple steps.", lower) == "es"
  {
    var s := "explain recursion in simple steps.";
    assert s[3] == 'l' && s[4] == 'a';
    assert s[3..5] == "la";
    assert OccursAt(s, "la", 3);
    LaIsAnIndicator();
    MentionedAt(SpanishIndicators, s, 8);
  }

  lemma LaIsAnIndicator()
    ensures |SpanishIndicators| == 34 && SpanishIndicators[8] == "la"
  {
  }

  /** A text mentions the list when it contains any one of its words. */
  lemma MentionedAt(words: seq<string>, text: string, k: nat)
    requires k < |words| && Contains(text, words[k])
    ensures MentionsAny(words, text)
  {
  }
}
