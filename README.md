# Smart Study Buddy — the request handler, modelled in Dafny

Smart Study Buddy answers students' questions through one AWS Lambda function
(`frontend/src/lambde.py`, the serverless backend despite its path). For each
request it works out which browser origin to allow (CORS), parses the request
body, optionally searches the web (Tavily) and the news (NewsAPI), builds a
prompt listing the sources as numbered citations, asks a Claude model on AWS
Bedrock, digs the answer text out of the model's JSON reply, and returns a
JSON response.

This project models the deterministic core of that handler:

- `py.dfy` (`Py`): the Python values and built-ins the code leans on. These
  are JSON values, truthiness and `or`, `dict.get`, slicing, `str.strip`,
  `startswith`/`endswith`, substring `in`, `"\n".join`, and the
  all-or-nothing effect of a loop inside `try`.
- `cors.dfy` (`Cors`): `_pick_allow_origin` and `_cors_headers`.
- `language.dfy` (`Language`): `detect_language`.
- `search.dfy` (`Search`): the result-normalisation loops of `tavily_search`
  and `news_search`. They work on the provider's already-decoded reply.
- `bedrock.dfy` (`BedrockReply`): `extract_text_from_bedrock`.
- `prompt.dfy` (`PromptBuilder`): `build_prompt`. It is a method that grows
  the list of lines the way the source does, and it is proved equal to the
  function `PromptText`, which the lemmas are about.
- `handler.dfy` (`Handler`): `lambda_handler` minus its I/O. What the two
  search providers and the model returned (or raised) is an input. The
  runtime's `json.dumps`, `json.loads` and `str` are also inputs, as
  uninterpreted functions.

Every exception the code can hit is modelled. An exception that a `try`
swallows becomes an `Option` or an empty result. One that escapes the
handler becomes `Raised(..)`.

Three facts about the code that a reader might not expect:

- The handler never answers 400 (`frontend/src/lambde.py:245-254`). An
  undecodable body is read as `{}`, and a blank or missing prompt becomes
  "Explain recursion in simple steps.". Every request that does not raise
  gets a 200 or a 500.
- Tavily results are not capped on the server's side
  (`frontend/src/lambde.py:114-125`). The handler asks for 5 results
  (`frontend/src/lambde.py:262`) but keeps whatever comes back.
- `detect_language` (`frontend/src/lambde.py:65-90`) is not called by
  `lambda_handler` (`frontend/src/lambde.py:231-334`).

Behaviour of the code as written, proved here:

- A news article whose `description` is an explicit `null` empties the whole
  news list. `article.get("description", "")` only covers a missing key, so
  slicing `None` raises.
- The localhost test is a bare prefix test, so `http://localhost.evil.com` is
  echoed.
- The handler's own English default prompt is classified as Spanish, because
  "la" occurs inside "explain".
- A decoded body that is not a dict, e.g. `"5"`, makes a non-preflight
  request raise instead of falling back to the default prompt.

## Model

| member | source | states |
|---|---|---|
| Py.StripLeft | frontend/src/lambde.py:209 | the leading half of `str.strip()`: a suffix of the input after white space only, empty exactly when the input is all white space, else starting with a non-space |
| Py.StripRight | frontend/src/lambde.py:209 | the trailing half of `str.strip()`: a prefix of the input before white space only, empty exactly when the input is all white space, else ending with a non-space |
| Py.Strip | frontend/src/lambde.py:209 | `str.strip()`: empty exactly when the input is all white space, and otherwise neither starts nor ends with white space |
| Py.StripKeepsMiddle | frontend/src/lambde.py:209 | `str.strip()` returns a piece `s[i..j]` of the input with only white space before `i` and from `j` on |
| Py.Take | frontend/src/lambde.py:122 | `s[:n]`: exactly the first `n` items when there are that many, all of `s` when it is shorter, and for a negative `n` all but the last `-n` items |
| Py.SliceEnd | frontend/src/lambde.py:122 | the end of the slice `[:n]` lies within the sequence: `n` when that fits, the length when `n` is larger, `len + n` for a negative `n` that fits, and 0 below that |
| Py.Slice | frontend/src/lambde.py:158 | slicing a JSON value succeeds exactly for strings and lists |
| Py.MapAll | frontend/src/lambde.py:114-128 | a loop inside `try` gives every element's image in order, or nothing once any element fails |
| Py.Join | frontend/src/lambde.py:228 | `"\n".join(lines)`: nothing for no parts, the part itself for one part; otherwise the joined text starts with the first part and ends with the last |
| Py.JoinAppend | frontend/src/lambde.py:228 | joining two non-empty lists is joining each with one separator between them |
| Py.Contains | frontend/src/lambde.py:82 | substring `in`: true exactly when `w` occurs at some position of `s` |
| Py.ContainsInfix | frontend/src/lambde.py:82 | substring `in`: a string contains each piece it is built from |
| Cors.RequestOrigin | frontend/src/lambde.py:27-28 | reading the origin succeeds exactly when the headers are absent or falsy, or are a dict whose chosen entry is a string; the value is a truthy `origin`, else a truthy `Origin`, else "" |
| Cors.Admitted | frontend/src/lambde.py:31-39 | the origin policy (localhost and 127.0.0.1 prefixes, the listed origins, `https://…vercel.app`) only ever admits `http://` and `https://` origins |
| Cors.PickAllowOrigin | frontend/src/lambde.py:25-42 | an admitted origin is echoed, any other gets the default site, and the result is always admitted |
| Cors.CorsHeaders | frontend/src/lambde.py:44-51 | exactly the four CORS headers: Allow-Origin the picked origin, `Vary: Origin`, `Content-Type, Authorization` and `OPTIONS,POST,GET` |
| Cors.LowerCaseOriginFirst | frontend/src/lambde.py:28 | a non-empty lower-case `origin` header decides, whatever `Origin` says |
| Cors.NoOriginGetsDefault | frontend/src/lambde.py:27-42 | a request with no headers gets the default site |
| Cors.PickIsIdempotent | frontend/src/lambde.py:25-42 | a request from the picked origin gets the same origin back |
| Cors.PreviewDeploymentEchoed | frontend/src/lambde.py:38-39 | an `https://…vercel.app` preview origin is echoed |
| Cors.ForeignSiteRefused | frontend/src/lambde.py:31-39 | `https://evil.com` satisfies no clause of the policy |
| Cors.ForeignSiteGetsDefault | frontend/src/lambde.py:25-42 | `https://evil.com` receives the default site |
| Cors.LocalhostLookAlikeEchoed | frontend/src/lambde.py:31-32 | `http://localhost.evil.com` passes the prefix test and is echoed |
| Language.SpanishCount | frontend/src/lambde.py:82 | the count of indicators found never exceeds the number of indicators |
| Language.SpanishCountPositive | frontend/src/lambde.py:82-87 | the count is at least one exactly when some indicator occurs in the text |
| Language.Classify | frontend/src/lambde.py:82-90 | the answer is "es" or "en", and "es" exactly when some word occurs |
| Language.DetectLanguage | frontend/src/lambde.py:65-90 | "es" exactly when one of the 34 indicators is a substring of the lower-cased text, "en" otherwise |
| Language.DefaultPromptReadsAsSpanish | frontend/src/lambde.py:71-87 | "Explain recursion in simple steps." is classified "es" |
| Search.RecordsToVisit | frontend/src/lambde.py:117 | walking succeeds exactly for a list, an empty string or an empty dict; a list is walked element by element, the empty string and dict yield nothing |
| Search.WebRecord | frontend/src/lambde.py:118-123 | a web record exists exactly when the hit is a dict with sliceable content; its title falls back to url, then "Source"; url defaults to ""; the snippet is `(content or "")[:400]` |
| Search.CollectWebResults | frontend/src/lambde.py:116-123 | the loop's list is one record per hit in provider order, or nothing when a hit raises |
| Search.TavilySearch | frontend/src/lambde.py:93-128 | no key, a raised call or a non-dict reply gives the empty search; any result means every hit was walked and mapped, so one raising hit empties the search; every result is a web record with a snippet of at most 400 |
| Search.TavilyKeepsOrder | frontend/src/lambde.py:114-125 | a reply whose hits all normalise keeps every hit in order and passes the provider's answer on |
| Search.RaisingHitDropsAllWeb | frontend/src/lambde.py:116-128 | one hit that raises empties the whole web search, answer included |
| Search.NewsRecord | frontend/src/lambde.py:154-161 | a news record exists exactly when the article is a dict with a sliceable description and a dict source; title, url and date defaults; the snippet is `description[:300]` and the source is `source.get("name", "Unknown")` |
| Search.CollectNewsResults | frontend/src/lambde.py:152-161 | the loop's list is one record per article in order, or nothing when an article raises |
| Search.ArticlesToVisit | frontend/src/lambde.py:153 | a list of articles is walked as its first `max_results` items; a string walks nothing when its slice is empty and raises otherwise; null, a number or a dict raises on slicing, and so does a non-dict reply |
| Search.NewsSearch | frontend/src/lambde.py:131-168 | no key, a raised call or a non-dict reply gives []; any result means the walked articles all normalised; at most `max_results` records, each a news record with a snippet of at most 300 |
| Search.NewsKeepsOrder | frontend/src/lambde.py:152-164 | when the first `max_results` articles are well-formed they are kept in order, whatever follows them |
| Search.RaisingArticleDropsAllNews | frontend/src/lambde.py:152-168 | one article among the first `max_results` that raises empties the whole news list |
| Search.UnsliceableArticlesEmpty | frontend/src/lambde.py:153-168 | an `articles` value that is not a list or a string makes the slice raise, so the news list is empty |
| Search.NullArticlesEmpty | frontend/src/lambde.py:153-168 | `{"articles": null}` gives no news |
| Search.NullDescriptionDropsAllNews | frontend/src/lambde.py:158-168 | one article among the first three with a `null` description empties the whole list |
| BedrockReply.FirstText | frontend/src/lambde.py:176-180 | the text of the first text block, and none exactly when no block is a text block |
| BedrockReply.BlocksIn | frontend/src/lambde.py:176 | a list is scanned; a string or dict has no text block; other values raise |
| BedrockReply.FromOutput | frontend/src/lambde.py:172-179 | nothing unless `output` is a dict; then it raises exactly when `output.content` is not iterable, finds nothing for a string or dict, and for a list finds nothing exactly when no block is a text block; a text it finds is the first text block of the list |
| BedrockReply.FromContent | frontend/src/lambde.py:182-187 | a text it finds is the first text block of the list `content`; none when that list holds no text block |
| BedrockReply.FromMessage | frontend/src/lambde.py:189-197 | a non-dict reply raises; nothing unless `message` is a dict; then it raises exactly when `message.content` is not iterable, finds nothing for a string or dict, and for a list finds nothing exactly when no block is a text block; a text it finds is the first text block of the list |
| BedrockReply.ExtractText | frontend/src/lambde.py:171-199 | a non-dict reply raises; the shapes are tried in order, `output.content`, then `content`, then `message.content`, and the first that finds text gives the answer; the cut dump comes only when none does |
| BedrockReply.ContentShapeText | frontend/src/lambde.py:182-187 | a reply in the plain `content` shape yields exactly its text |
| BedrockReply.OutputShapeFirst | frontend/src/lambde.py:172-179 | a text block under `output.content` wins over every other shape |
| BedrockReply.ContentShapeFirst | frontend/src/lambde.py:182-187 | without `output`, the first text block of a `content` list is the answer, whatever `message` holds |
| BedrockReply.MessageShapeFirst | frontend/src/lambde.py:189-197 | without `output` and a `content` list, the first text block of `message.content` is the answer |
| BedrockReply.OutputMissFallsThrough | frontend/src/lambde.py:172-187 | an `output.content` list without a text block falls through to the first text block of a top-level `content` list |
| BedrockReply.MessageMissDumps | frontend/src/lambde.py:189-199 | a `message.content` list without a text block, with no `output` and no `content` list, gives the cut dump |
| BedrockReply.UnknownShapeDumps | frontend/src/lambde.py:189-199 | a dict with none of the three keys falls back to the cut dump, never longer than 1200 |
| PromptBuilder.NatToString | frontend/src/lambde.py:207 | `str(i)`: decimal digits whose value is `i`, with no leading zero |
| PromptBuilder.StrippedSnippet | frontend/src/lambde.py:209 | fails exactly on a truthy non-string snippet (a list has no `strip`) |
| PromptBuilder.SnippetStripped | frontend/src/lambde.py:209 | the stripped text is empty exactly when the snippet is missing, falsy or blank; otherwise it is the piece of the snippet that only white space surrounds, with none at either end |
| PromptBuilder.ContentLines | frontend/src/lambde.py:210-211 | a `Content:` line appears exactly when the stripped snippet is non-empty, and holds at most 400 of its characters |
| PromptBuilder.MarkerLine | frontend/src/lambde.py:207 | the marker line is a newline, `[`, the citation number, `] ` and the title, so it starts with "\n[" |
| PromptBuilder.SourceBlock | frontend/src/lambde.py:207-211 | a source's block renders exactly when its snippet can be stripped |
| PromptBuilder.SourceLinesDefined | frontend/src/lambde.py:205-211 | the sources render exactly when every snippet can be stripped, in two or three lines per source |
| PromptBuilder.SourceLinesLast | frontend/src/lambde.py:206-211 | the last source fails exactly when its snippet cannot be stripped, and otherwise adds two or three lines to those before it |
| PromptBuilder.PromptDefined | frontend/src/lambde.py:202-228 | the prompt fails exactly when some snippet cannot be stripped; its lines are the three closing lines alone exactly when there are no sources, and the last line is always the answer cue |
| PromptBuilder.SourcesPart | frontend/src/lambde.py:203-211 | the loop's lines are the sources header followed by every source's block in order, and it fails exactly when some snippet cannot be stripped |
| PromptBuilder.BuildPrompt | frontend/src/lambde.py:202-228 | the joined lines equal the prompt function, and the method fails exactly when the function does |
| PromptBuilder.SourceLinesPrefix | frontend/src/lambde.py:206-211 | if all sources render, every prefix of them renders |
| PromptBuilder.SnippetRaises | frontend/src/lambde.py:209 | a snippet that cannot be stripped makes rendering the whole sources list fail |
| PromptBuilder.BlockAppended | frontend/src/lambde.py:207-211 | appending the marker, URL and content lines of the next source extends the rendered sources by its block |
| PromptBuilder.PromptClosed | frontend/src/lambde.py:212-228 | appending the footer, instructions, question and cue to the rendered sources gives the prompt |
| PromptBuilder.MarkersAt | frontend/src/lambde.py:207 | the k-th marker is `[k+1]` with the k-th source's title |
| PromptBuilder.UrlsAt | frontend/src/lambde.py:208 | the k-th URL line is the k-th source's URL |
| PromptBuilder.BlockLineKinds | frontend/src/lambde.py:207-211 | in one source's block exactly the first line is a marker and exactly the second a URL line |
| PromptBuilder.SourceLinesMarkersAndUrls | frontend/src/lambde.py:206-211 | the markers in the rendered sources are `[1]`..`[n]` in list order, with one URL line per source |
| PromptBuilder.FrameLineKinds | frontend/src/lambde.py:205-227 | no fixed line around the sources is a marker or a URL line |
| PromptBuilder.MarkersInOrder | frontend/src/lambde.py:204-227 | the whole prompt's markers are exactly `[1]`..`[n]` in list order, and its URL lines exactly one per source |
| PromptBuilder.JoinClosing | frontend/src/lambde.py:214-228 | the instructions, question and answer cue joined by newlines |
| PromptBuilder.InstructionsOpening | frontend/src/lambde.py:215 | the instructions start with "IMPORTANT INSTRUCTIONS:" |
| PromptBuilder.NoSourcesPrompt | frontend/src/lambde.py:204-228 | without sources the prompt is just the instructions, the question and the cue |
| PromptBuilder.PromptTextShape | frontend/src/lambde.py:203-228 | every prompt is an optional sources section followed by the joined closing lines |
| PromptBuilder.PromptEndsWithCue | frontend/src/lambde.py:227-228 | every prompt ends with "Your Answer:" |
| PromptBuilder.PromptAsksQuestion | frontend/src/lambde.py:226 | every prompt contains "Student Question: " followed by the question |
| PromptBuilder.PromptOpening | frontend/src/lambde.py:204-215 | the prompt opens with the sources header exactly when there are sources, and with "IMPORTANT INSTRUCTIONS:" exactly when there are none |
| Handler.RequestMethod | frontend/src/lambde.py:237-239 | reading the method succeeds exactly when `requestContext` and `http` are dicts where present; without `requestContext` the method is `httpMethod` |
| Handler.ParseBody | frontend/src/lambde.py:246-252 | a string body that decodes gives the decoded value; an undecodable one gives `{}`; a missing body is read as `"{}"`; a non-string body is kept |
| Handler.UserPrompt | frontend/src/lambde.py:254 | reading the prompt succeeds exactly for a dict body whose prompt is a string or falsy; the result is non-empty with no white space at either end; a blank prompt gives the default |
| Handler.WebResults | frontend/src/lambde.py:258-262 | with provider `tavily` the Tavily search's result; another provider, or no Tavily key, leaves the empty web search; every result is a web record |
| Handler.Sources | frontend/src/lambde.py:265-268 | the web results come first, followed by at most three news results; without a NewsAPI key the sources are the web results alone |
| Handler.ModelId | frontend/src/lambde.py:288-297 | the inference profile when configured, else the fixed model id; never empty |
| Handler.Answer | frontend/src/lambde.py:309-313 | the stripped model text is the answer unless it is empty or "{}"; otherwise the provider's truthy answer or the fixed message; a numeric or boolean provider answer raises; an answer is always truthy |
| Handler.SourcesJson | frontend/src/lambde.py:325 | one dict per source, in order |
| Handler.SuccessBody | frontend/src/lambde.py:323-327 | the answer, every source, `kb_used` false, and `web_used` true exactly when the sources list is non-empty |
| Handler.JsonHeaders | frontend/src/lambde.py:319 | the CORS headers kept, plus `Content-Type: application/json` |
| Handler.ModelError | frontend/src/lambde.py:315-321 | a 500 with JSON headers and the error message prefixed "Bedrock error: " |
| Handler.ModelResponse | frontend/src/lambde.py:287-334 | the reply becomes a 200 or a 500, always with JSON headers |
| Handler.ModelResponseCases | frontend/src/lambde.py:287-334 | a raised call or extraction gives the 500 with that error; a 200 exactly when call, extraction and answer check all succeed, carrying the answer and sources |
| Handler.Answering | frontend/src/lambde.py:258-334 | after the prompt is known the handler raises exactly when building the prompt does; otherwise it calls the model with the chosen id, the fixed version and token limit and the prompt over all sources |
| Handler.EventPrompt | frontend/src/lambde.py:245-254 | the prompt read from the parsed body: a non-empty string with no white space at either end, or a raise |
| Handler.LambdaHandler | frontend/src/lambde.py:231-334 | CORS failure raises; every returned response is 200 or 500, never 400; the model is skipped only for a preflight |
| Handler.PreflightShortCircuit | frontend/src/lambde.py:241-243 | OPTIONS gets 200 with the CORS headers and an empty body, whatever the body holds |
| Handler.HttpApiPreflight | frontend/src/lambde.py:237-243 | an HTTP API preflight (`requestContext.http.method` is OPTIONS) with no headers gets 200, "" and the default origin, whatever else its request context holds and whatever its body |
| Handler.CorsLacksContentType | frontend/src/lambde.py:46-51 | the CORS headers never include a content type |
| Handler.ResponsesCarryCorsHeaders | frontend/src/lambde.py:243-332 | every returned response carries the four CORS headers unchanged |
| Handler.ModelRequest | frontend/src/lambde.py:268-306 | off the preflight path the model is called with the chosen model id, version, token limit and the prompt over web-then-news sources, and the response comes from its reply |
| Handler.UnparsableBodyGivesDefault | frontend/src/lambde.py:246-254 | a body that does not decode gives the default prompt |
| Handler.MissingBodyGivesDefault | frontend/src/lambde.py:247-254 | a missing or empty body gives the default prompt |
| Handler.DecodedNonObjectBodyRaises | frontend/src/lambde.py:249-254 | a body that decodes to a non-dict makes reading the prompt raise |
| Handler.NonObjectBodyHandlerRaises | frontend/src/lambde.py:231-254 | off the preflight path, a body that decodes to a non-dict makes the whole handler raise |
| Handler.SourcesWebThenNews | frontend/src/lambde.py:265-268 | the sources are the web results in order, then at most three news results in order |
| Handler.NoKeysNoSources | frontend/src/lambde.py:258-269 | without keys there are no sources, the prompt opens with the instructions, and `web_used` is false |
| Handler.PlainRequestAnswered | frontend/src/lambde.py:231-334 | a plain request without keys and a `content`-shaped reply is answered 200 with the model's text, using the prompt without a sources section |
| Handler.PromptBuilt | frontend/src/lambde.py:245-269 | a non-preflight request whose prompt can be built always gets a response rather than an exception |
| Handler.PlainReplyAnswered | frontend/src/lambde.py:306-334 | a `content`-shaped reply with non-blank text other than `{}` is answered 200 with that text and an empty sources list |

## Left out

- Network I/O is not modelled: `_http_json`, the NewsAPI request and the Bedrock call (`boto3.client`, `invoke_model`). Their decoded results, or the exceptions they raised, are inputs.
- What is sent to the search providers is not modelled: the query, `max_results`, the NewsAPI parameters and the Spanish `include_domains`. The replies are inputs, so the requests do not affect the model.
- `boto3.client(...)` runs outside the `try`. The model assumes it does not raise.
- The environment reads at module load are not modelled. `Handler.Config` holds the values already stripped and lower-cased.
- `print` logging is left out. So is the `json.dumps(event)` at the top of the handler; the event is JSON, so that call cannot fail.
- `temperature: 0.7` (a float) and the fixed `messages` wrapper are not part of `Handler.Invocation`. It records the model id, the API version, the token limit and the prompt.
- JSON numbers are integers. Floats are not modelled.
- `json.dumps`, `json.loads`, `str()` of non-strings and exceptions, and Unicode `str.lower` are uninterpreted functions. The model assumes no formatting, key order or case folding.
- Dict key order is lost, because JSON objects are maps. So are duplicate keys.
- In `build_prompt`, `s.get('title','Source')` and `s.get('url','')` are read as plain field access. Every record the normalisers build carries those keys, so the defaults cannot apply.
- Language.DetectLanguage: the result is stated over `lower(text)` for an uninterpreted `lower`, not over Python's Unicode lower-casing.
- Handler.RequestMethod: the contract says where a successful result comes from and when it fails. It does not pin down every result.
- `backend/lambda_handler.py`, the React UI (`frontend/src/*.jsx`) and `frontend/vite.config.js` are not part of this model. They are a thin Bedrock wrapper, browser code and build configuration.
