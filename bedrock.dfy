/**
 * `extract_text_from_bedrock`: find the answer text in the model's decoded
 * reply. Three shapes are searched in turn (`output.content`, top-level
 * `content`, `message.content`) for the first text block; failing that, the
 * serialised reply, cut to 1200 characters, is the answer. `json.dumps` is
 * passed in, as its exact formatting is not modelled.
 */
module BedrockReply {
  import opened Py

  const DumpLimit := 1200

  /** `isinstance(part, dict) and part.get("type") == "text" and isinstance(part.get("text"), str)`. */
  predicate IsTextBlock(part: Json)
  {
    part.JObject? && Get(part.fields, "type") == JString("text") && Get(part.fields, "text").JString?
  }

  /** The text of a text block. */
  function BlockText(part: Json): string
    requires IsTextBlock(part)
  {
    Get(part.fields, "text").s
  }

  /** The index of the first text block, when there is one. */
  predicate FirstTextAt(parts: seq<Json>, k: int)
  {
    0 <= k < |parts| && IsTextBlock(parts[k]) && forall j :: 0 <= j < k ==> !IsTextBlock(parts[j])
  }

  /**
   * The early-return scan `for part in parts: ... return txt`: the text of the
   * first text block, or `None` when no block is one.
   */
  function FirstText(parts: seq<Json>): (r: Option<string>)
    ensures r.None? <==> forall k :: 0 <= k < |parts| ==> !IsTextBlock(parts[k])
    ensures forall k :: FirstTextAt(parts, k) ==> r == Some(BlockText(parts[k]))
    ensures r.Some? ==> exists k :: 0 <= k < |parts| && FirstTextAt(parts, k) && r.value == BlockText(parts[k])
    decreases |parts|
  {
    if parts == [] then None
    else if IsTextBlock(parts[0]) then
      assert forall k :: FirstTextAt(parts, k) ==> k == 0;
      assert FirstTextAt(parts, 0);
      Some(BlockText(parts[0]))
    else
      var r := FirstText(parts[1..]);
      assert forall k :: 1 <= k < |parts| ==> parts[k] == parts[1..][k - 1];
      assert forall k :: FirstTextAt(parts, k) ==> k >= 1 && FirstTextAt(parts[1..], k - 1);
      assert forall k :: FirstTextAt(parts[1..], k) ==> FirstTextAt(parts, k + 1);
      r
  }

  /** `container` is a list whose first text block carries `text`. */
  predicate FirstTextIs(container: Json, text: string)
  {
    container.JArray? &&
    exists k :: 0 <= k < |container.items| && FirstTextAt(container.items, k) && BlockText(container.items[k]) == text
  }

  /**
   * The blocks `for part in container` visits. A list yields its elements; a
   * string or a dict yields strings, which the dict test skips, so nothing can
   * match; null, booleans and numbers are not iterable and raise.
   */
  function BlocksIn(container: Json): (r: Result<seq<Json>>)
    ensures r.Ok? <==> container.JArray? || container.JString? || container.JObject?
    ensures container.JArray? ==> r == Ok(container.items)
    ensures r.Ok? && !container.JArray? ==> r.value == []
  {
    match container
    case JArray(a) => Ok(a)
    case JString(_) => Ok([])
    case JObject(_) => Ok([])
    case _ => Raise(TypeError)
  }

  /** Step one: `output.content`, looked at when `output` is present and is a dict. */
  function FromOutput(payload: Json): (r: Result<Option<string>>)
    ensures !(payload.JObject? && "output" in payload.fields && payload.fields["output"].JObject?) ==> r == Ok(None)
    ensures r.Ok? && r.value.Some? ==>
              && payload.JObject? && "output" in payload.fields && payload.fields["output"].JObject?
              && FirstTextIs(GetOr(payload.fields["output"].fields, "content", JArray([])), r.value.value)
    ensures payload.JObject? && "output" in payload.fields && payload.fields["output"].JObject? ==>
              var c := GetOr(payload.fields["output"].fields, "content", JArray([]));
              && (r.Raise? <==> !(c.JArray? || c.JString? || c.JObject?))
              && (c.JArray? ==> (r == Ok(None) <==> forall k :: 0 <= k < |c.items| ==> !IsTextBlock(c.items[k])))
              && (c.JString? || c.JObject? ==> r == Ok(None))
  {
    if payload.JObject? && "output" in payload.fields && payload.fields["output"].JObject? then
      match BlocksIn(GetOr(payload.fields["output"].fields, "content", JArray([])))
      case Raise(e) => Raise(e)
      case Ok(parts) => Ok(FirstText(parts))
    else Ok(None)
  }

  /** Step two: top-level `content`, looked at only when it is a list. */
  function FromContent(payload: Json): (r: Option<string>)
    ensures r.Some? ==> payload.JObject? && FirstTextIs(Get(payload.fields, "content"), r.value)
    ensures r.None? && payload.JObject? && Get(payload.fields, "content").JArray? ==>
              forall k :: 0 <= k < |Get(payload.fields, "content").items| ==> !IsTextBlock(Get(payload.fields, "content").items[k])
  {
    if payload.JObject? && Get(payload.fields, "content").JArray? then
      FirstText(Get(payload.fields, "content").items)
    else None
  }

  /** Step three: `message.content`; `payload.get` raises here when the reply is not a dict. */
  function FromMessage(payload: Json): (r: Result<Option<string>>)
    ensures !payload.JObject? ==> r == Raise(AttributeError)
    ensures payload.JObject? && !Get(payload.fields, "message").JObject? ==> r == Ok(None)
    ensures r.Ok? && r.value.Some? ==>
              && payload.JObject? && Get(payload.fields, "message").JObject?
              && FirstTextIs(GetOr(Get(payload.fields, "message").fields, "content", JArray([])), r.value.value)
    ensures payload.JObject? && Get(payload.fields, "message").JObject? ==>
              var c := GetOr(Get(payload.fields, "message").fields, "content", JArray([]));
              && (r.Raise? <==> !(c.JArray? || c.JString? || c.JObject?))
              && (c.JArray? ==> (r == Ok(None) <==> forall k :: 0 <= k < |c.items| ==> !IsTextBlock(c.items[k])))
              && (c.JString? || c.JObject? ==> r == Ok(None))
  {
    if !payload.JObject? then Raise(AttributeError)
    else
      var msg := Get(payload.fields, "message");
      if msg.JObject? then
        match BlocksIn(GetOr(msg.fields, "content", JArray([])))
        case Raise(e) => Raise(e)
        case Ok(parts) => Ok(FirstText(parts))
      else Ok(None)
  }

  /**
   * `extract_text_from_bedrock`: the first step that finds a text block gives
   * the answer; if none does, the dump cut to 1200 characters. It raises only
   * when the reply is not a dict or a `content` entry it walks is not iterable.
   */
  function ExtractText(payload: Json, dumps: Json -> string): (r: Result<string>)
    ensures !payload.JObject? ==> r == Raise(AttributeError)
    ensures FromOutput(payload) == Ok(None) && FromContent(payload).None? && FromMessage(payload) == Ok(None) ==>
              r == Ok(Take(dumps(payload), DumpLimit))
    ensures FromOutput(payload).Raise? ==> r.Raise?
    ensures FromOutput(payload).Ok? && FromOutput(payload).value.Some? ==> r == Ok(FromOutput(payload).value.value)
    ensures FromOutput(payload) == Ok(None) && FromContent(payload).Some? ==> r == Ok(FromContent(payload).value)
    ensures (FromOutput(payload) == Ok(None) && FromContent(payload).None? &&
             FromMessage(payload).Ok? && FromMessage(payload).value.Some?) ==>
              r == Ok(FromMessage(payload).value.value)
    ensures r.Raise? ==> FromOutput(payload).Raise? || FromMessage(payload).Raise?
  {
    match FromOutput(payload)
    case Raise(e) => Raise(e)
    case Ok(Some(t)) => Ok(t)
    case Ok(None) =>
      match FromContent(payload)
      case Some(t) => Ok(t)
      case None =>
        match FromMessage(payload)
        case Raise(e) => Raise(e)
        case Ok(Some(t)) => Ok(t)
        case Ok(None) => Ok(Take(dumps(payload), DumpLimit))
  }

  /** A reply in the plain `content` shape gives back exactly its text. */
  lemma ContentShapeText(text: string, dumps: Json -> string)
    ensures ExtractText(JObject(map["content" := JArray([JObject(map["type" := JString("text"), "text" := JString(text)])])]), dumps)
            == Ok(text)
  {
    var block := JObject(map["type" := JString("text"), "text" := JString(text)]);
    assert IsTextBlock(block);
    assert FirstText([block]) == Some(text);
  }

  /** A text block under `output.content` wins over any other shape the reply also has. */
  lemma OutputShapeFirst(fields: map<string, Json>, out: map<string, Json>, parts: seq<Json>, k: nat, dumps: Json -> string)
    requires "output" in fields && fields["output"] == JObject(out)
    requires Get(out, "content") == JArray(parts)
    requires FirstTextAt(parts, k)
    ensures ExtractText(JObject(fields), dumps) == Ok(BlockText(parts[k]))
  {
  }

  /** Without `output`, a text block in a top-level `content` list wins, whatever `message` holds. */
  lemma ContentShapeFirst(fields: map<string, Json>, parts: seq<Json>, k: nat, dumps: Json -> string)
    requires "output" !in fields
    requires Get(fields, "content") == JArray(parts)
    requires FirstTextAt(parts, k)
    ensures ExtractText(JObject(fields), dumps) == Ok(BlockText(parts[k]))
  {
  }

  /** The older `message.content` shape is used when neither earlier shape applies. */
  lemma MessageShapeFirst(fields: map<string, Json>, msg: map<string, Json>, parts: seq<Json>, k: nat, dumps: Json -> string)
    requires "output" !in fields && !Get(fields, "content").JArray?
    requires Get(fields, "message") == JObject(msg) && Get(msg, "content") == JArray(parts)
    requires FirstTextAt(parts, k)
    ensures ExtractText(JObject(fields), dumps) == Ok(BlockText(parts[k]))
  {
  }

  /** An `output.content` list without a text block does not answer: the top-level `content` list is tried next. */
  lemma OutputMissFallsThrough(fields: map<string, Json>, out: map<string, Json>, outParts: seq<Json>,
                               parts: seq<Json>, k: nat, dumps: Json -> string)
    requires "output" in fields && fields["output"] == JObject(out)
    requires Get(out, "content") == JArray(outParts)
    requires forall j :: 0 <= j < |outParts| ==> !IsTextBlock(outParts[j])
    requires Get(fields, "content") == JArray(parts) && FirstTextAt(parts, k)
    ensures ExtractText(JObject(fields), dumps) == Ok(BlockText(parts[k]))
  {
  }

  /** A `message.content` list without a text block, with nothing found before it, leaves the cut dump. */
  lemma MessageMissDumps(fields: map<string, Json>, msg: map<string, Json>, parts: seq<Json>, dumps: Json -> string)
    requires "output" !in fields && !Get(fields, "content").JArray?
    requires Get(fields, "message") == JObject(msg) && GetOr(msg, "content", JArray([])) == JArray(parts)
    requires forall j :: 0 <= j < |parts| ==> !IsTextBlock(parts[j])
    ensures ExtractText(JObject(fields), dumps) == Ok(Take(dumps(JObject(fields)), DumpLimit))
  {
  }

  /** A dict reply with none of the three keys is never an error: it falls back to the cut dump. */
  lemma UnknownShapeDumps(fields: map<string, Json>, dumps: Json -> string)
    requires "output" !in fields && "content" !in fields && "message" !in fields
    ensures ExtractText(JObject(fields), dumps) == Ok(Take(dumps(JObject(fields)), DumpLimit))
    ensures |ExtractText(JObject(fields), dumps).value| <= DumpLimit
  {
  }
}
