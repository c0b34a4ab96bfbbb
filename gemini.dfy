/** The two calls to the generative-language endpoint: the instruction and
    request body they send, and the repair of the reply: the JSON text inside
    the reply envelope is parsed and every required key it lacks is filled
    with "N/A"; anything that goes wrong there becomes a fixed error object. */
module Gemini {
  import opened Common

  /** Keys the crop-recommendation reply must carry. */
  const CropRequiredKeys: seq<string> := [
    "predicted_crop", "suitability_score", "best_planting_time", "harvest_period",
    "water_requirements", "fertilizer_recommendations", "soil_condition",
    "expected_yield", "expected_market_price", "risk_factors", "summary"]

  /** Keys the yield-prediction reply must carry. */
  const YieldRequiredKeys: seq<string> := [
    "item", "area", "year", "predicted_yield", "unit",
    "predicted_crop", "suitability_score", "best_planting_time", "harvest_period",
    "water_requirements", "fertilizer_recommendations", "soil_condition",
    "expected_yield", "expected_market_price", "risk_factors", "summary"]

  lemma YieldKeysExtendCropKeys()
    ensures |YieldRequiredKeys| == 16
    ensures YieldRequiredKeys == ["item", "area", "year", "predicted_yield", "unit"] + CropRequiredKeys
  {
  }

  const NotAvailable: Json := JStr("N/A")
  const ParseFailureMessage := "Failed to parse Gemini response"

  const CropPreamble := "You are an agriculture expert. Based on the following crop data, "
    + "respond ONLY in valid JSON format with exactly these keys:\n\n"
  const YieldPreamble := "You are an agriculture expert. Based on the following yield prediction data, "
    + "respond ONLY in valid JSON format with exactly these keys:\n\n"

  /** The items of a Python list repr of strings: `'a', 'b'`. */
  function QuotedItems(keys: seq<string>): string
  {
    if keys == [] then ""
    else if |keys| == 1 then "'" + keys[0] + "'"
    else "'" + keys[0] + "', " + QuotedItems(keys[1..])
  }

  /** What an f-string shows for a list of strings: `['a', 'b']`. */
  function PyListRepr(keys: seq<string>): string
  {
    "[" + QuotedItems(keys) + "]"
  }

  /** The instruction text: preamble, the key list, then the caller's data
      as serialised by `json.dumps` (here the parameter `dumped`). */
  function Instruction(preamble: string, keys: seq<string>, heading: string, dumped: string): (text: string)
    ensures Contains(text, PyListRepr(keys))
    ensures Contains(text, dumped)
    ensures |text| >= |preamble| && text[..|preamble|] == preamble
  {
    var text := preamble + PyListRepr(keys) + "\n\n" + heading + ":\n" + dumped;
    assert text == preamble + PyListRepr(keys) + ("\n\n" + heading + ":\n" + dumped);
    ContainsMiddle(preamble, PyListRepr(keys), "\n\n" + heading + ":\n" + dumped);
    assert text == (preamble + PyListRepr(keys) + "\n\n" + heading + ":\n") + dumped + "";
    ContainsMiddle(preamble + PyListRepr(keys) + "\n\n" + heading + ":\n", dumped, "");
    text
  }

  /** The request body: one user instruction part, JSON output requested. */
  function RequestBody(text: string): (body: Json)
    ensures body.JObj? && body.fields.Keys == {"contents", "generationConfig"}
    ensures body.fields["generationConfig"] == JObj(map["response_mime_type" := JStr("application/json")])
  {
    JObj(map[
      "contents" := JArr([JObj(map[
        "role" := JStr("user"),
        "parts" := JArr([JObj(map["text" := JStr(text)])])])]),
      "generationConfig" := JObj(map["response_mime_type" := JStr("application/json")])])
  }

  /** `j[key]` on decoded JSON: a KeyError or TypeError is `None`. */
  function Subscript(j: Json, key: string): Option<Json>
  {
    if j.JObj? && key in j.fields then Some(j.fields[key]) else None
  }

  /** `j[0]` on decoded JSON: a list's first item or a string's first character;
      an empty list or string, an object (whose keys are strings) and a scalar fail. */
  function First(j: Json): Option<Json>
  {
    match j
    case JArr(xs) => if |xs| > 0 then Some(xs[0]) else None
    case JStr(s) => if |s| > 0 then Some(JStr([s[0]])) else None
    case _ => None
  }

  /** `data["candidates"][0]["content"]["parts"][0]["text"]`. A reply with
      no `candidates` key, as an error or blocked reply has, yields nothing. */
  function ResponseText(data: Json): (r: Option<Json>)
    ensures !(data.JObj? && "candidates" in data.fields) ==> r.None?
    ensures data.JObj? && "candidates" in data.fields && data.fields["candidates"] in {JArr([]), JStr("")} ==> r.None?
  {
    var candidates := Subscript(data, "candidates");
    if candidates.None? then None else
    var candidate := First(candidates.value);
    if candidate.None? then None else
    var content := Subscript(candidate.value, "content");
    if content.None? then None else
    var parts := Subscript(content.value, "parts");
    if parts.None? then None else
    var part := First(parts.value);
    if part.None? then None else
    Subscript(part.value, "text")
  }

  lemma RequestBodyCarriesText(text: string)
    ensures var contents := Subscript(RequestBody(text), "contents");
      contents.Some? && First(contents.value).Some? &&
      var parts := Subscript(First(contents.value).value, "parts");
      parts.Some? && First(parts.value).Some? &&
      Subscript(First(parts.value).value, "text") == Some(JStr(text))
  {
  }

  /** A reply envelope with one candidate whose one part is `text`, next to
      whatever other keys the candidate, content and part carry. */
  function Envelope(text: Json, candidate: map<string, Json>, content: map<string, Json>, part: map<string, Json>): Json
  {
    JObj(map["candidates" := JArr([JObj(candidate["content" := JObj(content["parts" := JArr([JObj(part["text" := text])])])])])])
  }

  /** The text is found in such an envelope whatever else it carries. */
  lemma ResponseTextOfEnvelope(text: Json, candidate: map<string, Json>, content: map<string, Json>, part: map<string, Json>)
    ensures ResponseText(Envelope(text, candidate, content, part)) == Some(text)
  {
  }

  function KeySet(keys: seq<string>): set<string>
  {
    set i | 0 <= i < |keys| :: keys[i]
  }

  /** The object after the fill loop: every required key it lacked is "N/A". */
  function Completion(parsed: map<string, Json>, keys: seq<string>): (r: map<string, Json>)
    ensures forall i :: 0 <= i < |keys| ==> keys[i] in r
    ensures forall k :: k in parsed ==> k in r && r[k] == parsed[k]
    ensures forall k :: k in r && k !in parsed ==> k in KeySet(keys) && r[k] == NotAvailable
  {
    map k | k in parsed.Keys + KeySet(keys) :: if k in parsed then parsed[k] else NotAvailable
  }

  lemma CompletionIdempotent(parsed: map<string, Json>, keys: seq<string>)
    ensures Completion(Completion(parsed, keys), keys) == Completion(parsed, keys)
  {
  }

  /** `for key in required_keys: if key not in parsed: parsed[key] = "N/A"`. */
  method FillMissing(parsed: map<string, Json>, keys: seq<string>) returns (r: map<string, Json>)
    ensures r == Completion(parsed, keys)
  {
    r := parsed;
    var i := 0;
    while i < |keys|
      invariant 0 <= i <= |keys|
      invariant r == Completion(parsed, keys[..i])
    {
      if keys[i] !in r {
        r := r[keys[i] := NotAvailable];
      }
      assert KeySet(keys[..i + 1]) == KeySet(keys[..i]) + {keys[i]} by {
        assert forall j :: 0 <= j < i ==> keys[..i + 1][j] == keys[..i][j];
      }
      i := i + 1;
    }
    assert keys[..i] == keys;
  }

  /** The fill loop applied to whatever `json.loads` produced. On an object it
      completes the keys. On a list or a string, `key not in parsed` is a
      membership or substring test and the first assignment raises, so the
      value survives only if it already holds every key; on any other value
      the membership test itself raises unless there are no keys at all. */
  function Repair(parsed: Json, keys: seq<string>): (r: Option<Json>)
    ensures parsed.JObj? ==> r == Some(JObj(Completion(parsed.fields, keys)))
    ensures r.Some? && !parsed.JObj? ==> r.value == parsed
    ensures parsed.JArr? ==> (r.Some? <==> forall i :: 0 <= i < |keys| ==> JStr(keys[i]) in parsed.items)
    ensures parsed.JStr? ==> (r.Some? <==> forall i :: 0 <= i < |keys| ==> Contains(parsed.s, keys[i]))
    ensures (parsed.JNull? || parsed.JBool? || parsed.JInt? || parsed.JFloat?) ==> (r.Some? <==> keys == [])
  {
    match parsed
    case JObj(m) => Some(JObj(Completion(m, keys)))
    case JArr(xs) => if forall i :: 0 <= i < |keys| ==> JStr(keys[i]) in xs then Some(parsed) else None
    case JStr(s) => if forall i :: 0 <= i < |keys| ==> Contains(s, keys[i]) then Some(parsed) else None
    case _ => if keys == [] then Some(parsed) else None
  }

  /** The object returned when anything inside the `try` fails. */
  function ParseFailure(data: Json): Json
  {
    JObj(map["error" := JStr(ParseFailureMessage), "raw" := data])
  }

  /** The body of the `try`: envelope, `json.loads` (the parameter `loads`,
      `None` when it raises) and the fill loop. */
  function ParseReply(data: Json, keys: seq<string>, loads: string -> Option<Json>): (r: Json)
    ensures (match ResponseText(data)
             case Some(JStr(t)) => loads(t).None? || Repair(loads(t).value, keys).None?
             case _ => true) ==> r == ParseFailure(data)
    ensures r != ParseFailure(data) ==>
      exists t :: ResponseText(data) == Some(JStr(t)) && loads(t).Some? &&
        Repair(loads(t).value, keys) == Some(r)
    ensures (match ResponseText(data)
             case Some(JStr(t)) => loads(t).Some? && Repair(loads(t).value, keys).Some?
             case _ => false) ==>
      r == Repair(loads(ResponseText(data).value.s).value, keys).value
  {
    match ResponseText(data)
    case Some(JStr(t)) =>
      (match loads(t)
       case Some(parsed) =>
         (match Repair(parsed, keys)
          case Some(v) => v
          case None => ParseFailure(data))
       case None => ParseFailure(data))
    case _ => ParseFailure(data)
  }

  datatype HttpReply = HttpReply(status: int, text: string, body: Option<Json>)

  datatype UpstreamError =
    | StatusError(status: int, text: string)  // "Gemini API error {status}: {text}"
    | BodyNotJson                             // `resp.json()` raised

  datatype CallOutcome = Raised(error: UpstreamError) | Returned(value: Json)

  /** Everything after the POST: a status other than 200 raises, a body that
      is not JSON raises, otherwise the repaired reply is returned. */
  function HandleReply(reply: HttpReply, keys: seq<string>, loads: string -> Option<Json>): (r: CallOutcome)
    ensures reply.status != 200 ==> r == Raised(StatusError(reply.status, reply.text))
    ensures r.Returned? <==> reply.status == 200 && reply.body.Some?
    ensures r.Returned? ==> r.value == ParseReply(reply.body.value, keys, loads)
  {
    if reply.status != 200 then Raised(StatusError(reply.status, reply.text))
    else if reply.body.None? then Raised(BodyNotJson)
    else Returned(ParseReply(reply.body.value, keys, loads))
  }

  /** Every key of `keys` is a field of `v`. */
  predicate HoldsKeys(v: Json, keys: seq<string>)
  {
    v.JObj? && forall i :: 0 <= i < |keys| ==> keys[i] in v.fields
  }

  /** The object `json.loads` makes of the reply's text, when the text is
      found and parses to a JSON object. */
  function ReplyObject(data: Json, loads: string -> Option<Json>): Option<map<string, Json>>
  {
    match ResponseText(data)
    case Some(JStr(t)) =>
      (match loads(t)
       case Some(JObj(f)) => Some(f)
       case _ => None)
    case _ => None
  }

  /** Whatever a successful exchange returns is the error object, an object
      holding every required key, or a list or string that already held every
      key (the fill loop raised on nothing); a 200 reply whose text parses to
      an object returns that object completed, holding every key. */
  lemma {:induction false} HandleReplyResult(reply: HttpReply, keys: seq<string>, loads: string -> Option<Json>)
    requires keys != []
    ensures var r := HandleReply(reply, keys, loads);
      r.Returned? ==>
        r.value == ParseFailure(reply.body.value) || HoldsKeys(r.value, keys) || r.value.JArr? || r.value.JStr?
    ensures var r := HandleReply(reply, keys, loads);
      (reply.status == 200 && reply.body.Some? && ReplyObject(reply.body.value, loads).Some?) ==>
        (r == Returned(JObj(Completion(ReplyObject(reply.body.value, loads).value, keys)))
         && HoldsKeys(r.value, keys))
  {
    var r := HandleReply(reply, keys, loads);
    if r.Returned? {
      var data := reply.body.value;
      var v := ParseReply(data, keys, loads);
      if v != ParseFailure(data) {
        var t :| ResponseText(data) == Some(JStr(t)) && loads(t).Some? &&
          Repair(loads(t).value, keys) == Some(v);
        var parsed := loads(t).value;
        if parsed.JObj? {
          assert v == JObj(Completion(parsed.fields, keys));
          assert HoldsKeys(v, keys);
        }
      }
      if ReplyObject(data, loads).Some? {
        var f := ReplyObject(data, loads).value;
        assert Repair(JObj(f), keys) == Some(JObj(Completion(f, keys)));
        assert HoldsKeys(JObj(Completion(f, keys)), keys);
      }
    }
  }

  /** The exchange both calls make: the instruction over `keys` goes out in
      the request body, and the reply is handled against the same keys. */
  function Exchange(preamble: string, keys: seq<string>, heading: string, data: map<string, Json>,
                    dumps: Json -> string, post: Json -> HttpReply, loads: string -> Option<Json>): (r: CallOutcome)
    requires keys != []
    ensures var reply := post(RequestBody(Instruction(preamble, keys, heading, dumps(JObj(data)))));
      && (reply.status != 200 ==> r == Raised(StatusError(reply.status, reply.text)))
      && (r.Returned? ==> (reply.body.Some? &&
            (r.value == ParseFailure(reply.body.value) || HoldsKeys(r.value, keys) || r.value.JArr? || r.value.JStr?)))
      && ((reply.status == 200 && reply.body.Some? && ReplyObject(reply.body.value, loads).Some?) ==>
            (r == Returned(JObj(Completion(ReplyObject(reply.body.value, loads).value, keys)))
             && HoldsKeys(r.value, keys)))
  {
    var reply := post(RequestBody(Instruction(preamble, keys, heading, dumps(JObj(data)))));
    HandleReplyResult(reply, keys, loads);
    HandleReply(reply, keys, loads)
  }

  /** `call_gemini`: the exchange over the crop keys. */
  function CallGemini(cropData: map<string, Json>, dumps: Json -> string,
                      post: Json -> HttpReply, loads: string -> Option<Json>): CallOutcome
  {
    Exchange(CropPreamble, CropRequiredKeys, "Crop Data", cropData, dumps, post, loads)
  }

  /** `call_gemini_yield`: the same exchange over the yield keys. */
  function CallGeminiYield(yieldData: map<string, Json>, dumps: Json -> string,
                           post: Json -> HttpReply, loads: string -> Option<Json>): CallOutcome
  {
    Exchange(YieldPreamble, YieldRequiredKeys, "Yield Data", yieldData, dumps, post, loads)
  }
}
