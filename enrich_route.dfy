/**
 * The enrichment route (src/app/api/enrich/route.ts): it builds the prompt
 * from the serialised product, sends one chat request to the completion
 * service, and turns the reply into either the decoded enrichment or an
 * error response. The HTTPS call, the bearer token and JSON.parse are not
 * modelled: the reply is an input and the decoder a parameter.
 */
module EnrichRoute {
  import opened Wrappers
  import opened Strings
  import opened JsValues
  import opened Http
  import opened Completion

  /** The four storage values the prompt offers the model. */
  const StorageValues: seq<string> := ["Dry Storage", "Deep Frozen", "Ambient Storage", "Frozen Food Storage"]

  /** The completion service's endpoint and the model the request names. */
  const Endpoint: string := "https://api.groq.com/openai/v1/chat/completions"
  const ModelName: string := "llama-3.3-70b-versatile"

  const Indent: string := "        "
  const StorageIndent: string := "            - "

  /** The prompt up to the storage values. */
  const PromptIntro: string :=
    "\n"
    + Indent + "You are an expert product data enricher. Given the product below, enrich it with the following attributes:\n"
    + "\n"
    + Indent + "- itemWeight: An object with \"value\" (number) and \"unit\" (string, e.g., \"g\")\n"
    + Indent + "- ingredients: Array of strings (Only include this if the product is edible. Do NOT include it for non-edible products.)\n"
    + Indent + "- description: Short paragraph describing the product\n"
    + Indent + "- storage: Array of one or more values ONLY from:\n"

  /** One line of the storage list. */
  function StorageLine(v: string): string {
    StorageIndent + v + "\n"
  }

  /** The prompt from the storage values up to the serialised product. */
  const PromptAttributes: string :=
    Indent + "- itemsPerPack: Number\n"
    + Indent + "- color: String\n"
    + Indent + "- material: String\n"
    + Indent + "- width: An object with \"value\" (number) and \"unit\" (string, e.g., \"cm\")\n"
    + Indent + "- height: An object with \"value\" (number) and \"unit\" (string, e.g., \"cm\")\n"
    + Indent + "- warranty: A number representing number of years (e.g., 2 for 2 years)\n"
    + "\n"
    + Indent + "IMPORTANT:\n"
    // The dash in the source file is the mis-decoded em dash U+00E2 U+20AC U+201D.
    + Indent + "- Do NOT use strings like \"2 years\" for warranty\U{00E2}\U{20AC}\U{201D}just use the number: 2.\n"
    + Indent + "- Always return pure JSON that matches this structure.\n"
    + "\n"
    + Indent + "Product:\n"
    + Indent

  /** The prompt after the serialised product. */
  const PromptClosing: string :=
    "\n"
    + "\n"
    + Indent + "Respond ONLY in raw JSON format.\n"
    + "    "

  /** The storage list of the prompt, one line per storage value. */
  const PromptStorage: string :=
    StorageLine(StorageValues[0]) + StorageLine(StorageValues[1])
    + StorageLine(StorageValues[2]) + StorageLine(StorageValues[3])

  /**
   * The prompt template filled in: the serialised product between the text
   * before it, which holds the storage list, and the text after it. Whatever
   * that text, the result embeds the product and offers each storage value.
   */
  function Fill(intro: string, attributes: string, closing: string, productJson: string): (p: string)
    ensures Contains(p, productJson)
    ensures forall v :: v in StorageValues ==> Contains(p, v)
  {
    var before := intro + PromptStorage + attributes;
    var p := before + productJson + closing;
    ContainsInfix(before, productJson, closing);
    PromptOffersStorageValues(intro, attributes + productJson + closing);
    assert p == intro + PromptStorage + (attributes + productJson + closing);
    p
  }

  /** The prompt for the product whose JSON serialisation is `productJson`. */
  function Prompt(productJson: string): (p: string)
    ensures Contains(p, productJson)
    ensures forall v :: v in StorageValues ==> Contains(p, v)
  {
    Fill(PromptIntro, PromptAttributes, PromptClosing, productJson)
  }

  /** Any text around the storage list still offers every storage value. */
  lemma PromptOffersStorageValues(a: string, b: string)
    ensures forall v :: v in StorageValues ==> Contains(a + PromptStorage + b, v)
  {
    var l0, l1 := StorageLine(StorageValues[0]), StorageLine(StorageValues[1]);
    var l2, l3 := StorageLine(StorageValues[2]), StorageLine(StorageValues[3]);
    var s := a + PromptStorage + b;
    forall k | 0 <= k < 4
      ensures Contains(StorageLine(StorageValues[k]), StorageValues[k])
    {
      ContainsInfix(StorageIndent, StorageValues[k], "\n");
    }
    assert s == a + l0 + (l1 + l2 + l3 + b);
    ContainsWithin(a, l0, l1 + l2 + l3 + b, StorageValues[0]);
    assert s == (a + l0) + l1 + (l2 + l3 + b);
    ContainsWithin(a + l0, l1, l2 + l3 + b, StorageValues[1]);
    assert s == (a + l0 + l1) + l2 + (l3 + b);
    ContainsWithin(a + l0 + l1, l2, l3 + b, StorageValues[2]);
    assert s == (a + l0 + l1 + l2) + l3 + b;
    ContainsWithin(a + l0 + l1 + l2, l3, b, StorageValues[3]);
  }

  /** One message of a chat request. */
  datatype ChatMessage = ChatMessage(role: string, content: string)

  /** The body of the request to the completion service. */
  datatype ChatRequest = ChatRequest(model: string, messages: seq<ChatMessage>)

  /** The request for a product: the fixed model and a single user message holding the prompt. */
  function BuildRequest(productJson: string): ChatRequest {
    ChatRequest(ModelName, [ChatMessage("user", Prompt(productJson))])
  }

  /**
   * The completion service's reply: its HTTP status, its body as text (read
   * when the status is not 2xx), and `choices[0].message.content` of its
   * decoded body (read when the status is 2xx).
   */
  datatype Upstream = Upstream(status: int, text: string, completion: string)

  /** JSON.parse: a decoded value, or None where it throws. */
  type JsonParser = string -> Option<JsValue>

  /**
   * The route's answer to a completion-service reply: the enrichment decoded
   * from the JSON candidate of the completion, or an error response.
   */
  function Respond(up: Upstream, parse: JsonParser): (r: Result<JsValue, Failure>)
    ensures !IsOk(up.status) ==> r == Err(Failure(up.status, Text("Groq API error: " + up.text)))
    ensures IsOk(up.status) ==> (r.Ok? <==> parse(Extract(up.completion)).Some?)
    ensures r.Ok? ==> IsOk(up.status) && Some(r.value) == parse(Extract(up.completion))
    ensures IsOk(up.status) && r.Err? ==> r.error == Failure(500, Thrown("Failed to parse AI response: "))
  {
    if !IsOk(up.status) then
      Err(Failure(up.status, Text("Groq API error: " + up.text)))
    else
      var candidate := Extract(up.completion);
      match parse(candidate)
      case None => Err(Failure(500, Thrown("Failed to parse AI response: ")))
      case Some(enriched) => Ok(enriched)
  }

  /** No route error is a 2xx response, so the caller's `res.ok` check always sees it. */
  lemma RespondErrorsAreNotOk(up: Upstream, parse: JsonParser)
    ensures Respond(up, parse).Err? ==> !IsOk(Respond(up, parse).error.status)
  {
  }

  /**
   * On a non-2xx reply nothing is extracted or decoded: the answer depends
   * only on the status and the body text, not on the completion or the decoder.
   */
  lemma UpstreamFailureSkipsParsing(up: Upstream, up': Upstream, parse: JsonParser, parse': JsonParser)
    requires !IsOk(up.status) && up'.status == up.status && up'.text == up.text
    ensures Respond(up, parse) == Respond(up', parse')
  {
  }

  /**
   * A 2xx reply whose completion wraps the JSON in a fence with prose
   * around it is decoded from the fenced body alone.
   */
  lemma RespondDecodesFencedBody(up: Upstream, parse: JsonParser, i: int, b: int, j: int)
    requires IsOk(up.status)
    requires IsMatch(up.completion, i, b, j) && NoMatchBefore(up.completion, i) && Shortest(up.completion, b, j)
    requires b < j
    ensures Respond(up, parse).Ok? <==> parse(up.completion[b..j]).Some?
    ensures Respond(up, parse).Ok? ==> Some(Respond(up, parse).value) == parse(up.completion[b..j])
  {
    ExtractFencedBody(up.completion, i, b, j);
  }
}
