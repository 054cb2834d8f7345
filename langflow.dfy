/**
 * The Langflow client of the back end: its configuration check, the request
 * it sends to run a flow, the tweaks it derives from a message and the
 * extraction of the answer text from the flow's response. The HTTP call is a
 * function from the request to what the server answered.
 */
module Langflow {
  import opened Wrappers
  import opened Values
  import opened Text

  /** A setting read from the environment: `os.environ.get(name)`. */
  function Setting(env: map<string, string>, name: string): Option<string> {
    if name in env then Some(env[name]) else None
  }

  /** Python truthiness of an optional string: set and non-empty. */
  predicate Truthy(s: Option<string>) {
    s.Some? && s.value != ""
  }

  /** `a or b` on optional strings. */
  function Or(a: Option<string>, b: Option<string>): (r: Option<string>)
    ensures Truthy(a) ==> r == a
    ensures !Truthy(a) ==> r == b
    ensures r == a || r == b
    ensures Truthy(r) <==> Truthy(a) || Truthy(b)
  {
    if Truthy(a) then a else b
  }

  /** The exception classes of the client; the config and API errors are Langflow errors too. */
  datatype ErrorKind =
    | General    // LangflowError
    | Config     // LangflowConfigError
    | Api        // LangflowAPIError
    | Foreign    // any other Python exception escaping the client

  datatype Failure = Raised(kind: ErrorKind, message: string)

  // ---------------------------------------------------------------------------
  // LangflowClient.__init__ and _validate_config
  // ---------------------------------------------------------------------------

  /** The client's settings as `__init__` leaves them, before validation. */
  datatype Settings = Settings(
    baseApiUrl: Option<string>,
    langflowId: Option<string>,
    flowId: Option<string>,
    applicationToken: Option<string>,
    endpoint: Option<string>)

  /** A validated client: the three required settings are non-empty strings. */
  datatype Client = Client(
    baseApiUrl: string,
    langflowId: string,
    flowId: string,
    applicationToken: Option<string>,
    endpoint: string)

  /** `__init__`'s field assignments: explicit arguments win when truthy. */
  function ReadSettings(env: map<string, string>, applicationToken: Option<string>, endpoint: Option<string>): (s: Settings)
    ensures s.applicationToken == if Truthy(applicationToken) then applicationToken else Setting(env, "APPLICATION_TOKEN")
    ensures s.endpoint == if Truthy(endpoint) then endpoint else Setting(env, "FLOW_ID")
  {
    var flowId := Setting(env, "FLOW_ID");
    Settings(Setting(env, "BASE_API_URL"), Setting(env, "LANGFLOW_ID"), flowId,
             Or(applicationToken, Setting(env, "APPLICATION_TOKEN")), Or(endpoint, flowId))
  }

  /** The checked settings, in the order `_validate_config` visits them. */
  function Required(s: Settings): seq<(string, Option<string>)> {
    [("BASE_API_URL", s.baseApiUrl), ("LANGFLOW_ID", s.langflowId), ("FLOW_ID", s.flowId)]
  }

  /** The names of the falsy settings among `params`, in order. */
  function FalsyNames(params: seq<(string, Option<string>)>): (r: seq<string>)
    ensures |r| <= |params|
    ensures forall n :: n in r <==> exists i :: 0 <= i < |params| && params[i].0 == n && !Truthy(params[i].1)
  {
    if params == [] then []
    else
      var init := params[..|params| - 1];
      var last := params[|params| - 1];
      assert forall i :: 0 <= i < |init| ==> params[i] == init[i];
      FalsyNames(init) + (if Truthy(last.1) then [] else [last.0])
  }

  function ConfigMessage(missing: seq<string>): string {
    "Missing required configuration parameters: " + Join(", ", missing)
  }

  /** What `_validate_config` decides: the falsy names, or nothing. */
  function CheckConfig(s: Settings): (r: Result<(), Failure>)
    ensures r.Ok? <==> Truthy(s.baseApiUrl) && Truthy(s.langflowId) && Truthy(s.flowId)
    ensures r.Err? ==> r.error == Raised(Config, ConfigMessage(FalsyNames(Required(s))))
  {
    var missing := FalsyNames(Required(s));
    if missing == [] then
      assert Required(s)[0].0 !in missing && Required(s)[1].0 !in missing && Required(s)[2].0 !in missing;
      Ok(())
    else
      assert missing[0] in missing;
      Err(Raised(Config, ConfigMessage(missing)))
  }

  /** `_validate_config`: appends the name of every falsy setting, then raises if there is any. */
  method ValidateConfig(s: Settings) returns (r: Result<(), Failure>)
    ensures r == CheckConfig(s)
  {
    var params := Required(s);
    var missing: seq<string> := [];
    for k := 0 to |params|
      invariant missing == FalsyNames(params[..k])
    {
      assert params[..k + 1][..k] == params[..k];
      if !Truthy(params[k].1) {
        missing := missing + [params[k].0];
      }
    }
    assert params[..|params|] == params;
    if missing != [] {
      return Err(Raised(Config, ConfigMessage(missing)));
    }
    r := Ok(());
  }

  /** `LangflowClient(application_token, endpoint)` over the environment `env`. */
  function NewClient(env: map<string, string>, applicationToken: Option<string>, endpoint: Option<string>): (r: Result<Client, Failure>)
    ensures r.Ok? <==>
      Truthy(Setting(env, "BASE_API_URL")) && Truthy(Setting(env, "LANGFLOW_ID")) && Truthy(Setting(env, "FLOW_ID"))
    ensures r.Err? ==> r.error.kind == Config
    ensures r.Ok? ==> (r.value.baseApiUrl == env["BASE_API_URL"] && r.value.langflowId == env["LANGFLOW_ID"]
      && r.value.flowId == env["FLOW_ID"])
    ensures r.Ok? ==> r.value.endpoint == if Truthy(endpoint) then endpoint.value else env["FLOW_ID"]
    ensures r.Ok? ==> (r.value.applicationToken ==
      if Truthy(applicationToken) then applicationToken else Setting(env, "APPLICATION_TOKEN"))
  {
    var s := ReadSettings(env, applicationToken, endpoint);
    match CheckConfig(s)
    case Err(f) => Err(f)
    case Ok(_) => Ok(Client(s.baseApiUrl.value, s.langflowId.value, s.flowId.value, s.applicationToken, s.endpoint.value))
  }

  /** The error lists exactly the unset names, in the order URL, Langflow id, flow id. */
  lemma {:induction false} ConfigErrorNames(env: map<string, string>, applicationToken: Option<string>, endpoint: Option<string>)
    requires NewClient(env, applicationToken, endpoint).Err?
    ensures var missing := FalsyNames(Required(ReadSettings(env, applicationToken, endpoint)));
      && NewClient(env, applicationToken, endpoint).error.message == ConfigMessage(missing)
      && missing == (if Truthy(Setting(env, "BASE_API_URL")) then [] else ["BASE_API_URL"])
                  + (if Truthy(Setting(env, "LANGFLOW_ID")) then [] else ["LANGFLOW_ID"])
                  + (if Truthy(Setting(env, "FLOW_ID")) then [] else ["FLOW_ID"])
  {
    var s := ReadSettings(env, applicationToken, endpoint);
    var p := Required(s);
    assert FalsyNames(p[..1]) == (if Truthy(s.baseApiUrl) then [] else ["BASE_API_URL"]) by {
      assert p[..1][..0] == [];
    }
    assert FalsyNames(p[..2]) == FalsyNames(p[..1]) + (if Truthy(s.langflowId) then [] else ["LANGFLOW_ID"]) by {
      assert p[..2][..1] == p[..1];
    }
    assert FalsyNames(p) == FalsyNames(p[..2]) + (if Truthy(s.flowId) then [] else ["FLOW_ID"]) by {
      assert p[..3][..2] == p[..2] && p[..3] == p;
    }
  }

  // ---------------------------------------------------------------------------
  // run_flow
  // ---------------------------------------------------------------------------

  /** `{base}/lf/{langflow_id}/api/v1/run/{endpoint}`. */
  function RunUrl(c: Client): (u: string)
    ensures |u| > |c.baseApiUrl| && u[..|c.baseApiUrl|] == c.baseApiUrl && u[|c.baseApiUrl|] == '/'
    ensures |u| >= |c.endpoint| && u[|u| - |c.endpoint|..] == c.endpoint
  {
    c.baseApiUrl + "/" + RunPath(c)
  }

  /** The part of the run URL after the base URL and its slash. */
  function RunPath(c: Client): string {
    "lf/" + c.langflowId + "/api/v1/run/" + c.endpoint
  }

  /**
   * The run URL is the base URL followed by the path segments lf, the
   * Langflow id, api, v1, run and the endpoint, whenever neither the id nor
   * the endpoint holds a slash.
   */
  lemma {:induction false} RunUrlSegments(c: Client)
    requires '/' !in c.langflowId && '/' !in c.endpoint
    ensures RunUrl(c) == c.baseApiUrl + "/" + RunPath(c)
    ensures SplitOn(RunPath(c), '/') == ["lf", c.langflowId, "api", "v1", "run", c.endpoint]
  {
    var id, e := c.langflowId, c.endpoint;
    var t5 := "run" + "/" + e;
    var t4 := "v1" + "/" + t5;
    var t3 := "api" + "/" + t4;
    var t2 := id + "/" + t3;
    assert RunPath(c) == "lf" + "/" + t2;
    assert SplitOn(t5, '/') == ["run", e] by {
      SplitWithoutSep(e, '/');
      SplitAfterSegment("run", e, '/');
    }
    assert SplitOn(t4, '/') == ["v1", "run", e] by {
      SplitAfterSegment("v1", t5, '/');
    }
    assert SplitOn(t3, '/') == ["api", "v1", "run", e] by {
      SplitAfterSegment("api", t4, '/');
    }
    assert SplitOn(t2, '/') == [id, "api", "v1", "run", e] by {
      SplitAfterSegment(id, t3, '/');
    }
    assert SplitOn("lf" + "/" + t2, '/') == ["lf", id, "api", "v1", "run", e] by {
      SplitAfterSegment("lf", t2, '/');
    }
  }

  /** The JSON body of a run request; tweaks are sent only when truthy. */
  function Payload(message: string, outputType: string, inputType: string, tweaks: Json): (p: map<string, Json>)
    ensures "input_value" in p && p["input_value"] == JStr(message)
    ensures "output_type" in p && p["output_type"] == JStr(outputType)
    ensures "input_type" in p && p["input_type"] == JStr(inputType)
    ensures "tweaks" in p <==> PyTruthy(tweaks)
    ensures "tweaks" in p ==> p["tweaks"] == tweaks
    ensures p.Keys <= {"input_value", "output_type", "input_type", "tweaks"}
  {
    var base := map["input_value" := JStr(message), "output_type" := JStr(outputType), "input_type" := JStr(inputType)];
    if PyTruthy(tweaks) then base["tweaks" := tweaks] else base
  }

  /** The request headers: both the bearer token and the content type when a token is set, none otherwise. */
  function Headers(token: Option<string>): (h: map<string, string>)
    ensures Truthy(token) ==> h == map["Authorization" := "Bearer " + token.value, "Content-Type" := "application/json"]
    ensures !Truthy(token) ==> h == map[]
    ensures "Authorization" in h <==> "Content-Type" in h
  {
    if Truthy(token) then map["Authorization" := "Bearer " + token.value, "Content-Type" := "application/json"]
    else map[]
  }

  /** An HTTP POST as the client builds it. */
  datatype Request = Request(url: string, payload: map<string, Json>, headers: map<string, string>)

  /** How the POST went. */
  datatype PostOutcome =
    | Answered(body: Json)          // a 2xx response with a JSON body
    | TimedOut
    | RequestFailed(reason: string) // connection errors and non-2xx statuses
    | BadJson(reason: string)       // a body that `response.json()` cannot decode

  function FlowRequest(c: Client, message: string, outputType: string, inputType: string, tweaks: Json): (q: Request)
    ensures q.url == RunUrl(c)
    ensures q.payload == Payload(message, outputType, inputType, tweaks)
    ensures q.headers == Headers(c.applicationToken)
  {
    Request(RunUrl(c), Payload(message, outputType, inputType, tweaks), Headers(c.applicationToken))
  }

  /** `run_flow`: the response body, or the API error each failure is turned into. Since
      requests 2.27 the error `response.json()` raises is a `RequestException`, so an undecodable
      body is reported by the connection handler, which comes before the JSON one. */
  function RunFlow(c: Client, message: string, outputType: string, inputType: string, tweaks: Json,
                   post: Request -> PostOutcome): (r: Result<Json, Failure>)
    ensures r.Err? ==> r.error.kind == Api
    ensures post(FlowRequest(c, message, outputType, inputType, tweaks)).Answered? <==> r.Ok?
    ensures r.Ok? ==> r.value == post(FlowRequest(c, message, outputType, inputType, tweaks)).body
    ensures var o := post(FlowRequest(c, message, outputType, inputType, tweaks));
      (o.RequestFailed? || o.BadJson?) ==>
        r == Err(Raised(Api, "Failed to connect to Langflow API: " + o.reason))
  {
    match post(FlowRequest(c, message, outputType, inputType, tweaks))
    case Answered(body) => Ok(body)
    case TimedOut => Err(Raised(Api, "Request timed out while connecting to Langflow API"))
    case RequestFailed(m) => Err(Raised(Api, "Failed to connect to Langflow API: " + m))
    case BadJson(m) => Err(Raised(Api, "Failed to connect to Langflow API: " + m))
  }

  // ---------------------------------------------------------------------------
  // prepare_tweaks
  // ---------------------------------------------------------------------------

  /** `{"input_value": v}` and the other one- and two-entry component settings. */
  function One(k: string, v: Json): Json { JObj(map[k := v]) }

  function CombineText(prompt: string): Json {
    JObj(map["first_text" := JStr(prompt), "delimiter" := JStr("\\n")])
  }

  /** The component overrides of the flow, for a message split at '-'. */
  function TweaksFor(key: string, prompt: string, prompt2: string, message: string): (t: map<string, Json>)
    ensures "TextInput-IA62h" in t && "TextInput-QOITS" in t
    ensures TextInput(t, "TextInput-IA62h") == JStr(PyStrip(SplitOn(message, '-')[0]))
    ensures TextInput(t, "TextInput-QOITS") ==
      JStr(if |SplitOn(message, '-')| > 1 then SplitOn(message, '-')[1] else "")
  {
    var parts := SplitOn(message, '-');
    var first, second := JStr(PyStrip(parts[0])), JStr(if |parts| > 1 then parts[1] else "");
    SetInputs(FixedTweaks(key, prompt, prompt2), "TextInput-IA62h", first, "TextInput-QOITS", second);
    FixedTweaks(key, prompt, prompt2)["TextInput-IA62h" := One("input_value", first)]["TextInput-QOITS" := One("input_value", second)]
  }

  /** Setting the inputs of two distinct text components: each reads back its own. */
  lemma {:induction false} SetInputs(m: map<string, Json>, a: string, va: Json, b: string, vb: Json)
    requires a != b
    ensures var t := m[a := One("input_value", va)][b := One("input_value", vb)];
      a in t && b in t && TextInput(t, a) == va && TextInput(t, b) == vb
  {
  }

  /** The overrides that do not depend on the message. */
  function FixedTweaks(key: string, prompt: string, prompt2: string): (t: map<string, Json>)
    ensures t.Keys == {"AstraDB-EKNPh", "CombineText-dpoVZ", "CombineText-XnSUA", "ParseData-bB1wW",
                       "ChatOutput-XJAAL", "GoogleGenerativeAIModel-Tdtr3"}
    ensures t["GoogleGenerativeAIModel-Tdtr3"].JObj?
    ensures t["GoogleGenerativeAIModel-Tdtr3"].fields.Keys == {"model", "google_api_key"}
    ensures t["GoogleGenerativeAIModel-Tdtr3"].fields["google_api_key"] == JStr(key)
  {
    map[
      "AstraDB-EKNPh" := JObj(map[]),
      "CombineText-dpoVZ" := CombineText(prompt),
      "CombineText-XnSUA" := CombineText(prompt2),
      "ParseData-bB1wW" := JObj(map[]),
      "ChatOutput-XJAAL" := JObj(map[]),
      "GoogleGenerativeAIModel-Tdtr3" := JObj(map["model" := JStr("gemini-1.5-flash"), "google_api_key" := JStr(key)])
    ]
  }

  const MissingGeminiConfig := "Error preparing tweaks: Missing required Gemini configuration parameters"

  /**
   * `prepare_tweaks`: fails, as a plain Langflow error, exactly when one of
   * the Gemini key and the two prompts is unset or empty.
   */
  function PrepareTweaks(env: map<string, string>, message: string): (r: Result<map<string, Json>, Failure>)
    ensures r.Ok? <==>
      Truthy(Setting(env, "GEMINI_API_KEY")) && Truthy(Setting(env, "GEMINI_PROMPT")) && Truthy(Setting(env, "GEMINI_PROMPT_2"))
    ensures r.Err? ==> r.error == Raised(General, MissingGeminiConfig)
    ensures r.Ok? ==> r.value == TweaksFor(Setting(env, "GEMINI_API_KEY").value, Setting(env, "GEMINI_PROMPT").value, Setting(env, "GEMINI_PROMPT_2").value, message)
  {
    var key, p1, p2 := Setting(env, "GEMINI_API_KEY"), Setting(env, "GEMINI_PROMPT"), Setting(env, "GEMINI_PROMPT_2");
    if !(Truthy(key) && Truthy(p1) && Truthy(p2)) then
      Err(Raised(General, MissingGeminiConfig))
    else
      Ok(TweaksFor(key.value, p1.value, p2.value, message))
  }

  /** The input of one text component of the tweaks. */
  function TextInput(t: map<string, Json>, component: string): Json
    requires component in t
  {
    var c := t[component];
    if c.JObj? && "input_value" in c.fields then c.fields["input_value"] else JNull
  }

  /**
   * The first text input gets the part of the message before its first '-',
   * stripped; the second gets the part between the first and second '-' as
   * it is, or "" when the message has no '-'.
   */
  lemma {:induction false} TweakSegments(key: string, prompt: string, prompt2: string, a: string, b: string, rest: string)
    requires '-' !in a && '-' !in b
    ensures var t := TweaksFor(key, prompt, prompt2, a);
      TextInput(t, "TextInput-IA62h") == JStr(PyStrip(a)) && TextInput(t, "TextInput-QOITS") == JStr("")
    ensures var t := TweaksFor(key, prompt, prompt2, a + "-" + b + rest);
      && TextInput(t, "TextInput-IA62h") == JStr(PyStrip(a))
      && (rest == [] || rest[0] == '-' ==> TextInput(t, "TextInput-QOITS") == JStr(b))
  {
    SplitWithoutSep(a, '-');
    var whole := SplitOn(a, '-');
    var t1 := TweaksFor(key, prompt, prompt2, a);
    assert TextInput(t1, "TextInput-IA62h") == JStr(PyStrip(whole[0]));
    assert TextInput(t1, "TextInput-QOITS") == JStr("") by { assert |whole| == 1; }
    DashSegments(a, b, rest);
    var parts := SplitOn(a + "-" + b + rest, '-');
    var t2 := TweaksFor(key, prompt, prompt2, a + "-" + b + rest);
    assert TextInput(t2, "TextInput-IA62h") == JStr(PyStrip(parts[0]));
    assert TextInput(t2, "TextInput-QOITS") == JStr(parts[1]);
  }

  /** The first two '-'-separated segments of `a-b…`, when `b` is followed by '-' or nothing. */
  lemma {:induction false} DashSegments(a: string, b: string, rest: string)
    requires '-' !in a && '-' !in b
    ensures var parts := SplitOn(a + "-" + b + rest, '-');
      && |parts| > 1 && parts[0] == a
      && (rest == [] || rest[0] == '-' ==> parts[1] == b)
  {
    SplitAfterSegment(a, b + rest, '-');
    assert a + "-" + b + rest == a + "-" + (b + rest);
    if rest == [] {
      SplitWithoutSep(b, '-');
      assert b + rest == b;
    } else if rest[0] == '-' {
      SplitAfterSegment(b, rest[1..], '-');
      assert b + rest == b + "-" + rest[1..];
    }
  }

  // ---------------------------------------------------------------------------
  // execute_flow and getInsightsFromLangflow
  // ---------------------------------------------------------------------------

  /** One step of `response["outputs"][0]…`. */
  datatype Step = Key(key: string) | First

  /** The path of the answer text in a flow response. */
  const TextPath: seq<Step> :=
    [Key("outputs"), First, Key("outputs"), First, Key("results"), Key("message"), Key("data"), Key("text")]

  /**
   * One subscript as Python evaluates it: a missing key is a `KeyError`
   * (message: the quoted key), an empty list or string an `IndexError`, and
   * subscripting anything else a `TypeError`.
   */
  function Subscript(j: Json, s: Step, typeError: string): (r: Result<Json, Failure>)
    ensures r.Err? ==> r.error.kind == General || r.error.kind == Foreign
    ensures r.Err? && r.error.kind == Foreign ==> r.error.message == typeError
    ensures s.Key? ==> (r.Err? && r.error.kind == Foreign <==> !j.JObj?)
    ensures s.Key? && j.JObj? && s.key in j.fields ==> r == Ok(j.fields[s.key])
    ensures s.Key? && j.JObj? && s.key !in j.fields ==> r == Err(Raised(General, "'" + s.key + "'"))
    ensures s.First? ==> (r.Err? && r.error.kind == Foreign <==> !(j.JArr? || j.JStr? || j.JObj?))
    ensures s.First? && j.JArr? ==>
      r == if j.items == [] then Err(Raised(General, "list index out of range")) else Ok(j.items[0])
    ensures s.First? && j.JStr? ==>
      r == if j.s == "" then Err(Raised(General, "string index out of range")) else Ok(JStr(j.s[..1]))
    ensures s.First? && j.JObj? ==> r == Err(Raised(General, "0"))
  {
    match s
    case Key(k) =>
      if j.JObj? then
        if k in j.fields then Ok(j.fields[k]) else Err(Raised(General, "'" + k + "'"))
      else Err(Raised(Foreign, typeError))
    case First =>
      match j
      case JArr(items) => if items == [] then Err(Raised(General, "list index out of range")) else Ok(items[0])
      case JStr(str) => if str == "" then Err(Raised(General, "string index out of range")) else Ok(JStr(str[..1]))
      case JObj(_) => Err(Raised(General, "0"))
      case _ => Err(Raised(Foreign, typeError))
  }

  /** Following a path of subscripts; a `KeyError` or `IndexError` is reported as a parse error. */
  function Lookup(j: Json, path: seq<Step>, typeError: string): (r: Result<Json, Failure>)
    ensures r.Err? ==> r.error.kind == General || r.error.kind == Foreign
    ensures path == [] ==> r == Ok(j)
    ensures r.Err? && r.error.kind == General ==>
      |ParseErrorPrefix| <= |r.error.message| && r.error.message[..|ParseErrorPrefix|] == ParseErrorPrefix
    ensures r.Err? && r.error.kind == Foreign ==> r.error.message == typeError
    decreases |path|
  {
    if path == [] then Ok(j)
    else match Subscript(j, path[0], typeError)
      case Err(f) => Err(if f.kind == General then Raised(General, ParseErrorPrefix + f.message) else f)
      case Ok(next) => Lookup(next, path[1..], typeError)
  }

  const ParseErrorPrefix := "Error parsing flow response: "

  /** Following `p + q` is following `p` and then `q` from where `p` ends; a failure on the way
      along `p` is the failure of the whole path. */
  lemma {:induction false} LookupConcat(j: Json, p: seq<Step>, q: seq<Step>, typeError: string)
    ensures Lookup(j, p, typeError).Err? ==> Lookup(j, p + q, typeError) == Lookup(j, p, typeError)
    ensures Lookup(j, p, typeError).Ok? ==>
      Lookup(j, p + q, typeError) == Lookup(Lookup(j, p, typeError).value, q, typeError)
    decreases |p|
  {
    if p == [] {
      assert p + q == q;
    } else {
      assert (p + q)[0] == p[0];
      assert (p + q)[1..] == p[1..] + q;
      match Subscript(j, p[0], typeError)
      case Err(_) =>
      case Ok(next) => LookupConcat(next, p[1..], q, typeError);
    }
  }

  /** The text of a response of the shape the flow answers with is found at `TextPath`. */
  lemma TextPathFindsText(response: Json, text: Json)
    requires response == JObj(map["outputs" := JArr([JObj(map["outputs" := JArr([
      JObj(map["results" := JObj(map["message" := JObj(map["data" := JObj(map["text" := text])])])])])])])])
    ensures Lookup(response, TextPath, "") == Ok(text)
  {
  }

  const MissingOutputs := "Invalid response format: missing 'outputs' key"

  /**
   * `execute_flow`: prepares the tweaks, runs the flow with them and returns
   * `{"response": text}`, where text sits at `TextPath` in the response.
   * `typeError` is Python's message for a subscript of the wrong type.
   */
  function ExecuteFlow(env: map<string, string>, c: Client, message: string, outputType: string, inputType: string,
                       post: Request -> PostOutcome, typeError: string): (r: Result<Json, Failure>)
    ensures Setting(env, "GEMINI_API_KEY") == None ==> r.Err?
    ensures r.Ok? ==> (PrepareTweaks(env, message).Ok?
      && var body := post(FlowRequest(c, message, outputType, inputType, JObj(PrepareTweaks(env, message).value)));
      && body.Answered?
      && body.body.JObj? && PyTruthy(Get(body.body.fields, "outputs"))
      && Lookup(body.body, TextPath, typeError).Ok?
      && r.value == JObj(map["response" := Lookup(body.body, TextPath, typeError).value]))
    ensures PrepareTweaks(env, message).Ok? ==>
      var body := post(FlowRequest(c, message, outputType, inputType, JObj(PrepareTweaks(env, message).value)));
      body.Answered? && body.body.JObj? && !PyTruthy(Get(body.body.fields, "outputs")) ==>
        r == Err(Raised(General, MissingOutputs))
    ensures PrepareTweaks(env, message).Ok? ==>
      var body := post(FlowRequest(c, message, outputType, inputType, JObj(PrepareTweaks(env, message).value)));
      body.Answered? && body.body.JObj? && PyTruthy(Get(body.body.fields, "outputs")) &&
      Lookup(body.body, TextPath, typeError).Ok? ==>
        r == Ok(JObj(map["response" := Lookup(body.body, TextPath, typeError).value]))
    ensures PrepareTweaks(env, message).Ok? ==>
      var body := post(FlowRequest(c, message, outputType, inputType, JObj(PrepareTweaks(env, message).value)));
      body.Answered? && body.body.JObj? && PyTruthy(Get(body.body.fields, "outputs")) &&
      Lookup(body.body, TextPath, typeError).Err? ==>
        r == Err(Lookup(body.body, TextPath, typeError).error)
    ensures PrepareTweaks(env, message).Err? ==> r == Err(PrepareTweaks(env, message).error)
    ensures PrepareTweaks(env, message).Ok? ==>
      var run := RunFlow(c, message, outputType, inputType, JObj(PrepareTweaks(env, message).value), post);
      run.Err? ==> r == Err(run.error)
  {
    match PrepareTweaks(env, message)
    case Err(f) => Err(f)
    case Ok(tweaks) =>
      match RunFlow(c, message, outputType, inputType, JObj(tweaks), post)
      case Err(f) => Err(f)
      case Ok(response) => ReadResponse(response, typeError)
  }

  /** What `execute_flow` makes of the flow's answer: the `outputs` check, then the text. */
  function ReadResponse(response: Json, typeError: string): (r: Result<Json, Failure>)
    ensures !response.JObj? ==> r == Err(Raised(Foreign, typeError))
    ensures response.JObj? && !PyTruthy(Get(response.fields, "outputs")) ==>
      r == Err(Raised(General, MissingOutputs))
    ensures response.JObj? && PyTruthy(Get(response.fields, "outputs")) ==>
      r == (match Lookup(response, TextPath, typeError)
            case Ok(text) => Ok(JObj(map["response" := text]))
            case Err(f) => Err(f))
  {
    if !response.JObj? then Err(Raised(Foreign, typeError))
    else if !PyTruthy(Get(response.fields, "outputs")) then
      Err(Raised(General, MissingOutputs))
    else match Lookup(response, TextPath, typeError)
      case Err(f) => Err(f)
      case Ok(text) => Ok(JObj(map["response" := text]))
  }

  /** `response.get(key)`: `None` when absent. */
  function Get(fields: map<string, Json>, key: string): Json {
    if key in fields then fields[key] else JNull
  }

  /** The tweaks are never empty, so the request `execute_flow` sends always carries them. */
  lemma {:induction false} ExecutedRequestHasTweaks(env: map<string, string>, c: Client, message: string)
    requires PrepareTweaks(env, message).Ok?
    ensures var tweaks := JObj(PrepareTweaks(env, message).value);
      "tweaks" in FlowRequest(c, message, "chat", "chat", tweaks).payload
  {
    var t := PrepareTweaks(env, message).value;
    assert "TextInput-IA62h" in t;
    assert PyTruthy(JObj(t));
  }

  /** The message Langflow receives for a user's question: `"{username} - {query}"`. */
  function InsightsMessage(username: string, query: string): (m: string)
    ensures m == username + " - " + query
  {
    username + " - " + query
  }

  /** `getInsightsFromLangflow`: every failure is re-raised as a plain Langflow error. */
  function GetInsightsFromLangflow(env: map<string, string>, c: Client, username: string, query: string,
                                   post: Request -> PostOutcome, typeError: string): (r: Result<Json, Failure>)
    ensures r.Err? ==> r.error.kind == General
    ensures r.Ok? <==> ExecuteFlow(env, c, InsightsMessage(username, query), "chat", "chat", post, typeError).Ok?
    ensures r.Ok? ==> r == ExecuteFlow(env, c, InsightsMessage(username, query), "chat", "chat", post, typeError)
    ensures r.Err? ==> (r.error.message ==
      "Error getting insights: " + ExecuteFlow(env, c, InsightsMessage(username, query), "chat", "chat", post, typeError).error.message)
  {
    match ExecuteFlow(env, c, InsightsMessage(username, query), "chat", "chat", post, typeError)
    case Ok(resp) => Ok(resp)
    case Err(f) => Err(Raised(General, "Error getting insights: " + f.message))
  }

  /** For a username without '-', the message splits at '-' into the username with its trailing
      space and then the pieces of the query behind the separator's space. */
  lemma InsightsMessageSplit(username: string, query: string)
    requires '-' !in username
    ensures SplitOn(InsightsMessage(username, query), '-') == [username + " "] + SplitOn(" " + query, '-')
  {
    var a := username + " ";
    assert '-' !in a by {
      assert forall i :: 0 <= i < |a| ==> a[i] == (if i < |username| then username[i] else ' ');
    }
    SplitAfterSegment(a, " " + query, '-');
    assert InsightsMessage(username, query) == a + "-" + (" " + query);
  }

  /**
   * For a username without '-', the flow's first text input is the stripped
   * username and the second the query up to its own first '-', with the
   * space that follows the separator.
   */
  lemma {:induction false} InsightsMessageTweaks(key: string, prompt: string, prompt2: string, username: string, query: string)
    requires '-' !in username
    ensures var t := TweaksFor(key, prompt, prompt2, InsightsMessage(username, query));
      && TextInput(t, "TextInput-IA62h") == JStr(PyStrip(username + " "))
      && TextInput(t, "TextInput-QOITS") == JStr(" " + SplitOn(query, '-')[0])
  {
    InsightsMessageSplit(username, query);
    var rest := SplitOn(query, '-');
    assert SplitOn(" " + query, '-')[0] == " " + rest[0] by {
      assert (" " + query)[0] == ' ';
      assert (" " + query)[1..] == query;
    }
  }
}
