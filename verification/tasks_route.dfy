/**
 * The task-dispatch endpoint (`POST /api/irl-agents/tasks`): the request
 * schema, the lookup of the stored campaign, the defaulting rules that
 * turn the record into a list of tasks, and the order in which the
 * handler's failures are reported.
 *
 * The table, the external API key and the external API's reply are
 * inputs; the tasks sent out are an output.
 */
module TasksRoute {
  import opened Js
  import Http

  // ---- the request schema ----

  /** One zod issue as the handler reports it; None stands for zod's own default message. */
  datatype Issue = Issue(path: string, code: string, message: Option<string>)

  datatype Parsed = Accepted(taskId: string) | Rejected(issues: seq<Issue>)

  const TaskIdRequired := "task_id is required"

  /**
   * `z.object({ task_id: z.string().min(1, "task_id is required") }).safeParse(body)`:
   * a non-array object whose task_id is a string of at least one character.
   */
  function ParseRequest(body: JsValue): (r: Parsed)
    ensures r.Accepted? <==>
      body.JObject? && "task_id" in body.fields && body.fields["task_id"].JString? && body.fields["task_id"].s != ""
    ensures r.Accepted? ==> r.taskId == body.fields["task_id"].s
    ensures r.Rejected? ==> |r.issues| == 1
    ensures r.Rejected? && body.JObject? && "task_id" in body.fields && body.fields["task_id"] == JString("") ==>
      r.issues == [Issue("task_id", "too_small", Some(TaskIdRequired))]
  {
    if !body.JObject? then Rejected([Issue("", "invalid_type", None)])
    else
      var v := if "task_id" in body.fields then body.fields["task_id"] else JUndefined;
      if !v.JString? then Rejected([Issue("task_id", "invalid_type", None)])
      else if v.s == "" then Rejected([Issue("task_id", "too_small", Some(TaskIdRequired))])
      else Accepted(v.s)
  }

  // ---- the tasks ----

  /** One task of the batch sent to the external API. */
  datatype Task = Task(querierId: int, prompt: JsValue, reward: JsValue, token: string,
                       lat: JsValue, lng: JsValue, timeout: JsValue)

  const QuerierId := 1000
  const Token := "G$"

  /** The four values every task of a batch shares. */
  datatype Context = Context(prompt: JsValue, lat: JsValue, lng: JsValue, timeout: JsValue)

  /** A stored campaign, as the columns of its row. */
  type Record = map<string, JsValue>

  function Column(record: Record, name: string): JsValue {
    if name in record then record[name] else JUndefined
  }

  /**
   * The extraction with `?.` and `||`: the general description or "", the
   * latitude, longitude and estimated hours or 0.
   */
  function ContextOf(record: Record): (c: Context)
    ensures Truthy(OptGet(Column(record, "crowdfunding_data"), "general_description")) ==>
      c.prompt == OptGet(Column(record, "crowdfunding_data"), "general_description")
    ensures !Truthy(OptGet(Column(record, "crowdfunding_data"), "general_description")) ==> c.prompt == JString("")
    ensures !Truthy(OptGet(Column(record, "location_gps"), "latitude")) ==> c.lat == Zero
    ensures !Truthy(OptGet(Column(record, "location_gps"), "longitude")) ==> c.lng == Zero
    ensures !Truthy(OptGet(Column(record, "task_specifics"), "estimated_time_hours")) ==> c.timeout == Zero
    ensures Truthy(OptGet(Column(record, "location_gps"), "latitude")) ==>
      c.lat == OptGet(Column(record, "location_gps"), "latitude")
    ensures Truthy(OptGet(Column(record, "location_gps"), "longitude")) ==>
      c.lng == OptGet(Column(record, "location_gps"), "longitude")
    ensures Truthy(OptGet(Column(record, "task_specifics"), "estimated_time_hours")) ==>
      c.timeout == OptGet(Column(record, "task_specifics"), "estimated_time_hours")
    ensures Truthy(c.lat) || c.lat == Zero
    ensures Truthy(c.lng) || c.lng == Zero
    ensures Truthy(c.timeout) || c.timeout == Zero
  {
    var crowdfundingData := Column(record, "crowdfunding_data");
    var taskSpecifics := Column(record, "task_specifics");
    var locationGps := Column(record, "location_gps");
    Context(
      Or(OptGet(crowdfundingData, "general_description"), JString("")),
      Or(OptGet(locationGps, "latitude"), Zero),
      Or(OptGet(locationGps, "longitude"), Zero),
      Or(OptGet(taskSpecifics, "estimated_time_hours"), Zero))
  }

  /** A record whose three JSON columns are null or absent gets "" and three zeros. */
  lemma ContextDefaults(record: Record)
    requires Nullish(Column(record, "crowdfunding_data")) && Nullish(Column(record, "location_gps"))
    requires Nullish(Column(record, "task_specifics"))
    ensures ContextOf(record) == Context(JString(""), Zero, Zero, Zero)
  {
  }

  /** `taskSpecifics?.photo_breakdown || []`. */
  function Breakdown(record: Record): JsValue {
    Or(OptGet(Column(record, "task_specifics"), "photo_breakdown"), JArray([]))
  }

  function MakeTask(c: Context, reward: JsValue): (t: Task)
    ensures t.querierId == QuerierId && t.token == Token && t.reward == reward
    ensures t.prompt == c.prompt && t.lat == c.lat && t.lng == c.lng && t.timeout == c.timeout
  {
    Task(QuerierId, c.prompt, reward, Token, c.lat, c.lng, c.timeout)
  }

  /** `breakdownItem.subtotal || 0` for an entry that is neither null nor undefined. */
  function Reward(item: JsValue): (r: JsValue)
    requires !Nullish(item)
    ensures Truthy(Get(item, "subtotal").value) ==> r == Get(item, "subtotal").value
    ensures !Truthy(Get(item, "subtotal").value) ==> r == Zero
  {
    Or(Get(item, "subtotal").value, Zero)
  }

  predicate AllReadable(items: seq<JsValue>) {
    forall i :: 0 <= i < |items| ==> !Nullish(items[i])
  }

  /**
   * What the handler builds from a record: one task per breakdown entry
   * when the breakdown is a non-empty array, otherwise one task paid the
   * total cost or 0. None when an entry is null or undefined, since
   * reading its subtotal throws.
   */
  function ExpectedTasks(record: Record): (r: Option<seq<Task>>)
    ensures r.Some? ==> |r.value| >= 1
    ensures r.None? <==>
      (Breakdown(record).JArray? && exists i :: 0 <= i < |Breakdown(record).items| && Nullish(Breakdown(record).items[i]))
    ensures r.Some? && Breakdown(record).JArray? && |Breakdown(record).items| > 0 ==>
      var items := Breakdown(record).items;
      |r.value| == |items| && forall i :: 0 <= i < |items| ==> !Nullish(items[i]) && r.value[i].reward == Reward(items[i])
    ensures !(Breakdown(record).JArray? && |Breakdown(record).items| > 0) ==>
      r == Some([MakeTask(ContextOf(record), Or(Column(record, "total_cost"), Zero))])
    ensures r.Some? ==> forall t :: t in r.value ==>
      var c := ContextOf(record);
      t.querierId == QuerierId && t.token == Token
      && t.prompt == c.prompt && t.lat == c.lat && t.lng == c.lng && t.timeout == c.timeout
  {
    var c := ContextOf(record);
    var breakdown := Breakdown(record);
    if breakdown.JArray? && |breakdown.items| > 0 then
      var items := breakdown.items;
      if AllReadable(items) then Some(seq(|items|, i requires 0 <= i < |items| => MakeTask(c, Reward(items[i]))))
      else None
    else Some([MakeTask(c, Or(Column(record, "total_cost"), Zero))])
  }

  /** A record without a breakdown and without a total cost gives one task paid 0. */
  lemma NoBreakdownNoCost(record: Record)
    requires Nullish(Column(record, "task_specifics")) && Nullish(Column(record, "total_cost"))
    ensures ExpectedTasks(record) == Some([MakeTask(ContextOf(record), Zero)])
  {
  }

  /**
   * The tasks array as written: one push per breakdown entry in a `for`
   * loop (None when an entry's subtotal cannot be read), or the single
   * fallback push.
   */
  method BuildTasks(record: Record) returns (tasks: Option<seq<Task>>)
    ensures tasks == ExpectedTasks(record)
  {
    var c := ContextOf(record);
    var breakdown := Breakdown(record);
    var built: seq<Task> := [];
    if breakdown.JArray? && |breakdown.items| > 0 {
      var items := breakdown.items;
      var i := 0;
      while i < |items|
        invariant 0 <= i <= |items|
        invariant AllReadable(items[..i])
        invariant |built| == i && forall j :: 0 <= j < i ==> built[j] == MakeTask(c, Reward(items[j]))
      {
        if Nullish(items[i]) {
          assert !AllReadable(items);
          return None;
        }
        built := built + [MakeTask(c, Reward(items[i]))];
        assert items[..i + 1] == items[..i] + [items[i]];
        i := i + 1;
      }
      assert items[..i] == items;
      assert AllReadable(items);
      assert built == ExpectedTasks(record).value;
      return Some(built);
    } else {
      built := built + [MakeTask(c, Or(Column(record, "total_cost"), Zero))];
      assert built == [MakeTask(c, Or(Column(record, "total_cost"), Zero))];
      return Some(built);
    }
  }

  // ---- the handler ----

  /** What `fetch` gives: a network failure, or a reply whose text and JSON bodies may fail to read. */
  datatype Upstream =
    | NetworkFailure(message: string)
    | Reply(status: int, text: Option<string>, json: Option<JsValue>)

  /** Why the handler fell into its catch-all. */
  datatype Cause = ReadOfNullishEntry | FetchFailed(message: string) | ReplyNotJson

  datatype Response =
    | Dispatched(tasks: seq<Task>, upstream: JsValue)
    | UnsupportedMediaType
    | InvalidPayload(issues: seq<Issue>)
    | NotFound(details: Option<string>)
    | MissingApiKey
    | ApiError(errorText: string, upstreamStatus: int)
    | InternalError(cause: Cause)

  function Status(r: Response): (code: int)
    ensures code == 200 <==> r.Dispatched?
    ensures r.UnsupportedMediaType? <==> code == 415
    ensures r.InvalidPayload? <==> code == 400
    ensures r.NotFound? <==> code == 404
    ensures r.MissingApiKey? || r.ApiError? || r.InternalError? <==> code == 500
  {
    match r
    case Dispatched(_, _) => 200
    case UnsupportedMediaType => 415
    case InvalidPayload(_) => 400
    case NotFound(_) => 404
    case MissingApiKey => 500
    case ApiError(_, _) => 500
    case InternalError(_) => 500
  }

  /** The machine-readable `error.code` of each failure. */
  function Code(r: Response): Option<string> {
    match r
    case Dispatched(_, _) => None
    case UnsupportedMediaType => Some("UNSUPPORTED_MEDIA_TYPE")
    case InvalidPayload(_) => Some("INVALID_PAYLOAD")
    case NotFound(_) => Some("NOT_FOUND")
    case MissingApiKey => Some("MISSING_API_KEY")
    case ApiError(_, _) => Some("IRL_AGENTS_API_ERROR")
    case InternalError(_) => Some("INTERNAL_ERROR")
  }

  /** Distinct failures carry distinct codes. */
  lemma CodesDistinct(a: Response, b: Response)
    requires !a.Dispatched? && !b.Dispatched?
    ensures Code(a) == Code(b) <==>
      (a.UnsupportedMediaType? == b.UnsupportedMediaType? && a.InvalidPayload? == b.InvalidPayload?
       && a.NotFound? == b.NotFound? && a.MissingApiKey? == b.MissingApiKey? && a.ApiError? == b.ApiError?)
  {
  }

  /**
   * `POST /api/irl-agents/tasks`. `lookupError` is the error the store
   * reports for the query; `sent` is the batch handed to `fetch`, None
   * when the handler stopped earlier.
   */
  method Post(contentType: Option<string>, body: Option<JsValue>, table: map<string, Record>,
              lookupError: Option<string>, apiKey: Option<string>, upstream: Upstream)
    returns (response: Response, sent: Option<seq<Task>>)
    ensures !Http.JsonContent(contentType) ==> response == UnsupportedMediaType && sent == None
    ensures Http.JsonContent(contentType) && ParseRequest(Http.BodyOrNull(body)).Rejected? ==>
      response == InvalidPayload(ParseRequest(Http.BodyOrNull(body)).issues) && sent == None
    ensures Http.JsonContent(contentType) && ParseRequest(Http.BodyOrNull(body)).Accepted? ==>
      var id := ParseRequest(Http.BodyOrNull(body)).taskId;
      && (lookupError.Some? || id !in table ==> response == NotFound(lookupError) && sent == None)
      && (lookupError.None? && id in table ==>
            var expected := ExpectedTasks(table[id]);
            && (expected.None? ==> response == InternalError(ReadOfNullishEntry) && sent == None)
            && (expected.Some? && Falsy(apiKey) ==> response == MissingApiKey && sent == None)
            && (expected.Some? && !Falsy(apiKey) ==>
                  sent == expected
                  && (upstream.NetworkFailure? ==> response == InternalError(FetchFailed(upstream.message)))
                  && (upstream.Reply? && !Http.Ok(upstream.status) ==>
                        response == ApiError(upstream.text.GetOr("Unknown error"), upstream.status))
                  && (upstream.Reply? && Http.Ok(upstream.status) && upstream.json.None? ==>
                        response == InternalError(ReplyNotJson))
                  && (upstream.Reply? && Http.Ok(upstream.status) && upstream.json.Some? ==>
                        response == Dispatched(expected.value, upstream.json.value))))
  {
    sent := None;
    if !Http.JsonContent(contentType) {
      return UnsupportedMediaType, sent;
    }
    var parsed := ParseRequest(Http.BodyOrNull(body));
    if parsed.Rejected? {
      return InvalidPayload(parsed.issues), sent;
    }
    var id := parsed.taskId;
    if lookupError.Some? || id !in table {
      return NotFound(lookupError), sent;
    }
    var tasks := BuildTasks(table[id]);
    if tasks.None? {
      return InternalError(ReadOfNullishEntry), sent;
    }
    if Falsy(apiKey) {
      return MissingApiKey, sent;
    }
    sent := tasks;
    match upstream
    case NetworkFailure(message) =>
      return InternalError(FetchFailed(message)), sent;
    case Reply(status, text, json) =>
      if !Http.Ok(status) {
        return ApiError(text.GetOr("Unknown error"), status), sent;
      }
      if json.None? {
        return InternalError(ReplyNotJson), sent;
      }
      return Dispatched(tasks.value, json.value), sent;
  }
}
