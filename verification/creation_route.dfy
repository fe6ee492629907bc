/**
 * The campaign-creation endpoint (`POST /api/crowdfunding`): the type
 * guards, the field-by-field payload validator, the stage sequence of the
 * handler (content type, validation, upsert, configuration, deployment,
 * address resolution, write-back) and the two-tier lookup of the deployed
 * contract's address.
 *
 * The data store is a map from task_id to row; the chain, the receipt's
 * logs, the factory's enumeration and the environment are inputs.
 */
module CreationRoute {
  import opened Js
  import Http

  // ---- type guards ----

  /** `typeof v === "object" && v !== null`: arrays are objects too. */
  predicate IsObject(v: JsValue) {
    v.JObject? || v.JArray?
  }

  predicate IsNonEmptyString(v: JsValue) {
    v.JString? && |v.s| > 0
  }

  /** `typeof v === "number" && !Number.isNaN(v)`: the infinities pass. */
  predicate IsNumber(v: JsValue) {
    v.JNumber? && v.n != NaN
  }

  predicate IsStringArray(v: JsValue) {
    v.JArray? && forall i :: 0 <= i < |v.items| ==> v.items[i].JString?
  }

  /** What each guard accepts and refuses, on the values that tell them apart. */
  lemma GuardFacts(s: string, x: real)
    ensures IsNumber(JNumber(Finite(x))) && IsNumber(JNumber(PosInf)) && IsNumber(JNumber(NegInf))
    ensures !IsNumber(JNumber(NaN)) && !IsNumber(JString("1"))
    ensures IsObject(JArray([])) && IsObject(JObject(map[])) && !IsObject(JNull)
    ensures IsNonEmptyString(JString(s)) <==> s != ""
    ensures IsStringArray(JArray([])) && !IsStringArray(JArray([JNull]))
  {
    assert !JArray([JNull]).items[0].JString?;
  }

  // ---- the ten fields and their checks ----

  /** The ten fields of a creation request, in the order the validator checks them. */
  datatype Key =
    | TaskId | UserId | CrowdfundingData | TaskSpecifics | TotalCost
    | Photos | LocationGps | CreatedAt | TargetAmount | ReceiverAddress

  const FieldOrder: seq<Key> := [
    TaskId, UserId, CrowdfundingData, TaskSpecifics, TotalCost,
    Photos, LocationGps, CreatedAt, TargetAmount, ReceiverAddress
  ]

  /** The property name of each field in the request body. */
  function Name(k: Key): string {
    match k
    case TaskId => "task_id"
    case UserId => "user_id"
    case CrowdfundingData => "crowdfunding_data"
    case TaskSpecifics => "task_specifics"
    case TotalCost => "total_cost"
    case Photos => "photos"
    case LocationGps => "location_gps"
    case CreatedAt => "created_at"
    case TargetAmount => "target_amount"
    case ReceiverAddress => "receiver_address"
  }

  datatype Guard = NonEmptyString | Number | Object | StringArray

  function GuardOf(k: Key): Guard {
    match k
    case TaskId => NonEmptyString
    case UserId => Number
    case CrowdfundingData => Object
    case TaskSpecifics => Object
    case TotalCost => Number
    case Photos => StringArray
    case LocationGps => Object
    case CreatedAt => NonEmptyString
    case TargetAmount => Number
    case ReceiverAddress => NonEmptyString
  }

  /** The message pushed when the field's guard fails. */
  function MessageOf(k: Key): string {
    match k
    case TaskId => "task_id is required"
    case UserId => "user_id is required"
    case CrowdfundingData => "crowdfunding_data must be an object"
    case TaskSpecifics => "task_specifics must be an object"
    case TotalCost => "total_cost is required"
    case Photos => "photos must be an array of strings"
    case LocationGps => "location_gps must be an object"
    case CreatedAt => "created_at is required"
    case TargetAmount => "target_amount is required"
    case ReceiverAddress => "receiver_address is required"
  }

  const NotObjectMessage := "Body must be a JSON object"

  predicate Passes(g: Guard, v: JsValue) {
    match g
    case NonEmptyString => IsNonEmptyString(v)
    case Number => IsNumber(v)
    case Object => IsObject(v)
    case StringArray => IsStringArray(v)
  }

  /**
   * `(input as Record<string, unknown>)[name]`: an object's field, otherwise
   * `undefined` (none of the names is an array index).
   */
  function Field(input: JsValue, k: Key): JsValue {
    if input.JObject? && Name(k) in input.fields then input.fields[Name(k)] else JUndefined
  }

  predicate CheckPasses(input: JsValue, k: Key) {
    Passes(GuardOf(k), Field(input, k))
  }

  // The list reasoning is done once, for any sequence and any check.

  /** The elements of xs that fail ok, in the order of xs. */
  function Failing<T>(xs: seq<T>, ok: T -> bool): seq<T> {
    if xs == [] then []
    else (if ok(xs[0]) then [] else [xs[0]]) + Failing(xs[1..], ok)
  }

  predicate NoDuplicates<T(==)>(xs: seq<T>) {
    forall i, j :: 0 <= i < j < |xs| ==> xs[i] != xs[j]
  }

  lemma {:induction false} FailingBound<T>(xs: seq<T>, ok: T -> bool)
    ensures |Failing(xs, ok)| <= |xs|
  {
    if xs != [] {
      FailingBound(xs[1..], ok);
    }
  }

  /** Nothing fails exactly when every element passes. */
  lemma {:induction false} FailingEmpty<T>(xs: seq<T>, ok: T -> bool)
    ensures Failing(xs, ok) == [] <==> forall i :: 0 <= i < |xs| ==> ok(xs[i])
  {
    if xs != [] {
      FailingEmpty(xs[1..], ok);
      if ok(xs[0]) && forall i :: 0 <= i < |xs| - 1 ==> ok(xs[1..][i]) {
        forall i | 0 <= i < |xs| ensures ok(xs[i]) {
          if i > 0 { assert xs[i] == xs[1..][i - 1]; }
        }
      }
    }
  }

  /**
   * Without repeated elements, an element is reported exactly once when it
   * fails and never otherwise.
   */
  lemma {:induction false} FailingOccurrences<T>(xs: seq<T>, ok: T -> bool, x: T)
    requires NoDuplicates(xs)
    ensures multiset(Failing(xs, ok))[x] == if x in xs && !ok(x) then 1 else 0
  {
    if xs != [] {
      var rest := xs[1..];
      assert NoDuplicates(rest) by {
        forall a, b | 0 <= a < b < |rest| ensures rest[a] != rest[b] {
          assert rest[a] == xs[a + 1] && rest[b] == xs[b + 1];
        }
      }
      FailingOccurrences(rest, ok, x);
      assert xs == [xs[0]] + rest;
      assert xs[0] !in rest by {
        forall j | 0 <= j < |rest| ensures rest[j] != xs[0] {
          assert rest[j] == xs[j + 1];
        }
      }
    }
  }

  /** Only elements of xs that fail are reported. */
  lemma {:induction false} FailingAreFailures<T>(xs: seq<T>, ok: T -> bool)
    ensures forall x :: x in Failing(xs, ok) ==> x in xs && !ok(x)
  {
    if xs != [] {
      FailingAreFailures(xs[1..], ok);
    }
  }

  /** When every element fails, all of xs is reported, in order. */
  lemma {:induction false} AllFailing<T>(xs: seq<T>, ok: T -> bool)
    requires forall i :: 0 <= i < |xs| ==> !ok(xs[i])
    ensures Failing(xs, ok) == xs
  {
    if xs != [] {
      forall i | 0 <= i < |xs[1..]| ensures !ok(xs[1..][i]) {
        assert xs[1..][i] == xs[i + 1];
      }
      AllFailing(xs[1..], ok);
    }
  }

  /** Checking one more element appends its failure, if any, at the end. */
  lemma {:induction false} FailingSnoc<T>(xs: seq<T>, x: T, ok: T -> bool)
    ensures Failing(xs + [x], ok) == Failing(xs, ok) + (if ok(x) then [] else [x])
  {
    if xs == [] {
      assert xs + [x] == [x];
      assert [x][1..] == [];
    } else {
      assert (xs + [x])[1..] == xs[1..] + [x];
      FailingSnoc(xs[1..], x, ok);
    }
  }

  /** The field checks of one request body, as a predicate on fields. */
  function Checks(input: JsValue): Key -> bool {
    k => CheckPasses(input, k)
  }

  /** The fields of an input whose check fails, in field order. */
  function FailedKeys(input: JsValue): seq<Key> {
    Failing(FieldOrder, Checks(input))
  }

  function Messages(ks: seq<Key>): (r: seq<string>)
    ensures |r| == |ks| && forall i :: 0 <= i < |ks| ==> r[i] == MessageOf(ks[i])
  {
    seq(|ks|, i requires 0 <= i < |ks| => MessageOf(ks[i]))
  }

  // ---- the payload ----

  /** The ten fields of a creation request, as the validator returns them. */
  datatype Payload = Payload(
    taskId: string,
    userId: Number,
    crowdfundingData: JsValue,
    taskSpecifics: JsValue,
    totalCost: Number,
    photos: seq<string>,
    locationGps: JsValue,
    createdAt: string,
    targetAmount: Number,
    receiverAddress: string)

  datatype Validation = Valid(data: Payload) | Invalid(errors: seq<string>)

  function Strings(items: seq<JsValue>): (r: seq<string>)
    requires forall i :: 0 <= i < |items| ==> items[i].JString?
    ensures |r| == |items| && forall i :: 0 <= i < |items| ==> items[i] == JString(r[i])
  {
    seq(|items|, i requires 0 <= i < |items| => items[i].s)
  }

  function StringValues(ss: seq<string>): (r: seq<JsValue>)
    ensures |r| == |ss| && forall i :: 0 <= i < |ss| ==> r[i] == JString(ss[i])
  {
    seq(|ss|, i requires 0 <= i < |ss| => JString(ss[i]))
  }

  /** The value a payload holds for field k, as a JavaScript value. */
  function PayloadValue(p: Payload, k: Key): JsValue {
    match k
    case TaskId => JString(p.taskId)
    case UserId => JNumber(p.userId)
    case CrowdfundingData => p.crowdfundingData
    case TaskSpecifics => p.taskSpecifics
    case TotalCost => JNumber(p.totalCost)
    case Photos => JArray(StringValues(p.photos))
    case LocationGps => p.locationGps
    case CreatedAt => JString(p.createdAt)
    case TargetAmount => JNumber(p.targetAmount)
    case ReceiverAddress => JString(p.receiverAddress)
  }

  /** The position of each field in the validation order. */
  function KeyIndex(k: Key): (i: nat)
    ensures i < |FieldOrder| && FieldOrder[i] == k
  {
    match k
    case TaskId => 0 case UserId => 1 case CrowdfundingData => 2 case TaskSpecifics => 3
    case TotalCost => 4 case Photos => 5 case LocationGps => 6 case CreatedAt => 7
    case TargetAmount => 8 case ReceiverAddress => 9
  }

  lemma FieldOrderDistinct()
    ensures NoDuplicates(FieldOrder)
  {
    forall i | 0 <= i < |FieldOrder| ensures KeyIndex(FieldOrder[i]) == i {
    }
  }

  lemma NoFailedKeys(input: JsValue)
    ensures FailedKeys(input) == [] <==> forall k: Key :: CheckPasses(input, k)
  {
    var ok := Checks(input);
    FailingEmpty(FieldOrder, ok);
    if FailedKeys(input) == [] {
      forall k: Key ensures CheckPasses(input, k) {
        assert ok(FieldOrder[KeyIndex(k)]);
      }
    }
  }

  function Extract(input: JsValue): (p: Payload)
    requires forall k: Key :: CheckPasses(input, k)
    ensures forall k: Key :: PayloadValue(p, k) == Field(input, k)
  {
    assert CheckPasses(input, TaskId) && CheckPasses(input, UserId) && CheckPasses(input, TotalCost)
      && CheckPasses(input, Photos) && CheckPasses(input, CreatedAt) && CheckPasses(input, TargetAmount)
      && CheckPasses(input, ReceiverAddress);
    var p := Payload(
      Field(input, TaskId).s,
      Field(input, UserId).n,
      Field(input, CrowdfundingData),
      Field(input, TaskSpecifics),
      Field(input, TotalCost).n,
      Strings(Field(input, Photos).items),
      Field(input, LocationGps),
      Field(input, CreatedAt).s,
      Field(input, TargetAmount).n,
      Field(input, ReceiverAddress).s);
    assert StringValues(p.photos) == Field(input, Photos).items;
    p
  }

  /**
   * What `validatePayload` computes: the one "not an object" message, or
   * the messages of the failing fields in field order, or the ten fields.
   */
  function Validate(input: JsValue): (r: Validation)
    ensures !IsObject(input) ==> r == Invalid([NotObjectMessage])
    ensures IsObject(input) ==> (r.Valid? <==> forall k: Key :: CheckPasses(input, k))
    ensures IsObject(input) && r.Invalid? ==> r.errors == Messages(FailedKeys(input))
    ensures r.Invalid? ==> 1 <= |r.errors| <= |FieldOrder|
    ensures r.Valid? ==> forall k: Key :: PayloadValue(r.data, k) == Field(input, k)
  {
    if !IsObject(input) then Invalid([NotObjectMessage])
    else
      var failed := FailedKeys(input);
      NoFailedKeys(input);
      FailingBound(FieldOrder, Checks(input));
      if failed != [] then Invalid(Messages(failed))
      else Valid(Extract(input))
  }

  /** Each field is reported once when its check fails and never when it passes. */
  lemma FieldReportedOnce(input: JsValue, k: Key)
    ensures multiset(FailedKeys(input))[k] == (if CheckPasses(input, k) then 0 else 1)
  {
    FieldOrderDistinct();
    FailingOccurrences(FieldOrder, Checks(input), k);
    assert FieldOrder[KeyIndex(k)] == k;
  }

  /** Only fields whose check fails are reported. */
  lemma OnlyFailuresReported(input: JsValue)
    ensures forall f :: f in FailedKeys(input) ==> !CheckPasses(input, f)
  {
    FailingAreFailures(FieldOrder, Checks(input));
  }

  /** An array body passes the object guard, but none of its fields exist: all ten messages. */
  lemma ArrayBodyFailsEveryCheck(items: seq<JsValue>)
    ensures Validate(JArray(items)) == Invalid(Messages(FieldOrder))
  {
    forall i | 0 <= i < |FieldOrder| ensures !Checks(JArray(items))(FieldOrder[i]) {
      assert Field(JArray(items), FieldOrder[i]) == JUndefined;
    }
    AllFailing(FieldOrder, Checks(JArray(items)));
  }

  predicate WellFormed(p: Payload) {
    p.taskId != "" && p.userId != NaN && IsObject(p.crowdfundingData) && IsObject(p.taskSpecifics)
    && p.totalCost != NaN && IsObject(p.locationGps) && p.createdAt != "" && p.targetAmount != NaN
    && p.receiverAddress != ""
  }

  /** The object a payload stands for: its ten fields under their names, nothing else. */
  function Encode(p: Payload): (r: JsValue)
    ensures r.JObject?
    ensures forall k: Key :: Field(r, k) == PayloadValue(p, k)
  {
    var r := JObject(map[
      "task_id" := PayloadValue(p, TaskId),
      "user_id" := PayloadValue(p, UserId),
      "crowdfunding_data" := PayloadValue(p, CrowdfundingData),
      "task_specifics" := PayloadValue(p, TaskSpecifics),
      "total_cost" := PayloadValue(p, TotalCost),
      "photos" := PayloadValue(p, Photos),
      "location_gps" := PayloadValue(p, LocationGps),
      "created_at" := PayloadValue(p, CreatedAt),
      "target_amount" := PayloadValue(p, TargetAmount),
      "receiver_address" := PayloadValue(p, ReceiverAddress)
    ]);
    r
  }

  /** A payload is determined by the values it holds for the ten fields. */
  lemma PayloadValueInjective(p: Payload, q: Payload)
    requires forall k: Key :: PayloadValue(p, k) == PayloadValue(q, k)
    ensures p == q
  {
    assert StringValues(q.photos) == StringValues(p.photos) by {
      assert PayloadValue(q, Photos) == PayloadValue(p, Photos);
    }
    assert q.photos == p.photos by {
      forall i | 0 <= i < |p.photos| ensures q.photos[i] == p.photos[i] {
        assert StringValues(q.photos)[i] == StringValues(p.photos)[i];
      }
    }
    assert PayloadValue(q, TaskId) == PayloadValue(p, TaskId);
    assert PayloadValue(q, CreatedAt) == PayloadValue(p, CreatedAt);
    assert PayloadValue(q, ReceiverAddress) == PayloadValue(p, ReceiverAddress);
    assert PayloadValue(q, UserId) == PayloadValue(p, UserId);
    assert PayloadValue(q, TotalCost) == PayloadValue(p, TotalCost);
    assert PayloadValue(q, TargetAmount) == PayloadValue(p, TargetAmount);
    assert PayloadValue(q, CrowdfundingData) == PayloadValue(p, CrowdfundingData);
    assert PayloadValue(q, TaskSpecifics) == PayloadValue(p, TaskSpecifics);
    assert PayloadValue(q, LocationGps) == PayloadValue(p, LocationGps);
  }

  /** An object whose ten fields hold a well-formed payload's values validates to that payload. */
  lemma ValidatesTo(input: JsValue, p: Payload)
    requires IsObject(input) && WellFormed(p)
    requires forall k: Key :: Field(input, k) == PayloadValue(p, k)
    ensures Validate(input) == Valid(p)
  {
    forall k: Key ensures CheckPasses(input, k) {
      assert Field(input, k) == PayloadValue(p, k);
    }
    PayloadValueInjective(Validate(input).data, p);
  }

  /**
   * Round trip: the object a well-formed payload stands for validates to
   * that payload. The receiver address is only required to be non-empty.
   */
  lemma EncodeThenValidate(p: Payload)
    requires WellFormed(p)
    ensures Validate(Encode(p)) == Valid(p)
  {
    ValidatesTo(Encode(p), p);
  }

  /** The route accepts the encoding of a payload exactly when the payload is well formed. */
  lemma EncodeValidIff(p: Payload)
    ensures Validate(Encode(p)).Valid? <==> WellFormed(p)
    ensures Validate(Encode(p)).Valid? ==> Validate(Encode(p)) == Valid(p)
  {
    if WellFormed(p) {
      EncodeThenValidate(p);
    } else {
      var k: Key :| !Passes(GuardOf(k), PayloadValue(p, k));
      assert !CheckPasses(Encode(p), k);
    }
  }

  /** A field whose check fails is named among the errors. */
  lemma FailedFieldReported(input: JsValue, k: Key)
    requires IsObject(input) && !CheckPasses(input, k)
    ensures Validate(input).Invalid? && MessageOf(k) in Validate(input).errors
  {
    FailedKeyListed(input, k);
    var failed := FailedKeys(input);
    var i :| 0 <= i < |failed| && failed[i] == k;
    var errors := Validate(input).errors;
    assert errors == Messages(failed);
    assert errors[i] == MessageOf(k);
  }

  /** A payload with a blank receiver address is refused, and that field is named among the errors. */
  lemma BlankReceiverReported(p: Payload)
    requires p.receiverAddress == ""
    ensures var r := Validate(Encode(p));
      r.Invalid? && MessageOf(ReceiverAddress) in r.errors
  {
    var input := Encode(p);
    assert Field(input, ReceiverAddress) == JString("");
    FailedFieldReported(input, ReceiverAddress);
  }

  lemma FailedKeyListed(input: JsValue, k: Key)
    requires !CheckPasses(input, k)
    ensures k in FailedKeys(input)
  {
    FieldReportedOnce(input, k);
    assert multiset(FailedKeys(input))[k] == 1;
  }

  function CheckMessage(input: JsValue, k: Key): seq<string> {
    if CheckPasses(input, k) then [] else [MessageOf(k)]
  }

  lemma MessagesAppend(a: seq<Key>, b: seq<Key>)
    ensures Messages(a + b) == Messages(a) + Messages(b)
  {
  }

  /** The failing fields among the first n in field order. */
  function FailedPrefix(input: JsValue, n: nat): seq<Key>
    requires n <= |FieldOrder|
  {
    Failing(FieldOrder[..n], Checks(input))
  }

  /** The i-th field in validation order. */
  function KeyAt(i: nat): (k: Key)
    requires i < |FieldOrder|
    ensures k == FieldOrder[i]
  {
    if i == 0 then TaskId else if i == 1 then UserId else if i == 2 then CrowdfundingData
    else if i == 3 then TaskSpecifics else if i == 4 then TotalCost else if i == 5 then Photos
    else if i == 6 then LocationGps else if i == 7 then CreatedAt else if i == 8 then TargetAmount
    else ReceiverAddress
  }

  /** The errors array after the first n checks have run. */
  function ErrorsAfter(input: JsValue, n: nat): seq<string>
    requires n <= |FieldOrder|
  {
    if n == 0 then [] else ErrorsAfter(input, n - 1) + CheckMessage(input, KeyAt(n - 1))
  }

  /** Checking one more field appends its message, if it fails. */
  lemma MessagesSnoc(xs: seq<Key>, x: Key, ok: Key -> bool)
    ensures Messages(Failing(xs + [x], ok)) == Messages(Failing(xs, ok)) + (if ok(x) then [] else [MessageOf(x)])
  {
    FailingSnoc(xs, x, ok);
    MessagesAppend(Failing(xs, ok), if ok(x) then [] else [x]);
  }

  /** After n checks, the array holds the messages of the failing fields among the first n. */
  lemma {:induction false} ErrorsAfterFailedPrefix(input: JsValue, n: nat)
    requires n <= |FieldOrder|
    ensures ErrorsAfter(input, n) == Messages(FailedPrefix(input, n))
  {
    if n > 0 {
      ErrorsAfterFailedPrefix(input, n - 1);
      assert FieldOrder[..n] == FieldOrder[..n - 1] + [KeyAt(n - 1)];
      MessagesSnoc(FieldOrder[..n - 1], KeyAt(n - 1), Checks(input));
    }
  }

  /** Once all ten checks have run, the array decides the outcome of Validate. */
  lemma AllChecksRun(input: JsValue)
    requires IsObject(input)
    ensures |ErrorsAfter(input, |FieldOrder|)| > 0 ==> Validate(input) == Invalid(ErrorsAfter(input, |FieldOrder|))
    ensures |ErrorsAfter(input, |FieldOrder|)| == 0 ==> forall k: Key :: CheckPasses(input, k)
    ensures |ErrorsAfter(input, |FieldOrder|)| == 0 ==> Validate(input).Valid?
  {
    ErrorsAfterFailedPrefix(input, |FieldOrder|);
    assert FieldOrder[..|FieldOrder|] == FieldOrder;
    NoFailedKeys(input);
  }

  /** `if (!guard(value)) errors.push(message)` for one field. */
  method CheckField(input: JsValue, k: Key, errors: seq<string>) returns (r: seq<string>)
    ensures r == errors + CheckMessage(input, k)
  {
    r := errors;
    if !Passes(GuardOf(k), Field(input, k)) {
      r := r + [MessageOf(k)];
    }
  }

  /**
   * `validatePayload`, as written: the errors array is built by one push
   * per failing field, in field order.
   */
  method ValidatePayload(input: JsValue) returns (r: Validation)
    ensures r == Validate(input)
  {
    if !IsObject(input) {
      return Invalid([NotObjectMessage]);
    }
    var errors: seq<string> := [];
    errors := CheckField(input, TaskId, errors);
    assert errors == ErrorsAfter(input, 1);
    errors := CheckField(input, UserId, errors);
    assert errors == ErrorsAfter(input, 2);
    errors := CheckField(input, CrowdfundingData, errors);
    assert errors == ErrorsAfter(input, 3);
    errors := CheckField(input, TaskSpecifics, errors);
    assert errors == ErrorsAfter(input, 4);
    errors := CheckField(input, TotalCost, errors);
    assert errors == ErrorsAfter(input, 5);
    errors := CheckField(input, Photos, errors);
    assert errors == ErrorsAfter(input, 6);
    errors := CheckField(input, LocationGps, errors);
    assert errors == ErrorsAfter(input, 7);
    errors := CheckField(input, CreatedAt, errors);
    assert errors == ErrorsAfter(input, 8);
    errors := CheckField(input, TargetAmount, errors);
    assert errors == ErrorsAfter(input, 9);
    errors := CheckField(input, ReceiverAddress, errors);
    assert errors == ErrorsAfter(input, 10);
    AllChecksRun(input);
    if |errors| > 0 {
      return Invalid(errors);
    }
    return Valid(Extract(input));
  }

  // ---- the stored submission ----

  /** A row of `crowdfunding_submissions`: the request's fields and the two deployment columns. */
  datatype Row = Row(payload: Payload, deployTxHash: Option<string>, contractAddress: Option<string>)

  /** The table, keyed by task_id. */
  type Table = map<string, Row>

  /**
   * `upsert([data], { onConflict: "task_id" })`: the ten fields replace those
   * of the row with the same task_id, or a new row is inserted without
   * deployment columns.
   */
  function Upsert(db: Table, p: Payload): (db': Table)
    ensures p.taskId in db' && db'[p.taskId].payload == p
    ensures p.taskId !in db ==> db'[p.taskId] == Row(p, None, None)
    ensures p.taskId in db ==>
      db'[p.taskId].deployTxHash == db[p.taskId].deployTxHash && db'[p.taskId].contractAddress == db[p.taskId].contractAddress
    ensures forall id :: id != p.taskId ==> (id in db' <==> id in db) && (id in db ==> db'[id] == db[id])
  {
    if p.taskId in db then db[p.taskId := db[p.taskId].(payload := p)]
    else db[p.taskId := Row(p, None, None)]
  }

  /** Upserting the same payload twice is the same as upserting it once. */
  lemma UpsertIdempotent(db: Table, p: Payload)
    ensures Upsert(Upsert(db, p), p) == Upsert(db, p)
  {
    var once := Upsert(db, p);
    assert once[p.taskId].(payload := p) == once[p.taskId];
  }

  /**
   * `update({ deploy_tx_hash, contract_address }).eq("task_id", id)`: the
   * two columns of the matching row change; no row is added.
   */
  function Update(db: Table, id: string, txHash: string, address: Option<string>): (db': Table)
    ensures db'.Keys == db.Keys
    ensures id in db ==> db'[id] == db[id].(deployTxHash := Some(txHash), contractAddress := address)
    ensures forall other :: other in db && other != id ==> db'[other] == db[other]
  {
    if id in db then db[id := db[id].(deployTxHash := Some(txHash), contractAddress := address)] else db
  }

  /** After the upsert and the write-back, the request's row holds its fields, the hash and the address. */
  lemma UpsertThenUpdate(db: Table, p: Payload, txHash: string, address: Option<string>)
    ensures Update(Upsert(db, p), p.taskId, txHash, address)[p.taskId] == Row(p, Some(txHash), address)
  {
  }

  // ---- resolving the deployed address ----

  /** A receipt log: one that `parseLog` rejects or returns null for, or a decoded event with its first argument. */
  datatype Log = Undecodable | Decoded(name: string, firstArg: string)

  const CreatedEvent := "CrowdfundCreated"

  predicate IsCreated(log: Log) {
    log.Decoded? && log.name == CreatedEvent
  }

  /** The first argument of the first `CrowdfundCreated` log, if any. */
  function FirstCreated(logs: seq<Log>): (r: Option<string>)
    ensures r.Some? ==> exists log :: log in logs && IsCreated(log) && r.value == log.firstArg
  {
    if logs == [] then None
    else if IsCreated(logs[0]) then Some(logs[0].firstArg)
    else FirstCreated(logs[1..])
  }

  /** FirstCreated finds an address exactly when some log is a creation event, and then the first one's. */
  lemma {:induction false} FirstCreatedIsFirst(logs: seq<Log>)
    ensures FirstCreated(logs).None? <==> forall i :: 0 <= i < |logs| ==> !IsCreated(logs[i])
    ensures FirstCreated(logs).Some? ==>
      exists i :: 0 <= i < |logs| && IsCreated(logs[i]) && FirstCreated(logs).value == logs[i].firstArg
                  && forall j :: 0 <= j < i ==> !IsCreated(logs[j])
  {
    if logs != [] && !IsCreated(logs[0]) {
      var rest := logs[1..];
      FirstCreatedIsFirst(rest);
      if FirstCreated(rest).Some? {
        var i :| 0 <= i < |rest| && IsCreated(rest[i]) && FirstCreated(rest).value == rest[i].firstArg
                 && forall j :: 0 <= j < i ==> !IsCreated(rest[j]);
        assert logs[i + 1] == rest[i];
        forall j | 0 <= j < i + 1 ensures !IsCreated(logs[j]) {
          if j > 0 { assert logs[j] == rest[j - 1]; }
        }
      } else {
        forall i | 0 <= i < |logs| ensures !IsCreated(logs[i]) {
          if i > 0 { assert logs[i] == rest[i - 1]; }
        }
      }
    }
  }

  /**
   * The log scan as written: walk the logs, skip those that do not decode,
   * stop at the first `CrowdfundCreated`.
   */
  method ScanLogs(logs: seq<Log>) returns (address: Option<string>)
    ensures address == FirstCreated(logs)
  {
    address := None;
    var i := 0;
    while i < |logs|
      invariant 0 <= i <= |logs|
      invariant address == None
      invariant FirstCreated(logs) == FirstCreated(logs[i..])
    {
      assert logs[i..][1..] == logs[i + 1..];
      if IsCreated(logs[i]) {
        address := Some(logs[i].firstArg);
        break;
      }
      i := i + 1;
    }
    if i == |logs| {
      assert logs[i..] == [];
    }
  }

  /** What `factory.getCrowdfunds` gives: no such method, a call that throws, or the list. */
  datatype Enumeration = NoGetter | GetterThrows | Listed(all: seq<string>)

  /**
   * The fallback: when the scan found nothing usable, the last created
   * campaign of the factory, or null when the list is empty or its last
   * entry is the empty string; a throwing or absent getter leaves the
   * address as it was.
   */
  function Resolve(scanned: Option<string>, enumeration: Enumeration): (r: Option<string>)
    ensures !Falsy(scanned) ==> r == scanned
    ensures Falsy(scanned) && enumeration.Listed? ==>
      r == (if enumeration.all != [] && enumeration.all[|enumeration.all| - 1] != ""
            then Some(enumeration.all[|enumeration.all| - 1]) else None)
    ensures !enumeration.Listed? ==> r == scanned
    ensures r.Some? ==> r == scanned || (enumeration.Listed? && r.value in enumeration.all)
  {
    if Falsy(scanned) && enumeration.Listed? then
      var all := enumeration.all;
      if all != [] && all[|all| - 1] != "" then Some(all[|all| - 1]) else None
    else scanned
  }

  /** The fallback never replaces an address the scan found. */
  lemma ResolvePrefersEvent(logs: seq<Log>, enumeration: Enumeration, a: string)
    requires FirstCreated(logs) == Some(a) && a != ""
    ensures Resolve(FirstCreated(logs), enumeration) == Some(a)
  {
  }

  // ---- the handler ----

  /** `process.env` as the handler reads it. */
  datatype Env = Env(privateKey: Option<string>, factoryAddress: Option<string>, rpcUrl: Option<string>)

  predicate Configured(env: Env): (r: bool)
    ensures r <==> && env.privateKey.Some? && env.privateKey.value != ""
                   && env.factoryAddress.Some? && env.factoryAddress.value != ""
                   && env.rpcUrl.Some? && env.rpcUrl.value != ""
  {
    !Falsy(env.privateKey) && !Falsy(env.factoryAddress) && !Falsy(env.rpcUrl)
  }

  /**
   * How the deployment goes: an exception before anything reaches the chain
   * (the wallet rejects the private key, or `parseUnits` rejects the target
   * amount), an exception from `createCrowdfund(...)` or `tx.wait()` once the
   * request was made, or the mined hash and the receipt's logs (None when the
   * receipt is null).
   */
  datatype Deployment =
    | NotSent(message: string)
    | Reverted(message: string)
    | Mined(txHash: string, receiptLogs: Option<seq<Log>>)

  /** The arguments of `createCrowdfund`: the receiver and the target amount before `parseUnits`. */
  datatype DeployRequest = DeployRequest(receiver: string, target: Number)

  datatype Response =
    | Created(txHash: string, contractAddress: Option<string>)
    | UnsupportedMediaType
    | InvalidPayload(errors: seq<string>)
    | DatabaseError(message: string)
    | MissingConfig
    | UnexpectedError(reason: string)

  function Status(r: Response): (code: int)
    ensures code == 200 <==> r.Created?
    ensures r.InvalidPayload? <==> code == 400
    ensures r.UnsupportedMediaType? <==> code == 415
    ensures r.DatabaseError? || r.MissingConfig? || r.UnexpectedError? <==> code == 500
  {
    match r
    case Created(_, _) => 200
    case UnsupportedMediaType => 415
    case InvalidPayload(_) => 400
    case DatabaseError(_) => 500
    case MissingConfig => 500
    case UnexpectedError(_) => 500
  }

  /** The `error` field of the response body. */
  function ErrorText(r: Response): Option<string> {
    match r
    case Created(_, _) => None
    case UnsupportedMediaType => Some("Content-Type must be application/json")
    case InvalidPayload(_) => Some("Invalid payload")
    case DatabaseError(_) => Some("Database error")
    case MissingConfig => Some("Private key not found")
    case UnexpectedError(_) => Some("Unexpected error")
  }

  /**
   * The JSON body sent with each response: `ok`, `txHash` and
   * `contractAddress` (null when none was found) on success, otherwise
   * `error` and, where the code adds one, `details`.
   */
  function Body(r: Response): (v: JsValue)
    ensures v.JObject?
    ensures ("error" in v.fields) <==> !r.Created?
    ensures ErrorText(r).Some? ==> "error" in v.fields && v.fields["error"] == JString(ErrorText(r).value)
    ensures r.Created? ==> "ok" in v.fields && v.fields["ok"] == JBool(true)
    ensures r.Created? ==> "txHash" in v.fields && v.fields["txHash"] == JString(r.txHash)
    ensures r.Created? ==>
      ("contractAddress" in v.fields
       && v.fields["contractAddress"] == (if r.contractAddress.Some? then JString(r.contractAddress.value) else JNull))
    ensures r.InvalidPayload? ==> "details" in v.fields && v.fields["details"] == JArray(StringValues(r.errors))
    ensures r.DatabaseError? ==> "details" in v.fields && v.fields["details"] == JString(r.message)
    ensures r.UnexpectedError? ==> "details" in v.fields && v.fields["details"] == JString(r.reason)
    ensures r.UnsupportedMediaType? || r.MissingConfig? ==> "details" !in v.fields
  {
    match r
    case Created(txHash, address) =>
      JObject(map["ok" := JBool(true), "txHash" := JString(txHash),
                  "contractAddress" := match address { case Some(a) => JString(a) case None => JNull }])
    case UnsupportedMediaType => JObject(map["error" := JString(ErrorText(r).value)])
    case InvalidPayload(errors) =>
      JObject(map["error" := JString(ErrorText(r).value), "details" := JArray(StringValues(errors))])
    case DatabaseError(message) =>
      JObject(map["error" := JString(ErrorText(r).value), "details" := JString(message)])
    case MissingConfig => JObject(map["error" := JString(ErrorText(r).value)])
    case UnexpectedError(reason) =>
      JObject(map["error" := JString(ErrorText(r).value), "details" := JString(reason)])
  }

  /**
   * `POST /api/crowdfunding`. A body that is not valid JSON arrives as None
   * and is read as null. The table, the upsert's error, the environment,
   * the deployment, the factory's enumeration and whether the write-back
   * succeeds are inputs; the new table and the deployment request (None
   * when nothing was sent to the chain) are outputs.
   */
  method Post(contentType: Option<string>, body: Option<JsValue>, db: Table, upsertError: Option<string>,
              env: Env, deployment: Deployment, enumeration: Enumeration, updateSucceeds: bool)
    returns (response: Response, db': Table, request: Option<DeployRequest>)
    ensures !Http.JsonContent(contentType) ==> response == UnsupportedMediaType && db' == db && request == None
    ensures Http.JsonContent(contentType) && Validate(Http.BodyOrNull(body)).Invalid? ==>
      response == InvalidPayload(Validate(Http.BodyOrNull(body)).errors) && db' == db && request == None
    ensures Http.JsonContent(contentType) && Validate(Http.BodyOrNull(body)).Valid? ==>
      var p := Validate(Http.BodyOrNull(body)).data;
      && (upsertError.Some? ==> response == DatabaseError(upsertError.value) && db' == db && request == None)
      && (upsertError.None? && !Configured(env) ==> response == MissingConfig && db' == Upsert(db, p) && request == None)
      && (upsertError.None? && Configured(env) && deployment.NotSent? ==>
            response == UnexpectedError(deployment.message) && db' == Upsert(db, p) && request == None)
      && (upsertError.None? && Configured(env) && !deployment.NotSent? ==>
            request == Some(DeployRequest(p.receiverAddress, p.targetAmount)))
      && (upsertError.None? && Configured(env) && deployment.Reverted? ==>
            response == UnexpectedError(deployment.message) && db' == Upsert(db, p))
      && (upsertError.None? && Configured(env) && deployment.Mined? ==>
            var address := Resolve(FirstCreated(deployment.receiptLogs.GetOr([])), enumeration);
            response == Created(deployment.txHash, address)
            && db' == (if updateSucceeds then Update(Upsert(db, p), p.taskId, deployment.txHash, address)
                       else Upsert(db, p)))
  {
    db' := db;
    request := None;
    if !Http.JsonContent(contentType) {
      return UnsupportedMediaType, db', request;
    }
    var input := Http.BodyOrNull(body);
    var result := ValidatePayload(input);
    if result.Invalid? {
      return InvalidPayload(result.errors), db', request;
    }
    var p := result.data;
    if upsertError.Some? {
      return DatabaseError(upsertError.value), db', request;
    }
    db' := Upsert(db, p);
    if Falsy(env.privateKey) || Falsy(env.factoryAddress) || Falsy(env.rpcUrl) {
      return MissingConfig, db', request;
    }
    if deployment.NotSent? {
      return UnexpectedError(deployment.message), db', request;
    }
    request := Some(DeployRequest(p.receiverAddress, p.targetAmount));
    if deployment.Reverted? {
      return UnexpectedError(deployment.message), db', request;
    }
    var address := ScanLogs(deployment.receiptLogs.GetOr([]));
    address := Resolve(address, enumeration);
    if updateSucceeds {
      db' := Update(db', p.taskId, deployment.txHash, address);
    }
    return Created(deployment.txHash, address), db', request;
  }
}
