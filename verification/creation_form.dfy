/**
 * The "New Crowdfunding" page: the editable list of photo URLs, the rules
 * that turn the form's text fields into the creation request (waste types
 * split on commas, costs defaulting to zero, empty coordinates sent as
 * null) and the submit handler with the message it leaves on the page.
 *
 * `Number(text)` is a function parameter; the task id (`uuidv4()`) and the
 * creation time (`new Date().toISOString()`) are parameters; the reply of
 * `fetch` is an input.
 */
module CreationForm {
  import opened Js
  import Text
  import Http
  import CreationRoute

  // ---- dropping empty strings ----

  /** `xs.filter(Boolean)` on strings: the non-empty ones, in order. */
  function DropEmpty(xs: seq<string>): (r: seq<string>)
    ensures |r| <= |xs|
    ensures "" !in r
  {
    if xs == [] then []
    else if xs[0] == "" then DropEmpty(xs[1..])
    else [xs[0]] + DropEmpty(xs[1..])
  }

  /** Filtering distributes over concatenation, so what is kept stays in the order of xs. */
  lemma {:induction false} DropEmptyAppend(xs: seq<string>, ys: seq<string>)
    ensures DropEmpty(xs + ys) == DropEmpty(xs) + DropEmpty(ys)
    decreases |xs|
  {
    if xs != [] {
      assert (xs + ys)[1..] == xs[1..] + ys;
      DropEmptyAppend(xs[1..], ys);
    } else {
      assert xs + ys == ys;
    }
  }

  /** Every non-empty string is kept as often as it occurs. */
  lemma {:induction false} DropEmptyCount(xs: seq<string>, x: string)
    requires x != ""
    ensures multiset(DropEmpty(xs))[x] == multiset(xs)[x]
    decreases |xs|
  {
    if xs != [] {
      DropEmptyCount(xs[1..], x);
      assert xs == [xs[0]] + xs[1..];
    }
  }

  lemma DropEmptyMember(xs: seq<string>, x: string)
    ensures x in DropEmpty(xs) <==> x in xs && x != ""
  {
    if x != "" {
      DropEmptyCount(xs, x);
      assert x in DropEmpty(xs) <==> multiset(DropEmpty(xs))[x] > 0;
      assert x in xs <==> multiset(xs)[x] > 0;
    }
  }

  // ---- the photo list ----

  datatype PhotoEntry = PhotoEntry(url: string)

  /** `photoUrls.map((p) => p.url)`. */
  function Urls(photos: seq<PhotoEntry>): (r: seq<string>)
    ensures |r| == |photos| && forall i :: 0 <= i < |photos| ==> r[i] == photos[i].url
  {
    seq(|photos|, i requires 0 <= i < |photos| => photos[i].url)
  }

  lemma UrlsAppend(a: seq<PhotoEntry>, b: seq<PhotoEntry>)
    ensures Urls(a + b) == Urls(a) + Urls(b)
  {
  }

  /** `photosAsArray`: the URLs in list order, empty ones left out. */
  function PhotosAsArray(photos: seq<PhotoEntry>): (r: seq<string>)
    ensures "" !in r
    ensures |r| <= |photos|
  {
    DropEmpty(Urls(photos))
  }

  /** The photos of a list cut in two are the photos of each part, in order. */
  lemma PhotosAsArrayAppend(a: seq<PhotoEntry>, b: seq<PhotoEntry>)
    ensures PhotosAsArray(a + b) == PhotosAsArray(a) + PhotosAsArray(b)
  {
    UrlsAppend(a, b);
    DropEmptyAppend(Urls(a), Urls(b));
  }

  /** A URL is submitted exactly when some entry holds it and it is not empty. */
  lemma PhotoSubmittedIff(photos: seq<PhotoEntry>, u: string)
    ensures u in PhotosAsArray(photos) <==> u != "" && exists i :: 0 <= i < |photos| && photos[i].url == u
  {
    DropEmptyMember(Urls(photos), u);
    if u in Urls(photos) {
      var i :| 0 <= i < |Urls(photos)| && Urls(photos)[i] == u;
      assert photos[i].url == u;
    }
  }

  /** `addPhotoField`: one more, empty, entry at the end. */
  function AddPhotoField(prev: seq<PhotoEntry>): (r: seq<PhotoEntry>)
    ensures |r| == |prev| + 1 && r[..|prev|] == prev && r[|prev|] == PhotoEntry("")
  {
    prev + [PhotoEntry("")]
  }

  /** `updatePhotoField(idx, value)`: entry idx gets the URL, every other entry is kept. */
  function UpdatePhotoField(prev: seq<PhotoEntry>, idx: int, value: string): (r: seq<PhotoEntry>)
    ensures |r| == |prev|
    ensures forall i :: 0 <= i < |prev| && i != idx ==> r[i] == prev[i]
    ensures 0 <= idx < |prev| ==> r[idx] == PhotoEntry(value)
    ensures !(0 <= idx < |prev|) ==> r == prev
  {
    seq(|prev|, i requires 0 <= i < |prev| => if i == idx then PhotoEntry(value) else prev[i])
  }

  /** `removePhotoField(idx)`: entry idx is dropped, the others keep their order. */
  function RemovePhotoField(prev: seq<PhotoEntry>, idx: int): (r: seq<PhotoEntry>)
    ensures |r| == |prev| - 1 <==> 0 <= idx < |prev|
    ensures !(0 <= idx < |prev|) ==> r == prev
    ensures 0 <= idx < |prev| ==>
      (forall i :: 0 <= i < idx ==> r[i] == prev[i]) && (forall i :: idx <= i < |r| ==> r[i] == prev[i + 1])
  {
    if 0 <= idx < |prev| then prev[..idx] + prev[idx + 1..] else prev
  }

  /** An added field is empty, so it changes nothing that is submitted. */
  lemma AddKeepsPhotos(prev: seq<PhotoEntry>)
    ensures PhotosAsArray(AddPhotoField(prev)) == PhotosAsArray(prev)
  {
    PhotosAsArrayAppend(prev, [PhotoEntry("")]);
    assert PhotosAsArray([PhotoEntry("")]) == [] by {
      assert Urls([PhotoEntry("")]) == [""];
    }
  }

  /** Removing entry idx removes its URL, and only it, from what is submitted. */
  lemma RemoveDropsOnePhoto(prev: seq<PhotoEntry>, idx: int)
    requires 0 <= idx < |prev|
    ensures PhotosAsArray(RemovePhotoField(prev, idx)) == PhotosAsArray(prev[..idx]) + PhotosAsArray(prev[idx + 1..])
    ensures PhotosAsArray(prev) ==
      PhotosAsArray(prev[..idx]) + DropEmpty([prev[idx].url]) + PhotosAsArray(prev[idx + 1..])
  {
    PhotosAsArrayAppend(prev[..idx], prev[idx + 1..]);
    assert prev == prev[..idx] + [prev[idx]] + prev[idx + 1..];
    PhotosAsArrayAppend(prev[..idx] + [prev[idx]], prev[idx + 1..]);
    PhotosAsArrayAppend(prev[..idx], [prev[idx]]);
    assert Urls([prev[idx]]) == [prev[idx].url];
  }

  /** Updating entry idx replaces its contribution to what is submitted by the new URL's. */
  lemma UpdateReplacesOnePhoto(prev: seq<PhotoEntry>, idx: int, value: string)
    requires 0 <= idx < |prev|
    ensures PhotosAsArray(UpdatePhotoField(prev, idx, value)) ==
      PhotosAsArray(prev[..idx]) + DropEmpty([value]) + PhotosAsArray(prev[idx + 1..])
  {
    var next := UpdatePhotoField(prev, idx, value);
    assert next == prev[..idx] + [PhotoEntry(value)] + prev[idx + 1..];
    PhotosAsArrayAppend(prev[..idx] + [PhotoEntry(value)], prev[idx + 1..]);
    PhotosAsArrayAppend(prev[..idx], [PhotoEntry(value)]);
    assert Urls([PhotoEntry(value)]) == [value];
  }

  // ---- waste types ----

  /** `.map((s) => s.trim())`. */
  function TrimAll(parts: seq<string>): (r: seq<string>)
    ensures |r| == |parts| && forall k :: 0 <= k < |parts| ==> r[k] == Text.Trim(parts[k])
  {
    seq(|parts|, k requires 0 <= k < |parts| => Text.Trim(parts[k]))
  }

  /** Trimming only cuts characters off, so it adds none. */
  lemma TrimAddsNothing(s: string, c: char)
    requires c !in s
    ensures c !in Text.Trim(s)
  {
    var r := Text.Trim(s);
    var i :| Text.TrimmedFrom(s, i, r);
    forall j | 0 <= j < |r|
      ensures r[j] != c
    {
      assert r[j] == s[i + j];
    }
  }

  /** `.map((s) => s.trim()).filter(Boolean)`: the non-blank pieces, trimmed, in order. */
  function CleanPieces(pieces: seq<string>): (r: seq<string>)
    ensures |r| <= |pieces|
    ensures forall w :: w in r ==> w != "" && Text.Trimmed(w)
    ensures forall w :: w in r ==> exists k :: 0 <= k < |pieces| && w == Text.Trim(pieces[k])
  {
    var trimmed := TrimAll(pieces);
    var r := DropEmpty(trimmed);
    forall w | w in r
      ensures w != "" && exists k :: 0 <= k < |pieces| && w == Text.Trim(pieces[k])
    {
      DropEmptyMember(trimmed, w);
    }
    r
  }

  /** Trimming piece by piece distributes over concatenation. */
  lemma TrimAllAppend(a: seq<string>, b: seq<string>)
    ensures TrimAll(a + b) == TrimAll(a) + TrimAll(b)
  {
    var whole, ta, tb := TrimAll(a + b), TrimAll(a), TrimAll(b);
    assert |whole| == |a| + |b| && |ta| == |a| && |tb| == |b|;
    forall k | 0 <= k < |a| + |b|
      ensures whole[k] == (ta + tb)[k]
    {
      var piece := (a + b)[k];
      assert whole[k] == Text.Trim(piece);
      if k < |a| {
        assert piece == a[k] && (ta + tb)[k] == ta[k];
      } else {
        assert piece == b[k - |a|] && (ta + tb)[k] == tb[k - |a|];
      }
    }
  }

  /** So the pieces kept from a + b are those kept from a followed by those kept from b: order and repeats are preserved. */
  lemma CleanPiecesAppend(a: seq<string>, b: seq<string>)
    ensures CleanPieces(a + b) == CleanPieces(a) + CleanPieces(b)
  {
    TrimAllAppend(a, b);
    DropEmptyAppend(TrimAll(a), TrimAll(b));
  }

  /** Every non-blank piece is kept. */
  lemma CleanPiecesKeepsNonBlank(pieces: seq<string>, k: int)
    requires 0 <= k < |pieces| && Text.Trim(pieces[k]) != ""
    ensures Text.Trim(pieces[k]) in CleanPieces(pieces)
  {
    DropEmptyMember(TrimAll(pieces), TrimAll(pieces)[k]);
  }

  lemma CleanSinglePiece(piece: string)
    ensures CleanPieces([piece]) == (if Text.Trim(piece) == "" then [] else [Text.Trim(piece)])
  {
    var t := Text.Trim(piece);
    assert TrimAll([piece]) == [t];
    DropEmptySingle(t);
  }

  lemma DropEmptySingle(x: string)
    ensures DropEmpty([x]) == (if x == "" then [] else [x])
  {
    assert [x][1..] == [];
  }

  /** A waste type as sent: not empty, no whitespace at either end, no comma. */
  predicate IsWasteType(w: string) {
    w != "" && Text.Trimmed(w) && ',' !in w
  }

  /**
   * `predominantWasteTypes.split(",").map(trim).filter(Boolean)`: the
   * non-blank pieces between commas, trimmed, in order.
   */
  function WasteTypes(text: string): (r: seq<string>)
    ensures forall w :: w in r ==> IsWasteType(w)
  {
    var pieces := Text.Split(text, ',');
    var r := CleanPieces(pieces);
    forall w | w in r
      ensures IsWasteType(w)
    {
      var k :| 0 <= k < |pieces| && w == Text.Trim(pieces[k]);
      TrimAddsNothing(pieces[k], ',');
    }
    r
  }

  /** No non-blank piece between commas is lost, and there are no more waste types than pieces. */
  lemma WasteTypesKeepEveryPiece(text: string, k: int)
    requires 0 <= k < |Text.Split(text, ',')| && Text.Trim(Text.Split(text, ',')[k]) != ""
    ensures Text.Trim(Text.Split(text, ',')[k]) in WasteTypes(text)
    ensures |WasteTypes(text)| <= |Text.Split(text, ',')|
  {
    CleanPiecesKeepsNonBlank(Text.Split(text, ','), k);
  }

  /** The waste types of two comma-joined lists are those of the first followed by those of the second. */
  lemma WasteTypesAppend(s: string, t: string)
    ensures WasteTypes(s + "," + t) == WasteTypes(s) + WasteTypes(t)
  {
    assert s + "," + t == s + [','] + t;
    Text.SplitAppend(s, t, ',');
    CleanPiecesAppend(Text.Split(s, ','), Text.Split(t, ','));
  }

  /** Text without a comma is a single piece. */
  lemma {:induction false} SplitWithoutSeparator(s: string, sep: char)
    requires sep !in s
    ensures Text.Split(s, sep) == [s]
    decreases |s|
  {
    if s != [] {
      forall j | 0 <= j < |s| - 1
        ensures s[1..][j] != sep
      {
        assert s[1..][j] == s[j + 1];
      }
      SplitWithoutSeparator(s[1..], sep);
      assert s == [s[0]] + s[1..];
    }
  }

  /** A single waste type is sent as itself, trimmed; a blank field as none. */
  lemma SingleWasteType(text: string)
    requires ',' !in text
    ensures WasteTypes(text) == (if Text.Trim(text) == "" then [] else [Text.Trim(text)])
  {
    SplitWithoutSeparator(text, ',');
    CleanSinglePiece(text);
  }

  // ---- the request body ----

  /** The form's fields, as the text the user typed. */
  datatype FormValues = FormValues(
    generalDescription: string,
    detailedDescription: string,
    geographicLocation: string,
    predominantWasteTypes: string,
    riskSummary: string,
    estimatedTimeHours: string,
    peopleRequired: string,
    laborCost: string,
    materialsCost: string,
    latitude: string,
    longitude: string,
    receiverAddress: string,
    targetAmount: string)

  const EmptyForm := FormValues("", "", "", "", "", "", "", "", "", "", "", "", "")

  /** JavaScript's `Number(text)`. */
  type ToNumber = string -> Number

  /** `Number(text) || 0`: never NaN, and 0 for text that reads as 0 or NaN. */
  function NumberField(text: string, toNumber: ToNumber): (n: Number)
    ensures n != NaN
    ensures TruthyNumber(toNumber(text)) ==> n == toNumber(text)
    ensures !TruthyNumber(toNumber(text)) ==> n == Finite(0.0)
  {
    NumberOrZero(toNumber(text))
  }

  /** `text ? Number(text) : null`: an empty coordinate is sent as null (None). */
  function Coordinate(text: string, toNumber: ToNumber): (c: Option<Number>)
    ensures c.None? <==> text == ""
    ensures text != "" ==> c == Some(toNumber(text))
  {
    if text != "" then Some(toNumber(text)) else None
  }

  /** The object literal `onSubmit` builds, field by field. */
  datatype CrowdfundingData = CrowdfundingData(
    generalDescription: string,
    detailedDescription: string,
    geographicLocation: string,
    predominantWasteTypes: seq<string>,
    riskSummary: string)

  datatype TaskSpecifics = TaskSpecifics(
    materialsNeeded: map<string, JsValue>,
    estimatedTimeHours: Number,
    peopleRequired: Number,
    laborCost: Number,
    materialsCost: Number,
    photoBreakdown: seq<JsValue>)

  datatype LocationGps = LocationGps(latitude: Option<Number>, longitude: Option<Number>, address: Option<string>)

  datatype Submission = Submission(
    taskId: string,
    userId: Number,
    crowdfundingData: CrowdfundingData,
    taskSpecifics: TaskSpecifics,
    totalCost: Number,
    photos: seq<string>,
    locationGps: LocationGps,
    createdAt: string,
    receiverAddress: string,
    targetAmount: Number)

  /**
   * The payload of `onSubmit`: user 0; the waste types split out of their
   * field; each count and cost `Number(text) || 0`; no materials and no
   * photo breakdown; the total the sum of the two costs; the non-empty
   * photo URLs; empty coordinates as null and no address.
   */
  function BuildSubmission(f: FormValues, photos: seq<PhotoEntry>, toNumber: ToNumber,
                           taskId: string, createdAt: string): (s: Submission)
    ensures s.taskId == taskId && s.userId == Finite(0.0) && s.createdAt == createdAt
    ensures s.receiverAddress == f.receiverAddress
    ensures s.crowdfundingData.generalDescription == f.generalDescription
    ensures s.crowdfundingData.detailedDescription == f.detailedDescription
    ensures s.crowdfundingData.geographicLocation == f.geographicLocation
    ensures s.crowdfundingData.riskSummary == f.riskSummary
    ensures s.crowdfundingData.predominantWasteTypes == WasteTypes(f.predominantWasteTypes)
    ensures forall w :: w in s.crowdfundingData.predominantWasteTypes ==> IsWasteType(w)
    ensures s.taskSpecifics.photoBreakdown == [] && s.taskSpecifics.materialsNeeded == map[]
    ensures s.taskSpecifics.estimatedTimeHours == NumberField(f.estimatedTimeHours, toNumber)
    ensures s.taskSpecifics.peopleRequired == NumberField(f.peopleRequired, toNumber)
    ensures s.taskSpecifics.laborCost == NumberField(f.laborCost, toNumber)
    ensures s.taskSpecifics.materialsCost == NumberField(f.materialsCost, toNumber)
    ensures s.taskSpecifics.laborCost != NaN && s.taskSpecifics.materialsCost != NaN
    ensures s.taskSpecifics.estimatedTimeHours != NaN && s.taskSpecifics.peopleRequired != NaN
    ensures s.totalCost == Add(s.taskSpecifics.laborCost, s.taskSpecifics.materialsCost)
    ensures s.photos == PhotosAsArray(photos)
    ensures "" !in s.photos
    ensures s.locationGps.latitude == Coordinate(f.latitude, toNumber)
    ensures s.locationGps.longitude == Coordinate(f.longitude, toNumber)
    ensures s.locationGps.latitude.None? <==> f.latitude == ""
    ensures s.locationGps.longitude.None? <==> f.longitude == ""
    ensures s.locationGps.address.None?
    ensures s.targetAmount == NumberField(f.targetAmount, toNumber)
    ensures s.targetAmount != NaN
  {
    Submission(
      taskId, Finite(0.0),
      CrowdfundingData(f.generalDescription, f.detailedDescription, f.geographicLocation,
                       WasteTypes(f.predominantWasteTypes), f.riskSummary),
      TaskSpecifics(map[], NumberField(f.estimatedTimeHours, toNumber), NumberField(f.peopleRequired, toNumber),
                    NumberField(f.laborCost, toNumber), NumberField(f.materialsCost, toNumber), []),
      Add(NumberField(f.laborCost, toNumber), NumberField(f.materialsCost, toNumber)),
      PhotosAsArray(photos),
      LocationGps(Coordinate(f.latitude, toNumber), Coordinate(f.longitude, toNumber), None),
      createdAt, f.receiverAddress, NumberField(f.targetAmount, toNumber))
  }

  /** `(a || 0) + (b || 0)` is NaN only when one of a and b is Infinity and the other -Infinity. */
  lemma SumOfDefaultsNaN(a: Number, b: Number)
    ensures Add(NumberOrZero(a), NumberOrZero(b)) == NaN <==> (a == PosInf && b == NegInf) || (a == NegInf && b == PosInf)
  {
    var x, y := NumberOrZero(a), NumberOrZero(b);
    assert x != NaN && y != NaN;
    assert x == PosInf <==> a == PosInf;
    assert x == NegInf <==> a == NegInf;
    assert y == PosInf <==> b == PosInf;
    assert y == NegInf <==> b == NegInf;
  }

  /** So the total cost is NaN only when one cost reads as Infinity and the other as -Infinity. */
  lemma TotalCostNaN(f: FormValues, photos: seq<PhotoEntry>, toNumber: ToNumber, taskId: string, createdAt: string)
    ensures var labor, materials := toNumber(f.laborCost), toNumber(f.materialsCost);
      BuildSubmission(f, photos, toNumber, taskId, createdAt).totalCost == NaN <==>
        (labor == PosInf && materials == NegInf) || (labor == NegInf && materials == PosInf)
  {
    var labor, materials := toNumber(f.laborCost), toNumber(f.materialsCost);
    assert BuildSubmission(f, photos, toNumber, taskId, createdAt).totalCost == Add(NumberOrZero(labor), NumberOrZero(materials));
    SumOfDefaultsNaN(labor, materials);
  }

  // ---- the request as the route reads it ----

  function OptionalNumber(n: Option<Number>): JsValue {
    match n
    case None => JNull
    case Some(x) => JNumber(x)
  }

  function OptionalString(t: Option<string>): JsValue {
    match t
    case None => JNull
    case Some(x) => JString(x)
  }

  /** A submission as the JavaScript object that `JSON.stringify` receives, in the route's terms. */
  function ToPayload(s: Submission): (p: CreationRoute.Payload)
    ensures p.taskId == s.taskId && p.userId == s.userId && p.totalCost == s.totalCost && p.photos == s.photos
    ensures p.createdAt == s.createdAt && p.targetAmount == s.targetAmount && p.receiverAddress == s.receiverAddress
    ensures p.crowdfundingData.JObject? && p.taskSpecifics.JObject? && p.locationGps.JObject?
  {
    var d := s.crowdfundingData;
    var t := s.taskSpecifics;
    var g := s.locationGps;
    CreationRoute.Payload(
      s.taskId, s.userId,
      JObject(map[
        "general_description" := JString(d.generalDescription),
        "detailed_description" := JString(d.detailedDescription),
        "geographic_location" := JString(d.geographicLocation),
        "predominant_waste_types" := JArray(CreationRoute.StringValues(d.predominantWasteTypes)),
        "risk_summary" := JString(d.riskSummary)]),
      JObject(map[
        "materials_needed" := JObject(t.materialsNeeded),
        "estimated_time_hours" := JNumber(t.estimatedTimeHours),
        "people_required" := JNumber(t.peopleRequired),
        "labor_cost" := JNumber(t.laborCost),
        "materials_cost" := JNumber(t.materialsCost),
        "photo_breakdown" := JArray(t.photoBreakdown)]),
      s.totalCost, s.photos,
      JObject(map[
        "latitude" := OptionalNumber(g.latitude),
        "longitude" := OptionalNumber(g.longitude),
        "address" := OptionalString(g.address)]),
      s.createdAt, s.targetAmount, s.receiverAddress)
  }

  /**
   * The three nested objects of the request carry the form's values under
   * the keys the tasks endpoint later reads: the general description, the
   * estimated hours and the photo breakdown, and the coordinates (null when
   * none was given).
   */
  lemma ToPayloadFields(s: Submission)
    ensures var p := ToPayload(s);
      && OptGet(p.crowdfundingData, "general_description") == JString(s.crowdfundingData.generalDescription)
      && OptGet(p.crowdfundingData, "detailed_description") == JString(s.crowdfundingData.detailedDescription)
      && OptGet(p.crowdfundingData, "geographic_location") == JString(s.crowdfundingData.geographicLocation)
      && OptGet(p.crowdfundingData, "predominant_waste_types")
         == JArray(CreationRoute.StringValues(s.crowdfundingData.predominantWasteTypes))
      && OptGet(p.crowdfundingData, "risk_summary") == JString(s.crowdfundingData.riskSummary)
      && OptGet(p.taskSpecifics, "materials_needed") == JObject(s.taskSpecifics.materialsNeeded)
      && OptGet(p.taskSpecifics, "estimated_time_hours") == JNumber(s.taskSpecifics.estimatedTimeHours)
      && OptGet(p.taskSpecifics, "people_required") == JNumber(s.taskSpecifics.peopleRequired)
      && OptGet(p.taskSpecifics, "labor_cost") == JNumber(s.taskSpecifics.laborCost)
      && OptGet(p.taskSpecifics, "materials_cost") == JNumber(s.taskSpecifics.materialsCost)
      && OptGet(p.taskSpecifics, "photo_breakdown") == JArray(s.taskSpecifics.photoBreakdown)
      && (OptGet(p.locationGps, "latitude") == JNull <==> s.locationGps.latitude.None?)
      && (s.locationGps.latitude.Some? ==> OptGet(p.locationGps, "latitude") == JNumber(s.locationGps.latitude.value))
      && (OptGet(p.locationGps, "longitude") == JNull <==> s.locationGps.longitude.None?)
      && (s.locationGps.longitude.Some? ==> OptGet(p.locationGps, "longitude") == JNumber(s.locationGps.longitude.value))
      && (OptGet(p.locationGps, "address") == JNull <==> s.locationGps.address.None?)
  {
    var p := ToPayload(s);
    var d, t, g := p.crowdfundingData.fields, p.taskSpecifics.fields, p.locationGps.fields;
    assert "general_description" in d && "detailed_description" in d && "geographic_location" in d;
    assert "predominant_waste_types" in d && "risk_summary" in d;
    assert "materials_needed" in t && "estimated_time_hours" in t && "people_required" in t;
    assert "labor_cost" in t && "materials_cost" in t && "photo_breakdown" in t;
    assert "latitude" in g && "longitude" in g && "address" in g;
  }

  /** So the form's request has an empty photo breakdown, its hours as `Number(text) || 0`, and null for an empty coordinate. */
  lemma FormPayloadFields(f: FormValues, photos: seq<PhotoEntry>, toNumber: ToNumber, taskId: string, createdAt: string)
    ensures var p := ToPayload(BuildSubmission(f, photos, toNumber, taskId, createdAt));
      && OptGet(p.crowdfundingData, "general_description") == JString(f.generalDescription)
      && OptGet(p.taskSpecifics, "estimated_time_hours") == JNumber(NumberField(f.estimatedTimeHours, toNumber))
      && OptGet(p.taskSpecifics, "photo_breakdown") == JArray([])
      && (OptGet(p.locationGps, "latitude") == JNull <==> f.latitude == "")
      && (OptGet(p.locationGps, "longitude") == JNull <==> f.longitude == "")
      && (f.latitude != "" ==> OptGet(p.locationGps, "latitude") == JNumber(toNumber(f.latitude)))
      && (f.longitude != "" ==> OptGet(p.locationGps, "longitude") == JNumber(toNumber(f.longitude)))
  {
    var s := BuildSubmission(f, photos, toNumber, taskId, createdAt);
    ToPayloadFields(s);
  }

  /**
   * The route accepts what the form sends exactly when the task id, the
   * creation time and the receiver address are non-empty and the total
   * cost is a number, and then stores it unchanged.
   */
  lemma SubmissionAccepted(s: Submission)
    requires s.userId != NaN && s.targetAmount != NaN
    ensures var p := ToPayload(s);
      && (CreationRoute.Validate(CreationRoute.Encode(p)).Valid? <==>
           s.taskId != "" && s.createdAt != "" && s.receiverAddress != "" && s.totalCost != NaN)
      && (CreationRoute.Validate(CreationRoute.Encode(p)).Valid? ==>
           CreationRoute.Validate(CreationRoute.Encode(p)) == CreationRoute.Valid(p))
  {
    CreationRoute.EncodeValidIff(ToPayload(s));
  }

  /** So a form submission with a uuid, a timestamp and a receiver is accepted unless its costs add up to NaN. */
  lemma FormRequestAccepted(f: FormValues, photos: seq<PhotoEntry>, toNumber: ToNumber, taskId: string, createdAt: string)
    ensures var s := BuildSubmission(f, photos, toNumber, taskId, createdAt);
      CreationRoute.Validate(CreationRoute.Encode(ToPayload(s))).Valid? <==>
        taskId != "" && createdAt != "" && f.receiverAddress != "" && s.totalCost != NaN
  {
    SubmissionAccepted(BuildSubmission(f, photos, toNumber, taskId, createdAt));
  }

  // ---- the reply ----

  /** What `fetch` gives back: a network failure, or a status and a body that may not be JSON. */
  datatype Reply = NetworkFailure(message: string) | Answered(status: int, json: Option<JsValue>)

  const CreatedMessage := "Crowdfunding created successfully."
  const FallbackMessage := "Request failed"

  /** `data?.error`, where `data` is `{}` when the body is not JSON. */
  function ErrorField(json: Option<JsValue>): JsValue {
    OptGet(json.GetOr(JObject(map[])), "error")
  }

  /**
   * The message left on the page: the network error's message; the
   * success text for a 2xx status; otherwise `String(data?.error)` when it
   * is truthy, else "Request failed". `stringify` is `String(v)` on
   * values that are not strings.
   */
  function ResultMessage(reply: Reply, stringify: JsValue -> string): (m: string)
    ensures reply.NetworkFailure? ==> m == reply.message
    ensures reply.Answered? && Http.Ok(reply.status) ==> m == CreatedMessage
    ensures reply.Answered? && !Http.Ok(reply.status) && !Truthy(ErrorField(reply.json)) ==> m == FallbackMessage
    ensures reply.Answered? && !Http.Ok(reply.status) && ErrorField(reply.json).JString? && Truthy(ErrorField(reply.json)) ==>
      m == ErrorField(reply.json).s
  {
    match reply
    case NetworkFailure(message) => message
    case Answered(status, json) =>
      if Http.Ok(status) then CreatedMessage
      else
        var e := ErrorField(json);
        if !Truthy(e) then FallbackMessage
        else if e.JString? then e.s
        else stringify(e)
  }

  /** Against the creation route, the page shows the success text or the route's own `error` string. */
  lemma RouteReplyMessage(r: CreationRoute.Response, stringify: JsValue -> string)
    ensures ResultMessage(Answered(CreationRoute.Status(r), Some(CreationRoute.Body(r))), stringify) ==
      if r.Created? then CreatedMessage else CreationRoute.ErrorText(r).value
  {
  }

  /** A reply whose body is not JSON, or is JSON null, shows the fallback text. */
  lemma UnreadableErrorBody(status: int, stringify: JsValue -> string)
    requires !Http.Ok(status)
    ensures ResultMessage(Answered(status, None), stringify) == FallbackMessage
    ensures ResultMessage(Answered(status, Some(JNull)), stringify) == FallbackMessage
  {
  }

  // ---- the page ----

  /** The page's state: the form's fields, the photo list, the submit flag and the message shown. */
  class NewCrowdfundingPage {
    var values: FormValues
    var photoUrls: seq<PhotoEntry>
    var submitting: bool
    var resultMessage: Option<string>
    /** The payloads posted to the creation route, in order. */
    var sent: seq<Submission>

    constructor ()
      ensures values == EmptyForm && photoUrls == [PhotoEntry("")]
      ensures !submitting && resultMessage == None && sent == []
    {
      values := EmptyForm;
      photoUrls := [PhotoEntry("")];
      submitting := false;
      resultMessage := None;
      sent := [];
    }

    /** The user edits the form's text fields. */
    method Edit(next: FormValues)
      modifies this
      ensures values == next
      ensures photoUrls == old(photoUrls) && submitting == old(submitting)
      ensures resultMessage == old(resultMessage) && sent == old(sent)
    {
      values := next;
    }

    method AddPhoto()
      modifies this
      ensures photoUrls == AddPhotoField(old(photoUrls))
      ensures values == old(values) && submitting == old(submitting)
      ensures resultMessage == old(resultMessage) && sent == old(sent)
    {
      photoUrls := AddPhotoField(photoUrls);
    }

    method UpdatePhoto(idx: int, value: string)
      modifies this
      ensures photoUrls == UpdatePhotoField(old(photoUrls), idx, value)
      ensures values == old(values) && submitting == old(submitting)
      ensures resultMessage == old(resultMessage) && sent == old(sent)
    {
      photoUrls := UpdatePhotoField(photoUrls, idx, value);
    }

    method RemovePhoto(idx: int)
      modifies this
      ensures photoUrls == RemovePhotoField(old(photoUrls), idx)
      ensures values == old(values) && submitting == old(submitting)
      ensures resultMessage == old(resultMessage) && sent == old(sent)
    {
      photoUrls := RemovePhotoField(photoUrls, idx);
    }

    /** The Create button's `disabled`: a request is in flight. */
    predicate SubmitDisabled()
      reads this
    {
      submitting
    }

    /**
     * The form's submit: nothing happens while the button is disabled, and
     * a blank general description is refused by the form's `required` rule
     * so nothing is posted; otherwise `onSubmit` posts the request and
     * leaves the outcome's message on the page.
     */
    method Submit(toNumber: ToNumber, taskId: string, createdAt: string, reply: Reply, stringify: JsValue -> string)
      modifies this
      ensures old(SubmitDisabled()) || old(values).generalDescription == "" ==>
        sent == old(sent) && resultMessage == old(resultMessage) && submitting == old(submitting)
      ensures !old(SubmitDisabled()) && old(values).generalDescription != "" ==>
        && sent == old(sent) + [BuildSubmission(old(values), old(photoUrls), toNumber, taskId, createdAt)]
        && resultMessage == Some(ResultMessage(reply, stringify))
        && !SubmitDisabled()
      ensures values == old(values) && photoUrls == old(photoUrls)
    {
      if SubmitDisabled() || values.generalDescription == "" {
        return;
      }
      var payload := BuildSubmission(values, photoUrls, toNumber, taskId, createdAt);
      var message := ResultMessage(reply, stringify);
      Post(payload, message);
    }

    /** The request in flight: the button is disabled and the message cleared until the reply is in. */
    method Post(payload: Submission, message: string)
      modifies this
      ensures sent == old(sent) + [payload] && resultMessage == Some(message) && !submitting
      ensures values == old(values) && photoUrls == old(photoUrls)
    {
      // The in-flight state: the button disabled and the old message cleared
      // while the request is out. Nothing in this model observes it.
      submitting := true;
      resultMessage := None;
      sent := sent + [payload];
      resultMessage := Some(message);
      submitting := false;
    }
  }
}
