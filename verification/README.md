# Crowdfunding front end: validators, handlers and widget logic in Dafny

This project models the four self-contained pieces of a crowdfunding web
application. The application stores cleanup campaigns in a database,
deploys one crowdfunding contract per campaign through a factory contract,
lets visitors donate an ERC-20 token to it, and sends the campaign's work
to an external task API. The four pieces are:

- **The creation endpoint** (`POST /api/crowdfunding`, module `CreationRoute`, `creation_route.dfy`):
  - the four type guards and the ten-field validator, which pushes one message per failing field in a fixed order;
  - the handler's stages, each ending in its own response: content type, validation, upsert, configuration, deployment, address lookup, write-back;
  - the two-tier lookup of the deployed contract's address: the first `CrowdfundCreated` log, then the factory's list of campaigns.
- **The task-dispatch endpoint** (`POST /api/irl-agents/tasks`, module `TasksRoute`, `tasks_route.dfy`):
  - the request schema;
  - the defaulting rules that turn a stored campaign into a non-empty list of tasks;
  - the order in which the handler's failures are reported.
- **The campaign widget** (module `Widget`, `widget.dfy`):
  - the token-decimals default, `needsApprove`, `canWithdraw` and the donate button's disabled condition;
  - the approve-then-donate sequence and the withdraw request, as a class whose state is the amount typed in, what it has read from the chain, the campaign's allowance on the chain as the widget's own transactions leave it (EIP-20 `approve` overwrites it, a mined `donate` spends it through `transferFrom`), and the log of requests handed to the wallet.
- **The "New Crowdfunding" page** (module `CreationForm`, `creation_form.dfy`):
  - the photo-URL list operations and `photosAsArray`;
  - the request body `onSubmit` builds: waste types split on commas and trimmed, numbers defaulting to 0, empty coordinates sent as null;
  - the message the page shows for each reply;
  - the page as a class whose `Submit` posts the body and records the message.

Three small shared modules hold the JavaScript behaviour these rely on:

- `Js` (`js.dfy`): JSON-like values with `undefined`, numbers with NaN and the infinities, truthiness, `||`, `.` and `?.` property reads, and `+`.
- `Text` (`text.dfy`): `includes`, ASCII `toLowerCase`, `trim` and `split`.
- `Http` (`http.dfy`): the content-type test and the lenient body read.

The imperative parts are written as methods and proved against specification functions:

| method | specification function |
|---|---|
| `ValidatePayload` | `Validate` |
| `ScanLogs` | `FirstCreated` |
| `BuildTasks` | `ExpectedTasks` |
| `CrowdfundWidget.Donate` | `DonateSteps` |

Each specification function's properties are proved as contracts and lemmas.

Some behaviour of the code is easy to assume otherwise, and the model states it as written:

- The code only requires `receiver_address` to be a non-empty string. It does not check it as a chain address.
- The creation endpoint's failures carry the strings `"Database error"`, `"Private key not found"` and `"Unexpected error"`. They have no machine-readable codes.
- A missing configuration value is not reported by name.
- A failed transaction submission and a failed confirmation both fall into the one catch-all `"Unexpected error"` response. So does an exception thrown before anything is sent: an unusable private key or a target amount that `parseUnits` rejects.
- The widget never reads the status of the approval's receipt. After a reverted approval it still reads the allowance again and sends `donate(amount)`.

`upsert` with `onConflict: "task_id"` writes only the ten request columns. An existing row therefore keeps its `deploy_tx_hash` and `contract_address`, and `Upsert` models it that way.

## Model

| member | source | states |
|---|---|---|
| Js.Or | frontend/app/api/irl-agents/tasks/route.ts:79-83 | the `or` default gives the left operand exactly when it is truthy, otherwise the right one |
| Js.NumberOrZero | frontend/app/crowdfunding/new/page.tsx:97-100 | defaulting a number to 0 never gives NaN: the number itself when truthy, otherwise 0 |
| Js.Get | frontend/app/api/irl-agents/tasks/route.ts:105 | `v.key` throws exactly on null and undefined; on an object it gives the field or undefined |
| Js.OptGet | frontend/app/api/irl-agents/tasks/route.ts:79-83 | `v?.key` is undefined on null and undefined, and otherwise agrees with `v.key` |
| Js.Add | frontend/app/crowdfunding/new/page.tsx:103-105 | `+` adds finite numbers, and gives NaN exactly when an operand is NaN or the operands are opposite infinities |
| Text.Contains | frontend/app/api/crowdfunding/route.ts:84-85 | `includes` holds exactly when the substring occurs at some position |
| Text.ToLower | frontend/components/crowdfund-widget.tsx:133 | lowercasing keeps the length and maps each character on its own |
| Text.ToLowerIdempotent | frontend/components/crowdfund-widget.tsx:133 | lowercasing twice is lowercasing once |
| Text.Trim | frontend/app/crowdfunding/new/page.tsx:91 | the result has no whitespace at either end and is cut from the input by removing whitespace only |
| Text.Split | frontend/app/crowdfunding/new/page.tsx:90 | splitting gives at least one piece, and no piece holds the separator |
| Text.SplitAppend | frontend/app/crowdfunding/new/page.tsx:90 | a separator between two texts splits them apart: the pieces of the first, then those of the second |
| Text.JoinSplit | frontend/app/crowdfunding/new/page.tsx:90 | joining the pieces with the separator gives back the text, so splitting loses nothing |
| Http.MissingHeaderIsNotJson | frontend/app/api/crowdfunding/route.ts:84-85 | an absent content-type header reads as "" and is refused |
| Http.JsonContent | frontend/app/api/crowdfunding/route.ts:84-85 | only a present header at least as long as `application/json` can pass, and every header starting with `application/json` passes |
| Http.BodyOrNull | frontend/app/api/crowdfunding/route.ts:91 | a body that does not parse is read as null, and any other body as itself |
| CreationRoute.GuardFacts | frontend/app/api/crowdfunding/route.ts:21-28 | `isNumber` accepts the infinities but not NaN; `isObject` accepts arrays but not null; `isNonEmptyString` accepts exactly the non-empty strings; `isStringArray` accepts [] but not `[null]` |
| CreationRoute.FailingEmpty | frontend/app/api/crowdfunding/route.ts:50-63 | no field is reported exactly when every check passes |
| CreationRoute.FailingOccurrences | frontend/app/api/crowdfunding/route.ts:50-59 | in a list without repeats, a failing element is reported exactly once and a passing one never |
| CreationRoute.FailingSnoc | frontend/app/api/crowdfunding/route.ts:50-59 | checking one more field appends its failure, if any, at the end |
| CreationRoute.Validate | frontend/app/api/crowdfunding/route.ts:30-80 | a non-object gives exactly the one "Body must be a JSON object" error; an object is valid iff all ten checks pass; otherwise the errors are the failing fields' messages in field order, 1 to 10 of them; valid data holds the input's ten fields unchanged |
| CreationRoute.ValidatePayload | frontend/app/api/crowdfunding/route.ts:30-80 | the push-by-push validator computes exactly `Validate` |
| CreationRoute.CheckField | frontend/app/api/crowdfunding/route.ts:50-59 | one `if (!guard) errors.push(message)` appends the field's message exactly when its guard fails |
| CreationRoute.ErrorsAfterFailedPrefix | frontend/app/api/crowdfunding/route.ts:50-59 | after n pushes the array holds the messages of the failing fields among the first n |
| CreationRoute.AllChecksRun | frontend/app/api/crowdfunding/route.ts:61-63 | after all ten checks, a non-empty array is the Invalid result and an empty one means every check passed |
| CreationRoute.NoFailedKeys | frontend/app/api/crowdfunding/route.ts:61-63 | no failing field is listed exactly when every check passes |
| CreationRoute.FieldReportedOnce | frontend/app/api/crowdfunding/route.ts:50-59 | each field is listed once if its check fails and never otherwise |
| CreationRoute.OnlyFailuresReported | frontend/app/api/crowdfunding/route.ts:50-59 | only fields whose check fails are listed |
| CreationRoute.FailedFieldReported | frontend/app/api/crowdfunding/route.ts:50-63 | a field whose check fails makes the result Invalid and has its message among the errors |
| CreationRoute.FailedKeyListed | frontend/app/api/crowdfunding/route.ts:50-59 | a field whose check fails is among the failing fields |
| CreationRoute.ArrayBodyFailsEveryCheck | frontend/app/api/crowdfunding/route.ts:33-59 | an array passes the object guard, has none of the ten fields, and gets all ten messages in order |
| CreationRoute.Extract | frontend/app/api/crowdfunding/route.ts:65-79 | the returned data holds exactly the values of the input's ten fields |
| CreationRoute.Encode | frontend/app/api/crowdfunding/route.ts:7-19 | the object a payload stands for holds that payload's value under each of the ten names |
| CreationRoute.PayloadValueInjective | frontend/app/api/crowdfunding/route.ts:65-79 | a payload is determined by its ten field values |
| CreationRoute.ValidatesTo | frontend/app/api/crowdfunding/route.ts:65-79 | an object whose ten fields hold a well-formed payload's values validates to that payload |
| CreationRoute.EncodeThenValidate | frontend/app/api/crowdfunding/route.ts:30-80 | round trip: a well-formed payload's object validates to the same payload |
| CreationRoute.EncodeValidIff | frontend/app/api/crowdfunding/route.ts:30-80 | a payload's object is accepted iff the payload is well formed, and is then returned unchanged |
| CreationRoute.BlankReceiverReported | frontend/app/api/crowdfunding/route.ts:59 | a blank receiver address is refused and named among the errors |
| CreationRoute.Upsert | frontend/app/api/crowdfunding/route.ts:100-103 | the row for task_id holds the new fields, and an existing row keeps its deployment columns; a new row has none; every other row is unchanged |
| CreationRoute.UpsertIdempotent | frontend/app/api/crowdfunding/route.ts:100-103 | upserting the same payload twice equals upserting it once |
| CreationRoute.Update | frontend/app/api/crowdfunding/route.ts:153-156 | the write-back changes only the two deployment columns of the matching row and adds no row |
| CreationRoute.UpsertThenUpdate | frontend/app/api/crowdfunding/route.ts:100-156 | after the upsert and the write-back, the row holds the request's fields, the transaction hash and the address |
| CreationRoute.FirstCreatedIsFirst | frontend/app/api/crowdfunding/route.ts:133-142 | an address is found iff some log is a `CrowdfundCreated` event, and it is then the first such log's first argument |
| CreationRoute.FirstCreated | frontend/app/api/crowdfunding/route.ts:133-142 | an address found is the first argument of a `CrowdfundCreated` log among the receipt's logs |
| CreationRoute.ScanLogs | frontend/app/api/crowdfunding/route.ts:133-142 | the loop with `break` computes the first creation event's argument, skipping undecodable logs |
| CreationRoute.Resolve | frontend/app/api/crowdfunding/route.ts:145-150 | a found address is kept; otherwise the list's last entry is used, or null when the list is empty or ends in ""; a throwing or absent getter leaves the address unchanged; any address comes from the scan or the list |
| CreationRoute.ResolvePrefersEvent | frontend/app/api/crowdfunding/route.ts:145 | the fallback never replaces an address found in the logs |
| CreationRoute.Status | frontend/app/api/crowdfunding/route.ts:86-163 | 200 exactly for success, 400 exactly for an invalid payload, 415 exactly for a wrong content type, 500 exactly for the database, configuration and unexpected failures |
| CreationRoute.Body | frontend/app/api/crowdfunding/route.ts:86-163 | the body has an `error` field exactly on failure, holding that response's error text; success carries `ok: true`, the hash and `contractAddress`, null when none was found; an invalid payload carries its messages as `details`, a database error its message and an unexpected error its reason; the 415 and configuration bodies have no `details` |
| CreationRoute.Configured | frontend/app/api/crowdfunding/route.ts:110-116 | deployment is configured exactly when the private key, the factory address and the RPC URL are all present and non-empty |
| CreationRoute.Post | frontend/app/api/crowdfunding/route.ts:82-165 | stage order: a wrong content type gives 415, then an invalid body 400 with no write, then a database error 500, then missing configuration 500 with no deployment; a throw while building the wallet or the amount gives 500 with the row upserted and nothing sent; otherwise the deployment request goes out; a throw from the send or the wait gives 500 with the row upserted; on success the response has the hash and the resolved address, and the row is written back |
| TasksRoute.ParseRequest | frontend/app/api/irl-agents/tasks/route.ts:5-7 | accepted iff the body is an object whose task_id is a non-empty string, which is returned; otherwise exactly one issue, "task_id is required" for an empty string |
| TasksRoute.ContextOf | frontend/app/api/irl-agents/tasks/route.ts:79-83 | a truthy description, latitude, longitude or hours is passed through unchanged; a falsy description becomes "", and falsy latitude, longitude or hours become 0 |
| TasksRoute.ContextDefaults | frontend/app/api/irl-agents/tasks/route.ts:79-83 | a record whose three JSON columns are null or absent gets "", 0, 0 and 0 |
| TasksRoute.ExpectedTasks | frontend/app/api/irl-agents/tasks/route.ts:95-124 | never empty; one task per entry of a non-empty breakdown, in order, paid its subtotal or 0; otherwise one task paid the total cost or 0; a null entry throws; all tasks share querierId, token, prompt, lat, lng and timeout |
| TasksRoute.Reward | frontend/app/api/irl-agents/tasks/route.ts:105 | a breakdown entry pays its subtotal when that is truthy, otherwise 0 |
| TasksRoute.NoBreakdownNoCost | frontend/app/api/irl-agents/tasks/route.ts:112-124 | null or absent task specifics and total cost give one task paid 0 |
| TasksRoute.BuildTasks | frontend/app/api/irl-agents/tasks/route.ts:95-124 | the push loop computes exactly `ExpectedTasks` |
| TasksRoute.Status | frontend/app/api/irl-agents/tasks/route.ts:23-192 | 200 exactly for a dispatched batch, 415 for a wrong content type, 400 for an invalid request, 404 for an unknown campaign, 500 exactly for the missing key, the API error and the internal error |
| TasksRoute.CodesDistinct | frontend/app/api/irl-agents/tasks/route.ts:23-192 | different kinds of failure carry different `error.code`s |
| TasksRoute.Post | frontend/app/api/irl-agents/tasks/route.ts:14-194 | failure order: 415, then 400 with the issues, then 404 (store error or no row), then 500 for a null breakdown entry, then 500 MISSING_API_KEY before any call, then the batch is sent: a network failure or non-JSON reply gives 500, a non-2xx reply gives IRL_AGENTS_API_ERROR with the upstream status and text, and success returns the tasks |
| Widget.Decimals | frontend/components/crowdfund-widget.tsx:52 | 18 while the token's decimals are unknown, otherwise those decimals |
| Widget.NeedsApprove | frontend/components/crowdfund-widget.tsx:67-75 | false for an empty input; true when the amount does not parse; otherwise true iff the amount exceeds the allowance read (0 when unknown); true only for a positive amount |
| Widget.CoveredAmountNeedsNoApproval | frontend/components/crowdfund-widget.tsx:67-75 | an allowance at least the amount never asks for approval |
| Widget.Spend | frontend/components/crowdfund-widget.tsx:103-108 | a mined donation lowers the allowance by exactly its amount when the allowance covers it, and otherwise leaves it; it never raises it |
| Widget.ApprovalCoversOneDonation | frontend/components/crowdfund-widget.tsx:67-75 | an approval of p lets p through without approval, and once that donation is mined p needs approval again |
| Widget.DonateDisabled | frontend/components/crowdfund-widget.tsx:169 | the donate button is enabled exactly when an account is connected, an amount is typed and no write or receipt is pending |
| Widget.CanWithdraw | frontend/components/crowdfund-widget.tsx:133 | withdrawing needs a completed campaign, both addresses known and non-empty, and the connected address equal to the receiver up to letter case, so any other account is refused; the receiver itself on a completed campaign may withdraw |
| Widget.CanWithdrawIgnoresCase | frontend/components/crowdfund-widget.tsx:133 | whether the account may withdraw does not depend on the letter case of its address |
| Widget.CanWithdrawSymmetric | frontend/components/crowdfund-widget.tsx:133 | the address comparison is symmetric, and a completed campaign is required |
| Widget.DonateSteps | frontend/components/crowdfund-widget.tsx:83-110 | no account or an unparseable amount requests nothing; no public client when approval is needed requests nothing; without approval needed, exactly donate; with it, approve alone when the approval is abandoned, approve then donate when a receipt arrives, with the allowance read again; at most approve then donate, both with the parsed amount; approve only first and only above the allowance; donate only last; only an approval that took effect changes the allowance, to one that needs no further approval |
| Widget.DonateIsPrefixOfPlan | frontend/components/crowdfund-widget.tsx:85-109 | what is requested is a prefix of approve-then-donate (or donate alone), so an exception only cuts the sequence short |
| Widget.EnabledDonateIsRequested | frontend/components/crowdfund-widget.tsx:169 | with the button enabled, an amount that parses and an approval (if needed) that gets a receipt, the donation is the last request |
| Widget.RevertedApprovalStillNeedsApproval | frontend/components/crowdfund-widget.tsx:96-105 | for any account and campaign, a reverted approval still leads to `donate(amount)` and a fresh allowance read, and the amount still needs approval, since the allowance is unchanged |
| Widget.CrowdfundWidget.constructor | frontend/components/crowdfund-widget.tsx:52-65 | nothing typed, nothing read, no requests |
| Widget.CrowdfundWidget.SetAmount | frontend/components/crowdfund-widget.tsx:163 | the amount input changes and nothing else |
| Widget.CrowdfundWidget.RefetchAllowance | frontend/components/crowdfund-widget.tsx:98 | the allowance read catches up with the chain |
| Widget.CrowdfundWidget.Donate | frontend/components/crowdfund-widget.tsx:83-110 | the requests log grows by exactly `DonateSteps`' requests; an approval that took effect sets the chain's allowance to the amount, otherwise the chain's allowance is unchanged; after any approval receipt the allowance is read again, otherwise the last read stays |
| Widget.CrowdfundWidget.DonationMined | frontend/components/crowdfund-widget.tsx:103-108 | a mined donation changes the chain's allowance to `Spend` of it and nothing else, so the widget sees the change only at the next refetch |
| Widget.CrowdfundWidget.Withdraw | frontend/components/crowdfund-widget.tsx:112-121 | exactly one withdraw request is added |
| CreationForm.DropEmpty | frontend/app/crowdfunding/new/page.tsx:44 | `filter(Boolean)` on strings leaves no empty string and adds nothing |
| CreationForm.DropEmptyAppend | frontend/app/crowdfunding/new/page.tsx:44 | filtering distributes over concatenation, so order is kept |
| CreationForm.DropEmptyCount | frontend/app/crowdfunding/new/page.tsx:44 | every non-empty string is kept as often as it occurs |
| CreationForm.DropEmptyMember | frontend/app/crowdfunding/new/page.tsx:44 | a string is kept iff it occurs and is not empty |
| CreationForm.PhotosAsArray | frontend/app/crowdfunding/new/page.tsx:44 | no empty URL, and no more URLs than entries |
| CreationForm.PhotosAsArrayAppend | frontend/app/crowdfunding/new/page.tsx:44 | the photos of a list cut in two are the photos of each part, in order |
| CreationForm.PhotoSubmittedIff | frontend/app/crowdfunding/new/page.tsx:44 | a URL is submitted iff it is non-empty and some entry holds it |
| CreationForm.AddPhotoField | frontend/app/crowdfunding/new/page.tsx:46-48 | one empty entry is appended and the others are kept |
| CreationForm.UpdatePhotoField | frontend/app/crowdfunding/new/page.tsx:50-52 | same length; only entry idx changes, to the new URL; an index out of range changes nothing |
| CreationForm.RemovePhotoField | frontend/app/crowdfunding/new/page.tsx:54-56 | the length falls by one iff idx is in range; the others keep their order; out of range changes nothing |
| CreationForm.AddKeepsPhotos | frontend/app/crowdfunding/new/page.tsx:46-48 | adding a field changes nothing that is submitted |
| CreationForm.RemoveDropsOnePhoto | frontend/app/crowdfunding/new/page.tsx:54-56 | removing entry idx removes its URL, and only it, from what is submitted |
| CreationForm.UpdateReplacesOnePhoto | frontend/app/crowdfunding/new/page.tsx:50-52 | updating entry idx replaces only its contribution to what is submitted |
| CreationForm.TrimAddsNothing | frontend/app/crowdfunding/new/page.tsx:91 | trimming adds no character, so no comma reappears |
| CreationForm.CleanPieces | frontend/app/crowdfunding/new/page.tsx:91-92 | every kept piece is non-empty, trimmed and the trim of some input piece |
| CreationForm.TrimAllAppend | frontend/app/crowdfunding/new/page.tsx:91 | trimming piece by piece distributes over concatenation |
| CreationForm.CleanPiecesAppend | frontend/app/crowdfunding/new/page.tsx:91-92 | the pieces kept from a + b are those kept from a followed by those kept from b, so order and repeats are kept |
| CreationForm.CleanPiecesKeepsNonBlank | frontend/app/crowdfunding/new/page.tsx:91-92 | every non-blank piece is kept, trimmed |
| CreationForm.CleanSinglePiece | frontend/app/crowdfunding/new/page.tsx:91-92 | a single piece gives its trim, or nothing when blank |
| CreationForm.WasteTypes | frontend/app/crowdfunding/new/page.tsx:88-92 | every waste type is non-empty, trimmed and free of commas |
| CreationForm.WasteTypesKeepEveryPiece | frontend/app/crowdfunding/new/page.tsx:88-92 | no non-blank piece between commas is lost, and there are no more types than pieces |
| CreationForm.WasteTypesAppend | frontend/app/crowdfunding/new/page.tsx:88-92 | the waste types of two lists joined by a comma are those of the first followed by those of the second |
| CreationForm.SplitWithoutSeparator | frontend/app/crowdfunding/new/page.tsx:90 | text without a comma is one piece |
| CreationForm.SingleWasteType | frontend/app/crowdfunding/new/page.tsx:88-92 | a comma-free field gives its trim as the only type, or none when blank |
| CreationForm.NumberField | frontend/app/crowdfunding/new/page.tsx:97-100 | a numeric field defaulted to 0 is never NaN: `Number(text)` when truthy, else 0 |
| CreationForm.Coordinate | frontend/app/crowdfunding/new/page.tsx:108-113 | an empty coordinate is sent as null, any other as `Number(text)` |
| CreationForm.BuildSubmission | frontend/app/crowdfunding/new/page.tsx:81-119 | user 0; task id, creation time, receiver and the four text fields passed through; the waste types are `WasteTypes` of their field, each well formed; each count, cost and the target is `NumberField` of its field, so none is NaN; no materials and no breakdown; total = labor + materials; the photos are `PhotosAsArray` of the list, none empty; each coordinate is `Coordinate` of its field, null iff empty; no address |
| CreationForm.SumOfDefaultsNaN | frontend/app/crowdfunding/new/page.tsx:103-105 | the sum of two numbers each defaulted to 0 is NaN iff they are opposite infinities |
| CreationForm.TotalCostNaN | frontend/app/crowdfunding/new/page.tsx:103-105 | the total cost is NaN iff one cost reads as Infinity and the other as -Infinity |
| CreationForm.ToPayload | frontend/app/crowdfunding/new/page.tsx:81-119 | the body's scalar fields are the submission's, and its three nested values are objects |
| CreationForm.ToPayloadFields | frontend/app/crowdfunding/new/page.tsx:84-116 | each key of `crowdfunding_data`, `task_specifics` and `location_gps` holds the submission's value; a coordinate or address is null exactly when absent |
| CreationForm.FormPayloadFields | frontend/app/crowdfunding/new/page.tsx:84-116 | the form's request carries the general description, the hours as `NumberField` of their field, an empty photo breakdown, and null exactly for an empty coordinate |
| CreationForm.SubmissionAccepted | frontend/app/crowdfunding/new/page.tsx:81-125 | the creation endpoint accepts a submission iff its task id, creation time and receiver are non-empty and its total cost is a number, and then keeps it unchanged |
| CreationForm.FormRequestAccepted | frontend/app/crowdfunding/new/page.tsx:81-125 | what the form sends, before serialisation, is accepted iff the id, the time and the receiver are non-empty and the costs do not add up to NaN |
| CreationForm.ResultMessage | frontend/app/crowdfunding/new/page.tsx:127-133 | a network error shows its message; a 2xx shows the success text; otherwise a truthy string `error` is shown as is and a falsy one gives "Request failed" |
| CreationForm.RouteReplyMessage | frontend/app/crowdfunding/new/page.tsx:127-133 | against the creation endpoint, the page shows the success text or the endpoint's own error text |
| CreationForm.UnreadableErrorBody | frontend/app/crowdfunding/new/page.tsx:128-129 | a failed reply whose body is not JSON, or is null, shows "Request failed" |
| CreationForm.NewCrowdfundingPage.constructor | frontend/app/crowdfunding/new/page.tsx:29-74 | empty fields, one empty photo entry, not submitting, no message, nothing sent |
| CreationForm.NewCrowdfundingPage.Edit | frontend/app/crowdfunding/new/page.tsx:149-160 | the fields change and nothing else |
| CreationForm.NewCrowdfundingPage.AddPhoto | frontend/app/crowdfunding/new/page.tsx:46-48 | the photo list becomes `AddPhotoField` of the old one; nothing else changes |
| CreationForm.NewCrowdfundingPage.UpdatePhoto | frontend/app/crowdfunding/new/page.tsx:50-52 | the photo list becomes `UpdatePhotoField` of the old one; nothing else changes |
| CreationForm.NewCrowdfundingPage.RemovePhoto | frontend/app/crowdfunding/new/page.tsx:54-56 | the photo list becomes `RemovePhotoField` of the old one; nothing else changes |
| CreationForm.NewCrowdfundingPage.Submit | frontend/app/crowdfunding/new/page.tsx:76-152 | with the button disabled or a blank description nothing is sent; otherwise exactly `BuildSubmission` of the fields and photos is posted, the reply's message is shown and the button is enabled again; the fields and photos are unchanged |
| CreationForm.NewCrowdfundingPage.Post | frontend/app/crowdfunding/new/page.tsx:77-136 | the request is appended to what was sent, the message is shown and `submitting` ends false |

## Left out

- `Widget.CrowdfundWidget` changes the chain's allowance only through its own approvals and mined donations. Approvals or transfers made outside the widget are not modelled, nor is a token that leaves an unlimited allowance unspent.
- The database, the chain and the outside world are inputs or outputs of the two handlers: the Supabase client, ethers (provider, wallet, factory, `tx.wait()`, `parseLog`) and the external task API's `fetch`. Their libraries are not part of this model.
- Contract deployment itself is left out; it appears only as the `DeployRequest` handed on. The value of `ethers.parseUnits(String(target), 18)` is not modelled. Its failure, like a private key the wallet rejects, is the `NotSent` deployment: nothing is sent.
- `Widget.CrowdfundWidget.Donate` does not tell apart an approval the wallet refuses from one whose receipt wait throws. Both are `Abandoned`, and the model assumes neither changed the allowance.
- `parseUnits` in the widget is an abstract function that may fail, and `Number(text)` on the page is an abstract function into numbers. Decimal scaling and IEEE floating point are not modelled, and finite numbers are exact reals.
- JSON serialisation is not modelled. `JSON.stringify` turns NaN and the infinities into `null`, which the endpoint would then refuse as "… is required". `CreationForm.ToPayload` sends numbers as numbers.
- React is not modelled: hook reactivity, the render-time refetch block (`frontend/components/crowdfund-widget.tsx:124-129`), `fmt`/`formatUnits`, and the button labels.
- The states in between the steps of `onSubmit` and `donate` are not modelled. Each handler runs as one step, so the `submitting` flag and the cleared message are never seen in between.
- `uuidv4()` and `new Date().toISOString()` are parameters of `Submit`. The reply of `fetch` is an input.
- `String(v)` on a non-string `error` field is a function parameter of `ResultMessage`.
- Console logging is left out.
- `Text.ToLower` only folds ASCII letters. Chain addresses are hexadecimal ASCII, and full Unicode case mapping is not modelled.
- The zod issue messages the library fills in by default are represented as `None`. For "task_id is required" the handler supplies the message itself, and it is modelled.
- Deployment is triggered only by the handler's stages, not by a completion event. The widget's completion-time dispatch to the tasks endpoint is not part of this model.
- `CreationRoute.Post` treats the final database write-back as either applied or not. An error it returns is ignored by the code, so the response is 200 either way.
- `CreationForm.NewCrowdfundingPage.Submit` runs react-hook-form's `required` rule only on the general description, the one field that declares it. Whitespace-only text counts as filled, as it does in the library.
