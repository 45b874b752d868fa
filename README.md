# Outcome resolution of the mock call blaster

The mock call-blaster backend stores simulated voice calls in two collections, Call and TtsCall. By default
every document starts with `result` set to `"waiting"`. A creating request can set `result` itself, and
`uuid` and `status` too, because the handlers spread the request body over the defaults. The model
therefore accepts any initial documents. A timer runs a sweep over the waiting documents. For each
one the sweep:

1. draws an outcome label from the weighted Status collection (`getStatus`);
2. classifies the label as `"success"` or `"error"`;
3. sends an eight-field notification to the document's own callback URL;
4. saves the new `status` and `result` only when the endpoint answers `ok`.

This project models that sweep in Dafny and proves what it does:

- `wrappers.dfy`: `Option`, where `None` stands for JavaScript's `undefined`.
- `selector.dfy`: the weighted selector. The weights and the draw are exact reals. The value `Math.random()`
  returns is a parameter `u` in [0, 1), and the draw is `u * total`. `GetStatus` keeps the source's
  `for` loop, which subtracts each weight from `random`. It is proved equal to `Selected`, an independent
  definition: the label at the first index whose cumulative weight (entries 0..i) exceeds the draw.
- `classifier.dfy`: the `switch` from a label, possibly missing, to `"success"` or `"error"`.
- `records.dfy`: the fields of a Call/TtsCall document that the sweep uses. It also holds the in-memory
  update of `status` and `result`, and the notification payload read off the updated document.
- `sweep.dfy`: the two collections as a `Store` class whose fields are maps from uuid to document.
  - The query `Find` is proved against its own contract: every waiting uuid once, nothing else.
  - The per-document callback `Resolve` is proved against `Settle`, the document's state after its turn.
  - The loop `ResolveAll` is proved against `SettledAt`, the collection with the queued documents settled.
  - The sweep itself is proved equal to `Swept`, the function giving each collection after one sweep.

  The world outside is given as oracles:
  - whether the two queries succeed;
  - what each `getStatus` call reads and draws;
  - whether the endpoint answers a request `ok`;
  - whether the following save succeeds.

What the code does, which the model follows:

- `getStatus` returns `undefined` when reading the Status collection fails, or when no running total of
  the weights exceeds the draw (`Drawn`). In exact arithmetic and with non-negative weights, the second
  case happens exactly when the collection is empty or all its weights are zero (`NoLabelIff`,
  `UnconfiguredIsUndefined`). Weights are not
  checked, so a list with a negative weight can fall through too (`NegativeWeightFallsThrough`). The
  sweep does not skip a document whose label is `undefined`. It classifies the missing label as
  `"error"` and sends a notification whose serialised body has no `result` key (`JSON.stringify` drops
  `undefined`). When the endpoint answers `ok`, the save writes status `"error"` and unsets `result`. The
  document then no longer matches `{ result: 'waiting' }` and is never retried
  (`UndefinedLabelDropsResult`).
- The sweep draws afresh for every document still waiting. It keeps no earlier draw.
- Delivery is at least once: if the endpoint answered `ok` but the save failed, the document stays waiting
  and is notified again on the next sweep.
- If a configured Status label is literally `"waiting"`, a document resolved with it stays waiting
  (`StillWaitingIff`).
- The selector does not check that weights are non-negative. The lemmas that need non-negative weights
  say so.

## Model

| member | source | states |
|---|---|---|
| `Selector.Total` | index.js:205 | the `reduce` sum of the weights: never negative when no weight is, and zero when every weight is |
| `Selector.TotalSplit` | index.js:205 | the total is the total of any prefix plus the total of the remaining entries |
| `Selector.Draw` | index.js:205-206 | the draw `Math.random() * totalWeight` lies in [0, total) when the total is positive, and is 0 when the total is 0 |
| `Selector.Selected` | index.js:205-213 | the label the walk is meant to pick for a draw; any label it gives is one of the configured labels |
| `Selector.GetStatus` | index.js:202-219 | the subtracting `for` loop returns exactly the label at the first index whose cumulative weight exceeds the draw, and `undefined` when there is none; for a draw in [0, total) its invariant keeps the remaining draw non-negative and below the sum of the weights not yet passed |
| `Selector.RemainderStep` | index.js:209-212 | passing an entry without choosing it leaves the remaining draw non-negative and below the sum of the entries after it |
| `Selector.SelectedAt` | index.js:208-211 | the first crossing is unique, so the label at it is the one selected |
| `Selector.SelectedNoneIff` | index.js:208-214 | the walk falls through to `undefined` if and only if no prefix's cumulative weight exceeds the draw |
| `Selector.PositiveTotalSelects` | index.js:205-213 | with a positive total the walk always returns a label and never falls through |
| `Selector.ZeroWeightNeverChosen` | index.js:209-212 | with non-negative weights the remaining draw never goes negative, so an entry of weight zero is never chosen |
| `Selector.SomeWeightPositiveTotal` | index.js:205 | non-negative weights with at least one non-zero weight have a positive total |
| `Selector.NoLabelIff` | index.js:205-214 | with non-negative weights the walk yields `undefined` if and only if the list is empty or all its weights are zero |
| `Selector.NoWeightNoLabel` | index.js:205-214 | an empty Status list, or one whose weights are all zero, yields `undefined` |
| `Selector.NegativeWeightFallsThrough` | index.js:205-214 | weights are not checked: one label with weight -1 read successfully still yields `undefined` |
| `Selector.HalfDrawPicksAnswered` | index.js:205-211 | for weights ANSWERED 70, NOANSWER 20, CONGESTION 10 and random factor 0.5, the draw is 50 and ANSWERED is selected |
| `Classifier.Classify` | index.js:233-244 | total: every label and the missing label map to "success" or "error", and to "success" exactly for ANSWERED |
| `Classifier.KnownLabels` | index.js:234-244 | ANSWERED is "success"; CONGESTION, NOANSWER and `undefined` are "error" |
| `Records.WithOutcome` | index.js:246-247 | the in-memory document takes the classification as `status` and the raw label as `result`, and keeps every other field |
| `Records.Notification` | index.js:248-257 | each of the eight payload fields is the document's field of the same name, and the serialised body has all eight keys exactly when the document has a result |
| `Records.RequestFor` | index.js:259-261 | the request goes to the document's own `notifyUrl` with its own `notifyHttpMethod`, and its body is the whole eight-field payload of the document |
| `Records.NotificationOfOutcome` | index.js:246-257 | the payload copies uuid, testMode, pressElection, blasterType, auxiliaryField and number from the document unchanged, and carries the classification and the raw drawn label |
| `Records.JsonKeys` | index.js:248-261 | the serialised body has exactly the eight payload keys when a label exists, and exactly the seven others when the label is `undefined`, which `JSON.stringify` drops |
| `Records.SerializedKeys` | index.js:248-261 | the serialised body has exactly the eight keys if and only if a label was drawn |
| `Sweep.Drawn` | index.js:202-219 | the label one `getStatus` call returns: `undefined` exactly when the read failed (the `catch`) or no running total exceeds the draw, and otherwise one of the labels read |
| `Sweep.UnconfiguredIsUndefined` | index.js:204-218 | a failed read, an empty Status list and an all-zero Status list each give `undefined` |
| `Sweep.IsWaiting` | index.js:225-226 | the query filter `{ result: 'waiting' }` |
| `Sweep.Confirmed` | index.js:266-275 | a document's turn is confirmed when the request built from its updated copy is answered `ok` and the following save succeeds |
| `Sweep.Settle` | index.js:231-282 | after its turn a waiting document holds the classification and the drawn label, all else unchanged, when confirmed, and is exactly as it was otherwise |
| `Sweep.Swept` | index.js:225-282 | one sweep leaves every key in place and never touches a document that is not waiting; documents stay stored under their own uuid |
| `Sweep.SweepWritesOnlyConfirmed` | index.js:246-282 | a waiting document is rewritten with the drawn label and its class only when the notification is answered `ok` and the save succeeds, and that request was sent for what is stored; otherwise it is unchanged and still waiting |
| `Sweep.NotifiedUnderOwnUuid` | index.js:248-270 | in a collection keyed by uuid, a confirmed notification for the document under `id` carries `id` as its uuid, and the saved document keeps it |
| `Sweep.StillWaitingIff` | index.js:225-282 | after a sweep a document is waiting if and only if it was waiting and either its delivery was not confirmed or the drawn label was "waiting" |
| `Sweep.ConfiguredSweepResolves` | index.js:231-275 | with a positive total weight a confirmed document is saved with a configured label, and its status is "success" exactly for ANSWERED |
| `Sweep.UndefinedLabelDropsResult` | index.js:231-275 | whenever `getStatus` yields `undefined`, a confirmed document is saved with status "error" and no result, leaves the waiting set, and was notified without a `result` key |
| `Sweep.ResolvedIsTerminal` | index.js:225-226 | a document that a sweep resolved with a label other than "waiting" is left alone by every later sweep, whatever that sweep draws or hears |
| `Sweep.Queue` | index.js:228 | the queue holds the waiting Call documents in their query order, then the waiting TtsCall documents in theirs, each exactly once |
| `Sweep.QueuedExactlyWaiting` | index.js:225-228 | the queue built from the two query results holds exactly the waiting documents of each collection |
| `Sweep.Store.Find` | index.js:225-226 | the query returns every waiting uuid of the collection exactly once and nothing else |
| `Sweep.Store.Resolve` | index.js:230-283 | the callback changes only its own document, which it sets to that document's settled state, and leaves the other collection alone |
| `Sweep.Store.ResolveAll` | index.js:230-284 | resolving a duplicate-free queue one document at a time settles exactly the queued documents |
| `Sweep.Store.Sweep` | index.js:223-288 | a failed query changes nothing; otherwise both collections become exactly `Swept` of their old contents, and documents stay stored under their own uuid |

## Left out

- The Express routes, the API-key middleware and `app.listen` (index.js:88-200) are request handling, not part of the sweep. So are the audio and TTS-template endpoints.
- The Mongoose schemas and the connection (index.js:7-86) are left out. The store is two in-memory maps. Fields that the sweep neither reads nor writes are not carried: audioId, amd, durationCall, ringTime, amdMessage, templateId, voiceId and templateParams.
- `find` and `save` are database I/O. Their success or failure is an oracle input.
- `fetch`, the request headers and `JSON.stringify` are network I/O. The dispatcher is an oracle from the request (URL, method, payload) to "answered `ok`". A rejected fetch and a non-`ok` answer are the same outcome. The serialised body is modelled only by the set of keys it carries.
- `setInterval`, `INTERVAL` and the timing of sweeps are scheduling. One sweep is one method call.
- The concurrent `async forEach` is modelled sequentially. Each callback writes only its own document, and the model resolves every document from the copy the query returned. Overlapping sweeps, and a save racing a later query, are not modelled.
- `Math.random()` is replaced by the parameter `u` in [0, 1). IEEE-754 rounding in `reduce`, `Math.random() * totalWeight` and `random -= status.weight` is not modelled: the arithmetic is exact over reals. With doubles, rounding can make the walk fall through to `undefined` even though the total is positive (weights 0.1, 0.2 and 0.3 sum to 0.6000000000000001, and a factor just below 1 draws 0.6, which leaves 0.3 before the last entry and `0.3 < 0.3` fails). `PositiveTotalSelects`, `NoLabelIff` and `ConfiguredSweepResolves` hold in the exact model only.
- Each `getStatus` call reads the Status collection itself. The model gives each document's read as its own oracle value. It does not model the read's timing relative to other documents.
- `uuidv4`, `dotenv` and the `console` logging have no logic to model.
