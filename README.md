# fuel-price: price extraction and offline cache, modelled in Dafny

The repository has two small programs. The first, `scripts/local_update.js`, is a one-shot refresher. It fetches fuel prices from a third-party API, takes the petrol price, the diesel price and an update time out of a JSON response whose shape is not fixed, and writes `prices.json`. The second, `sw.js`, is a service worker. It serves the app shell and that price document from a cache store, network first for the price document and cache first for everything else.

This project models the decision logic of both programs and proves what that logic promises.

- `js_runtime.dfy` (`JsRuntime`): the part of JavaScript the scanner relies on. It has decoded JSON values (`Value`), JavaScript numbers (`JsNumber`, where truthy means neither NaN nor zero), `typeof`, `Object.keys` (an array's keys are its indices written in decimal), ASCII lower-casing and substring search. `String(v)` and `Number(v)` return a `Completion`: a value, or the `TypeError` thrown for an object that has its own `toString` key. The parts that are floating point or regular-expression engines are the fields of a `Host` record of total functions: `String` of a number, `Number` of a string, `JSON.stringify` and the two `match` calls. Every operation takes a `Host` as a parameter, so every property holds for every choice of those functions.
- `find_numbers.dfy` (`FindNumbers`): `findNumbersInObject` and its recursive `scan`. The closure's three variables become the fields of a `Scanner` class. `Scan` is a recursive method with the source's loop over the keys. `VisitKey` is the body of that loop. `Scan` is proved equal to two specification functions: `ScanValue` gives the slots, and `ScanThrows` says whether a `String(v)` throws on the way. Both functions take the alias test as a parameter. `AsWritten` is the script's test; the methods use it. `CaseInsensitive` is the corrected test of the finding below. Two reference definitions stand beside the walk. `Visits` flattens the tree into the (key, value) pairs in depth-first key order. `KeepFirst` is a write-once slot that a falsy value does not lock. The lemmas connect the walk to both.
- `local_update.dfy` (`LocalUpdate`): lines 53-85 of `run`. This covers the choice of the candidate record, the regular-expression fallback, and the three endings: a written snapshot, exit status 2, or status 3 from a caught `TypeError`. `Run` is the method that reassigns `candidate`, `petrol` and `diesel` step by step, as the source does. `Extract` is the function it is proved against.
- `service_worker.dfy` (`ServiceWorker`): the asset list, the install step (all or nothing) and the fetch routing. A `Worker` class holds the store as a `map` from request to response. The network is an input, where `None` means the fetch rejected. `Handle` is the pure routing function that the methods are proved against.
- `wrappers.dfy` (`Wrappers`): `Option`, used for JavaScript's `null`.

What the code does, in the cases a reader might not expect:
- The alias lists are compared with the lower-cased key. So the listed aliases `petrolPrice` and `dieselPrice` never match, and `{"petrolPrice": 95, "diesel": 88}` ends with status 2 when the text fallback finds fewer than two numbers (see Findings).
- The fallback always gives petrol the first matched number and diesel the second. It fills only a field that is still falsy. The first unset field does not take the first number.
- A price found as 0 or NaN is falsy, so a later match still replaces it. An `updated_at` found as the empty string can be replaced in the same way.
- `scan` enters arrays too, through their index keys. Those keys never match an alias or a date name (`ArrayIndexKeysAreInert`).
- `updated_at` takes `String(v)` of any value, objects and arrays included. An object with its own `toString` key makes that call throw. The same happens to the numeric test of an alias key, so the run ends in the `catch` with status 3 (`OwnToStringCrashesRun`).
- The price-document test reads only the path. A `/prices.json` request with a query, or from another origin, is also served network first.
- Install fails when any asset fetch rejects, answers with a status outside 200-299, or answers with a partial (206) response. `Cache.addAll` rejects all three, so no asset is stored (`Storable`, `PartialAssetFailsInstall`).

## Model

| member | source | states |
|---|---|---|
| `JsRuntime.ToJsString` | scripts/local_update.js:29-31 | `String(v)` never throws for null or a scalar; for an object it throws exactly when the object has its own `toString` key |
| `JsRuntime.ToNumber` | scripts/local_update.js:29-30 | `Number(v)` throws exactly when `String(v)` does, and is the number itself for a number |
| `JsRuntime.NumericTest` | scripts/local_update.js:29-30 | the numeric test throws exactly when the value is not a number and `String(v)` throws; when it passes, `Number(v)` does not throw |
| `FindNumbers.ScanValue` | scripts/local_update.js:24-35 | the slots after `scan(o)`: a truthy price or a non-empty `updated_at` is never changed, and a value without keys changes nothing |
| `FindNumbers.ScanFrom` | scripts/local_update.js:26-33 | the key loop from index `i` on also never changes a truthy slot |
| `FindNumbers.Scanner.constructor` | scripts/local_update.js:22 | the three slots start as `null` |
| `FindNumbers.Scanner.VisitKey` | scripts/local_update.js:27-31 | lines 29-31 for one key: reports a throw exactly when `VisitThrows` holds, and otherwise leaves the slots as `Visit` gives them |
| `FindNumbers.Scanner.Scan` | scripts/local_update.js:24-35 | `scan(o)` reports a throw exactly when `ScanThrows` holds, and otherwise leaves the slots equal to `ScanValue` of the old slots and `o`, with the script's alias test |
| `FindNumbers.FindNumbersInObject` | scripts/local_update.js:17-38 | throws exactly when the walk from all-null slots throws, and otherwise returns the slots that walk produces |
| `FindNumbers.ScanIsVisitAll` | scripts/local_update.js:24-35 | the recursive walk equals visiting, left to right, the list of pairs in depth-first key order at every nesting depth |
| `FindNumbers.ScanFromIsVisitAll` | scripts/local_update.js:26-33 | the key loop from index `i` on equals visiting the flattened pairs from key `i` on, each key's subtree straight after the key |
| `FindNumbers.ScanThrowsIsThrowsAll` | scripts/local_update.js:24-35 | the recursive walk throws exactly when visiting the flattened pairs from left to right throws |
| `FindNumbers.ThrowsFromIsThrowsAll` | scripts/local_update.js:26-33 | the key loop from index `i` on throws exactly when visiting the flattened pairs from key `i` on throws |
| `FindNumbers.ScanThrowsOnlyOnFailingConversion` | scripts/local_update.js:29-31 | a walk in which every visited value has a `String(v)` that does not throw never throws |
| `FindNumbers.ThrowAtVisit` | scripts/local_update.js:29-31 | once the walk reaches a pair whose conversion throws in the current slots, the whole walk throws, whatever follows |
| `FindNumbers.ScanPriceIsFirstTruthyOffer` | scripts/local_update.js:29-30 | each price ends as `KeepFirst` over the numbers that alias keys with numeric-looking values offer, in traversal order: the first truthy one wins and falsy ones can be overwritten |
| `FindNumbers.ScanUpdatedAtIsFirstNonEmpty` | scripts/local_update.js:31 | without a throw, `updated_at` ends as `KeepFirst` over the string forms of the values of keys whose lower-cased name contains `updated`, `date` or `time` |
| `FindNumbers.FindNumbersTakesFirstTruthyOffer` | scripts/local_update.js:29-30 | from empty slots, the price found is the first truthy offered number, wherever it is nested |
| `FindNumbers.FindNumbersKeepsLastFalsyOffer` | scripts/local_update.js:29-30 | when every offered number is 0 or NaN, the last one offered is what remains |
| `FindNumbers.ScanWithoutNumericAliasKeepsPrice` | scripts/local_update.js:19-30 | a price changes only through a key that matches an alias after lower-casing and whose value is a number or has a string form starting with a digit |
| `FindNumbers.VisitsEnterChild` | scripts/local_update.js:32 | the pairs of a nested object or array are visited right after the key that holds it |
| `FindNumbers.ArrayIndexKeysAreInert` | scripts/local_update.js:26-31 | under either alias test, an array's decimal index keys never match a price alias or a date name |
| `FindNumbers.ScanOfOneKey` | scripts/local_update.js:26-33 | the walk of a one-key object is the visit of that key followed by the walk of its value |
| `FindNumbers.ScanOfTwoKeys` | scripts/local_update.js:26-33 | the walk of a two-key object visits the first key and its subtree, then the second key and its subtree |
| `FindNumbers.RecordWithBothPrices` | scripts/local_update.js:26-30 | `{petrol: p, diesel: d}` with non-zero numbers gives exactly those prices and no timestamp, and does not throw |
| `FindNumbers.ZeroPriceIsOverwritten` | scripts/local_update.js:29 | under either alias test, a petrol price found as 0 is replaced by a later, deeper `Petrol: "101.2"` |
| `FindNumbers.CapitalisedPetrolKey` | scripts/local_update.js:28-29 | the key `Petrol` is lower-cased before the alias test, so under either alias test `{"Petrol": "101.2"}` fills a falsy petrol slot |
| `FindNumbers.ToStringKeyUnderDateThrows` | scripts/local_update.js:31 | a date-like key reached with an empty `updated_at`, holding any object with its own `toString` key (whatever its other keys), makes the walk throw |
| `FindNumbers.CamelCaseAliasesUnreachableAsWritten` | scripts/local_update.js:19-20 | as written, no lower-cased key equals `petrolPrice` or `dieselPrice`, so the key `petrolPrice` is not recognised |
| `FindNumbers.CorrectedAliasesAddOnlyCamelCase` | scripts/local_update.js:19-30 | the case-insensitive match accepts exactly the keys the written lists accept, plus those equal to the camel-case alias up to case |
| `FindNumbers.CamelCaseKeyDecidesPetrol` | scripts/local_update.js:19-29 | `{"petrolPrice": x}` leaves petrol unset under the script's test and sets it to `x` under the corrected one |
| `LocalUpdate.ExitCode` | scripts/local_update.js:68-85 | status 0 exactly for a written snapshot, 2 exactly for the extraction failure, 3 exactly for a caught exception |
| `LocalUpdate.Candidate` | scripts/local_update.js:53-54 | a non-empty array stands for its last element; anything else, the empty array included, for itself |
| `LocalUpdate.FallbackNumbers` | scripts/local_update.js:61 | the two-decimal matches when there are any, otherwise the one-to-two-decimal matches |
| `LocalUpdate.Fallback` | scripts/local_update.js:59-66 | the text fallback leaves truthy prices and `updated_at` alone; it applies only when a price is falsy and at least two numbers matched; it then fills petrol from the first number and diesel from the second |
| `LocalUpdate.Decide` | scripts/local_update.js:68-78 | a snapshot exactly when both prices are truthy, holding those prices and `updated_at`, or the current time when `updated_at` is falsy |
| `LocalUpdate.Extract` | scripts/local_update.js:53-85 | the run crashes exactly when the scan of the candidate throws; a written snapshot has two truthy prices; without a throw, a snapshot is written exactly when both prices are truthy after the fallback |
| `LocalUpdate.Run` | scripts/local_update.js:53-85 | the step-by-step run, with the script's alias test, returns the outcome `Extract` defines |
| `LocalUpdate.OnlyLastElementScanned` | scripts/local_update.js:53-56 | for a non-empty array, only the last element is scanned; the earlier elements affect neither the structural result nor whether it throws |
| `LocalUpdate.WholeValueScannedOtherwise` | scripts/local_update.js:53-56 | anything but a non-empty array, the empty array included, is scanned as a whole; the empty array yields nothing and does not throw |
| `LocalUpdate.StructuralPriceWins` | scripts/local_update.js:59-65 | a truthy petrol price from the scan is the petrol price written; the fallback never overrides it |
| `LocalUpdate.BothFoundStructurally` | scripts/local_update.js:59-78 | when the scan finds both prices without a throw, the fallback is skipped and the snapshot holds the scanned values |
| `LocalUpdate.LoosePatternOnlyAsLastResort` | scripts/local_update.js:61 | when the two-decimal pattern matches, the one-to-two-decimal pattern has no influence |
| `LocalUpdate.LatestRecordOfHistory` | scripts/local_update.js:53-78 | `[{petrol:90,diesel:80},{petrol:95,diesel:85}]` gives the snapshot 95/85 stamped with the current time |
| `LocalUpdate.DieselFromSecondFallbackNumber` | scripts/local_update.js:59-78 | with petrol found, diesel missing and fallback numbers `91.23`, `88.10`, diesel is `Number("88.10")` and petrol stays |
| `LocalUpdate.OwnToStringCrashesRun` | scripts/local_update.js:31 | `{"petrol":90,"diesel":80,"date":{"toString":1}}` crashes with exit status 3 |
| `LocalUpdate.CamelCaseRecord` | scripts/local_update.js:19-30 | `{"petrolPrice":95,"diesel":88}` does not throw; its scan finds diesel 88 and finds petrol 95 only under the corrected test |
| `LocalUpdate.CamelCaseRecordFailsAsWritten` | scripts/local_update.js:19-72 | as written, `{"petrolPrice":95,"diesel":88}` ends with status 2 when the text fallback finds fewer than two numbers |
| `LocalUpdate.CamelCaseRecordWrittenWhenCorrected` | scripts/local_update.js:19-78 | with the corrected test, the same response writes the snapshot 95/88 |
| `ServiceWorker.Match` | sw.js:34 | `caches.match` gives the stored response exactly when the request is stored |
| `ServiceWorker.AssetEntries` | sw.js:2-13 | the entries `addAll` stores are keyed by exactly the asset requests of the worker's origin |
| `ServiceWorker.Installed` | sw.js:11-16 | a successful install adds exactly the asset requests, each mapped to its fetched response, and keeps every other entry; a failed one leaves the store as it was |
| `ServiceWorker.Handle` | sw.js:22-43 | a fetch adds a key only when it fetches the price document online, and never changes any other request's entry |
| `ServiceWorker.Worker.constructor` | sw.js:1 | the worker starts with its own origin and the store `CACHE_NAME` already holds: empty on first registration, or the entries an earlier version of the worker with the same cache name left, which keep the store-keys invariant |
| `ServiceWorker.Worker.Install` | sw.js:11-16 | reports whether every asset fetch gave a response `addAll` accepts, and leaves the store as `Installed` says, keeping the store-keys invariant |
| `ServiceWorker.Worker.Fetch` | sw.js:22-43 | returns the response and leaves the store as `Handle` says, keeping the store-keys invariant |
| `ServiceWorker.InstallStoresEveryAsset` | sw.js:2-13 | after a successful install, each asset request maps to its fetched response |
| `ServiceWorker.FailedInstallChangesNothing` | sw.js:13 | one asset fetch that rejects, is not ok, or is a partial 206 response leaves the store unchanged |
| `ServiceWorker.PartialAssetFailsInstall` | sw.js:13 | a 206 asset response, though its status is ok, makes the install fail and leaves the store unchanged |
| `ServiceWorker.AssetRequestsAreTheSixPaths` | sw.js:2-9 | the asset requests are exactly the six listed paths on the worker's origin, with an empty query |
| `ServiceWorker.PriceDocumentNetworkFirst` | sw.js:26-33 | for `/prices.json` online, the network's response of any status is returned and stored under the request |
| `ServiceWorker.PriceDocumentAnyOriginOrQuery` | sw.js:23-26 | `/prices.json` from any origin and with any query takes the network-first branch; with a query it is not the installed asset |
| `ServiceWorker.PriceDocumentOffline` | sw.js:34 | for `/prices.json` offline, the stored entry (or nothing) is returned and the store is unchanged |
| `ServiceWorker.OfflineServesLastFetchedPrices` | sw.js:26-34 | after an online fetch of the price document, an offline fetch returns that same response |
| `ServiceWorker.StoredEntryIgnoresNetwork` | sw.js:41 | for other requests, a stored entry is returned whatever the network would give |
| `ServiceWorker.MissPassesThrough` | sw.js:41 | for other requests, a miss returns the network's result, a rejection included, and stores nothing |
| `ServiceWorker.CacheFirstNeverWrites` | sw.js:40-42 | the cache-first branch never modifies the store |
| `ServiceWorker.InstalledShellServedOffline` | sw.js:11-42 | after a successful install, every shell asset but the price document is served from the store |
| `ServiceWorker.InstalledPricesServedOffline` | sw.js:11-34 | after a successful install, the price document is available offline as installed |
| `ServiceWorker.StoreKeysStayValid` | sw.js:11-43 | install and fetch keep every stored key an asset request or a price-document request |

## Left out

- The credential check and exit status 1 (scripts/local_update.js:8-15) are I/O on the environment, so they are not modelled.
- The HTTP request, its headers, the `res.ok` check and `res.json()` (lines 42-51) are network I/O. The decoded response is an input instead. The top-level `catch` (lines 82-85) is modelled only for the `TypeError` that `String(v)` throws during the scan. The network, decoding and file-system errors it also catches are I/O.
- `fs.writeFile`, the console output and the 2000-character diagnostic dump (lines 69-70, 80-81) are I/O. The model returns the record or the failure as a value, and `ExitCode` gives the status.
- `Number()` of a string, `String()` of a number, `JSON.stringify` and the two regular expressions are floating point or a regex engine. They are the abstract fields of `Host`. Nothing is assumed about them. `JSON.stringify` of decoded JSON does not throw.
- `new Date().toISOString()` is the clock. It is the `now` parameter.
- `toLowerCase` is modelled on ASCII letters only. Non-ASCII case mapping is not modelled.
- The order of `Object.keys` is taken to be the order of an `Obj`'s field list. JavaScript's rule that integer-like keys come first is not modelled, and neither is `JSON.parse` keeping the last of duplicate keys.
- Decoded JSON is a finite tree, so there are no cycles. Stack exhaustion on very deep input is not modelled.
- The slots a throwing scan leaves behind are not modelled, since the exception discards them.
- The service-worker lifecycle (`skipWaiting`, `clients.claim`, `waitUntil`, `respondWith`) and the promise scheduling are platform concerns and are not modelled.
- `cache.put` is modelled as completing at once, although the source does not await it (sw.js:31). Its own failures, such as a partial 206 response, are not modelled.
- `caches.match` searches every cache. The model has the single store `CACHE_NAME` names.
- `Installed`: `Cache.addAll` also rejects a response carrying the header `Vary: *`. `Response` has no headers, so that rejection is not modelled.
- URL parsing (sw.js:23) is not modelled. A `Request` carries its origin, pathname and query. Request methods, headers and `Vary` matching are not modelled.

## Findings

| source | as written | input that shows it | evidently intended | confidence | as-written member | corrected member |
|---|---|---|---|---|---|---|
| scripts/local_update.js:19-20 | the alias lists contain `petrolPrice` and `dieselPrice`, but they are compared with the lower-cased key `kn`, so these two aliases can never match | `{"petrolPrice": 95, "diesel": 88}` with fewer than two fallback numbers: the key becomes `petrolprice`, which is not in the list, and the run exits with status 2 | keys matched case-insensitively against every listed alias, so `petrolPrice` sets the petrol price | high that the aliases are dead; likely unintended; not executed | `LocalUpdate.CamelCaseRecordFailsAsWritten` | `LocalUpdate.CamelCaseRecordWrittenWhenCorrected` |

`Run`, `Scan` and `FindNumbersInObject` follow the script as written. The corrected test is the `CaseInsensitive` alias matching. Every lemma that takes the alias test `m` holds for both tests. The lemmas named after the camel-case aliases are stated for one test each, since they show where the two differ.
