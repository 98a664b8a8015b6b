# DEQ — the Digital Event Queue, modelled in Dafny

DEQ is a browser-side event queue. Every call to `push(command)` is recorded in the queue's history and then handled:

- `ADD EVENT` records an event. It merges global, persisted and deferred data into the event's data. Then it hands the event to every listener whose `matchEvent` pattern matches the event name.
- `ADD LISTENER` registers a handler. Unless `skipHistory` is set, it replays the past events to that handler.
- `GLOBAL DATA` merges data into every later event.
- `PERSIST DATA` and `DEFER DATA` keep data for later events with a matching name.

Every fault is reported by pushing a `"deq error"` event back into the same queue.

There are three engines:

- `src/DEQcore.js` (variant `Core`).
- `src/DigitalEventQueue.js` (variant `Cookie`). It adds persist and defer arrays kept in cookies.
- `src/DigitalEventQueueWithPersist.js` (variant `WithPersist`). It routes PERSIST DATA, DEFER DATA and ADD EVENT through the four-tier store of `src/PersistInterface.js`. That store has pageload, session, lasting and defer tiers. Each property has an expiry, which can slide forward (renew).

A singleton factory, `src/DEQFactory.js`, hands out one queue per name.

The model is split into modules:

- `Values`: JavaScript values. Also the recursive `mergeObj`, `deepCopy` and `copyObj` shared by the engines.
- `Keys`: a total order on strings, used for the order in which object keys are visited.
- `Coerce`: JavaScript's `String()`, `Number()`, `parseInt`, `isNaN` and loose `==` on the values the queue sees.
- `Domain`: `getTopLevelDomain` and the cookie domain.
- `Storage`: what one persist store holds, and what each store operation does to it, as functions.
- `Stores`: the class `PersistStore`. Its methods run the source's loops over a `storage` field and are proved to compute the `Storage` functions.
- `PersistMerge`: the store's own imperative `mergeObj`, proved equal to `Values.MergeObj`.
- `Persist`: the class `PersistInterface` with its four stores, and the functions its methods are proved to compute.
- `PersistProps`: what the persist interface promises.
- `Bus`: the engine (`push` and every command handler) as mutually recursive functions on a `State`. The three variants are one definition with a `variant` switch, because the dispatch code is the same in the three files.
- `BusProps`: what the engine promises.
- `Queue`: the class `EventQueue`. Its fields are the queue's arrays. Each method is proved to leave `Snapshot() == Bus.X(old(Snapshot()))`.
- `Factory`: the per-name registry inside the queue constructor, and `DEQFactory.get`/`getAll`.

Parameters stand in for the page:

- The clock is a `now` argument.
- Regular-expression matching is a `matches(pattern, name)` function.
- Each listener's handler is given by a `handlers(id, eventName, data)` function. It returns `None` when the handler returns, or `Some(e)` when it throws `e`.
- The page's hostname is `host`.
- The cookie jar is a map from cookie name to the stored content.

## Model

| member | source | states |
|---|---|---|
| Values.DeepCopyIsIdentity | src/DEQcore.js:76-88 | deepCopy returns a value equal to its argument (a structural copy). |
| Values.CopyObjIsIdentity | src/DEQcore.js:91-93 | copyObj of a plain object is equal to it; of anything else it is `{}`. |
| Values.MergeIntoEmptyIsIdentity | src/DEQcore.js:50-68 | Merging an object into `{}` gives back that object's fields. |
| Values.MergePairIsMergeFields | src/DEQcore.js:50-68 | mergeObj(a, b) on two objects is b's keys written over a's, recursively. |
| Values.MergeObjKeys | src/DEQcore.js:50-68 | The keys of mergeObj's result are exactly the union of the keys of its object arguments. |
| Values.MergeLeafFromLastHolder | src/DEQcore.js:56-63 | A non-object value comes from the last argument that holds the key. |
| Values.MergeNestedObjects | src/DEQcore.js:58-59 | When both sides hold an object under a key, the result holds the recursive merge of the two. |
| Values.MergeSkipsNonObject | src/DEQcore.js:54-55 | Arguments that are not plain objects are ignored. |
| Values.MergeFieldsIdempotent | src/DEQcore.js:50-68 | Merging an object into itself changes nothing. |
| Values.MergeObjIdempotent | src/DEQcore.js:50-68 | mergeObj(v, v) equals v. |
| Keys.Sorted | src/PersistInterface.js:409 | Object keys are visited as a duplicate-free sequence holding exactly the object's keys, in ascending code-unit order. |
| Coerce.IntToStringRoundTrip | src/PersistInterface.js:135-137 | Number() and parseInt read the decimal text of any integer back as that integer, so a numeric expiry passes `!isNaN` and parses to itself. |
| Coerce.NumericStringParses | src/PersistInterface.js:240-244 | A string that is not blank and that Number() reads is read to the same integer by parseInt, white space around it included. |
| Coerce.ParseIntSkipsSpace | src/PersistInterface.js:244 | parseInt ignores any white space and line terminators put in front of its argument, not only spaces. |
| Coerce.BlankStringIsNumericButNotParsable | src/PersistInterface.js:240-244 | A blank string (`""`, `" "`, a tab) passes `!isNaN` because Number() trims it to 0, but parseInt fails on it. |
| Coerce.SessionIsNotNumeric | src/DigitalEventQueue.js:278 | Number("SESSION") and Number("PAGELOAD") are NaN, so a number is never loosely equal to either name. |
| Coerce.LooseEqualsStringOnStrings | src/DigitalEventQueueWithPersist.js:41 | Loose `==` against a string is string equality on strings; undefined and null are never equal to a string. |
| Coerce.SingletonArrayLooselyEqualsItsString | src/DigitalEventQueueWithPersist.js:41 | `["deq error"] == "deq error"` holds under loose equality. |
| Coerce.ToLowerAsciiIdempotent | src/DigitalEventQueue.js:276 | Lower-casing twice is lower-casing once. |
| Coerce.ReplaceFirstSpaceShape | src/DigitalEventQueue.js:276 | `replace(" ","_")` with a string pattern replaces only the first space: the result is the text before the first space, "_", and the rest unchanged, later spaces included; without a space nothing changes. |
| Coerce.ObjectPropsShape | src/PersistInterface.js:409 | `Object.keys` throws exactly on undefined and null; it lists one property per field of an object and per item of an array. |
| Coerce.MapProps | src/PersistInterface.js:173-177 | The properties of a plain object are its fields, each once, with its value. |
| Domain.JoinSplit | src/PersistInterface.js:94 | Joining the parts of `host.split(".")` with dots gives the host back. |
| Domain.TopLevelDomainNoDot | src/PersistInterface.js:95 | A host without a dot (localhost) is its own top-level domain. |
| Domain.TopLevelDomainLastTwo | src/PersistInterface.js:96-98 | For a regular host the domain is the last two labels, a suffix of the host. |
| Domain.TopLevelDomainLastThree | src/PersistInterface.js:99-103 | When the second-level label is "com" or "co", the domain is the last three labels, a suffix of the host. |
| Domain.TwoLabelCountryDomain | src/PersistInterface.js:99-103 | For the host "co.uk" the code builds "undefined.co.uk", which is not a suffix of the host. |
| Domain.CookieDomainNoDot | src/PersistInterface.js:68-72 | Every hostname without a dot (localhost) sets no cookie domain. |
| Domain.CookieDomainLastTwo | src/PersistInterface.js:68-72 | Every hostname whose second-to-last label is neither "com" nor "co" sets its cookies on its last two labels; it sets no domain exactly when that label is empty. |
| Storage.Find | src/PersistInterface.js:168-171 | The index of a pattern is its first (only) position; none when absent. |
| Storage.FirstHolder | src/PersistInterface.js:217-224 | findEventMatchForKey gives the first pattern whose data holds the key, or none when no pattern holds it. |
| Storage.RemoveEverywhereClears | src/PersistInterface.js:226-237 | remove(key) without a pattern deletes the key from the data and attributes of every holder and changes nothing else. |
| Storage.RemoveAtTouchesOnePattern | src/PersistInterface.js:226-234 | remove(key, pattern) deletes the key under that pattern only. |
| Storage.RemoveAsWrittenAgrees | src/PersistInterface.js:226-237 | When no holder is named "", the source's removal loop removes the key from every holder, as intended. |
| Storage.RemoveAsWrittenMissesEmptyPattern | src/PersistInterface.js:228-236 | A key stored under the pattern "" survives remove(key) as written; the corrected removal deletes it. |
| Storage.RemoveAsWrittenIgnoresEmptySpecificPattern | src/PersistInterface.js:228-230 | remove(key, "") as written deletes nothing; the corrected removal deletes the key under "". |
| Storage.SweepAsWrittenKeepsExpiredKey | src/PersistInterface.js:125-151 | checkAndUpdateExpiryAttributes as written keeps an expired key stored under the pattern ""; the corrected sweep drops it. |
| Storage.DeferAsWrittenHandsOutAgain | src/PersistInterface.js:320-330 | DeferStore.getProperties as written does not remove data deferred under the pattern "", so a second lookup of the name "" returns it again; the corrected consumption returns `{}`. |
| Storage.PropsMapOfMap | src/PersistInterface.js:173-186 | Writing the properties of a plain object one by one writes exactly that object. |
| Storage.AddPlaces | src/PersistInterface.js:166-189 | After the store's addProperties, the pattern holds every added key with its value, the determineExpiry expiry and the renew rule; other patterns are untouched; patterns stay unique. |
| Storage.RenewRule | src/PersistInterface.js:181-184 | The stored renew is the duration when renew is truthy and the duration numeric, else false. |
| Storage.NonNumericNeverExpires | src/PersistInterface.js:135-138 | An expiry isNaN rejects (such as "SESSION") never expires. |
| Storage.ExpiredStaysExpired | src/PersistInterface.js:135-138 | Once expired, expired at every later time. |
| Storage.NumericDurationExpiry | src/PersistInterface.js:239-247 | A numeric duration expires 1000 × duration ms after now: not yet when positive, but one ms after. |
| Storage.SweepEffect | src/PersistInterface.js:125-151 | The sweep drops expired keys from data and attributes and keeps all others with their values, renewing their expiry. |
| Storage.RenewedIsFresh | src/PersistInterface.js:140-147 | A renewed attribute with a positive renew gets an expiry in the future, so it survives the sweep that renewed it. |
| Storage.CollectSingleHolderValue | src/PersistInterface.js:191-215 | While every key has one holder, getProperties returns each matching key's stored value, whatever the order of the patterns. |
| Storage.CollectKeys | src/PersistInterface.js:191-215 | getProperties returns exactly the data keys of the matching patterns. |
| Storage.DeferOneShot | src/PersistInterface.js:307-333 | After DeferStore.getProperties for a name, asking again for that name returns `{}`. |
| Storage.ConsumeKeepsOthers | src/PersistInterface.js:319-331 | Consuming leaves every non-matching pattern as it was and keeps every pattern name. |
| Storage.RemoveEverywhereSingleHolder | src/PersistInterface.js:226-237 | Removal keeps each key under at most one pattern. |
| Storage.SweepSingleHolder | src/PersistInterface.js:125-151 | The sweep keeps each key under at most one pattern. |
| Storage.ConsumeSingleHolder | src/PersistInterface.js:307-333 | Consuming keeps each key under at most one pattern. |
| Storage.AddSingleHolder | src/PersistInterface.js:439-446 | Adding keys no pattern holds keeps each key under at most one pattern. This is why addProperties deletes each key everywhere first. |
| Stores.PersistStore.constructor | src/PersistInterface.js:112-116 | A new store is empty, with its cookie name and lifetime. |
| Stores.PersistStore.IndexOf | src/PersistInterface.js:168-171 | Computes `Storage.Find` on the store. |
| Stores.PersistStore.FindEventMatchForKey | src/PersistInterface.js:217-224 | The loop over the patterns computes `Storage.FirstHolder`. |
| Stores.PersistStore.DeleteAt | src/PersistInterface.js:231-232 | Deletes the key's data and attribute under one pattern; nothing else changes. |
| Stores.PersistStore.Remove | src/PersistInterface.js:226-237 | remove(key, pattern), with presence tests: the loop ends in `Storage.Remove`. |
| Stores.PersistStore.LoadPropertiesFromBackend | src/PersistInterface.js:118-123 | A cookie store reads its cookie when present and otherwise keeps its current storage; a memory store copies its backend. |
| Stores.PersistStore.SweepPattern | src/PersistInterface.js:130-149 | The loop over one pattern's attributes computes that pattern's sweep; other patterns are untouched. |
| Stores.PersistStore.CheckAndUpdateExpiryAttributes | src/PersistInterface.js:125-151 | The nested loops compute `Storage.Sweep`. |
| Stores.PersistStore.LoadProperties | src/PersistInterface.js:153-156 | Loads, then sweeps. |
| Stores.PersistStore.SaveProperties | src/PersistInterface.js:158-164 | A memory store copies its storage to its backend. A cookie store writes its whole storage to its cookie, with its lifetime and the page's cookie domain. |
| Stores.PersistStore.AddProperties | src/PersistInterface.js:166-189 | Computes `Storage.Add`: the entry for the pattern, created at the end when new, gets every property. |
| Stores.PersistStore.BuildEntry | src/PersistInterface.js:175-186 | The forEach puts every property and its attribute into the entry, later duplicates winning. |
| Stores.PersistStore.GetProperties | src/PersistInterface.js:191-215 | The loop merges the data of every matching pattern in storage order: `Storage.Collect`. |
| Stores.PersistStore.ConsumePattern | src/PersistInterface.js:326-329 | One matching pattern loses every key of its data, and the attributes of those keys. |
| Stores.PersistStore.DeferGetProperties | src/PersistInterface.js:307-333 | Returns what getProperties would, and removes every returned key from the pattern it came from. |
| PersistMerge.MergeIntoNothing | src/PersistInterface.js:44-47 | Merging an object into a non-object or `{}` copies it. |
| PersistMerge.MergeObjects | src/PersistInterface.js:17-41 | The store's imperative mergeObj, a while loop over arguments and a for-in over keys, computes the same object as the engine's recursive mergeObj. |
| PersistMerge.MergeSourceInto | src/PersistInterface.js:25-37 | The for-in over one argument's keys writes that argument over the target, recursing into nested objects. |
| PersistMerge.Merge | src/PersistInterface.js:17-41 | mergeObj on any arguments equals `Values.MergeObj`. |
| PersistMerge.CopyObject | src/PersistInterface.js:44-47 | copyObj gives an object equal to its argument, or `{}` for a non-object. |
| Persist.PersistInterface.constructor | src/PersistInterface.js:339-349 | A new interface has four empty stores, named after the queue. |
| Persist.PersistInterface.LoadStores | src/PersistInterface.js:356-361 | Every store loads from its backend and is swept. |
| Persist.PersistInterface.SaveStores | src/PersistInterface.js:366-371 | Every store saves: the cookies and the memory backend get what the stores hold. |
| Persist.PersistInterface.GetStorageForDuration | src/PersistInterface.js:378-387 | Chooses the store `StorageForDuration` names for the duration. |
| Persist.PersistInterface.DeletePropertyWithKey | src/PersistInterface.js:393-402 | The key is removed from every holder in all four stores. |
| Persist.PersistInterface.DeleteProperties | src/PersistInterface.js:408-413 | Throws the TypeError of `Object.keys` and changes nothing on undefined or null; otherwise deletes each key of the data everywhere. |
| Persist.PersistInterface.DeleteAll | src/PersistInterface.js:409-412 | The loop deletes every listed key from every store. |
| Persist.PersistInterface.AddToTier | src/PersistInterface.js:445-446 | Only the store the duration chooses receives the properties. |
| Persist.PersistInterface.AddProperties | src/PersistInterface.js:424-450 | Computes `AddOutcome`: validate, load, delete the keys everywhere, add to one store, save. |
| Persist.PersistInterface.GetProperties | src/PersistInterface.js:458-486 | Computes `GetOutcome`: validate, load, merge the four stores' matches, and consume the defer store's matches. |
| PersistProps.DurationNames | src/PersistInterface.js:378-387 | Exactly "DEFER" and "PAGELOAD" choose those stores. A lower-case "session" and a missing duration go to the session store. |
| PersistProps.DurationNumbers | src/PersistInterface.js:378-387 | Any number (0 and negative numbers included), and any non-empty string of decimal digits, chooses the lasting store. |
| PersistProps.AddRejects | src/PersistInterface.js:424-439 | addProperties throws exactly when data is missing, not of type object, or null, or when matchEvent is not a string. The first two leave everything as it was. Null data throws after the stores were loaded. |
| PersistProps.DeleteKeysClears | src/PersistInterface.js:408-413 | After deleteProperties none of the keys is in any store; patterns and cookies stay. |
| PersistProps.WithTierOthers | src/PersistInterface.js:445-446 | Replacing one store leaves the other three and the cookies. |
| PersistProps.SaveAllKeepsStores | src/PersistInterface.js:366-371 | Saving keeps the stores and copies the pageload store to its backend. |
| PersistProps.AddPlacement | src/PersistInterface.js:424-450 | After a successful addProperties, each property sits under the matchEvent pattern of the store its duration chooses, with its value and attributes. No other pattern of any store holds it. |
| PersistProps.AddOutcomeSteps | src/PersistInterface.js:439-449 | A successful addProperties is load, delete the keys, add to one store, save. |
| PersistProps.AddKeepsOneHome | src/PersistInterface.js:424-450 | When the loaded stores hold each key at most once, so do the stores addProperties saves. |
| PersistProps.AddAsWrittenSplitsHome | src/PersistInterface.js:393-450 | addProperties as written leaves a key held under "" in the lasting store and adds it to the session store too, so the key has two homes; the corrected addProperties keeps one. |
| PersistProps.LoadAfterSaveKeepsOneHome | src/PersistInterface.js:356-371 | Saving and loading again keeps each key in one place. |
| PersistProps.DeleteKeysKeepsOneHome | src/PersistInterface.js:408-413 | deleteProperties keeps each key in one place and only removes keys. |
| PersistProps.GetRejects | src/PersistInterface.js:458-466 | getProperties throws exactly for a non-string matchEvent, and then changes nothing. |
| PersistProps.GetLayering | src/PersistInterface.js:472-485 | A plain value comes from the last of lasting, session, pageload, defer that holds the key. |
| PersistProps.GetKeys | src/PersistInterface.js:472-485 | The result's keys are the union of the four stores' matching keys. |
| PersistProps.CookieNamesDistinct | src/PersistInterface.js:341-349 | The session, lasting and defer cookies of one interface have different names. |
| PersistProps.SaveLoadRoundTrip | src/PersistInterface.js:356-371 | Saving then loading gives every store back as it was, swept of what has expired since. |
| PersistProps.SweepShrinks | src/PersistInterface.js:125-151 | The sweep only removes keys and keeps every pattern. |
| PersistProps.DeferHandedOutOnce | src/PersistInterface.js:307-333 | Deferred properties are handed out once: after getProperties for a name, a later load finds nothing for it in the defer store. |
| Bus.Push | src/DigitalEventQueue.js:21-48 | push records its input, then handles it. History, events, listeners and deliveries only grow, and the recorded command is the input or its edit. |
| Bus.Handle | src/DEQcore.js:23-41 | Dispatch on the command tag (exact comparison); any other state change is an edit of the command being handled. |
| Bus.LogError | src/DEQcore.js:96-109 | Reporting an error only adds to the records. |
| Bus.AddEvent | src/DigitalEventQueueWithPersist.js:40-64 | The WithPersist ADD EVENT only grows the records; the command's data may be rewritten. |
| Bus.StoredLookup | src/DigitalEventQueueWithPersist.js:45-59 | The store lookup changes only the store. It either throws, or writes the merged data back into the recorded command. |
| Bus.AddEventOrigin | src/DigitalEventQueue.js:212-269 | The ADD EVENT handler only grows the records. |
| Bus.Dispatch | src/DEQcore.js:196-198 | Handing an event to listeners only grows the records. |
| Bus.Check | src/DEQcore.js:123-148 | Checking one listener only grows the records. |
| Bus.Callback | src/DEQcore.js:112-120 | Calling one handler only grows the records. |
| Bus.AddListener | src/DEQcore.js:152-174 | ADD LISTENER grows the records; it may write the default name into the command. |
| Bus.Replay | src/DEQcore.js:164-169 | Replaying history to a new listener only grows the records. |
| Bus.PersistData | src/DigitalEventQueueWithPersist.js:17-23 | PERSIST DATA into the store only grows the records. |
| Bus.DeferData | src/DigitalEventQueueWithPersist.js:25-32 | DEFER DATA into the store only grows the records; the command's duration becomes "DEFER". |
| Bus.StoredDefer | src/DigitalEventQueueWithPersist.js:27-28 | The command is rewritten with duration "DEFER" before the store sees it. |
| Bus.AddPersistItems | src/DigitalEventQueue.js:282-297 | Adding persist items changes only the persist array and the cookies. |
| Bus.PushAll | src/DigitalEventQueueWithPersist.js:72 | Pushing a list of commands only grows the records. |
| BusProps.LogErrorReports | src/DEQcore.js:96-109 | logError pushes exactly one error command. That "deq error" event, with type, message and object, goes to every listener matching it, in order. Defer data for it is consumed in the cookie variants. |
| BusProps.ErrorPushIsOrigin | src/DEQcore.js:96-109 | The error command goes straight to the original ADD EVENT handler, even in WithPersist. |
| BusProps.ErrorOriginDispatches | src/DigitalEventQueue.js:212-261 | Handling the error command records one "deq error" event and dispatches it to all listeners. |
| BusProps.ReportedDataNamesFault | src/DEQcore.js:98-106 | The reported data names the fault's type and carries `deq_event` "deq error". |
| BusProps.CheckOnlyReports | src/DEQcore.js:123-148 | Checking a listener adds nothing but deliveries and "deq error" events. |
| BusProps.DispatchOnlyReports | src/DEQcore.js:196-198 | Dispatch adds nothing but deliveries and "deq error" events. |
| BusProps.HandlerFailureReported | src/DEQcore.js:142-147 | A handler that throws on a non-error event is called, and exactly one "listener" error is reported with its name, the event and the thrown value. |
| BusProps.DispatchDelivers | src/DEQcore.js:196-198 | When no handler throws (or the event is "deq error"), dispatch only records one call per matching listener, in listener order, with the event's data. |
| BusProps.WildcardDelivery | src/DEQcore.js:142 | A `.*` listener receives every event except "deq error" in any letter case. |
| BusProps.AddEventOriginAppends | src/DigitalEventQueue.js:212-261 | A valid ADD EVENT appends its event, with the layered data. Any later events are error reports. Listeners, global data, persist items and store are unchanged. |
| BusProps.AddEventOriginRejects | src/DigitalEventQueue.js:266-268 | An invalid ADD EVENT reports exactly one "add event" invalid-input error. |
| BusProps.EventDataLayers | src/DigitalEventQueue.js:245-250 | Event data carries the name and time stamp. Plain values from the caller override stored ones; otherwise ambient (global, persisted, deferred) values show through. |
| BusProps.PushRejects | src/DEQcore.js:20-41 | A non-object, a command without a tag or an unknown tag is recorded, then reported as a "push" error. |
| BusProps.PushAddEvent | src/DigitalEventQueue.js:21-28 | A valid ADD EVENT push records the command and appends its event. |
| BusProps.ThrowingPushOnlyRecords | src/DigitalEventQueue.js:282 | PERSIST DATA without data throws in the cookie engine after recording the command, and nothing else changes. |
| BusProps.PushIsHandle | src/DEQcore.js:19-22 | push is: record, then handle. |
| BusProps.ReplayOnlyReports | src/DEQcore.js:164-169 | Replay adds nothing but deliveries and "deq error" events. |
| BusProps.ReplayDelivers | src/DEQcore.js:164-169 | When the handler does not throw, replay delivers the past matching events to the new listener, in history order. |
| BusProps.QuietCheck | src/DEQcore.js:123-148 | A handler that does not throw, or a "deq error" event, leaves exactly one recorded call or none. |
| BusProps.AddListenerRegisters | src/DEQcore.js:152-170 | A valid listener is appended. With skipHistory nothing is replayed; otherwise the past matching events are delivered to it. |
| BusProps.AddListenerRejects | src/DEQcore.js:172 | An invalid listener reports exactly one "add listener" error. |
| BusProps.AddGlobalDataMerges | src/DEQcore.js:209-213 | Global data gains every key of the command's data. Its plain values win; other keys keep theirs. Non-object data changes nothing. |
| BusProps.PersistedForKeys | src/DigitalEventQueue.js:220-225 | The persisted data for an event holds exactly the keys of the matching persist items. |
| BusProps.PersistedForLastWins | src/DigitalEventQueue.js:220-225 | The last matching persist item for a key supplies its value. |
| BusProps.UnmatchedKeepsOrder | src/DigitalEventQueue.js:228-236 | The defer items left behind are exactly the non-matching ones, in their order. |
| BusProps.OtherQueueItemsStay | src/DigitalEventQueue.js:228-236 | Defer items of another queue are never consumed. |
| BusProps.UnmatchedLength | src/DigitalEventQueue.js:228-236 | Consuming never grows the defer array, and keeps its length exactly when nothing matches. |
| BusProps.ConsumeDeferOnlyOnMatch | src/DigitalEventQueue.js:239-242 | The defer array and its cookie are rewritten only when some item matched. |
| BusProps.DeferredForNoMatch | src/DigitalEventQueue.js:228-236 | Without matching defer items, the data is unchanged. |
| BusProps.DeferredOnce | src/DigitalEventQueue.js:228-242 | Deferred data is handed out once: the remaining items add nothing for the same name. |
| BusProps.AddPersistItemsAppends | src/DigitalEventQueue.js:282-297 | PERSIST DATA appends one item per key of the data, in key order. |
| BusProps.AddPersistItemsCookies | src/DigitalEventQueue.js:291-294 | Unless the duration is "PAGELOAD", every key gets its own cookie; with "PAGELOAD" no cookie is written. |
| BusProps.PersistLifetimeRule | src/DigitalEventQueue.js:273-280 | A falsy duration becomes "PAGELOAD"; a string duration becomes 0 exactly when it is "SESSION" and is kept otherwise; a number is kept; the lifetime is truthy unless it is that 0. |
| BusProps.DeferDataUsesDeferTier | src/DigitalEventQueueWithPersist.js:25-32 | DEFER DATA forces duration "DEFER", so the defer store receives it; a store error is reported as "defer data". |
| BusProps.PersistDataUsesStore | src/DigitalEventQueueWithPersist.js:17-23 | PERSIST DATA goes to the store; a store error is reported as "persist data". |
| BusProps.ErrorEventSkipsStore | src/DigitalEventQueueWithPersist.js:41-42 | A "deq error" event (loose equality) never touches the store. |
| BusProps.LookupFailureDropsEvent | src/DigitalEventQueueWithPersist.js:52-59 | A non-string event name makes the lookup throw. One "add event" error is reported, carrying the name, and the event is dropped. |
| BusProps.LookupThenOrigin | src/DigitalEventQueueWithPersist.js:45-62 | With a string name the lookup succeeds, and the original handler runs on the command with the merged data. |
| BusProps.CallerOverStored | src/DigitalEventQueueWithPersist.js:48-51 | In the merge, a caller's plain value wins over a stored one, and stored values fill the gaps. |
| BusProps.StoredPropsUnderCallerData | src/DigitalEventQueueWithPersist.js:45-62 | The recorded event carries the caller's plain values, and stored values for the keys the caller left out. |
| BusProps.StoredEvent | src/DigitalEventQueueWithPersist.js:45-62 | The recorded event is the original handler's event on the stored properties merged under the caller's data. |
| Queue.EventQueue.constructor | src/DigitalEventQueue.js:315-333 | A new queue has no listeners, events, history or global data, an empty store and the page's cookies. The Cookie and WithPersist variants start with the defer array and the persist items read back from the `deq_defer` and `deq_persist` cookies; the Core variant starts with none. |
| Queue.EventQueue.Push | src/DigitalEventQueue.js:21-48 | Leaves the queue in `Bus.Push`'s state; throws exactly when `PushThrows`. |
| Queue.EventQueue.Handle | src/DigitalEventQueue.js:23-47 | Leaves the queue in `Bus.Handle`'s state. |
| Queue.EventQueue.HandleData | src/DigitalEventQueue.js:34-43 | The data commands and unknown tags leave the queue in `Bus.Handle`'s state. |
| Queue.EventQueue.Unshift | src/DigitalEventQueue.js:51 | unshift is push. |
| Queue.EventQueue.PushAll | src/DigitalEventQueueWithPersist.js:72 | The loop leaves the queue in `Bus.PushAll`'s state; it throws exactly when some command throws. |
| Queue.EventQueue.LogError | src/DigitalEventQueue.js:132-145 | Leaves the queue in `Bus.LogError`'s state. |
| Queue.EventQueue.AddEvent | src/DigitalEventQueueWithPersist.js:40-64 | Leaves the queue in `Bus.AddEvent`'s state. |
| Queue.EventQueue.PersistedData | src/DigitalEventQueue.js:220-225 | The forEach over the persist array computes `PersistedFor`. |
| Queue.EventQueue.SplitDefer | src/DigitalEventQueue.js:228-236 | The forEach over the defer array computes the deferred data and the items left. |
| Queue.EventQueue.AddEventOrigin | src/DigitalEventQueue.js:212-269 | Leaves the queue in `Bus.AddEventOrigin`'s state. |
| Queue.EventQueue.TakeAmbient | src/DigitalEventQueue.js:215-242 | Returns the global, persisted and deferred data for a name and consumes the defer items. |
| Queue.EventQueue.Dispatch | src/DigitalEventQueue.js:259-261 | The forEach over listeners leaves `Bus.Dispatch`'s state. |
| Queue.EventQueue.Check | src/DigitalEventQueue.js:159-184 | Leaves the queue in `Bus.Check`'s state. |
| Queue.EventQueue.Callback | src/DigitalEventQueue.js:148-156 | Leaves the queue in `Bus.Callback`'s state. |
| Queue.EventQueue.AddListener | src/DigitalEventQueue.js:187-209 | Leaves the queue in `Bus.AddListener`'s state. |
| Queue.EventQueue.Replay | src/DigitalEventQueue.js:199-204 | The forEach over past events leaves `Bus.Replay`'s state. |
| Queue.EventQueue.AddGlobalData | src/DEQcore.js:209-213 | Leaves the queue in `Bus.AddGlobalData`'s state. |
| Queue.EventQueue.PersistData | src/DigitalEventQueueWithPersist.js:17-23 | Leaves `Bus.PersistData`'s state; the cookie engine throws for missing data. |
| Queue.EventQueue.DeferData | src/DigitalEventQueueWithPersist.js:25-32 | Leaves the queue in `Bus.DeferData`'s state. |
| Queue.EventQueue.AddPersistData | src/DigitalEventQueue.js:272-298 | The forEach leaves `Bus.AddPersistData`'s state; throws the `Object.keys` TypeError for missing data. |
| Queue.EventQueue.AddDeferData | src/DigitalEventQueue.js:301-311 | Appends the defer item and rewrites the defer cookie. |
| Factory.Bulk | src/DigitalEventQueueWithPersist.js:68-73 | pushBulk only grows the records, and does nothing without commands. |
| Factory.Spawn | src/DigitalEventQueue.js:315-343 | A new queue, started from the arrays read back from its cookies, with the previous commands pushed in order; it throws exactly when one of them throws. |
| Factory.Feed | src/DEQFactory.js:35-38 | Pushing into one queue of the table leaves every other queue unchanged. |
| Factory.Registry.constructor | src/DigitalEventQueue.js:346 | The registry starts empty. |
| Factory.Registry.Construct | src/DigitalEventQueue.js:6-11 | Constructing a queue for a known name returns the existing queue untouched. A new name gets a fresh queue, registered, with its previous commands pushed. |
| Factory.QueueFactory.constructor | src/DEQFactory.js:20-21 | The factory's table starts empty. |
| Factory.QueueFactory.Get | src/DEQFactory.js:31-42 | get(name) returns the one queue of that name, creating it when new. An existing queue gets arrayRef bulk-pushed. Other queues are untouched. |
| Factory.QueueFactory.Insert | src/DEQFactory.js:32-34 | A new name gets a fresh queue fed with arrayRef. |
| Factory.QueueFactory.GetAll | src/DEQFactory.js:49-51 | getAll returns the table itself. |

## Left out

- Cookie I/O is modelled as a map from cookie name to content. The text format, `encodeURIComponent`, JSON, `expires` dates, paths, SameSite and the `getCookie` regular expression are not modelled. The cookie read at start-up (src/DigitalEventQueue.js:315-333) is modelled by its result: the constructor receives the parsed `deq_defer` array and the parsed `deq_persist` items (`Bus.Restored`); the JSON parsing and the `try`/`catch` that ignores a malformed cookie are not modelled.
- Regular expressions are a `matches(pattern, name)` parameter. A pattern that fails to compile, and the catches that would report it, are not modelled (src/DEQcore.js:145-147, src/DigitalEventQueue.js:181-183 and 263-265). Those catches would report through the same path again, without a bound.
- `new Date()` is the `now` parameter, one value per top-level push. Handlers are a pure function of their arguments. Their side effects, and any push they make back into the queue while running, are not modelled.
- Numbers are integers only. Floating point, NaN arithmetic and `Number()` on fractions are not modelled. A numeric duration that parseInt cannot read is stored as null, which behaves the same in every later test.
- `toLowerCase` lowers ASCII letters only.
- The keys of a data object are visited in ascending code-unit order (`Keys.Sorted`). JavaScript's `Object.keys` lists integer-like names (canonical array indices such as "0" or "42") first, in ascending numeric order, and then the other names in insertion order. Where that order shows (the order of the persist items one PERSIST DATA command appends, and of the cookies they write) the model fixes code-unit order instead.
- Storage.Add: a new pattern is appended after every existing one, also when it is integer-like. `Object.keys(this.storage)` (src/PersistInterface.js:127, 203, 218, 319) lists an integer-like pattern such as "7" before all other patterns, in ascending numeric order, so the source visits it first where the model visits it last. The order decides a result only when two patterns hold the same key: while every key has one holder (Storage.SingleHolder), getProperties returns each key's stored value in any order (Storage.CollectSingleHolderValue). It does matter in the as-written removal under Findings, where a key can have two holders.
- JavaScript objects are maps here, so a name is present only when it was stored. The source reads names off plain `{}` objects without an own-property test in a few places, where a name such as "constructor" or "toString" finds a member inherited from `Object.prototype`, and an assignment to the name "__proto__" sets the object's prototype instead of storing a property. The model does not capture either; the members affected are listed in the next lines.
- Storage.Add: for a pattern named after an inherited member, such as "constructor", `this.storage[matchEvent]` (src/PersistInterface.js:168) is that inherited function, `current["data"]` is undefined, and line 177 throws a TypeError, so DigitalEventQueueWithPersist reports a "persist data" error and nothing is saved. The model stores the data under a new pattern "constructor" instead.
- Stores.PersistStore.Remove: requires a specific pattern to be one the store holds. For any other pattern, inherited names such as "constructor" included, the source's `delete this.storage[pattern]["data"][key]` (src/PersistInterface.js:231) throws a TypeError, which the model does not capture. The store's own callers pass only patterns they have just read from the store.
- Factory.Registry.Construct: for a name such as "constructor", `DigitalEventQueue.queue[name]` (src/DigitalEventQueue.js:7 and src/DEQcore.js:7, over the `{}` of src/DigitalEventQueue.js:346) is the inherited `Object` function, so the source returns that function and creates no queue. The model creates and registers a queue. The factory's own table (src/DEQFactory.js:32) tests `hasOwnProperty` and is not affected.
- Stores.PersistStore.AddProperties: computes Storage.Add, so a new integer-like pattern goes last, not first, and a pattern named after an inherited member is stored instead of throwing (see the two Storage.Add lines).
- Storage.FirstHolder: visits the patterns in the model's order, which differs from JavaScript's for integer-like patterns (see Storage.Add); it decides the answer only when a key has two holders.
- Stores.PersistStore.FindEventMatchForKey: computes Storage.FirstHolder in the model's pattern order (see Storage.Add).
- Stores.PersistStore.GetProperties: merges the matching patterns in the model's order (see Storage.Add); the result is the same while every key has one holder.
- Aliasing between the command object a handler receives and the recorded history is not modelled. In-place edits of the command (default listener name, forced "DEFER" duration, merged data) replace the last history entry.
- `pushBulk` is not part of the source shown. It is modelled as `push` of each element, and an undefined argument does nothing.
- src/DigitalEventQueueWithPersist.js calls the base constructor and then adds its own handlers. The base's early return for a known name (src/DigitalEventQueue.js:7) and the prototype tricks are not modelled.
- Queues that the factory creates are entered in its own table. The model does not also enter them in the constructor's registry (src/DigitalEventQueue.js:7-11).
- `arrayRef` that is not an array is not modelled.
- Each queue's persist interface has its own cookie jar.
- src/DigitalEventQueueWithPersist.js is written against a newer queue that is not part of this model. That queue has `__private.lib`, a `commandMapping` table, `pushBulk`, lower-case command tags and other metadata keys. The model attaches the wrapper to the queue of src/DigitalEventQueue.js instead, with its exact upper-case tags and `deq_event`/`deq_event_ts`.
- `String()` of a function value is modelled as the text "function".
- PersistProps.AddPlacement: does not restate that a plain object's properties are exactly its fields. That fact is Storage.PropsMapOfMap.
- Coerce.StringToNumber: reads only blank strings and signed decimal integers, with JavaScript white space trimmed at both ends. The other forms JavaScript reads are taken as NaN: exponents (`Number("1e3")` is 1000), hexadecimal, octal and binary prefixes (`"0x10"`, `"0o7"`, `"0b1"`), fractions and trailing dots (`"5."`, `"1.5"`) and `"Infinity"`. So a persist duration written `"1e3"` is treated as non-numeric and never expires (Storage.NonNumericNeverExpires), where the source expires it after 1000 seconds.
- Coerce.ParseIntString: reads leading white space, a sign and decimal digits. The `0x` prefix that `parseInt` without a radix reads as hexadecimal (`parseInt("0x10")` is 16) is read as 0 here.
- Coerce.NumericStringParses: holds for the decimal forms the model's Number() reads. In JavaScript it fails on the forms listed for Coerce.StringToNumber: `Number("1e3")` is 1000 while `parseInt("1e3")` is 1.
- Storage.SweepEffect: states the corrected sweep. As written (src/PersistInterface.js:139), the sweep calls `remove(key, "")` for the pattern `""`, which falls back to `remove(key)` and stops at the holder named `""`, so an expired key under `""` stays (see Findings, Storage.SweepAsWrittenKeepsExpiredKey).
- Storage.DeferOneShot: states the corrected defer consumption. As written (src/PersistInterface.js:327), data deferred under the pattern `""` is never removed and is handed out on every lookup of the name `""` (see Findings, Storage.DeferAsWrittenHandsOutAgain).
- Stores.PersistStore.SweepPattern: computes the corrected sweep of one pattern; for the pattern `""` the source leaves expired keys in place (see Findings).
- Stores.PersistStore.CheckAndUpdateExpiryAttributes: computes the corrected Storage.Sweep, not Storage.SweepAsWritten; the two differ when a pattern is `""` (see Findings).
- Stores.PersistStore.LoadProperties: sweeps with the corrected removal; a key under the pattern `""` differs from the source (see Findings).
- Stores.PersistStore.ConsumePattern: deletes the keys under the pattern `""` too, which the source's `remove(key, "")` leaves in place (see Findings).
- Stores.PersistStore.DeferGetProperties: removes the returned keys under the pattern `""` too; the source keeps them (see Findings).
- Persist.PersistInterface.LoadStores: sweeps each store with the corrected removal, unlike the source for the pattern `""` (see Findings).
- Persist.PersistInterface.DeletePropertyWithKey: removes the key from a holder named `""` too, which the source's `remove(key)` skips (see Findings, Persist.DeleteEverywhereAsWritten).
- Persist.PersistInterface.DeleteProperties: deletes with the corrected removal, unlike the source for a holder named `""` (see Findings).
- Persist.PersistInterface.DeleteAll: deletes under a holder named `""` too, which the source does not (see Findings).
- Persist.PersistInterface.AddProperties: its delete step removes keys under `""` that the source keeps (see Findings, PersistProps.AddAsWrittenSplitsHome).
- Persist.PersistInterface.GetProperties: consumes defer matches under the pattern `""`, which the source keeps (see Findings).
- PersistProps.DeleteKeysClears: no key survives in the model; as written, keys held under a pattern named `""` survive (see Findings).
- PersistProps.AddPlacement: its last clause, that no other pattern holds the key, holds for the corrected removal only; as written, the key can remain under a pattern `""` of another store (see Findings, PersistProps.AddAsWrittenSplitsHome).
- PersistProps.AddKeepsOneHome: holds for the corrected removal only; as written, a key held under `""` ends in two stores (PersistProps.AddAsWrittenSplitsHome).
- PersistProps.SaveLoadRoundTrip: the reload sweeps with the corrected removal, dropping expired keys under `""` that the source keeps (see Findings).
- PersistProps.DeferHandedOutOnce: holds for the corrected consumption only; as written, data deferred under `""` is handed out on every lookup (Storage.DeferAsWrittenHandsOutAgain).
- Stores.PersistStore.Remove: follows the corrected removal (presence tests), not the truthiness tests of the source. See Findings.
- The SessionStore and LocalStore classes that are commented out in src/PersistInterface.js are not modelled. Webpack bundling and the plugin loader are not modelled either.

## Findings

| source | as written | input that shows it | evidently intended | confidence | as-written member | corrected member |
|---|---|---|---|---|---|---|
| src/PersistInterface.js:226-237 | `remove` tests the given pattern and the pattern returned by `findEventMatchForKey` for truthiness, so the pattern `""` counts as no pattern | a store holding key "a" under the pattern `""`: `remove("a")` stops at once and leaves "a"; `remove("a", "")` deletes nothing | the key is deleted from every pattern holding it (or from the given pattern, `""` included) | not executed | Storage.RemoveAsWrittenMissesEmptyPattern | Storage.RemoveEverywhereClears |
| src/PersistInterface.js:134-139 | the expiry sweep removes an expired key with `remove(key, pattern)`; for the pattern `""` that falls back to `remove(key)`, which stops at the holder named `""` and leaves the key there | `PERSIST.addProperties({data: {a: 1}, matchEvent: "", duration: 60})`; a minute later the sweep keeps "a" | an expired key is dropped whatever its pattern | not executed | Storage.SweepAsWrittenKeepsExpiredKey | Storage.SweepEffect |
| src/PersistInterface.js:320-330 | DeferStore.getProperties removes what it returns with `remove(key, pattern)`; for the pattern `""` that falls back to `remove(key)`, which leaves the key under `""` | `PERSIST.addProperties({data: {a: 1}, matchEvent: "", duration: "DEFER"})`, then `PERSIST.getProperties({matchEvent: ""})` twice: both return `{a: 1}` | deferred data is handed out once | not executed | Storage.DeferAsWrittenHandsOutAgain | Storage.DeferOneShot |
| src/PersistInterface.js:393-402 | deletePropertyWithKey calls `remove(key)`, which stops at a holder named `""`, so addProperties does not clear the key first | `PERSIST.addProperties({data: {a: 1}, matchEvent: "", duration: 60})`, then `PERSIST.addProperties({data: {a: 2}, matchEvent: "x"})`: "a" is in the lasting and the session store | a key is held in one store at most | not executed | PersistProps.AddAsWrittenSplitsHome | PersistProps.AddKeepsOneHome |
