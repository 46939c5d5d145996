# minimal-analytics, modelled in Dafny

minimal-analytics is a set of small browser collectors: GA4 (`packages/ga4`,
with a current and a legacy variant) and Heap (`packages/heap`). They share
helpers (`packages/shared`). A collector works in four steps:

1. It reads identity and session state from `localStorage` and `sessionStorage`.
2. It builds a query from the page, the event and that state.
3. It hands the query to a transport.
4. It binds page listeners (visibility, scroll, click, unload) that send further hits.

This project models that core and proves what each piece promises.

| file | module | what it models |
|---|---|---|
| `base.dfy` | `Base` | `Option`, JavaScript truthiness of strings, the falsy-entry filter |
| `text.dfy` | `Text` | the string built-ins the code relies on: decimal rendering and unary `+`, `padStart`, `substring`, `toLowerCase`, `indexOf` as a substring test, `split`/`join` |
| `storage.dfy` | `Storage` | `MemoryStorage` (a class over a map and its insertion order), a browser storage object with failing calls, the support probe and the fallback factory |
| `values.dfy` | `Values` | get-or-create ids, the session counter, `getSessionState`, `getEventParams`, `getDocument`; both storage areas live in the class `IdentityStore` |
| `utility.dfy` | `Utility` | fixed-width ids, the 32-bit string hash (a loop against a recursive definition), the ancestor walk, the external-link test, the document height and scroll percentage, `debounce` as a one-slot timer |
| `beacon.dfy` | `Beacon` | the `sendBeacon` polyfill: transport order, the XHR set-up, the `fetch` request, exceptions turned into `false` |
| `args.dfy` | `Args` | the `track(...)` overloads both current trackers share |
| `ga4.dfy` | `Ga4` | the GA4 tracker (`packages/ga4/src/index.ts`): the latches, the engagement intervals, the search-results rule, the query filter, the scroll and unload handlers |
| `heap.dfy` | `Heap` | the Heap tracker: class lists, the `href` attribute, tag names, the element hierarchy (the path is reversed in place in an `array`), element data, the page data flattening, the click counter |
| `ga4legacy.dfy` | `Ga4Legacy` | the legacy GA4 collector (`packages/ga4/src/ga4.ts`): objects built by spreads, removal of `undefined` values only, the referrer rule, a counter that moves on every hit, the dev-build guard, the scroll-once handler |

Everything the browser supplies is an input:

- the stored maps, the random draws, `Date.now()`;
- `navigator.language`, the screen and viewport sizes;
- the parsed query string, the element records and the event path;
- which transports exist and whether they throw;
- whether the global object is a Window or a worker.

A sent hit is recorded as a value (endpoint plus query pairs) appended to a `sent` sequence.

## Model

| member | source | states |
|---|---|---|
| Base.OrElse | packages/ga4/src/index.ts:269 | `a \|\| b` on optional strings: `a` when it is truthy, `b` otherwise |
| Base.KeepTruthy | packages/ga4/src/index.ts:148 | the filter keeps no entry with an empty value and never lengthens the payload |
| Base.KeepTruthyAppend | packages/ga4/src/index.ts:147-148 | filtering a concatenation is concatenating the filtered parts, so the entries keep their order |
| Base.KeepTruthyMembership | packages/ga4/src/index.ts:148 | an entry is kept exactly when its value is a non-empty string |
| Base.KeepTruthyAll | packages/heap/src/index.ts:86 | with no falsy value the filter keeps every entry, in place |
| Base.KeepTruthyLeading | packages/ga4/src/index.ts:128-130 | two leading entries with values lead the filtered payload |
| Text.NatToString | packages/shared/src/values.ts:85 | `${n}`: at least one decimal digit, no leading zero |
| Text.IntToString | packages/shared/src/values.ts:122 | `${i}`: a minus sign before the digits of a negative number |
| Text.DigitsValueOfNatToString | packages/shared/src/values.ts:85 | reading a rendered number back gives the number |
| Text.ParseCount | packages/shared/src/values.ts:85 | unary `+` on a stored count is a number exactly for a non-empty digit string |
| Text.ParseCountOfNatToString | packages/shared/src/values.ts:85 | a rendered count parses back to itself |
| Text.PadStart | packages/shared/src/utility.ts:24 | `padStart`: unchanged when long enough, otherwise fill characters on the left |
| Text.PrefixUpTo | packages/shared/src/utility.ts:24 | `substring(-1, end)` clamps its bounds: the prefix of length `end` |
| Text.ToLower | packages/shared/src/beacon.ts:11 | `toLowerCase` on ASCII: maps `A`–`Z` to `a`–`z`, keeps every other character and the length |
| Text.ContainsAt | packages/ga4/src/ga4.ts:180 | `indexOf(sub) >= 0` exactly when `sub` occurs at some position |
| Text.ContainsWitness | packages/ga4/src/ga4.ts:180 | a found substring has a starting position |
| Text.ContainsFrom | packages/ga4/src/ga4.ts:180 | an occurrence at any position is found |
| Text.Split | packages/heap/src/index.ts:176 | `split(' ')` never gives an empty list |
| Text.SplitPartsExcludeSeparator | packages/heap/src/index.ts:176 | no part of a split holds the separator |
| Text.JoinSplit | packages/heap/src/index.ts:176 | joining the parts with the separator gives back the string |
| Storage.Lookup | packages/shared/src/storage.ts:46-48 | `get(name) \|\| null`: a value only for a key holding a non-empty string |
| Storage.Without | packages/shared/src/storage.ts:54-56 | `Map.delete` drops exactly that key from the key order |
| Storage.WithoutDistinct | packages/shared/src/storage.ts:54-56 | deleting keeps the key order free of repeats |
| Storage.NthKey | packages/shared/src/storage.ts:42-44 | the index-th key exists exactly for an index inside the key order |
| Storage.OrderLength | packages/shared/src/storage.ts:58-60 | a repeat-free key order is as long as the set of stored keys |
| Storage.SetThenGet | packages/shared/src/storage.ts:46-52 | after `setItem(k, v)`, `getItem(k)` is `v`, or `null` when `v` is empty |
| Storage.UpdateFrame | packages/shared/src/storage.ts:50-56 | setting or removing one key leaves every other key as it was |
| Storage.SizeAfterUpdate | packages/shared/src/storage.ts:50-60 | re-setting keeps the size, a new key adds one, removing a present key takes one away |
| Storage.MemoryStorage.constructor | packages/shared/src/storage.ts:34-36 | a new instance is empty |
| Storage.MemoryStorage.Clear | packages/shared/src/storage.ts:38-40 | `clear` empties the map and its key order |
| Storage.MemoryStorage.Key | packages/shared/src/storage.ts:42-44 | as written, `key(index)` is `null` for every index |
| Storage.MemoryStorage.KeyAt | packages/shared/src/storage.ts:42-44 | the intended `key(index)`: the index-th stored key, for exactly the indices below `length` |
| Storage.MemoryStorage.GetItem | packages/shared/src/storage.ts:46-48 | `getItem` reads the map with `\|\| null` |
| Storage.MemoryStorage.SetItem | packages/shared/src/storage.ts:50-52 | `setItem` updates the map; a new key goes last in the key order |
| Storage.MemoryStorage.RemoveItem | packages/shared/src/storage.ts:54-56 | `removeItem` deletes the key and keeps the order of the rest |
| Storage.MemoryStorage.Length | packages/shared/src/storage.ts:58-60 | `length` is the number of distinct stored keys |
| Storage.KeyAfterOneSet | packages/shared/src/storage.ts:42-52 | after one `setItem('foo', 'bar')`, `key(0)` is `null` as written and `'foo'` as intended |
| Storage.HostStorage.constructor | packages/shared/src/storage.ts:13 | a browser storage object with its entries, which of its calls throw, and what its `getItem` answers |
| Storage.HostStorage.SetItem | packages/shared/src/storage.ts:16 | a set either throws and changes nothing, or stores the value |
| Storage.HostStorage.GetItem | packages/shared/src/storage.ts:17 | a get either throws, or answers with the object's fixed answer when it has one and the stored entry otherwise |
| Storage.HostStorage.RemoveItem | packages/shared/src/storage.ts:18 | a remove either throws and changes nothing, or deletes the key |
| Storage.IsStorageClassSupported | packages/shared/src/storage.ts:13-23 | true exactly when none of the three calls throws and the value read back is the test key; without a throw the test key is gone again; a throw stops the sequence and gives false |
| Storage.ProbeRoundTrip | packages/shared/src/storage.ts:13-23 | the probe passes exactly when no call throws and reading back the test key gives the test key |
| Storage.SafeStorageFactory | packages/shared/src/storage.ts:69-82 | the global itself exactly when it is defined and passes the probe (no throw, the test key read back), otherwise a fresh empty `MemoryStorage` |
| Values.GetOrCreate | packages/shared/src/values.ts:42-53 | a truthy stored id is returned and nothing is written; otherwise the generated id is stored and returned; no other key changes |
| Values.GetOrCreateTwice | packages/shared/src/values.ts:42-53 | a second call returns the first call's id and writes nothing |
| Values.Increment | packages/shared/src/values.ts:85 | `${+stored + 1}`: the stored number plus one, or `NaN` |
| Values.NextCount | packages/shared/src/values.ts:80-91 | the value written is `'1'` when nothing is stored, else the stored number plus one |
| Values.NextCountCounts | packages/shared/src/values.ts:80-91 | from a stored count `n` the counter becomes `n + 1` |
| Values.SessionStateOf | packages/shared/src/values.ts:99-109 | the first-visit and session-start flags say the ids were missing; only a first event moves the count |
| Values.SessionStateFromEmpty | packages/shared/src/values.ts:99-109 | from empty storage: first visit, session start and count `'1'`; a later event reports `'1'` again |
| Values.SessionCountStable | packages/shared/src/values.ts:99-109 | after a first event, a later event reports the same count and writes nothing |
| Values.SessionAfter | packages/shared/src/values.ts:104-106 | only a first event writes the session storage, and it writes the counter alone: every other key reads as before |
| Values.GetDocument | packages/shared/src/values.ts:28-34 | location is origin, path and search; hostname, path, referrer and title come from the document |
| Values.DocumentLocationParts | packages/shared/src/values.ts:33 | the location splits back into the origin, the path and the search |
| Values.IdentityStore.constructor | packages/shared/src/values.ts:42 | the two storage areas as given |
| Values.IdentityStore.GetClientId | packages/shared/src/values.ts:42-53 | `getClientId` on `localStorage` is the get-or-create; session storage is untouched |
| Values.IdentityStore.GetSessionId | packages/shared/src/values.ts:61-72 | `getSessionId` is the same get-or-create on `sessionStorage` |
| Values.IdentityStore.GetSessionCount | packages/shared/src/values.ts:80-91 | the counter written is the next count, and it is returned |
| Values.IdentityStore.GetSessionState | packages/shared/src/values.ts:99-109 | the flags are read before any write, and the counter is written only for a first event |
| Values.GetEventParams | packages/shared/src/values.ts:117-123 | length and order are kept; object values are always stringified, array values keep `null`/`undefined` as missing |
| Utility.FixedWidth | packages/shared/src/utility.ts:24 | exactly `width` characters, zero-filled on the left or cut to the leading digits |
| Utility.LeadingZerosValue | packages/shared/src/utility.ts:24 | leading zeros do not change the value of a digit string |
| Utility.GetRandomId | packages/shared/src/utility.ts:19-25 | `min(length, 16)` characters (none for a non-positive length), all digits |
| Utility.GetRandomIdDigits | packages/shared/src/utility.ts:20-24 | a short number is zero-padded and reads back as itself; a long one keeps its leading digits |
| Utility.ToInt32 | packages/shared/src/utility.ts:37-38 | ECMAScript ToInt32: the 32-bit value congruent to the input |
| Utility.ToInt32Congruent | packages/shared/src/utility.ts:37-38 | congruent numbers convert to the same 32-bit value |
| Utility.HashStepIsTimes31 | packages/shared/src/utility.ts:37-38 | `(h << 5) - h + code` then `h & h` is `ToInt32(31 * h + code)` |
| Utility.Hash | packages/shared/src/utility.ts:34-39 | the hash state is always a 32-bit value |
| Utility.HashAppend | packages/shared/src/utility.ts:36-39 | one more character applies the multiply-by-31 rule once |
| Utility.GetHashId | packages/shared/src/utility.ts:33-44 | the loop computes the recursive hash; the id is its magnitude at fixed width |
| Utility.HashIdValue | packages/shared/src/utility.ts:41-43 | with at least ten characters the id is the zero-padded magnitude of the hash |
| Utility.IsTargetElement | packages/shared/src/utility.ts:77-89 | the first node on the chain that matches, with no match before it; none when nothing matches |
| Utility.GetUrlDataAsWritten | packages/shared/src/utility.ts:97-107 | as written: no URL means internal; a URL `new URL` rejects throws; otherwise external iff the hostname differs from `location.host` |
| Utility.SameSiteLinkWithPortIsExternal | packages/shared/src/utility.ts:102-104 | a same-site link on a page served with a port is called external |
| Utility.GetUrlData | packages/shared/src/utility.ts:97-107 | hostname against hostname: external exactly when the link names another host |
| Utility.SameSiteLinkWithPortIsInternal | packages/shared/src/utility.ts:102-104 | the same link is internal once hostnames are compared |
| Utility.DocumentHeight | packages/shared/src/utility.ts:57-64 | `Math.max` of the six heights: one of them and no smaller than any |
| Utility.GetScrollPercentage | packages/shared/src/utility.ts:52-69 | a non-negative floored percentage of the track scrolled; none when the track has no length |
| Utility.DebounceStep | packages/shared/src/utility.ts:7-11 | a call fills the slot with its arguments and runs nothing; the delay running out empties the slot and runs exactly what was pending |
| Utility.RunDebounce | packages/shared/src/utility.ts:7-11 | no events change nothing; at most one callback per event; after a final call its arguments are pending, after a final elapse nothing is |
| Utility.BurstKeepsLast | packages/shared/src/utility.ts:7-11 | a burst of calls leaves only the last call's arguments pending and runs nothing |
| Utility.RunAppend | packages/shared/src/utility.ts:7-11 | running two event runs one after the other is running their concatenation |
| Utility.LastCallWins | packages/shared/src/utility.ts:7-11 | a burst followed by the delay runs the callback once, with the last arguments |
| Utility.FiresAtMostOncePerElapse | packages/shared/src/utility.ts:7-11 | the callback never runs more often than the delay runs out |
| Utility.Debouncer.constructor | packages/shared/src/utility.ts:7 | a new debounced function has no pending timer |
| Utility.Debouncer.Invoke | packages/shared/src/utility.ts:8-10 | a call clears the pending timer and sets one for its own arguments |
| Utility.Debouncer.Elapsed | packages/shared/src/utility.ts:9 | when the delay runs out, the pending call runs and the timer is empty |
| Beacon.IsSyncEvent | packages/shared/src/beacon.ts:7-11 | synchronous exactly for `unload`, `beforeunload` and `pagehide` in any letter case; never without an event |
| Beacon.IsSyncEventIgnoresCase | packages/shared/src/beacon.ts:11 | the sync rule does not depend on letter case |
| Beacon.IsSyncEventSameLetters | packages/shared/src/beacon.ts:11 | event types equal up to letter case get the same mode |
| Beacon.SyncEventCases | packages/shared/src/beacon.ts:7-11 | `unload`, `BeforeUnload` and `pagehide` are synchronous; a click and a missing event are not |
| Beacon.ContentType | packages/shared/src/beacon.ts:19-24 | plain UTF-8 text for a string, the Blob's own type for a typed Blob, none otherwise |
| Beacon.XhrHeaders | packages/shared/src/beacon.ts:16-24 | `Accept: */*` first, then the content type when there is one |
| Beacon.XhrRequest.constructor | packages/shared/src/beacon.ts:13 | a new request is unopened and sends nothing |
| Beacon.XhrRequest.Open | packages/shared/src/beacon.ts:14 | `open` records method, URL and mode |
| Beacon.XhrRequest.SetRequestHeader | packages/shared/src/beacon.ts:16 | a header is appended |
| Beacon.SendBeaconXHR | packages/shared/src/beacon.ts:9-33 | a POST with credentials, async unless the event is an unload-class one, the headers above; a throwing `open` propagates; on a synchronous request in a Window, setting `responseType` for a string body throws and nothing is sent; a throwing `send` gives false |
| Beacon.SendBeaconFetch | packages/shared/src/beacon.ts:41-55 | a POST with credentials, `cors` and keep-alive; false only when `fetch` throws |
| Beacon.SelectTier | packages/shared/src/beacon.ts:63-92 | the transport order beacon API, XHR, fetch, none |
| Beacon.SendBeaconForEvent | packages/shared/src/beacon.ts:73-81 | as intended: the same transports and answers, and the XHR is synchronous exactly for an unload-class event; in a Window scope such an XHR with a string body throws at `responseType` before anything is sent |
| Beacon.SendBeacon | packages/shared/src/beacon.ts:63-93 | as written: the body passed only when truthy; the chosen transport's answer; false with none; the XHR is never synchronous because it is called without a `this` |
| Args.TrackingId | packages/ga4/src/index.ts:81-82 | a string first argument is the id, otherwise the configured one |
| Args.Props | packages/ga4/src/index.ts:83 | props from an object first argument (`null` counts, with no props), else from the second |
| Args.GetArguments | packages/ga4/src/index.ts:80-86 | the id is a string first argument, else the configured id; an object first argument is the props, a `null` one gives none, and after a string id the props are the second argument |
| Args.Overloads | packages/heap/src/index.ts:57-62 | `track(id, props)`, `track(props)` and `track()` resolve as documented |
| Args.NullFirstArgumentDropsProps | packages/ga4/src/index.ts:83 | a `null` first argument hides the props in the second |
| Ga4.WithDefaults | packages/ga4/src/index.ts:85 | `{ type: 'page_view', ...props }`: the type defaults to `page_view`, the rest is the caller's |
| Ga4.FirstValue | packages/ga4/src/index.ts:103 | `searchParams.get`, and a property read on a legacy object: the first value given for the name, present exactly when the name occurs |
| Ga4.FindTerm | packages/ga4/src/index.ts:103 | the first listed term with a non-empty value, and none before it has one |
| Ga4.ConsPrefix | packages/ga4/src/index.ts:98-100 | a one-character prefix followed by a string is a prefix exactly when the first character matches and the rest is a prefix of the tail |
| Ga4.SeparatedTerm | packages/ga4/src/index.ts:98-100 | `c` then `term=` occurs in the search exactly when some position holds `c` and `term=` starts right after it |
| Ga4.HasSearchTerm | packages/ga4/src/index.ts:99 | the pattern `[?\|&]term=` matches exactly when `?term=`, `\|term=` or `&term=` occurs in the search string |
| Ga4.IsSearchResults | packages/ga4/src/index.ts:98-100 | a search-results page exactly when some search term occurs after one of `?`, `\|`, `&` and before `=` |
| Ga4.EventMeta | packages/ga4/src/index.ts:94-115 | `en` is `view_search_results` on a search page, else the type; then the search term; then the event's own parameters |
| Ga4.Language | packages/ga4/src/index.ts:132 | the lower-cased language, or nothing for a missing or empty one |
| Ga4.IdentityStep | packages/ga4/src/index.ts:125-136 | one hit reads the session state first, then the client id, then the session id |
| Ga4.SecondHitSameSession | packages/ga4/src/index.ts:125 | a later hit of the page load reports the same ids and count, no first visit and no session start, and writes nothing |
| Ga4.FirstHitOnFreshStorage | packages/ga4/src/index.ts:125-136 | on fresh storage the first hit reports a first visit, a session start and count 1, and stores the generated ids |
| Ga4.CountOncePerPageLoad | packages/ga4/src/index.ts:125 | every hit of a page load reports the count the first one wrote |
| Ga4.LaterHitsKeepCount | packages/ga4/src/index.ts:125 | after the first hit each hit reports the stored count |
| Ga4.BaseEntries | packages/ga4/src/index.ts:128-145 | the sixteen base entries |
| Ga4.QueryPayloadMembership | packages/ga4/src/index.ts:128-150 | an entry is sent exactly when it is a base entry or an event-meta entry with a non-empty value |
| Ga4.QueryPayloadOrder | packages/ga4/src/index.ts:128-150 | the kept base entries come first, led by `v=2` and the tracking id, then the kept event meta |
| Ga4.ScreenResolution | packages/ga4/src/index.ts:126-144 | `${screen.width}x${screen.height}`: the width, an `x`, the height; with no screen object `undefinedxundefined` |
| Ga4.QueryPayload | packages/ga4/src/index.ts:123-151 | every value sent is non-empty, and the payload has at most the sixteen base entries plus the event meta |
| Ga4.Endpoint | packages/ga4/src/index.ts:269 | the configured analytics endpoint when it is truthy, else the default; never empty |
| Ga4.VisibilityStep | packages/ga4/src/index.ts:178-189 | hiding appends the time to the last interval, showing opens a new interval |
| Ga4.AlternationKept | packages/ga4/src/index.ts:178-189 | alternating hide and show keeps every interval but the last closed |
| Ga4.DoubleHideKeepsFirst | packages/ga4/src/index.ts:178-189 | a second hide adds a third time that the unload sum ignores |
| Ga4.ActiveTimeAppend | packages/ga4/src/index.ts:219-221 | the unload sum adds the span of each interval |
| Ga4.HiddenTimeFrozen | packages/ga4/src/index.ts:219-221 | while the page is hidden the engagement total does not move |
| Ga4.ClosedSpansFixed | packages/ga4/src/index.ts:220 | closed intervals do not depend on the time of the unload |
| Ga4.VisibleTimeGrows | packages/ga4/src/index.ts:220 | while the page is visible the total grows with the clock |
| Ga4.Span | packages/ga4/src/index.ts:219-221 | a closed interval counts hidden minus visible, an open one counts up to now; it is non-negative exactly when it ends no earlier than it starts |
| Ga4.ActiveTime | packages/ga4/src/index.ts:219-221 | no intervals give zero, and intervals that each have a non-negative length give a non-negative sum |
| Ga4.Tracker.constructor | packages/ga4/src/index.ts:53-58 | nothing tracked or bound, and one open interval from the load time |
| Ga4.Tracker.BindEvents | packages/ga4/src/index.ts:235-249 | the four listeners are attached on the first call only |
| Ga4.Tracker.Track | packages/ga4/src/index.ts:259-276 | no id: nothing is sent, stored or bound. Otherwise the identity is written, and one hit with the filtered payload goes to the configured or default endpoint; the counter moves only if nothing was tracked before; the listeners are bound. When `navigator.sendBeacon` throws, the identity is written but nothing is sent, `trackCalled` stays and nothing is bound |
| Ga4.Tracker.Identify | packages/ga4/src/index.ts:125-136 | the storage reads and writes of one hit, in source order |
| Ga4.Tracker.Deliver | packages/ga4/src/index.ts:271-273 | the hit is sent and `trackCalled` set; nothing else changes |
| Ga4.Tracker.OnVisibilityChange | packages/ga4/src/index.ts:178-189 | once bound, the intervals take one visibility step |
| Ga4.Tracker.OnUnloadEvent | packages/ga4/src/index.ts:218-227 | once bound, the identity is written and a `user_engagement` hit carrying the engagement sum as a string is sent with `trackCalled` set; a throwing `navigator.sendBeacon` sends nothing and leaves `trackCalled`; unbound, nothing changes; the listeners stay as they were |
| Ga4.Tracker.OnScroll | packages/ga4/src/index.ts:197 | scrolling restarts the debounce timer for the bound id |
| Ga4.Tracker.OnScrollTimerElapsed | packages/ga4/src/index.ts:197-210 | a hit exactly when a timer was pending, the page is past the threshold and `navigator.sendBeacon` does not throw: one `scroll` hit with `percent_scrolled` 90, the listener removed and the identity written; a throwing beacon writes the identity but sends nothing and keeps the listener; otherwise nothing is sent or stored |
| Ga4.PastThreshold | packages/ga4/src/index.ts:198-202 | the handler goes on exactly at 90 percent or more of the track; a page with no track length always does |
| Ga4.Tracker.DetachScroll | packages/ga4/src/index.ts:209 | the scroll listener is removed; nothing else changes |
| Ga4.ScrollSentOnce | packages/ga4/src/index.ts:197-210 | once detached, neither scrolling nor the timer sends another scroll hit |
| Heap.GetTagName | packages/heap/src/index.ts:185-187 | the tag lower-cased, else the parent's; neither means it throws |
| Heap.GetClassList | packages/heap/src/index.ts:175-177 | an empty class name is returned unchanged |
| Heap.JoinIsSegments | packages/heap/src/index.ts:176 | `.` + names joined by `;.` + `;` is one `.name;` per name |
| Heap.ClassListSegments | packages/heap/src/index.ts:175-177 | a non-empty class name gives one `.name;` per space-separated name, and no space |
| Heap.SegmentsExclude | packages/heap/src/index.ts:176 | a character in no name and not `.` or `;` is absent from the class list |
| Heap.LastValue | packages/heap/src/index.ts:152-158 | the reduce leaves a value that some attribute of that name gave |
| Heap.LastValueIsLast | packages/heap/src/index.ts:152-158 | a value is left exactly when the name occurs, and it is the last one given |
| Heap.GetAttributeValue | packages/heap/src/index.ts:151-167 | `[href=v];` for a truthy last `href`, `''` otherwise |
| Heap.OtherAttributesIgnored | packages/heap/src/index.ts:151-167 | attributes other than `href` do not change the result |
| Heap.KeptTags | packages/heap/src/index.ts:196-198 | a node is kept exactly when it has a tag and its lower-cased tag is neither `html` nor `body`; a kept node's tag name is its own tag in lower case |
| Heap.NoneKeptAll | packages/heap/src/index.ts:196-198 | no node passing the filter is the same as every node being dropped |
| Heap.Segment | packages/heap/src/index.ts:200-207 | a node's segment starts with `@tag;` in lower case and ends with `\|` |
| Heap.Hierarchy | packages/heap/src/index.ts:196-209 | the hierarchy is empty exactly when no node is kept |
| Heap.HierarchyAppend | packages/heap/src/index.ts:206-209 | the hierarchy of two runs of nodes is the first's followed by the second's |
| Heap.DroppedNodeIgnored | packages/heap/src/index.ts:196-198 | a node without a tag, or `html` or `body`, leaves no trace |
| Heap.Reverse | packages/heap/src/index.ts:196 | `reverse` puts element `i` at position `n - 1 - i` |
| Heap.GetElementHierarchy | packages/heap/src/index.ts:195-210 | the path is reversed in place and the hierarchy is built from the reversed path |
| Heap.RootFirst | packages/heap/src/index.ts:195-210 | for a target inside a parent, the parent's segment comes first |
| Heap.ClippedText | packages/heap/src/index.ts:219 | the text is a prefix of at most 64 characters, the whole text when shorter |
| Heap.GetElementData | packages/heap/src/index.ts:218-231 | six entries in a fixed order, or none when the tag cannot be read |
| Heap.PagePairs | packages/heap/src/index.ts:100-108 | the seven page pairs |
| Heap.Flatten | packages/heap/src/index.ts:133-140 | `[k, v]` becomes `[pp, k], [pp, v]`: twice as long, in order |
| Heap.GetPageData | packages/heap/src/index.ts:97-143 | the pairs unchanged for a page view, flattened to fourteen entries for an event |
| Heap.FlattenKeys | packages/heap/src/index.ts:133-140 | every flattened entry is sent under the page parameter name |
| Heap.AsEntries | packages/heap/src/index.ts:83 | page pairs join the payload unchanged |
| Heap.IdentityStep | packages/heap/src/index.ts:75-76 | the client id, then the session id, each a get-or-create |
| Heap.BaseEntries | packages/heap/src/index.ts:72-81 | the eight base entries |
| Heap.RawPayload | packages/heap/src/index.ts:71-84 | the eight base entries, then the page data (seven entries for a page view, fourteen for an event), then the event entries unchanged; the app id leads and the referrer sits at index 11 or 15 |
| Heap.QueryPayload | packages/heap/src/index.ts:71-89 | as intended: every value sent is non-empty, and nothing is added to the raw payload |
| Heap.QueryPayloadOrder | packages/heap/src/index.ts:71-89 | as intended: base entries, then page data, then the event, each without its falsy values |
| Heap.QueryPayloadDropsFalsy | packages/heap/src/index.ts:86 | as intended: an entry is sent exactly when the array holds it with a non-empty value |
| Heap.QueryPayloadAsWritten | packages/heap/src/index.ts:86-88 | as written: the query is built exactly when no value is falsy; a hole left by `delete` throws |
| Heap.AsWrittenAgreesWithoutHoles | packages/heap/src/index.ts:86-88 | where the code as written does not throw it sends what the intended filter sends |
| Heap.EmptyReferrerThrows | packages/heap/src/index.ts:86-88 | a page without a referrer makes the code as written throw, for a page view and for an event |
| Heap.Suffixed | packages/heap/src/index.ts:247 | every name gets the click counter appended, values unchanged |
| Heap.SuffixesDistinguishClicks | packages/heap/src/index.ts:247-250 | two clicks with different counters never share a parameter name |
| Heap.WithDefaults | packages/heap/src/index.ts:62 | `{ type: 'view', ...props }` |
| Heap.Tracker.constructor | packages/heap/src/index.ts:47-49 | unbound, counter 0, nothing sent |
| Heap.Tracker.BindEvents | packages/heap/src/index.ts:259-268 | the click listener is bound with the first id only |
| Heap.Tracker.Track | packages/heap/src/index.ts:278-294 | no id: nothing. Otherwise one request with the filtered payload, then the listener is bound; the counter is untouched |
| Heap.Tracker.Send | packages/heap/src/index.ts:289-291 | the request joins the sent ones; nothing else changes |
| Heap.Tracker.OnClickEvent | packages/heap/src/index.ts:239-251 | the element data and hierarchy, suffixed with the counter, sent as `click`; the path is reversed; the counter goes up by one; the identity is written. Before the listeners are bound, or for a target without a tag, nothing is sent or stored and the path stays as it was |
| Ga4Legacy.Assign | packages/ga4/src/ga4.ts:239-241 | `obj[k] = v`: `k` reads `v`, other names unchanged, a new name goes last; one property longer at most, and not longer when `k` was there |
| Ga4Legacy.AssignInPlace | packages/ga4/src/ga4.ts:239-241 | every existing property keeps its place |
| Ga4Legacy.AssignKeys | packages/ga4/src/ga4.ts:239-241 | assigning adds no name other than the assigned one |
| Ga4Legacy.AssignDistinct | packages/ga4/src/ga4.ts:239-241 | assigning keeps names distinct |
| Ga4Legacy.DistinctIsCanonical | packages/ga4/src/ga4.ts:225-242 | with distinct names every property is the one its name reads |
| Ga4Legacy.FirstIsOnly | packages/ga4/src/ga4.ts:225-242 | with distinct names the property at any position is the one found |
| Ga4Legacy.LastOf | packages/ga4/src/ga4.ts:163 | a value for a name the entries give |
| Ga4Legacy.Spread | packages/ga4/src/ga4.ts:239-241 | a spread never removes a property and adds at most one per entry |
| Ga4Legacy.SpreadInPlace | packages/ga4/src/ga4.ts:239-241 | the properties already there keep their places |
| Ga4Legacy.SpreadGet | packages/ga4/src/ga4.ts:239-241 | after a spread a name reads its last spread value, else the old one |
| Ga4Legacy.SpreadConcat | packages/ga4/src/ga4.ts:239-241 | spreading two runs is spreading one after the other |
| Ga4Legacy.SpreadDistinct | packages/ga4/src/ga4.ts:239-241 | a spread keeps names distinct |
| Ga4Legacy.StripUndefined | packages/ga4/src/ga4.ts:244 | deleting never adds properties |
| Ga4Legacy.StripUndefinedMembership | packages/ga4/src/ga4.ts:244 | a property survives exactly when its value is not `undefined` |
| Ga4Legacy.StripUndefinedDistinct | packages/ga4/src/ga4.ts:244 | dropping the `undefined` properties keeps the remaining names distinct |
| Ga4Legacy.Render | packages/ga4/src/ga4.ts:246 | every property becomes its string, in order |
| Ga4Legacy.WithDefaults | packages/ga4/src/ga4.ts:265 | type defaults to `page_view`, debug to `debugActive` |
| Ga4Legacy.EventMeta | packages/ga4/src/ga4.ts:149-165 | `en` and `ep.search_term` as the search rule says, unless the event's own properties override them |
| Ga4Legacy.DocumentMeta | packages/ga4/src/ga4.ts:173-185 | no referrer exactly when it contains `location.host`; location is origin, path and search |
| Ga4Legacy.DeviceMeta | packages/ga4/src/ga4.ts:193-216 | colour depth `N-bit` when non-zero, the screen size `WxH` of the device's screen, a viewport `WxH` exactly when there is one |
| Ga4Legacy.SessionDraw | packages/ga4/src/ga4.ts:112 | the session id is a number between 1 and 10^9 |
| Ga4Legacy.IdentityStep | packages/ga4/src/ga4.ts:228-234 | page id, client id, session id, then a counter written with the next count |
| Ga4Legacy.BaseObj | packages/ga4/src/ga4.ts:225-238 | thirteen properties with distinct names |
| Ga4Legacy.Payload | packages/ga4/src/ga4.ts:225-242 | the names are distinct; the thirteen base properties keep their places at the front, followed by at most the event meta and six document and device properties |
| Ga4Legacy.QueryParams | packages/ga4/src/ga4.ts:224-247 | no name is sent twice, and nothing is added to the payload |
| Ga4Legacy.SendDefined | packages/ga4/src/ga4.ts:244-246 | a present property is sent iff its value is not `undefined`; otherwise its name is not sent at all |
| Ga4Legacy.QueryParamsSendDefined | packages/ga4/src/ga4.ts:224-247 | each payload property is sent once, exactly when it is not `undefined` |
| Ga4Legacy.UserFieldsOverride | packages/ga4/src/ga4.ts:160-164 | an event property named `en` overrides the event name |
| Ga4Legacy.DocumentMetaWins | packages/ga4/src/ga4.ts:240-241 | referrer, location and title always come from the document |
| Ga4Legacy.DeviceMetaNames | packages/ga4/src/ga4.ts:193-216 | the device meta sets no name other than its three |
| Ga4Legacy.EmptyTitleIsSent | packages/ga4/src/ga4.ts:244 | an empty title is still sent, because only `undefined` is deleted |
| Ga4Legacy.CountGrowsPerHit | packages/ga4/src/ga4.ts:130-141 | from stored count `c` the hits report `c + 1`, `c + 2` and so on |
| Ga4Legacy.StepCounts | packages/ga4/src/ga4.ts:130-141 | one hit reports and stores the next count |
| Ga4Legacy.CountersCompared | packages/ga4/src/ga4.ts:234 | on the same stored count the current collector reports `c + 1` twice, the legacy one `c + 1` then `c + 2` |
| Ga4Legacy.ScrollReached | packages/ga4/src/ga4.ts:66-69 | with a track length, the callback goes on exactly at 90 percent or more |
| Ga4Legacy.NoTrackLengthPasses | packages/ga4/src/ga4.ts:66-69 | a page that cannot scroll passes the threshold at the top |
| Ga4Legacy.LegacyTracker.constructor | packages/ga4/src/ga4.ts:29-30 | the flags are read once at load and the scroll listener is attached |
| Ga4Legacy.LegacyTracker.Track | packages/ga4/src/ga4.ts:265-274 | a dev build without `debug` does nothing; otherwise the identity is written, then one hit with the stripped payload is sent and the counter moves; a throwing `navigator.sendBeacon` sends nothing |
| Ga4Legacy.LegacyTracker.Send | packages/ga4/src/ga4.ts:273 | the hit joins the sent ones |
| Ga4Legacy.LegacyTracker.Identify | packages/ga4/src/ga4.ts:228-234 | the storage reads and writes of one hit, in source order |
| Ga4Legacy.LegacyTracker.Error | packages/ga4/src/ga4.ts:282-284 | an `exception` hit carrying the message, and the identity written; a throwing beacon sends nothing; a dev build sends and stores nothing |
| Ga4Legacy.LegacyTracker.OnScroll | packages/ga4/src/ga4.ts:255-257 | while attached, scrolling restarts the timer |
| Ga4Legacy.LegacyTracker.OnScrollTimerElapsed | packages/ga4/src/ga4.ts:52-76 | past the threshold, one `scroll` hit (none in a dev build) with the identity written, and the listener is removed; a throwing beacon writes the identity, sends nothing and keeps the listener; otherwise nothing is sent or stored |
| Ga4Legacy.LegacyTracker.DetachScroll | packages/ga4/src/ga4.ts:75 | the listener is removed; nothing is sent |
| Ga4Legacy.ScrollOnce | packages/ga4/src/ga4.ts:52-76 | after the threshold has passed, nothing more is sent |

## Left out

- I/O is not modelled: the real transports, `addEventListener` and `console.error`. A sent hit is a value appended to `sent`. A bound listener is a flag or a set entry.
- Timers are not modelled. `setTimeout` and `clearTimeout` become the one-slot `Debouncer`, and its callback runs when the caller says the delay ran out.
- Randomness is an input: `Math.random`, including `toString(36)` for the legacy client id. So is `Date.now()`. In the Heap collector `Date.now()` is read once per hit, where the source reads it at several places.
- Floating point is not modelled. Heights and the scroll offset are exact numbers. `GetScrollPercentage` works on reals, and the `visualViewport` floors of `getDeviceMeta` are taken as given integers.
- Library parsing and encoding are not modelled. `URLSearchParams` encoding and the URL string are left out: a hit is its endpoint plus its query pairs. `new URL` is an input (its hostname and pathname, or a throw). The query string's parameters are a list of pairs. On the search pattern, the regular expression engine is replaced by a direct test of the pattern's meaning.
- Heap.Tracker.Track, Heap.Tracker.OnClickEvent: both send the intended payload, `Heap.QueryPayload`. As written, a hit with any falsy value (an empty referrer or title, a click on an element without text) throws in `new URLSearchParams` and is not sent; in the click handler the throw also comes before `eventCounter += 1`. The Findings table has both halves.
- The Heap collector imports `param` from a module that exports `params`, and `param.pageParam` is not defined there. The keys are constants with the values of `packages/heap/src/model.ts`; the source defines no page parameter name, so the model picks `pp`.
- Utility.IsTargetElement: for an element in the document with no matching ancestor, the source walks on past the root element to the document node and calls `document.matches(...)`, which throws a TypeError; the model ends the chain at the root element and returns `None` there.
- The GA4 click handler sends nothing (its body is still to be written), so it is not modelled. The file-type list in `packages/ga4/src/model.ts` is unused.
- Behaviour that only tests expect is not modelled. The source of truth is the code: for example, the current GA4 tracker calls `navigator.sendBeacon` directly, not the polyfill. The answer `navigator.sendBeacon` returns there is ignored by the source, and by the model. When it throws instead (it is missing, or rejects the URL), the model follows the throw: the identity is already written, nothing is sent, and the statements after the call do not run.
- A `type` property present with the value `undefined` is treated as absent. The spread would keep it and override the default.
- Values.Increment, Text.ParseCount: unary `+` is modelled on plain digit strings only. Every other stored value gives `NaN`, including ones JavaScript would read as a number (`' 7'`, `'0x10'`, `'1e3'`).
- Ga4.FirstValue: on legacy objects, properties keep creation order, as the spreads build them. Integer-like names, which JavaScript lists first, are not treated specially.
- Values.NextCountCounts, Ga4Legacy.CountGrowsPerHit: counts are unbounded integers. JavaScript adds in doubles, so from 2^53 on `+stored + 1` no longer gives `n + 1`, and from 10^21 on the result is written in exponent form (`1e+21`). This affects `packages/shared/src/values.ts:85` and `packages/ga4/src/ga4.ts:135`.
- Text.ToLower, Heap.ClippedText: text is a sequence of characters. `toLowerCase` is modelled on ASCII letters only; other letters are kept as they are. `substring(0, 64)` counts UTF-16 code units, so a text with characters outside the Basic Multilingual Plane is cut at a different place than the model's 64 characters.
- Values.IdentityStore: the storage areas never throw. The values module calls the raw `localStorage` and `sessionStorage` globals, whose `getItem` and `setItem` can throw (storage disabled, quota exceeded); only the support probe models a throwing storage.
- Heap.GetClassList: `className` is taken as a string. On an SVG element it is an `SVGAnimatedString`, which has no `split`, so `packages/heap/src/index.ts:176` throws when it is reached from line 204.
- Heap.Tracker.OnClickEvent: the path is an array that is given. The handler reads the non-standard `event.path`; where a browser does not provide it, `path.reverse()` at `packages/heap/src/index.ts:196` throws.
- Ga4Legacy.DeviceMeta: every device has a screen. `packages/ga4/src/ga4.ts:203` reads `screen.colorDepth` without a guard, so on a page without one the legacy collector throws before it sends.
- Beacon.SendBeacon: the module is taken to be strict code (an ES module), so `this` in `sendBeaconXHR` is `undefined`. In a sloppy script it would be `window`, and `window.event` would be read.
- Event parameter values are strings, integers, `null` and `undefined`. Fractional numbers are not modelled.
- Cross-tab races on shared storage are not modelled.

## Findings

| source | as written | input that shows it | evidently intended | confidence | as-written member | corrected member |
|---|---|---|---|---|---|---|
| packages/shared/src/storage.ts:42-44 | `key(index)` indexes the iterator that `values()` returns, so `key` is `null` for every index; even when indexed correctly it would list values, not keys | a fresh `MemoryStorage`, `setItem('foo', 'bar')`, then `key(0)` gives `null` | `key(index)` gives the index-th stored key, here `'foo'`, as the `Storage` interface defines it | not executed | Storage.MemoryStorage.Key, Storage.KeyAfterOneSet | Storage.MemoryStorage.KeyAt |
| packages/heap/src/index.ts:86-88 | `delete payload[index]` leaves a hole for each falsy value, and `new URLSearchParams` throws a TypeError on the hole, since `undefined` is not a name-value pair | a page view on a page reached with no referrer: the referrer value at index 11 is `''` | drop the falsy entries (`filter`) and send the rest, as the GA4 collector does | not executed | Heap.QueryPayloadAsWritten, Heap.EmptyReferrerThrows | Heap.QueryPayloadDropsFalsy, Heap.QueryPayloadOrder |
| packages/shared/src/beacon.ts:73-81 | `sendBeaconXHR` is called as a plain function, so its `this?.event?.type` is always `undefined` and the XHR is never synchronous | `sendBeacon(url, data)` from an `unload` handler, where only `XMLHttpRequest` exists: the request is asynchronous and may be cancelled with the page | pass the event type, so an unload-class event gives a synchronous request. The comment at line 73 places this tier in Worker scope, where a synchronous request may set `responseType`; in a Window without `navigator.sendBeacon` the corrected code throws at `responseType = 'text'` (line 21) for a string body on unload, and nothing is sent | not executed | Beacon.SendBeacon, Beacon.SyncEventCases | Beacon.SendBeaconForEvent |
| packages/shared/src/utility.ts:102-104 | the link's `hostname` is compared with `window.location.host`, which carries the port | page `localhost:8080`, link `http://localhost:8080/about`: `isExternal` is true | compare with `window.location.hostname`: the link is internal | not executed | Utility.GetUrlDataAsWritten, Utility.SameSiteLinkWithPortIsExternal | Utility.GetUrlData, Utility.SameSiteLinkWithPortIsInternal |
