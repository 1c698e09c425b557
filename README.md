# Lingua Chat AI — a Dafny model of its logic

This project models the parts of the Lingua Chat AI web application that hold decision logic, and proves properties about them:

- **Audio cache** (`AudioCaching`, `audio_cache.dfy`). This is the client's text-to-speech cache, from `apps/web/lib/utils.ts`. It is a class whose fields are:
  - the `Map` of entries;
  - the `Map`'s iteration order;
  - the pending timers on a logical clock;
  - the clock itself.

  `Set`, `Fire` (the environment delivering a timeout), `Advance` and `Clear` are methods. Each is tied to a function of the old state (`AfterSet`, `AfterFire`, `AfterAdvance`, `AfterClear`). The cache invariant `Wellformed` and the lookup properties are proved about those functions. The lookup properties cover:
  - reading back what was set until its own timer fires;
  - at most one pending timer per key;
  - a replaced timer having no effect;
  - clear emptying the cache.
- **Playback** (`AudioPlayback`, `audio_playback.dfy`). This covers the device detector, the Web Audio player, `fallbackPlay`, the mobile `Audio`-element path and the TTS player, from `apps/web/lib/audio-player.ts`.
  - What the browser does is an outcome passed in as a parameter: creating or resuming the audio context, decoding, starting a source, the events of an `Audio` element, the reply of `/api/tts`.
  - What the code does in return is recorded as a trace of events: calling `onStart`, `onEnd` or `onError`, sending the TTS request, starting or stopping a source, creating or revoking an object URL.
  - `AudioPlayer` and `TTSPlayer` are classes. Their methods are proved equal to functions of the old state: `PlayResult`, `StopResult`, `FetchResult`, `DesktopResult`, `SpeakResult`.
  - The properties are proved about those functions:
    - every rate an engine gets is clamped;
    - `onStart` comes before the source starts;
    - after a failed Web Audio attempt the fallback runs exactly once;
    - `useWebAudio` never comes back;
    - a cache hit sends no request;
    - the in-flight guard holds, and `isLoading` is false once `speak` settles.
- **Bookmarks** (`Bookmarks`, `bookmarks.dfy`). This covers the reducer over saved phrases, the membership and category queries, and the conversion of a chat message into a saved phrase, from `apps/web/lib/bookmark-context.tsx`.
- **Service worker** (`ServiceWorker`, `service_worker.dfy`). This is the fetch routing of `apps/web/public/sw.js` (network only, network first or cache first), its cache admission, the offline page and the activate-time cleanup. It runs over a `CacheStorage` class holding the named caches.
- **Transcription upload checks** (`Transcribe`, `transcribe.dfy`). This covers the ordered presence, size and type checks of `apps/web/app/api/transcribe/route.ts`, and the response each outcome yields.
- **News summary split** (`News`, `news.dfy`). This covers the request flow of `apps/web/app/api/news/route.ts` and the two regular expressions that split the language model's answer into a headline and a body. The regular expressions are written out as scanners that follow ECMAScript's leftmost, greedy-then-backtrack order:
  - `/TITLE:\s*(.+?)(?:\n|SUMMARY:)/i`;
  - `/SUMMARY:\s*(.+)/is`.

Two modules are shared:
- `Common` holds `Option`, `Result`, and `Thrown` (an `Error` or a thrown non-`Error`).
- `Text` holds substring search, ASCII case folding, the ECMAScript white-space and line-terminator classes, and `String.prototype.trim`.

Behaviours of the code worth knowing:
- The audio cache is keyed on the text alone, not on the text and the speed.
- `dispose` only closes the audio context. A later `play` creates a new one.
- `fallbackPlay` does not release the object URL when `play()` rejects.
- `onError` can be called more than once for one `speak`:
  - by the player and again by `speak`;
  - or by the player and then not followed by a failure, because the fallback succeeds.

Some things the model keeps because the code does them:
- A stopped source still fires its `ended` event later. `AudioPlayer.SourceEnded` accepts the ended event of any source the player ever started, so a stale event resets `isPlaying` and calls `onEnd` even while a newer source plays.
- A pending cache timer only deletes its key while it is that entry's current timer.

## Model

| member | source | states |
|---|---|---|
| Text.Includes | apps/web/public/sw.js:49 | `includes` (and a regular-expression test of a literal) is true exactly when the text contains the pattern at some index, with letter case ignored when asked |
| Text.TrimIsInfix | apps/web/app/api/news/route.ts:90-91 | `trim` removes exactly the leading and the trailing white space. What is left is the infix between them, which starts and ends with a character that is not white space |
| Text.TrimKeepsOneLine | apps/web/app/api/news/route.ts:87-90 | trimming a text that has no line terminator leaves none |
| Text.TrimAfterWhiteSpace | apps/web/app/api/news/route.ts:88-91 | dropping leading white space before `trim` makes no difference to its result |
| AudioCaching.Empty | apps/web/lib/utils.ts:16 | a new cache has no entries and no timers and satisfies the invariant |
| AudioCaching.Prefix | apps/web/lib/utils.ts:21 | `slice(0, n)` is a prefix of the text, n characters long or the whole text when shorter |
| AudioCaching.Without | apps/web/lib/utils.ts:36 | after deleting a key from the iteration order, exactly the other keys remain listed |
| AudioCaching.WithoutKeepsDistinct | apps/web/lib/utils.ts:36 | deleting a key keeps the `Map`'s iteration order free of repeats |
| AudioCaching.WithoutKeepsOrder | apps/web/lib/utils.ts:36 | deleting a key keeps every other pair of keys in their relative iteration order |
| AudioCaching.Lookup | apps/web/lib/utils.ts:47-51 | the definition of `get` on a cache state: the entry's blob when the key is present, otherwise nothing. Its properties are the `Lookup…` lemmas below |
| AudioCaching.AfterSet | apps/web/lib/utils.ts:25-44 | the definition of the state after `set`, which `Set` and `Store` are proved to produce. Its properties are `SetKeepsWellformed` and `LookupAfterSet` |
| AudioCaching.AfterFire | apps/web/lib/utils.ts:35-37 | the definition of the state after a timeout, which `Fire` is proved to produce. Its properties are `FireKeepsWellformed` and `LookupAfterFire` |
| AudioCaching.AfterClear | apps/web/lib/utils.ts:54-59 | the definition of the state after `clear`, which `Clear` is proved to produce. Its properties are `ClearKeepsWellformed` and `LookupAfterClear` |
| AudioCaching.SetKeepsWellformed | apps/web/lib/utils.ts:25-44 | `set` keeps the invariant: each key listed once in iteration order; each entry has exactly one pending timer, due TTL after it was written; every pending timer belongs to its key's entry |
| AudioCaching.FireKeepsWellformed | apps/web/lib/utils.ts:35-37 | a timeout running its callback keeps the invariant |
| AudioCaching.ClearKeepsWellformed | apps/web/lib/utils.ts:54-59 | `clear` keeps the invariant and leaves no timer pending |
| AudioCaching.AdvanceKeepsWellformed | apps/web/lib/utils.ts:42 | the clock moving on keeps the invariant, since no entry is written in the future |
| AudioCaching.LookupAfterSet | apps/web/lib/utils.ts:25-51 | after `set`, `get` of the key returns the new blob, and its timer is due TTL (600000 ms) from now. Every other key reads as before |
| AudioCaching.LookupAfterFire | apps/web/lib/utils.ts:35-37 | a firing timer deletes its own key and leaves every other key as it was |
| AudioCaching.OneTimerPerKey | apps/web/lib/utils.ts:29-37 | two pending timers for the same key are the same timer |
| AudioCaching.ReplacedTimerIsInert | apps/web/lib/utils.ts:29-37 | the timer that a re-`set` cancelled has no effect on the refreshed entry when it would have fired |
| AudioCaching.LookupAfterClear | apps/web/lib/utils.ts:54-59 | after `clear` every `get` misses and no timer is pending |
| AudioCaching.RunKeepsWellformed | apps/web/lib/utils.ts:25-59 | any sequence of sets, timeouts, clock steps and clears keeps the invariant |
| AudioCaching.EntrySurvives | apps/web/lib/utils.ts:25-51 | an entry stays exactly as written through every step that is not its own timer, a write of its key or a clear. Reads never extend its deadline |
| AudioCaching.GetAfterSetUntilExpiry | apps/web/lib/utils.ts:25-51 | after `set(key, blob)`, `get` returns `blob` until that entry's own timer fires, the key is written again or the cache is cleared |
| AudioCaching.OrderListsEveryEntry | apps/web/lib/utils.ts:62-65 | the iteration order has one position per entry, so its length is the `Map`'s size |
| AudioCaching.EveryTimerHasAnEntry | apps/web/lib/utils.ts:54-57 | every pending timer is the timer of an entry that the clearing loop visits |
| AudioCaching.StatsOf | apps/web/lib/utils.ts:65-69 | one record per key, in iteration order, with the key, the blob's size and its age now |
| AudioCaching.StatsListEveryEntry | apps/web/lib/utils.ts:62-71 | the records cover every entry exactly once, with its size and a non-negative age, and there are as many as the `Map`'s size |
| AudioCaching.AudioCache.constructor | apps/web/lib/utils.ts:15-17 | the singleton starts empty and satisfies the invariant |
| AudioCaching.AudioCache.GenerateKey | apps/web/lib/utils.ts:20-22 | the key is the encoded text cut to at most 50 characters. It depends on the text alone, not on a speed |
| AudioCaching.AudioCache.Set | apps/web/lib/utils.ts:25-44 | the new state is `AfterSet` on the text's key: old timer cancelled, a new one due in TTL, entry written, order kept for an existing key. The invariant is kept |
| AudioCaching.AudioCache.Store | apps/web/lib/utils.ts:29-43 | the body of `set` on a key yields exactly the state `AfterSet` describes |
| AudioCaching.AudioCache.Get | apps/web/lib/utils.ts:47-51 | `get` finds something exactly when the text's key is present, and then returns that entry's blob. As a function it changes neither entries nor timers |
| AudioCaching.AudioCache.SameKeySharesEntry | apps/web/lib/utils.ts:20-22 | two texts with the same key share one entry, so the last `set` of either is what `get` of the other returns |
| AudioCaching.AudioCache.Fire | apps/web/lib/utils.ts:35-37 | a due, pending timeout deletes its key, its timer and the key's place in the order. A cancelled timer does nothing. The invariant is kept |
| AudioCaching.AudioCache.Advance | apps/web/lib/utils.ts:42 | the clock moves on and nothing else changes. The invariant is kept |
| AudioCaching.AudioCache.Clear | apps/web/lib/utils.ts:54-59 | every timer is cancelled and the map is emptied. The invariant is kept |
| AudioCaching.AudioCache.CancelTimers | apps/web/lib/utils.ts:55-57 | the loop cancels exactly the timers of the entries it visits and changes nothing else |
| AudioCaching.AudioCache.GetStats | apps/web/lib/utils.ts:62-71 | `size` is the number of entries. `entries` has exactly one record per key, each with the blob's size and a non-negative age |
| AudioPlayback.IsMobile | apps/web/lib/audio-player.ts:5-8 | mobile exactly when the user agent contains iPhone, iPad, iPod or Android in any letter case, or the window is narrower than 768 |
| AudioPlayback.IsIOS | apps/web/lib/audio-player.ts:10-12 | iOS exactly when the user agent contains iPad, iPhone or iPod in that exact case and `MSStream` is not set |
| AudioPlayback.IsAndroid | apps/web/lib/audio-player.ts:14-16 | Android exactly when the user agent contains Android in any letter case |
| AudioPlayback.IOSIsMobile | apps/web/lib/audio-player.ts:5-12 | every iOS device is detected as mobile |
| AudioPlayback.AndroidIsMobile | apps/web/lib/audio-player.ts:5-16 | every Android device is detected as mobile |
| AudioPlayback.ClampRate | apps/web/lib/audio-player.ts:100 | the rate given to an engine lies in [0.25, 4.0], equals the requested rate when in range, and is the nearer bound otherwise |
| AudioPlayback.StopResult | apps/web/lib/audio-player.ts:127-137 | after `stop` no source is current and nothing plays. The current source, if any, is stopped and nothing else happens. The context is kept |
| AudioPlayback.StopIsIdempotent | apps/web/lib/audio-player.ts:127-137 | stopping twice is stopping once. The second stop does nothing observable |
| AudioPlayback.PlayResult | apps/web/lib/audio-player.ts:86-124 | `play` on mobile rejects at once with no change. Otherwise it stops the previous source first; a created context is kept; it resolves exactly when no step throws, with the new source current and playing; a failure leaves nothing playing, calls `onError` last and rejects with the same error. The player invariant is kept |
| AudioPlayback.PlayStartsAfterOnStart | apps/web/lib/audio-player.ts:110-114 | on success `onStart` is called immediately before the new source starts, at the clamped rate |
| AudioPlayback.PlayOnlyDrivesSources | apps/web/lib/audio-player.ts:92-115 | `play` creates no object URL, plays no element, sends no request, and starts sources only at the clamped rate |
| AudioPlayback.AudioPlayer.constructor | apps/web/lib/audio-player.ts:38-45 | a new player has no context, no source and is not playing |
| AudioPlayback.AudioPlayer.Stop | apps/web/lib/audio-player.ts:127-137 | the new state and the trace are those of `StopResult` |
| AudioPlayback.AudioPlayer.PlaySteps | apps/web/lib/audio-player.ts:92-115 | the `try` block raises exactly the first failing step's error, and otherwise leaves the state and trace `PlayResult` describes |
| AudioPlayback.AudioPlayer.Play | apps/web/lib/audio-player.ts:86-124 | the new state and the playback are those of `PlayResult`, and the invariant is kept |
| AudioPlayback.AudioPlayer.SourceEnded | apps/web/lib/audio-player.ts:104-108 | a source's `ended` event clears the current source and `isPlaying`, and calls `onEnd` |
| AudioPlayback.AudioPlayer.GetIsPlaying | apps/web/lib/audio-player.ts:140-142 | playing exactly when there is a current source |
| AudioPlayback.AudioPlayer.Dispose | apps/web/lib/audio-player.ts:145-151 | `dispose` stops, then closes and drops the context if there is one |
| AudioPlayback.FallbackPlay | apps/web/lib/audio-player.ts:155-194 | Opens with one object URL for the blob, then plays the element, at the clamped rate when it has one. Further: (1) `onStart` exactly when loading starts; (2) resolves, with `onEnd`, exactly when playback ends; (3) revokes the URL unless `play()` rejected; (4) an element error calls `onError` last and rejects with "Fallback audio playback failed"; (5) a rejected `play()` rejects with its reason and calls no callback |
| AudioPlayback.MobileAudioPlay | apps/web/lib/audio-player.ts:285-365 | Creates one object URL and sets no rate. `onStart` fires exactly when the element can play through, and the URL is revoked on every exit. It resolves with `onEnd` last exactly when playback ends. Otherwise it calls `onError` last and rejects with "Mobile audio failed: …" and the cause |
| AudioPlayback.FallbackOnlyDrivesElement | apps/web/lib/audio-player.ts:166-192 | the fallback starts no source, sends no request, and plays at the clamped rate or without a rate |
| AudioPlayback.MobileOnlyDrivesElement | apps/web/lib/audio-player.ts:289-305 | the mobile path starts no source, sends no request and never sets a rate |
| AudioPlayback.FetchResult | apps/web/lib/audio-player.ts:211-240 | `fetchTTS` behaves as follows. (1) A cache hit returns the cached blob, sends no request and leaves the cache alone. (2) A miss sends one request for the text and speed. (3) A throwing fetch rejects with its reason. (4) A non-ok status rejects with "TTS API error" and the status, leaving the cache alone. (5) An ok reply returns the body, and the cache afterwards is exactly `set` of that body under the text's key |
| AudioPlayback.DesktopResult | apps/web/lib/audio-player.ts:333-345 | with Web Audio off, only the fallback runs, at rate 1.0, and the player is untouched |
| AudioPlayback.DesktopFallsBackOnce | apps/web/lib/audio-player.ts:333-345 | on a desktop the fallback runs exactly once, on the same blob, when Web Audio is off or its attempt rejected, and never otherwise. Web Audio stays on exactly when it was on and succeeded |
| AudioPlayback.DesktopPlaysAtNormalRate | apps/web/lib/audio-player.ts:336-343 | whatever rate `speak` got, both desktop engines are given rate 1.0 |
| AudioPlayback.DesktopErrorBeforeFallback | apps/web/lib/audio-player.ts:334-341 | when Web Audio rejects and the fallback then succeeds, `speak` resolves, yet `onError` was already called with the player's error |
| AudioPlayback.PlayBlob | apps/web/lib/audio-player.ts:267-272 | a mobile device takes the mobile path and leaves the player and the flag alone. A `useWebAudio` already off stays off |
| AudioPlayback.PlayBlobSendsNoRequest | apps/web/lib/audio-player.ts:267-272 | playing never sends a request to the TTS endpoint |
| AudioPlayback.SpeakBody | apps/web/lib/audio-player.ts:252-281 | once past the guard, `speak` ends not loading on every path and never turns `useWebAudio` back on. A rejection is an `Error` that was just passed to `onError` |
| AudioPlayback.SpeakResult | apps/web/lib/audio-player.ts:243-282 | while a request is in flight, `speak` rejects with "TTS request already in progress", changes nothing and calls no callback. Otherwise it ends not loading |
| AudioPlayback.SpeakUsesCacheFirst | apps/web/lib/audio-player.ts:211-223 | a cache hit sends no request at all during `speak`. A miss sends the request for the text at the requested speed first, and no other request after it |
| AudioPlayback.SpeakReportsApiStatus | apps/web/lib/audio-player.ts:225-278 | a non-ok TTS reply makes `speak` call `onError` and reject with the status error after the one request. The state is left as it was |
| AudioPlayback.SpeakCachesReply | apps/web/lib/audio-player.ts:229-239 | after an ok reply the blob is cached under the text's key, whether or not playing it then works |
| AudioPlayback.TTSPlayer.constructor | apps/web/lib/audio-player.ts:197-208 | a new TTS player is not loading, has a fresh idle player, and uses Web Audio exactly when the device is not mobile |
| AudioPlayback.TTSPlayer.FetchTts | apps/web/lib/audio-player.ts:211-240 | the result and the new cache state are those of `FetchResult` on the cache's key for the text |
| AudioPlayback.TTSPlayer.DesktopAudioPlay | apps/web/lib/audio-player.ts:333-345 | the flag, the player and the playback are those of `DesktopResult`. Loading state and cache are unchanged |
| AudioPlayback.TTSPlayer.PlayFetched | apps/web/lib/audio-player.ts:267-272 | the flag, the player and the playback are those of `PlayBlob`. Loading state and cache are unchanged |
| AudioPlayback.TTSPlayer.BeginSpeak | apps/web/lib/audio-player.ts:248-253 | the guard lets the call through exactly when nothing was loading, and loading is on afterwards |
| AudioPlayback.TTSPlayer.FinishSpeak | apps/web/lib/audio-player.ts:252-281 | the new state (flag, player, cache, loading) and the playback are those of `SpeakBody` |
| AudioPlayback.TTSPlayer.Speak | apps/web/lib/audio-player.ts:243-282 | the new state and the playback are those of `SpeakResult` |
| AudioPlayback.TTSPlayer.Stop | apps/web/lib/audio-player.ts:368-373 | on a desktop the Web Audio player is stopped. On mobile nothing happens |
| AudioPlayback.TTSPlayer.GetIsPlaying | apps/web/lib/audio-player.ts:376-382 | on mobile it reports whether a request is loading, otherwise whether the player has a current source |
| AudioPlayback.TTSPlayer.GetIsLoading | apps/web/lib/audio-player.ts:385-387 | reports the in-flight flag. `BeginSpeak`, `SpeakBody` and `SpeakResult` state when it is set and that it is false once `speak` settles |
| AudioPlayback.TTSPlayer.Dispose | apps/web/lib/audio-player.ts:390-392 | disposes the player: it stops and closes the context |
| Bookmarks.Filter | apps/web/lib/bookmark-context.tsx:44-47 | `filter` keeps exactly the accepted elements, each as often as before, in their original order |
| Bookmarks.ReplaceById | apps/web/lib/bookmark-context.tsx:48-53 | the update `map` keeps the length and puts the payload at every position whose id matches, leaving the other positions alone |
| Bookmarks.IsBookmarked | apps/web/lib/bookmark-context.tsx:117-119 | the definition of `isBookmarked`: some saved phrase carries the id. `Reduce`, `AddMakesBookmarked` and `UpdateKeepsIds` state how each action changes it |
| Bookmarks.MessageBookmarkId | apps/web/lib/bookmark-context.tsx:121 | the definition of the id a saved message carries, "bookmark-" followed by the message id |
| Bookmarks.MessageBookmarkIdsDiffer | apps/web/lib/bookmark-context.tsx:121 | two different messages never share a bookmark id |
| Bookmarks.IsMessageBookmarked | apps/web/lib/bookmark-context.tsx:120-122 | a message is bookmarked exactly when its bookmark id is |
| Bookmarks.BookmarkedPhrases | apps/web/lib/bookmark-context.tsx:123-125 | exactly the phrases in category "bookmark", each as often as in the list, in their original order |
| Bookmarks.Reduce | apps/web/lib/bookmark-context.tsx:38-57 | For each action: (1) load replaces the list; (2) add appends at the end and keeps the earlier phrases in order, duplicates included; (3) remove drops every phrase with the id, keeps the rest in order, and the id is then not bookmarked; (4) update replaces the matching phrases and keeps the length; (5) any other action leaves the state unchanged |
| Bookmarks.UpdateAbsentIsNoOp | apps/web/lib/bookmark-context.tsx:48-53 | updating an id that is not saved leaves the list unchanged |
| Bookmarks.UpdateKeepsIds | apps/web/lib/bookmark-context.tsx:48-53 | an update leaves the set of bookmarked ids unchanged |
| Bookmarks.AddMakesBookmarked | apps/web/lib/bookmark-context.tsx:42-43 | after adding, an id is bookmarked exactly when it is the new phrase's or was bookmarked before |
| Bookmarks.CreateSavedPhraseFromMessage | apps/web/lib/bookmark-context.tsx:145-189 | The id is "bookmark-" + message id. The category is: "bookmark" if forced; else "correction" for a non-empty correction; else "translation" for a non-empty translation; else "bookmark". The content is the first non-empty of correction, translation and content. The translation is the original content exactly in the translation category |
| Bookmarks.SavedMessageIsBookmarked | apps/web/lib/bookmark-context.tsx:120-122 | a message saved with the helper and added is reported as bookmarked |
| Bookmarks.RemovedMessageIsNotBookmarked | apps/web/lib/bookmark-context.tsx:120-122 | removing a message's bookmark id makes the message unbookmarked |
| Bookmarks.ForcedBookmarkIsListed | apps/web/lib/bookmark-context.tsx:123-125 | a phrase saved from the bookmark button is listed among the bookmarked phrases once added |
| Transcribe.Validate | apps/web/app/api/transcribe/route.ts:20-55 | The upload is refused for "required" exactly when it is absent or an empty text field. It is refused for size exactly when it is a file over 25 MiB. It is accepted exactly when it is a file within the limit whose type is one of the eight strings. Each check applies only when the earlier ones passed |
| Transcribe.RejectionResponse | apps/web/app/api/transcribe/route.ts:20-55 | every refusal is a 400 with an error message |
| Transcribe.CatchResponse | apps/web/app/api/transcribe/route.ts:83-105 | a thrown `Error` is a 500 with its message as `details` and type `whisper_api_error`. Anything else is a 500 with type `unknown_error` |
| Transcribe.Post | apps/web/app/api/transcribe/route.ts:15-106 | A form that fails to parse yields the catch response. A refused upload yields its 400. A failing service yields the catch response for its error, a 500. The answer is 200 exactly when the upload passes and the service succeeds, and its body is then the transcript's text, language and duration |
| Transcribe.RejectedUploadSkipsService | apps/web/app/api/transcribe/route.ts:20-59 | the transcription service is not consulted for a refused upload |
| Transcribe.SizeBoundary | apps/web/app/api/transcribe/route.ts:28-33 | exactly 26214400 bytes passes the size check and 26214401 fails it |
| Transcribe.SizeCheckedBeforeType | apps/web/app/api/transcribe/route.ts:20-55 | an oversized file of an unsupported type is refused for its size |
| Transcribe.TypeMatchIsExact | apps/web/app/api/transcribe/route.ts:36-55 | types are compared exactly: "audio/WAV" and a parameter with a space are refused, "audio/webm;codecs=opus" passes |
| ServiceWorker.TtsUrlIsApi | apps/web/public/sw.js:49-51 | every URL containing "/api/tts" contains "/api/" |
| ServiceWorker.StrategyFor | apps/web/public/sw.js:49-78 | A POST whose URL contains "/api/tts" goes network-only. Any other URL containing "/api/" goes network-first. Everything else goes cache-first |
| ServiceWorker.TtsGetIsNetworkFirst | apps/web/public/sw.js:49-56 | a GET to the synthesis endpoint is routed network-first |
| ServiceWorker.ApiAdmits | apps/web/public/sw.js:60 | the definition of the API admission test: a 200 answer to a GET. `HandleFetch` states that the network-first route stores exactly these |
| ServiceWorker.StaticAdmits | apps/web/public/sw.js:90 | the definition of the static admission test: a 200 same-origin ("basic") answer. `HandleFetch` states that the cache-first route stores exactly these |
| ServiceWorker.ServesOfflinePage | apps/web/public/sw.js:105 | the definition of the offline-page test: a page navigation. `HandleFetch` states that only these get the offline page |
| ServiceWorker.Current | apps/web/public/sw.js:62-63 | the entries of the current cache, or none when `caches.open` would create it |
| ServiceWorker.Resolve | apps/web/public/sw.js:106 | a root-relative path names the absolute URL made of the worker's origin followed by the path, which is the key the Cache API matches it against |
| ServiceWorker.CacheStorage.OfflineUrl | apps/web/public/sw.js:106 | the definition of the key the offline page is looked up by: "/offline.html" resolved against the worker's origin |
| ServiceWorker.OfflinePageIsFound | apps/web/public/sw.js:104-107 | a page navigation that fails while offline is answered with the page stored under the absolute URL of "/offline.html" |
| ServiceWorker.CacheStorage.Match | apps/web/public/sw.js:79 | a match is a stored response for the URL, and only GET requests match. Without one, no cache holds the URL or the request is not a GET |
| ServiceWorker.CacheStorage.Put | apps/web/public/sw.js:62-65 | Opening creates the current cache if needed. The response is stored under the URL for a GET request. Every other cache is unchanged |
| ServiceWorker.CacheStorage.HandleFetch | apps/web/public/sw.js:45-111 | (1) Network-only passes the network answer through and never touches the cache. (2) Network-first serves the network response, storing it only for a 200 GET, and on failure answers from the cache. (3) Cache-first serves a hit without fetching; a miss is fetched and stored only if 200 and "basic". (4) On a network failure only a document request gets the offline page, looked up under the absolute URL that "/offline.html" names on the worker's origin. (5) Every store puts the response under the request URL in the current cache, which is created if missing; every other cache and URL is unchanged |
| ServiceWorker.CacheStorage.Activate | apps/web/public/sw.js:29-42 | every cache except the current one is deleted, and the current one is kept unchanged |
| News.WhiteSpaceRun | apps/web/app/api/news/route.ts:87 | the greedy `\s*` takes the longest run of white space there is |
| News.LazyTitleEnd | apps/web/app/api/news/route.ts:87 | the lazy `(.+?)` stops at the first end followed by a newline or "SUMMARY:" (any case), never crossing a line terminator. When no such end exists, it fails |
| News.TitleAfterMarker | apps/web/app/api/news/route.ts:87 | backtracking `\s*` from longest to shortest finds the longest white-space prefix that admits a title, or establishes that none does |
| News.TitleAt | apps/web/app/api/news/route.ts:87 | the title expression at one position yields the engine's first match (longest white space, then shortest capture), or fails exactly when no match starts there |
| News.FindTitle | apps/web/app/api/news/route.ts:87 | the title expression matches at the leftmost position where any match exists |
| News.ExtractTitle | apps/web/app/api/news/route.ts:87-90 | with no match anywhere the headline is "📰 Latest Tech News". The headline never contains a line terminator |
| News.TitleIsTrimmedCapture | apps/web/app/api/news/route.ts:87-90 | where a match exists, the headline is the trimmed capture of the leftmost, longest-white-space, shortest-capture match |
| News.SummaryStart | apps/web/app/api/news/route.ts:88 | the summary capture starts after white space only, and holds at least one character |
| News.SummaryCaptureTrimmed | apps/web/app/api/news/route.ts:88-91 | the trimmed capture is the trimmed text after the marker, line breaks included |
| News.FindSummary | apps/web/app/api/news/route.ts:88 | the summary expression matches at the leftmost "SUMMARY:" (any case) that has text after it, and nowhere when no such marker exists |
| News.ContentWithoutMarker | apps/web/app/api/news/route.ts:88-91 | with no match the body is the whole answer, untrimmed |
| News.FindSummaryIsLeftmost | apps/web/app/api/news/route.ts:88 | the search returns the leftmost matching position |
| News.ContentAfterFoundMarker | apps/web/app/api/news/route.ts:88-91 | once the marker is found, the body is the trimmed rest of the answer after it |
| News.ContentIsTrimmedRest | apps/web/app/api/news/route.ts:88-91 | with a match the body is the trimmed rest of the answer after the leftmost marker |
| News.ExtractContent | apps/web/app/api/news/route.ts:88-91 | the definition of the body: the trimmed capture after the summary marker, or the whole answer. Its properties are the `Content…` lemmas |
| News.FormatContent | apps/web/app/api/news/route.ts:97 | the definition of the message content. Its layout is `HeadlineIsFirstLine` |
| News.MessageLayout | apps/web/app/api/news/route.ts:97 | a one-line headline between "📰 " and a blank line is the message's first line, and the body follows the blank line |
| News.HeadlineIsFirstLine | apps/web/app/api/news/route.ts:97 | the message is "📰 ", the headline, a blank line and the body, and its first line break comes right after the headline |
| News.ContentLine | apps/web/app/api/news/route.ts:56 | the Content line is absent without story text. Otherwise it carries the first 500 characters of the text, or all of it when shorter |
| News.SummaryPrompt | apps/web/app/api/news/route.ts:53-62 | the definition of the prompt: fixed opening, the story's title, the `ContentLine`, fixed request |
| News.NewsContent | apps/web/app/api/news/route.ts:19-121 | The apology is the answer for: a failed or empty id list; a failed, missing or non-story item; a missing or empty completion. Otherwise the answer is the formatted split of the completion for the first story's prompt |
| News.OnlyFirstStoryMatters | apps/web/app/api/news/route.ts:37-39 | only the first top-story id is looked up |

## Left out

- I/O is left out: the network, `console` logging, `MobileAudioLogger`, JSON parsing and serialisation, and the HTTP response objects beyond status and body. The outcomes of these are parameters.
- Wall-clock time is left out. `Date.now`, `setTimeout` and `clearTimeout` become a logical clock (`now`) and timer ids that the environment fires. The logical clock never goes back, unlike `Date.now`. So the non-negative ages that `getStats` reports are a property of the model: a wall clock set back would make `age` negative (apps/web/lib/utils.ts:68). The formatted timestamps of the bookmark helper and of the news response are parameters or omitted.
- The concrete key encoding (`btoa(encodeURIComponent(text))`) is an abstract function held by the cache. Its failure on a text with a lone surrogate is not modelled. There `encodeURIComponent` throws a `URIError` in `audioCache.get` (apps/web/lib/audio-player.ts:213), before any request is sent. That call is outside the `try` of `fetchTTS` but inside the `try` of `speak`, so `speak` calls `onError` and rejects with the `URIError`.
- AudioPlayback.FetchResult: does not model the arity mismatch at run time. `fetchTTS` calls `audioCache.set(text, speed, blob)` (apps/web/lib/audio-player.ts:233), but `set` takes `(text, blob)` (apps/web/lib/utils.ts:25), so JavaScript stores the speed number. The model stores the blob under the text's key, as the call evidently intends. `get(text, speed)` ignores the speed, as in the code. The consequence in the code: the `speak` that fetches a text plays. Every later `speak` of it within that entry's 10 minutes gets the number from the cache (audio-player.ts:213), provided the stored speed is not 0: a 0 is falsy and reads as a miss. A hit does not call `set`, so the entry's timer is not renewed. Once it fires (apps/web/lib/utils.ts:35-37), the next `speak` fetches, stores and plays again. So within each entry's lifetime, no replay from the cache plays. On a desktop, decoding the number fails in `play` (audio-player.ts:96); its `catch` calls `onError` and rethrows (audio-player.ts:116-123). `desktopAudioPlay` then turns Web Audio off for good (audio-player.ts:339) and calls `fallbackPlay`, where `URL.createObjectURL` of the number throws (audio-player.ts:166). `speak` then calls `onError` a second time and rejects (audio-player.ts:274-278). On mobile, `URL.createObjectURL` fails in `mobileAudioPlay` (audio-player.ts:289), and `speak` calls `onError` and rejects.
- AudioPlayback.TTSPlayer.FetchTts: follows `FetchResult`, so it stores the blob and not the speed, for the same reason. The model therefore does not capture that a cached replay never plays.
- Async interleaving is left out. One `speak` runs as sequential steps, with the in-flight guard as an explicit check (`BeginSpeak`). A second `speak` can only be observed through that guard. Cache `put`s in the service worker happen synchronously, although the code does not wait for them.
- The device is fixed for the duration of a call, and the window width is not re-read between the steps of one `speak`.
- An `onStart` or `onEnd` callback that throws is not modelled. Callbacks are recorded in the trace.
- Promises that never settle (an element that never fires an event) are not modelled. Each element path ends in one of the listed outcomes.
- AudioPlayback.FallbackPlay: does not model events that arrive after the promise has settled. A rejected `play()` followed by an `error` event calls `onError` after the rejection (apps/web/lib/audio-player.ts:155-194), and the model ends each element path at its first outcome.
- AudioPlayback.MobileAudioPlay: likewise ends at its first outcome, so a later `error` or `ended` event after the promise settled is not modelled.
- The `playsInline`, `preload` and `volume` settings of the mobile element are left out. They have no observable logic.
- The audio context's error message text (`AudioContext initialization failed: …`) is a single error value.
- Strings are sequences of code points, while JavaScript counts UTF-16 code units. This affects only the 500-character excerpt of the news prompt, and only for text outside the Basic Multilingual Plane. The 50-character key cut applies to the output of `btoa`, which is ASCII.
- Rates are reals. `NaN` rates are not modelled.
- The Cache API's `Vary` handling, and matching by anything but the URL and method, are left out.
- ServiceWorker.CacheStorage.Match: does not say which cache answers when several hold the URL. The Cache API searches the caches in creation order, and the model allows any of them; every property of `HandleFetch` holds whichever one answers.
- The install, sync, push and notificationclick handlers of the service worker are left out. They are I/O with no decision logic.
- The localStorage load and save of bookmarks, and the React provider, hooks and dispatch wiring, are left out.
- The news route's non-array JSON answers are not modelled: the id list is a sequence of integers or a fetch failure. The `id` and `timestamp` fields of the message, and the model parameters of the completion request, are also left out.
- The transcription service call is a function of the accepted file. Its parameters (model name, response format, temperature) are left out.
