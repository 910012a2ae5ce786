# jsfanyi popup: language selector, history and translation lifecycle

This project models the controller inside `popup.js`, the script of a browser-extension popup
that translates text through two free web services. The model covers:

- the language pair (`state.fromLang`, `state.toLang`), whose change handlers flip the other
  selector when both would be equal, and the swap button;
- the history kept in extension storage: newest entry first, at most twenty entries, and a
  stored value that is not an array read as the empty list;
- the translation lifecycle `performTranslation`: the re-entrancy guard on
  `state.isTranslating`, the main translation, a staleness check, the back-translation, a
  second staleness check and the history append, an error message shown only while the input
  is non-blank, and the `finally` block that clears the flag and re-enables the button
  exactly for a non-blank input;
- the provider adapter: the `zh` to `zh-CN` code normalisation, the back-translation
  direction, the flattening of the Google reply, and the engine dispatch with its one-level
  fallback from the MyMemory ("AI") engine to Google;
- the engine selector, which saves the engine and translates again, and the paste path.

Layout, one module per component:

- `outcomes.dfy` (`Outcomes`): `Option` and `Result`.
- `js_text.dfy` (`JsText`): `String.prototype.trim` over the ECMAScript white-space and
  line-terminator characters.
- `languages.dfy` (`Languages`): the language pair and its transitions, the provider codes
  and the back-translation target.
- `providers.dfy` (`Providers`): the replies of both endpoints, the network as a parameter,
  and the adapter functions.
- `history.dfy` (`History`): entries, the stored value and the bounded prepend.
- `lifecycle.dfy` (`Lifecycle`): the popup's whole state as a value (`PopupState`) and each
  handler as a transition on it. The lemmas about the lifecycle live here.
- `popup.dfy` (`Popup`): the class `Popup`. Its fields are the `state` object, the DOM values
  the handlers read and write, and the storage keys. The handlers update these fields in
  place. Each handler's `ensures` gives the new `Current()` state as a transition of
  `Lifecycle`, `Languages` or `History` applied to the old one.

How the outside world appears in the model:

- The two services are a `Network` value: for each endpoint, the reply to a request made of
  the text and the two provider codes.
- `performTranslation` awaits three times. A `World` value supplies what happens during
  those awaits: the network seen by each provider call, the textarea's value when each
  await resumes, and the `Date.now()` reading for the history entry.
- Storage is a set of plain fields. A missing key and an empty string are both `""`,
  because the source tests these keys for truthiness.

## Model

| member | source | states |
|---|---|---|
| JsText.TrimStart | popup.js:314 | leading trim: what is kept is empty or starts with a non-white-space character, and every dropped character is white space |
| JsText.TrimEnd | popup.js:314 | trailing trim: what is kept is empty or ends with a non-white-space character, and every dropped character is white space |
| JsText.TrimIsCore | popup.js:314 | `trim()` returns a contiguous slice of the input with white space only around it and no white space at either end |
| JsText.TrimEmptyIffBlank | popup.js:315 | `!value.trim()` holds exactly when the value contains only white space and line terminators |
| JsText.TrimIdempotent | popup.js:314 | trimming the trimmed text changes nothing |
| Languages.Opposite | popup.js:91 | the flip target is `en` for `zh` and `zh` for everything else, so it is never the language that caused the collision |
| Languages.WithFrom | popup.js:87-93 | after a source change, `from` is the chosen value and differs from `to`; `to` is unchanged unless it collided, and then becomes `Opposite` of the new value |
| Languages.WithTo | popup.js:97-103 | the symmetric rule for a target change |
| Languages.Swapped | popup.js:108-116 | swap exchanges the two languages exactly, so the pair is distinct after exactly when it was distinct before |
| Languages.SwapTwiceRestores | popup.js:108-116 | swapping twice restores the original pair |
| Languages.ProviderCode | popup.js:380-381 | provider codes map `zh` to `zh-CN`, leave every other code unchanged, and never send a bare `zh` |
| Languages.ProviderCodeMerges | popup.js:403-404 | two codes reach a provider as the same code exactly when they are equal or are `zh` and `zh-CN` |
| Languages.BackTarget | popup.js:338-339 | the back-translation goes to `en` exactly when the back-source is `zh` or `zh-CN`, otherwise to `zh`, and never to the back-source itself |
| Languages.BackTargetIsOpposite | popup.js:338-341 | at provider level the back request never translates a language into itself; on every code except `zh-CN` the back target is `Opposite` of the current target, whatever the source was |
| Languages.Restored | popup.js:72-82 | `loadSettings` replaces each language for which a non-empty value was saved and keeps the other |
| Languages.RestoredFromHandler | popup.js:94 | a pair saved by a language handler is restored exactly, and is therefore distinct |
| Providers.Firsts | popup.js:391 | `data[0].map(item => item[0])` keeps one fragment per segment, in order, and an empty segment gives the empty string |
| Providers.ConcatAppend | popup.js:391 | `join('')` of two lists joined together is the concatenation of their joins |
| Providers.ConcatPlacesEachPart | popup.js:391 | every fragment appears in the joined text, in order, right after the fragments before it |
| Providers.GoogleAnswer | popup.js:386-397 | the Google result succeeds exactly when `data[0][0]` exists, and is then the flattened `data[0]`; a non-success status fails with the bad-response error, a JSON body without `data[0][0]` fails with the no-result error, and a rejected fetch or parse fails with its own message |
| Providers.FetchTranslate | popup.js:370-375 | under either engine, every failure is exactly Google's failure for the same request; a result that differs from Google's comes only from a MyMemory reply with a non-empty `translatedText`; with engine `ai`, such a `translatedText` is the result |
| Providers.FallbackIsGoogle | popup.js:414-418 | with engine `ai`, any MyMemory failure returns exactly Google's result for the same `(text, from, to)`; any other engine returns Google's result |
| Providers.ChineseCodesAgree | popup.js:380-381 | translating from or to `zh` gives the same result as `zh-CN` under both engines |
| History.Loaded | popup.js:242 | `getHistory` returns the stored array, and the empty list for any stored value that is not an array |
| History.WithEntry | popup.js:249-250 | the new list has the new item first, length `min(old length + 1, 20)`, and the first entries of the old list after it |
| History.FullListEvictsOldest | popup.js:250 | adding to a list of twenty keeps twenty entries and drops the oldest one |
| History.AddedAllKeepsMostRecent | popup.js:247-253 | after any sequence of additions to a list of at most twenty, the history holds the newest twenty entries, newest first, then the older ones |
| Lifecycle.Caught | popup.js:357-361 | the catch block changes nothing when the input has become blank |
| Lifecycle.Attempted | popup.js:325-361 | the try block never changes the languages, the engine, the in-flight flag or the saved settings |
| Lifecycle.BackAttempted | popup.js:337-356 | the back-translation step never changes the languages, the engine, the in-flight flag or the saved settings |
| Lifecycle.Translated | popup.js:313-367 | the lifecycle is a no-op for a blank input or while another run is in flight; otherwise it always ends with the flag cleared, the loading state off and `disabled == (trimmed input is empty)`; languages, engine and saved settings are untouched |
| Lifecycle.HistoryOnlyOnCompletion | popup.js:344-355 | the history changes only when both provider calls succeed and the input is non-blank after each await, and then gains `{t: now, from, to, src: trimmed input, out: main result}` in front |
| Lifecycle.CompletedShowsBoth | popup.js:332-347 | a completed run shows the main result, the actions bar, and the back-translation requested from the target language to `BackTarget` of it |
| Lifecycle.StaleAfterMainShowsNothing | popup.js:329-330 | if the input is cleared during the main call, performTranslation renders and stores nothing, no back-translation is requested, and the button ends disabled |
| Lifecycle.StaleAfterBackKeepsMain | popup.js:343-344 | if the input is cleared during the back-translation, performTranslation writes nothing after the second check, so the main result it wrote is not replaced; the back-translation is dropped, nothing is stored, and the button ends disabled |
| Lifecycle.MainFailureGatedByInput | popup.js:357-361 | a failed main call shows `翻译失败: ` and the message only if the input is still non-blank, and stores nothing |
| Lifecycle.BackFailureGatedByInput | popup.js:357-361 | a failed back-translation replaces the main result with the error message only if the input is still non-blank, and stores nothing |
| Lifecycle.SecondTriggerRejected | popup.js:315 | a second trigger while a run is in flight is rejected outright |
| Lifecycle.EngineClicked | popup.js:52-63 | clicking the active tag, or beside any tag, changes nothing; clicking another tag makes it the engine and saves it, and over a blank input changes nothing else |
| Lifecycle.EngineSwitchRetranslates | popup.js:59-61 | with a non-blank input and nothing in flight, switching the engine runs the lifecycle again, and the main call uses the new engine |
| Lifecycle.EngineSwitchInFlightDropped | popup.js:54-61 | switching the engine during a run only switches the engine, because the re-translation meets the guard |
| Lifecycle.Pasted | popup.js:224-235 | empty clipboard text changes nothing; a non-blank text with nothing in flight becomes the input and is translated; during a run the text becomes the input and the button is enabled, and nothing else changes |
| Lifecycle.PastedBlankLeavesButtonEnabled | popup.js:228 | pasting text made only of white space leaves the button enabled over an input the lifecycle treats as empty |
| Popup.Popup.constructor | popup.js:2-10 | a new popup starts with `en` to `zh`, the Google engine, nothing in flight and an empty input, and the pair is distinct |
| Popup.Popup.LoadEngine | popup.js:35-40 | a non-empty saved engine becomes the current engine |
| Popup.Popup.LoadSettings | popup.js:72-82 | the languages become `Restored` from the saved ones; two non-empty distinct saved values give a distinct pair |
| Popup.Popup.SetFrom | popup.js:87-95 | the pair becomes `WithFrom` of the old pair and is saved; the pair is distinct afterwards, whatever the state before |
| Popup.Popup.SetTo | popup.js:97-105 | the pair becomes `WithTo` of the old pair and is saved; the pair is distinct afterwards |
| Popup.Popup.Swap | popup.js:108-119 | the pair becomes `Swapped` of the old pair and is saved, in any state; the pair is distinct afterwards exactly when it was before |
| Popup.Popup.OnInput | popup.js:122-128 | the input takes the typed value and the button is disabled exactly when it is blank |
| Popup.Popup.ClearInput | popup.js:153-170 | the input is emptied, the button disabled, the placeholder shown and both panels hidden |
| Popup.Popup.GetHistory | popup.js:239-245 | returns `Loaded` of the stored value: the stored array, or the empty list when the stored value is not an array |
| Popup.Popup.AddHistory | popup.js:247-254 | the stored history becomes `WithEntry` of the loaded list, and nothing else changes |
| Popup.Popup.ClearHistory | popup.js:295-297 | the stored history becomes the empty array |
| Popup.Popup.PerformTranslation | popup.js:313-367 | the new state is `Translated` of the old one, so every lemma about `Translated` holds of the handler |
| Popup.Popup.TryTranslate | popup.js:325-336 | the try block with its catch, from the main call onwards, has the effect given by `Attempted` |
| Popup.Popup.TryBackTranslate | popup.js:337-356 | the rest of the try block with its catch, from the back-translation onwards, has the effect given by `BackAttempted` |
| Popup.Popup.PasteAndTranslate | popup.js:141-150 | the new state is `Pasted` of the old one |
| Popup.Popup.OnEngineClick | popup.js:52-63 | the new state is `EngineClicked` of the old one, and the pair stays distinct |

## Left out

- DOM rendering and styling are not modelled. This covers the textarea's height and scrolling,
  the placeholder layer, the clear button's visibility, the result colour, the engine tags'
  `active` class and `renderHistory`/`renderHistoryItem`. They are presentation only.
- A clicked engine tag counts as active exactly when it names the current engine. The page
  markup that sets the tags' initial classes is not part of this model.
- Clipboard reads and writes, and speech synthesis, are not modelled: they are browser APIs.
  A rejected clipboard read is only logged. The paste path takes the clipboard text as a
  parameter.
- `chrome.storage` get/set is not modelled. Storage is plain fields. A clear-history racing
  with an append is not modelled, because the model has no interleaving.
- `fetch`, URL building, `encodeURIComponent` and JSON parsing are not modelled. They are
  replaced by reply datatypes from a `Network` parameter. Replies of a JSON shape the model's
  types cannot express are not modelled. One example is a string in `data[0]`, where `.map`
  would throw.
- Async interleaving is not modelled. The textarea value seen after each await is a parameter.
  A language or engine change made by another handler during an await is not modelled. In the
  source, the back-translation and the history entry read the selectors and
  `state.currentEngine` again after the first await. The model uses the values from the start
  of the run.
- Writes made by other handlers during an await are not modelled; only the textarea's value
  changes between awaits. The clear button (popup.js:153-167) would also set the placeholder,
  hide both panels and disable the button; the input handler would toggle the button; a paste
  would enable it. So the lemmas on a stale run say what `performTranslation` itself writes,
  not what the page shows after such a handler ran.
- The two language selectors and `state.fromLang`/`state.toLang` are treated as one value.
  The source reads the selectors' values in `performTranslation` and in the swap handler, and
  the state object elsewhere. The model does not capture a selector whose first value, set by
  markup that is not part of this model, differs from the state object. It also does not
  capture a selector left empty by `loadSettings` assigning a saved code that is not one of its
  options.
- `Date.now()` is not modelled. The timestamp is a parameter.
- `console.error` logging and the fire-and-forget `renderHistory()` call are not modelled.
- The initial state of the page markup is not part of this model. The constructor takes the
  button as disabled and the result panel as showing the placeholder text from the
  clear-input handler.
- The translate button and the Enter key (popup.js:173-181) have no members of their own.
  Both only call `performTranslation`, which is `PerformTranslation` here.
- The source keeps the try block of `performTranslation` inline. The model splits it into
  `TryTranslate` and `TryBackTranslate` only to keep each proof small.
