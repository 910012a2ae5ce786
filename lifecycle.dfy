/** The popup's state as one value, and the translation lifecycle as a transition on it:
    the re-entrancy guard, the main translation, the staleness checks after each await, the
    back-translation, the history append, the staleness-gated error message and the cleanup
    that always runs. */
module Lifecycle {
  import opened Outcomes
  import opened JsText
  import opened Languages
  import opened Providers
  import opened History

  /** Text the result panel shows while a translation is in flight. */
  const InProgress: string := "正在翻译..."
  /** Prefix of the error message written to the result panel. */
  const FailurePrefix: string := "翻译失败: "
  /** Text the result panel shows when there is no result. */
  const Placeholder: string := "翻译结果将在这里展示"

  /** Everything the lifecycle reads or writes: the `state` object, the DOM values it touches
      and the storage keys. */
  datatype PopupState = PopupState(
    langs: LangPair,         // state.fromLang / state.toLang, mirrored by the two selectors
    engine: string,          // state.currentEngine
    isTranslating: bool,     // state.isTranslating
    input: string,           // the textarea's value
    output: string,          // the result panel's text
    back: string,            // the back-translation panel's text
    backShown: bool,         // the back-translation panel is visible
    actionsShown: bool,      // the copy / speak / clear bar is visible
    buttonDisabled: bool,    // translateBtn.disabled
    loading: bool,           // translateBtn carries the 'loading' class
    history: StoredHistory,  // storage key 'history'
    saved: LangPair,         // storage keys 'fromLang' / 'toLang' ("" when missing)
    savedEngine: string)     // storage key 'engine' ("" when missing)

  /** What the outside world supplies while one translation runs: how each endpoint answers
      during the two provider calls, the textarea's value when each await resumes, and the
      clock read for the history entry. */
  datatype World = World(
    mainNet: Network,
    inputAfterMain: string,
    backNet: Network,
    inputAfterBack: string,
    now: int,
    inputAfterHistory: string)

  /** The guard of `performTranslation`: a non-blank input and nothing in flight. */
  predicate Starts(p: PopupState) {
    Trim(p.input) != "" && !p.isTranslating
  }

  /** The main translation of a started lifecycle. */
  function MainResult(p: PopupState, w: World): Result<string, ProviderError> {
    FetchTranslate(p.engine, w.mainNet, Trim(p.input), p.langs.from, p.langs.to)
  }

  /** The back-translation: the main result, from the target language to `BackTarget` of it. */
  function BackResult(p: PopupState, w: World, main: string): Result<string, ProviderError> {
    FetchTranslate(p.engine, w.backNet, main, p.langs.to, BackTarget(p.langs.to))
  }

  /** Both provider calls succeeded and the input was non-blank after each of them. */
  predicate Completed(p: PopupState, w: World) {
    var main := MainResult(p, w);
    Starts(p) && main.Ok? && Trim(w.inputAfterMain) != ""
    && BackResult(p, w, main.value).Ok? && Trim(w.inputAfterBack) != ""
  }

  /** The history entry of a completed lifecycle: languages, trimmed source, main result. */
  function EntryOf(p: PopupState, w: World): Entry
    requires MainResult(p, w).Ok?
  {
    Entry(w.now, p.langs.from, p.langs.to, Trim(p.input), MainResult(p, w).value)
  }

  /** Entering the lifecycle: flag set, button disabled and loading, panels reset. */
  function Started(p: PopupState): PopupState {
    p.(isTranslating := true, buttonDisabled := true, loading := true, output := InProgress,
       backShown := false, actionsShown := false)
  }

  /** The catch block: the error is shown only if the input is still non-blank. */
  function Caught(p: PopupState, e: ProviderError): (q: PopupState)
    ensures Trim(p.input) == "" ==> q == p
  {
    if Trim(p.input) != "" then p.(output := FailurePrefix + e.Message()) else p
  }

  /** The finally block: flag cleared, button enabled exactly for a non-blank input. */
  function Settled(p: PopupState): PopupState {
    p.(isTranslating := false, buttonDisabled := Trim(p.input) == "", loading := false)
  }

  /** The try block, from the main call to the history append. */
  function Attempted(p: PopupState, text: string, w: World): (q: PopupState)
    ensures q.langs == p.langs && q.engine == p.engine && q.isTranslating == p.isTranslating
    ensures q.saved == p.saved && q.savedEngine == p.savedEngine
  {
    var main := FetchTranslate(p.engine, w.mainNet, text, p.langs.from, p.langs.to);
    var p1 := p.(input := w.inputAfterMain);
    if main.Err? then Caught(p1, main.error)
    else if Trim(p1.input) == "" then p1
    else BackAttempted(p1.(output := main.value, actionsShown := true), text, main.value, w)
  }

  /** The rest of the try block once the main result is shown: the back-translation, the
      second staleness check and the history append. */
  function BackAttempted(p: PopupState, text: string, main: string, w: World): (q: PopupState)
    ensures q.langs == p.langs && q.engine == p.engine && q.isTranslating == p.isTranslating
    ensures q.saved == p.saved && q.savedEngine == p.savedEngine
  {
    var backFrom := p.langs.to;
    var back := FetchTranslate(p.engine, w.backNet, main, backFrom, BackTarget(backFrom));
    var p1 := p.(input := w.inputAfterBack);
    if back.Err? then Caught(p1, back.error)
    else if Trim(p1.input) == "" then p1
    else
      var item := Entry(w.now, p1.langs.from, p1.langs.to, text, main);
      p1.(back := back.value, backShown := true,
          history := ListValue(WithEntry(Loaded(p1.history), item)),
          input := w.inputAfterHistory)
  }

  /** `performTranslation()`. Rejected (nothing changes) on a blank input or while another
      translation is in flight; otherwise it ends idle, with the button enabled exactly when
      the input is non-blank, and it never changes the languages, the engine or the saved
      settings. */
  function Translated(p: PopupState, w: World): (q: PopupState)
    ensures !Starts(p) ==> q == p
    ensures Starts(p) ==> !q.isTranslating && !q.loading && q.buttonDisabled == (Trim(q.input) == "")
    ensures q.langs == p.langs && q.engine == p.engine
    ensures q.saved == p.saved && q.savedEngine == p.savedEngine
  {
    var text := Trim(p.input);
    if text == "" || p.isTranslating then p else Settled(Attempted(Started(p), text, w))
  }

  /** The history changes only when the lifecycle completes, and then gains exactly the entry
      `{t: now, from, to, src: trimmed input, out: main result}` in front. */
  lemma HistoryOnlyOnCompletion(p: PopupState, w: World)
    ensures Completed(p, w) ==>
              Translated(p, w).history == ListValue(WithEntry(Loaded(p.history), EntryOf(p, w)))
    ensures !Completed(p, w) ==> Translated(p, w).history == p.history
  {
  }

  /** A completed lifecycle shows the main result, its back-translation and the actions bar. */
  lemma CompletedShowsBoth(p: PopupState, w: World)
    requires Completed(p, w)
    ensures var q := Translated(p, w);
            var main := MainResult(p, w).value;
            q.output == main && q.actionsShown && q.backShown && q.back == BackResult(p, w, main).value
            && q.input == w.inputAfterHistory
  {
  }

  /** Input cleared during the main call: the main result is dropped, no panel is filled, no
      back-translation is requested, nothing is stored, and the button ends disabled. */
  lemma StaleAfterMainShowsNothing(p: PopupState, w: World)
    requires Starts(p) && Trim(w.inputAfterMain) == ""
    ensures var q := Translated(p, w);
            q.output == InProgress && !q.actionsShown && !q.backShown && q.back == p.back
            && q.history == p.history && q.input == w.inputAfterMain && q.buttonDisabled
  {
  }

  /** Input cleared during the back-translation: the main result stays visible, the
      back-translation is dropped, nothing is stored, and the button ends disabled. */
  lemma StaleAfterBackKeepsMain(p: PopupState, w: World)
    requires Starts(p) && MainResult(p, w).Ok? && Trim(w.inputAfterMain) != ""
    requires Trim(w.inputAfterBack) == ""
    ensures var q := Translated(p, w);
            q.output == MainResult(p, w).value && q.actionsShown && !q.backShown
            && q.back == p.back && q.history == p.history && q.buttonDisabled
  {
  }

  /** A failing main call shows its message only if the input is still non-blank when the
      call returns, and stores nothing. */
  lemma MainFailureGatedByInput(p: PopupState, w: World)
    requires Starts(p) && MainResult(p, w).Err?
    ensures var q := Translated(p, w);
            var e := MainResult(p, w).error;
            q.output == (if Trim(w.inputAfterMain) != "" then FailurePrefix + e.Message() else InProgress)
            && !q.actionsShown && !q.backShown && q.history == p.history
  {
  }

  /** A failing back-translation shows its message over the main result only if the input is
      still non-blank, and stores nothing. */
  lemma BackFailureGatedByInput(p: PopupState, w: World)
    requires Starts(p) && MainResult(p, w).Ok? && Trim(w.inputAfterMain) != ""
    requires BackResult(p, w, MainResult(p, w).value).Err?
    ensures var q := Translated(p, w);
            var e := BackResult(p, w, MainResult(p, w).value).error;
            q.output == (if Trim(w.inputAfterBack) != "" then FailurePrefix + e.Message()
                         else MainResult(p, w).value)
            && q.actionsShown && !q.backShown && q.history == p.history
  {
  }

  /** A second trigger while a translation is in flight is rejected outright. */
  lemma SecondTriggerRejected(p: PopupState, w: World, w': World)
    requires Starts(p)
    ensures Translated(Started(p), w') == Started(p)
  {
  }

  /** A click on an engine tag: a tag that is not the active one becomes the engine, is saved,
      and re-runs the lifecycle if the input is non-blank. */
  function EngineClicked(p: PopupState, clicked: Option<string>, w: World): (q: PopupState)
    ensures clicked.None? || clicked.value == p.engine ==> q == p
    ensures clicked.Some? && clicked.value != p.engine ==> q.engine == clicked.value && q.savedEngine == clicked.value
    ensures clicked.Some? && clicked.value != p.engine && Trim(p.input) == "" ==>
              q == p.(engine := clicked.value, savedEngine := clicked.value)
  {
    if clicked.Some? && clicked.value != p.engine then
      var p1 := p.(engine := clicked.value, savedEngine := clicked.value);
      if Trim(p1.input) != "" then Translated(p1, w) else p1
    else p
  }

  /** Switching the engine with a non-blank input and nothing in flight translates again
      with the new engine. */
  lemma EngineSwitchRetranslates(p: PopupState, e: string, w: World)
    requires e != p.engine && Starts(p)
    ensures var q := EngineClicked(p, Some(e), w);
            var p1 := p.(engine := e, savedEngine := e);
            q == Translated(p1, w)
            && MainResult(p1, w) == FetchTranslate(e, w.mainNet, Trim(p.input), p.langs.from, p.langs.to)
  {
  }

  /** Switching the engine while a translation is in flight only switches the engine: the
      re-translation it triggers meets the guard and is dropped. */
  lemma EngineSwitchInFlightDropped(p: PopupState, e: string, w: World)
    requires e != p.engine && p.isTranslating
    ensures EngineClicked(p, Some(e), w) == p.(engine := e, savedEngine := e)
  {
  }

  /** A non-empty clipboard text put into the textarea by the paste button: the button is
      enabled without looking at the trimmed text, then the lifecycle runs. */
  function Pasted(p: PopupState, text: string, w: World): (q: PopupState)
    ensures text == "" ==> q == p
    ensures text != "" && Trim(text) != "" && !p.isTranslating ==>
              q == Translated(p.(input := text, buttonDisabled := false), w)
    ensures text != "" && p.isTranslating ==> q == p.(input := text, buttonDisabled := false)
  {
    if text != "" then Translated(p.(input := text, buttonDisabled := false), w) else p
  }

  /** Pasting text made only of white space leaves the translate button enabled over an input
      the lifecycle treats as empty: the guard rejects the run and nothing resets the button. */
  lemma PastedBlankLeavesButtonEnabled(p: PopupState, text: string, w: World)
    requires text != "" && Trim(text) == ""
    ensures var q := Pasted(p, text, w);
            !q.buttonDisabled && Trim(q.input) == "" && q.history == p.history
  {
  }
}
