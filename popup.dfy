/** The popup controller: the shared `state` object, the DOM values the handlers read and
    write, and the extension-storage keys, updated in place by the event handlers. Each
    handler's new state is stated against the pure transitions of `Lifecycle`, `Languages`
    and `History`. */
module Popup {
  import opened Outcomes
  import opened JsText
  import opened Languages
  import opened Providers
  import opened History
  import opened Lifecycle

  class Popup {
    var fromLang: string
    var toLang: string
    var currentEngine: string
    var isTranslating: bool
    var inputText: string
    var outputText: string
    var backTranslation: string
    var backShown: bool
    var actionsShown: bool
    var translateDisabled: bool
    var loading: bool
    var history: StoredHistory
    var savedFrom: string
    var savedTo: string
    var savedEngine: string

    /** The object invariant: the two selected languages differ. */
    ghost predicate Valid()
      reads this
    {
      fromLang != toLang
    }

    /** The whole state as a value. */
    function Current(): PopupState
      reads this
    {
      PopupState(LangPair(fromLang, toLang), currentEngine, isTranslating, inputText, outputText,
        backTranslation, backShown, actionsShown, translateDisabled, loading, history,
        LangPair(savedFrom, savedTo), savedEngine)
    }

    /** A freshly opened popup over what storage holds: English to Chinese, the Google
        engine, nothing in flight, an empty input with the button disabled. */
    constructor (stored: StoredHistory, storedFrom: string, storedTo: string, storedEngine: string)
      ensures Valid()
      ensures Current() == PopupState(LangPair("en", "zh"), "google", false, "", Placeholder, "",
                false, false, true, false, stored, LangPair(storedFrom, storedTo), storedEngine)
    {
      fromLang, toLang := "en", "zh";
      currentEngine := "google";
      isTranslating := false;
      inputText, outputText, backTranslation := "", Placeholder, "";
      backShown, actionsShown := false, false;
      translateDisabled, loading := true, false;
      history := stored;
      savedFrom, savedTo, savedEngine := storedFrom, storedTo, storedEngine;
    }

    /** The startup read of the saved engine: a non-empty saved value becomes the engine. */
    method LoadEngine()
      modifies this
      ensures Current() == old(Current()).(engine := if savedEngine != "" then savedEngine else old(currentEngine))
    {
      if savedEngine != "" {
        currentEngine := savedEngine;
      }
    }

    /** `loadSettings`: each non-empty saved language replaces the current one. When both were
        saved by a language handler, the restored pair is that saved pair, hence distinct. */
    method LoadSettings()
      modifies this
      ensures Current() == old(Current()).(langs := Restored(old(Current()).langs, old(Current()).saved))
      ensures savedFrom != "" && savedTo != "" && savedFrom != savedTo ==> Valid()
    {
      if savedFrom != "" {
        fromLang := savedFrom;
      }
      if savedTo != "" {
        toLang := savedTo;
      }
    }

    /** The source selector's change handler. */
    method SetFrom(v: string)
      modifies this
      ensures Valid()
      ensures Current() == old(Current()).(langs := WithFrom(old(Current()).langs, v),
                                           saved := WithFrom(old(Current()).langs, v))
    {
      fromLang := v;
      if fromLang == toLang {
        toLang := Opposite(fromLang);
      }
      savedFrom, savedTo := fromLang, toLang;
    }

    /** The target selector's change handler. */
    method SetTo(v: string)
      modifies this
      ensures Valid()
      ensures Current() == old(Current()).(langs := WithTo(old(Current()).langs, v),
                                           saved := WithTo(old(Current()).langs, v))
    {
      toLang := v;
      if toLang == fromLang {
        fromLang := Opposite(toLang);
      }
      savedFrom, savedTo := fromLang, toLang;
    }

    /** The swap button's handler: the pair is distinct afterwards exactly when it was before. */
    method Swap()
      modifies this
      ensures Valid() == old(Valid())
      ensures Current() == old(Current()).(langs := Swapped(old(Current()).langs),
                                           saved := Swapped(old(Current()).langs))
    {
      var newFrom := toLang;
      var newTo := fromLang;
      fromLang := newFrom;
      toLang := newTo;
      savedFrom, savedTo := fromLang, toLang;
    }

    /** The textarea's input handler: the button is enabled exactly for a non-blank value. */
    method OnInput(value: string)
      modifies this
      ensures Current() == old(Current()).(input := value, buttonDisabled := Trim(value) == "")
    {
      inputText := value;
      translateDisabled := Trim(value) == "";
    }

    /** The clear-input button: empty input, disabled button, placeholder result, panels hidden. */
    method ClearInput()
      modifies this
      ensures Current() == old(Current()).(input := "", buttonDisabled := true, output := Placeholder,
                                           backShown := false, actionsShown := false)
    {
      inputText := "";
      translateDisabled := true;
      outputText := Placeholder;
      backShown := false;
      actionsShown := false;
    }

    /** `getHistory`: the stored list, or the empty list for a stored value that is not one. */
    method GetHistory() returns (list: seq<Entry>)
      ensures list == Loaded(history)
    {
      list := if history.ListValue? then history.entries else [];
    }

    /** `addHistory`: `unshift` the item onto the loaded list, keep the first twenty. */
    method AddHistory(item: Entry)
      modifies this
      ensures Current() == old(Current()).(history := ListValue(WithEntry(Loaded(old(history)), item)))
    {
      var list := GetHistory();
      list := [item] + list;
      var trimmed := if |list| <= Capacity then list else list[..Capacity];
      history := ListValue(trimmed);
    }

    /** The clear-history button. */
    method ClearHistory()
      modifies this
      ensures Current() == old(Current()).(history := ListValue([]))
    {
      history := ListValue([]);
    }

    /** `performTranslation`, with what happens during its awaits supplied by `w`. */
    method PerformTranslation(w: World)
      modifies this
      ensures Current() == Translated(old(Current()), w)
      ensures Valid() == old(Valid())
    {
      var currentText := Trim(inputText);
      if currentText == "" || isTranslating {
        return;
      }
      isTranslating := true;
      translateDisabled := true;
      loading := true;
      outputText := InProgress;
      backShown := false;
      actionsShown := false;
      assert Current() == Started(old(Current()));
      TryTranslate(currentText, w);
      // finally
      isTranslating := false;
      translateDisabled := Trim(inputText) == "";
      loading := false;
    }

    /** The try block of `performTranslation` with its catch: the main call, the first
        staleness check, and on success the rest of the block. */
    method TryTranslate(currentText: string, w: World)
      modifies this
      ensures Current() == Attempted(old(Current()), currentText, w)
    {
      var main := FetchTranslate(currentEngine, w.mainNet, currentText, fromLang, toLang);
      inputText := w.inputAfterMain;
      if main.Err? {
        if Trim(inputText) != "" {
          outputText := FailurePrefix + main.error.Message();
        }
      } else if Trim(inputText) != "" {
        outputText := main.value;
        actionsShown := true;
        TryBackTranslate(currentText, main.value, w);
      }
    }

    /** The try block of `performTranslation` once the main result is shown, with its catch:
        the back-translation, the second staleness check and the history append. */
    method TryBackTranslate(currentText: string, mainResult: string, w: World)
      modifies this
      ensures Current() == BackAttempted(old(Current()), currentText, mainResult, w)
    {
      var backFrom := toLang;
      var backTo := BackTarget(backFrom);
      var back := FetchTranslate(currentEngine, w.backNet, mainResult, backFrom, backTo);
      inputText := w.inputAfterBack;
      if back.Err? {
        if Trim(inputText) != "" {
          outputText := FailurePrefix + back.error.Message();
        }
      } else if Trim(inputText) != "" {
        backTranslation := back.value;
        backShown := true;
        ghost var shown := Current();
        var item := Entry(w.now, fromLang, toLang, currentText, mainResult);
        AddHistory(item);
        inputText := w.inputAfterHistory;
        assert Current() == shown.(history := ListValue(WithEntry(Loaded(shown.history), item)),
                                   input := w.inputAfterHistory);
      }
    }

    /** The paste button with the text the clipboard gave (`setInputAndTranslate`). */
    method PasteAndTranslate(text: string, w: World)
      modifies this
      ensures Current() == Pasted(old(Current()), text, w)
    {
      if text != "" {
        inputText := text;
        translateDisabled := false;
        ghost var pasted := Current();
        PerformTranslation(w);
        assert Current() == Translated(pasted, w);
      }
    }

    /** The engine selector's click handler. */
    method OnEngineClick(clicked: Option<string>, w: World)
      modifies this
      ensures Current() == EngineClicked(old(Current()), clicked, w)
      ensures Valid() == old(Valid())
    {
      if clicked.Some? && clicked.value != currentEngine {
        ghost var switched := old(Current()).(engine := clicked.value, savedEngine := clicked.value);
        currentEngine := clicked.value;
        savedEngine := currentEngine;
        assert Current() == switched;
        if Trim(inputText) != "" {
          PerformTranslation(w);
          assert Current() == Translated(switched, w);
        }
      }
    }
  }
}
