/** The language pair shown by the two selectors, the rules that keep it distinct, and the
    language codes handed to the translation providers. */
module Languages {

  /** `state.fromLang` and `state.toLang`, taken as one value with what the two selectors show. */
  datatype LangPair = LangPair(from: string, to: string) {
    /** The invariant the selectors keep: a translation never goes from a language to itself. */
    predicate Distinct() {
      from != to
    }
  }

  /** The language a selector flips to when the other selector takes its value: the binary
      universe of the popup knows only `zh` and everything else, which counts as `en`. */
  function Opposite(lang: string): (r: string)
    ensures r != lang
    ensures r == "en" || r == "zh"
    ensures r == "en" <==> lang == "zh"
  {
    if lang == "zh" then "en" else "zh"
  }

  /** The source selector changed to `v`; the target flips only on a collision. */
  function WithFrom(p: LangPair, v: string): (r: LangPair)
    ensures r.from == v && r.Distinct()
    ensures p.to != v ==> r.to == p.to
    ensures p.to == v ==> r.to == Opposite(v)
  {
    if v == p.to then LangPair(v, Opposite(v)) else LangPair(v, p.to)
  }

  /** The target selector changed to `v`; the source flips only on a collision. */
  function WithTo(p: LangPair, v: string): (r: LangPair)
    ensures r.to == v && r.Distinct()
    ensures p.from != v ==> r.from == p.from
    ensures p.from == v ==> r.from == Opposite(v)
  {
    if v == p.from then LangPair(Opposite(v), v) else LangPair(p.from, v)
  }

  /** The swap button: the new source is the old target and the new target the old source. */
  function Swapped(p: LangPair): (r: LangPair)
    ensures r.from == p.to && r.to == p.from
    ensures r.Distinct() <==> p.Distinct()
  {
    LangPair(p.to, p.from)
  }

  /** Swapping twice gives back the pair the user started from. */
  lemma SwapTwiceRestores(p: LangPair)
    ensures Swapped(Swapped(p)) == p
  {
  }

  /** The code sent to a provider: `zh` becomes `zh-CN`, every other code is sent as it is. */
  function ProviderCode(lang: string): (code: string)
    ensures code != "zh"
    ensures lang != "zh" ==> code == lang
    ensures lang == "zh" ==> code == "zh-CN"
  {
    if lang == "zh" then "zh-CN" else lang
  }

  /** Two codes reach a provider as the same code exactly when they are equal or are `zh`
      and `zh-CN`. */
  lemma ProviderCodeMerges(a: string, b: string)
    ensures ProviderCode(a) == ProviderCode(b) <==>
            a == b || (a == "zh" && b == "zh-CN") || (a == "zh-CN" && b == "zh")
  {
  }

  /** The target of the back-translation, whose source is the current target language:
      English when that is Chinese (`zh` or `zh-CN`), Chinese otherwise. */
  function BackTarget(backFrom: string): (backTo: string)
    ensures backTo == "en" || backTo == "zh"
    ensures backTo == "en" <==> backFrom == "zh" || backFrom == "zh-CN"
    ensures backTo != backFrom
  {
    if backFrom == "zh" || backFrom == "zh-CN" then "en" else "zh"
  }

  /** The back-translation never asks a provider to translate a language into itself, and on
      the two selectable languages it goes to the opposite one whatever the source was. */
  lemma BackTargetIsOpposite(backFrom: string)
    ensures ProviderCode(BackTarget(backFrom)) != ProviderCode(backFrom)
    ensures backFrom != "zh-CN" ==> BackTarget(backFrom) == Opposite(backFrom)
    ensures BackTarget(ProviderCode(backFrom)) == BackTarget(backFrom)
  {
  }

  /** The pair after `loadSettings`: each non-empty saved code replaces the current one. */
  function Restored(current: LangPair, saved: LangPair): (r: LangPair)
    ensures r.from == (if saved.from != "" then saved.from else current.from)
    ensures r.to == (if saved.to != "" then saved.to else current.to)
  {
    LangPair(if saved.from != "" then saved.from else current.from,
             if saved.to != "" then saved.to else current.to)
  }

  /** Settings written by a language handler restore exactly the pair they saved, so the
      restored pair is distinct whenever the saved one is. */
  lemma RestoredFromHandler(current: LangPair, p: LangPair, v: string)
    requires v != "" && p.from != "" && p.to != ""
    ensures Restored(current, WithFrom(p, v)) == WithFrom(p, v)
    ensures Restored(current, WithTo(p, v)) == WithTo(p, v)
    ensures Restored(current, WithTo(p, v)).Distinct()
  {
  }
}
