/** The i18n hook of `src/hooks/useI18n.ts`: reading the language out of a
    LangGraph context object, and the translator bound to a locale. */
module UseI18n {
  import opened Wrappers
  import I18nCore

  /** The parts of an arbitrary context object the hook looks at: its
      `input`, its `context` and its `language` members, each possibly
      missing. */
  datatype Context = Context(input: Option<Context>, context: Option<Context>, language: Option<string>)

  /** `c?.context`. */
  function ContextOf(c: Option<Context>): Option<Context>
  {
    if c.Some? then c.value.context else None
  }

  /** `c?.input`. */
  function InputOf(c: Option<Context>): Option<Context>
  {
    if c.Some? then c.value.input else None
  }

  /** `c?.language`. */
  function LanguageOf(c: Option<Context>): Option<string>
  {
    if c.Some? then c.value.language else None
  }

  /** `extractLanguageFromContext(context)`: the first non-empty language
      among `input.context.language`, `context.language` and `language`, or
      null. */
  function ExtractLanguageFromContext(ctx: Option<Context>): (r: Option<string>)
    ensures TruthyString(LanguageOf(ContextOf(InputOf(ctx)))) ==> r == LanguageOf(ContextOf(InputOf(ctx)))
    ensures !TruthyString(LanguageOf(ContextOf(InputOf(ctx)))) && TruthyString(LanguageOf(ContextOf(ctx))) ==>
              r == LanguageOf(ContextOf(ctx))
    ensures !TruthyString(LanguageOf(ContextOf(InputOf(ctx)))) && !TruthyString(LanguageOf(ContextOf(ctx))) ==>
              r == if TruthyString(LanguageOf(ctx)) then LanguageOf(ctx) else None
    ensures r.Some? ==> r.value != ""
  {
    var cands := [LanguageOf(ContextOf(InputOf(ctx))), LanguageOf(ContextOf(ctx)), LanguageOf(ctx)];
    assert cands[1..] == [cands[1], cands[2]];
    assert cands[1..][1..] == [cands[2]];
    assert cands[1..][1..][1..] == [];
    FirstTruthy(cands)
  }

  /** What `useI18n(language)` returns: the locale it settled on. Its `t`
      is `Translate`. */
  datatype I18n = I18n(locale: string)

  /** The default locale of the hook. */
  const HookDefaultLocale := "en-US"

  /** `useI18n(language)`: the language when it is a non-empty string, else
      "en-US"; the value is not checked against the known locales. */
  function UseI18n(language: Option<string>): (h: I18n)
    ensures TruthyString(language) ==> h.locale == language.value
    ensures !TruthyString(language) ==> h.locale == HookDefaultLocale
    ensures h.locale != ""
  {
    I18n(if TruthyString(language) then language.value else HookDefaultLocale)
  }

  /** `translate(key)`: `t(key, locale)`. */
  function Translate(h: I18n, key: string, translations: map<string, I18nCore.Tree>): (s: string)
    ensures s == key || h.locale in translations
  {
    I18nCore.Translation(key, Some(h.locale), translations)
  }

  /** Without a language the hook translates in "en-US", while `t` without
      a locale translates in "pt-BR". */
  lemma HookDefaultDiffersFromCore(key: string, translations: map<string, I18nCore.Tree>)
    ensures UseI18n(None).locale == "en-US"
    ensures Translate(UseI18n(None), key, translations) == I18nCore.Translation(key, Some("en-US"), translations)
    ensures I18nCore.Translation(key, None, translations) == I18nCore.Translation(key, Some("pt-BR"), translations)
  {
  }

  /** A language the translation tables do not know reaches `t` unchanged,
      and every key then shows as itself. */
  lemma UnknownLanguageShowsKeys(language: string, key: string, translations: map<string, I18nCore.Tree>)
    requires language != "" && language !in translations
    ensures Translate(UseI18n(Some(language)), key, translations) == key
  {
    I18nCore.UnknownLocaleShowsKeys(key, language, translations);
  }

  /** The language nested under `input.context` wins over the outer ones,
      and an empty nested language gives way to the outer one. */
  lemma NestedLanguageWins(inner: string, outer: string)
    requires inner != "" && outer != ""
    ensures var nested := Context(None, Some(Context(None, None, Some(inner))), None);
            ExtractLanguageFromContext(Some(Context(Some(nested), None, Some(outer)))) == Some(inner)
    ensures var nested := Context(None, Some(Context(None, None, Some(""))), None);
            ExtractLanguageFromContext(Some(Context(Some(nested), None, Some(outer)))) == Some(outer)
  {
  }
}
