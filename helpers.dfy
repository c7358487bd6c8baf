/**
 * The two free helpers at the top of stage.js: `clamp` and the
 * locale lookup `copyFor`, with the built-in copy table it is used on.
 */
module Helpers {

  /** `Math.min(Math.max(value, min), max)`. */
  function Clamp(value: real, lo: real, hi: real): (r: real)
    ensures lo <= hi ==> lo <= r <= hi
    ensures lo <= value <= hi ==> r == value
    ensures value < lo && lo <= hi ==> r == lo
    ensures hi < value ==> r == hi
    ensures hi < lo ==> r == hi
  {
    var raised := if value < lo then lo else value;
    if raised < hi then raised else hi
  }

  /** The locale every copy entry falls back to. */
  const FallbackLocale: string := "en-US"

  /** JavaScript truthiness of an optional string: present and not empty. */
  predicate Truthy(s: string) { s != "" }

  /**
   * `dictionary[locale] || dictionary['en-US'] || ''`: the requested
   * locale's text, else the en-US text, else the empty string. An empty
   * entry is falsy and falls through like a missing one.
   */
  function CopyFor(dictionary: map<string, string>, locale: string): (r: string)
    ensures locale in dictionary && dictionary[locale] != "" ==> r == dictionary[locale]
    ensures (locale !in dictionary || dictionary[locale] == "") && FallbackLocale in dictionary
            ==> r == dictionary[FallbackLocale]
    ensures r == "" || r in dictionary.Values
    ensures r == "" <==> (locale !in dictionary || dictionary[locale] == "")
                         && (FallbackLocale !in dictionary || dictionary[FallbackLocale] == "")
  {
    if locale in dictionary && Truthy(dictionary[locale]) then dictionary[locale]
    else if FallbackLocale in dictionary && Truthy(dictionary[FallbackLocale]) then dictionary[FallbackLocale]
    else ""
  }

  /** One entry of the copy table: its en-US and zh-HK texts. */
  function Entry(en: string, zh: string): map<string, string> {
    map["en-US" := en, "zh-HK" := zh]
  }

  /** The keys of `DEFAULT_COPY`. */
  datatype CopyKey =
    | RailTitle | RailSubtitle | LoadOlder | ComposerPlaceholder | EmptyTitle | EmptySubtitle
    | AdminLabel | SendLabel | SendTitle | MicTitle | TtsTitle | ClearTitle

  /** `DEFAULT_COPY`: every user-visible label of the stage, by key and locale. */
  function DefaultCopy(key: CopyKey): map<string, string> {
    match key
    case RailTitle => Entry("Conversation", "對話")
    case RailSubtitle => Entry("Voice linked • Live2D active", "語音已連線 • Live2D 已啟動")
    case LoadOlder => Entry("Load previous messages", "載入較早訊息")
    case ComposerPlaceholder => Entry("Type a message…", "請輸入訊息…")
    case EmptyTitle => Entry("Start a health check-in", "開始健康諮詢")
    case EmptySubtitle => Entry("Speak or type to begin — your Live2D nurse is ready.", "可以開口或輸入文字開始，Live2D 護理員隨時待命。")
    case AdminLabel => Entry("⚙️ Admin", "⚙️ 管理")
    case SendLabel => Entry("Send", "傳送")
    case SendTitle => Entry("Send message", "傳送訊息")
    case MicTitle => Entry("Voice input", "語音輸入")
    case TtsTitle => Entry("Text-to-Speech ON (click to disable)", "語音播放開啟（點擊關閉）")
    case ClearTitle => Entry("Start new conversation", "開始新對話")
  }

  /** A label of the built-in table is never blank, whatever the locale. */
  lemma DefaultCopyNeverBlank(key: CopyKey, locale: string)
    ensures CopyFor(DefaultCopy(key), locale) != ""
  {
  }

  /** A locale the table does not know shows the en-US text. */
  lemma UnknownLocaleFallsBack(key: CopyKey, locale: string)
    requires locale != "en-US" && locale != "zh-HK"
    ensures CopyFor(DefaultCopy(key), locale) == DefaultCopy(key)[FallbackLocale]
  {
  }
}
