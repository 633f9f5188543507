/** The pairing catalog: a constant table from a coffee style to the reason
    shown for it and, per mood key, the ordered list of suggested sweets. */
module Catalog {

  /** One catalog entry: the rationale text and the suggestion lists keyed by mood. */
  datatype Style = Style(reason: string, suggestions: map<string, seq<string>>)

  /** The two mood keys under which every style keeps a suggestion list. */
  const Light: string := "さっぱり"
  const Rich: string := "しっかり"

  /** The catalog itself, entry for entry as the application defines it. */
  const Db: map<string, Style> := map[
    "ブラック：浅煎り" := Style(
      "フルーティーな酸味を引き立てる、フルーツ系や軽やかな甘みが合います。",
      map[Light := ["レモンケーキ", "ドライフルーツ", "フルーツゼリー", "マカロン"],
          Rich := ["フルーツタルト", "アップルパイ", "ストロベリーショートケーキ", "レアチーズケーキ"]]),
    "ブラック：中煎り" := Style(
      "酸味と苦味のバランスが良いので、バターやナッツを使った焼き菓子全般と相性抜群です。",
      map[Light := ["フィナンシェ", "マドレーヌ", "カステラ", "ナッツクッキー"],
          Rich := ["パウンドケーキ", "パンケーキ", "バウムクーヘン", "キャラメルタルト"]]),
    "ブラック：深煎り" := Style(
      "強い苦味に負けない、濃厚なチョコやクリーム、またはあんこがベストマッチです。",
      map[Light := ["ビターチョコ", "羊羹", "かりんとう", "コーヒーゼリー"],
          Rich := ["ガトーショコラ", "ベイクドチーズケーキ", "ティラミス", "どら焼き", "ブラウニー"]]),
    "カフェラテ / カプチーノ" := Style(
      "ミルクのまろやかさには、小麦の味がしっかりするお菓子や、少し油分のあるものが合います。",
      map[Light := ["ビスコッティ", "バタークッキー", "プレッツェル"],
          Rich := ["シュガードーナツ", "クロワッサン", "スコーン", "ホットサンド"]]),
    "カフェモカ / フレーバーラテ" := Style(
      "コーヒー自体に甘みや香りがあるので、シンプルなものや塩気のあるものが意外と合います。",
      map[Light := ["バニラアイス", "塩ナッツ", "ポテトチップス（塩）"],
          Rich := ["ワッフル", "生クリームたっぷりのクレープ", "チョコチップクッキー"]]),
    "エスプレッソ" := Style(
      "少量で濃厚な味わいには、一口で満足感のある甘いものや、本場の定番がおすすめです。",
      map[Light := ["アマレッティ", "小さなダークチョコ"],
          Rich := ["ミニタルト", "フォンダンショコラ", "カスタードプリン"]])
  ]

  /** The styles the style selector offers, in the catalog's insertion order
      (a map has no order, so the order is kept here). */
  const StyleChoices: seq<string> := [
    "ブラック：浅煎り", "ブラック：中煎り", "ブラック：深煎り",
    "カフェラテ / カプチーノ", "カフェモカ / フレーバーラテ", "エスプレッソ"
  ]

  /** A well-formed entry: a non-empty reason, exactly the two mood keys, and
      under each a non-empty list of non-empty sweet names. */
  predicate WellFormed(s: Style) {
    && s.reason != ""
    && s.suggestions.Keys == {Light, Rich}
    && (forall k | k in s.suggestions :: s.suggestions[k] != [])
    && (forall k, i | k in s.suggestions && 0 <= i < |s.suggestions[k]| :: s.suggestions[k][i] != "")
  }

  /** Every catalog entry is well formed. */
  lemma CatalogWellFormed()
    ensures forall style | style in Db :: WellFormed(Db[style])
  {
  }

  /** The selector offers each catalog key exactly once and nothing else. */
  lemma StyleChoicesAreCatalogKeys()
    ensures forall style :: style in StyleChoices <==> style in Db
    ensures forall i, j | 0 <= i < j < |StyleChoices| :: StyleChoices[i] != StyleChoices[j]
  {
  }

  /** The suggestion list for a style and a mood key, unchanged from the catalog.
      The application indexes the table directly, so both keys must be present. */
  function Suggestions(style: string, moodKey: string): (r: seq<string>)
    requires style in Db && moodKey in Db[style].suggestions
    ensures r != []
    ensures forall i | 0 <= i < |r| :: r[i] != ""
    ensures r == Db[style].suggestions[moodKey]
  {
    CatalogWellFormed();
    Db[style].suggestions[moodKey]
  }

  /** The rationale shown for a style. */
  function Reason(style: string): (r: string)
    requires style in Db
    ensures r != ""
    ensures r == Db[style].reason
  {
    CatalogWellFormed();
    Db[style].reason
  }

  /** The lookup of the suggestion list is defined for every style the selector
      offers and for every mood key the two keys. */
  lemma LookupTotal(style: string, moodKey: string)
    requires style in StyleChoices
    requires moodKey == Light || moodKey == Rich
    ensures style in Db && moodKey in Db[style].suggestions
  {
  }
}
