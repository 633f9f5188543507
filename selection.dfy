/** Input resolution: from the widget values (style, mood label, chosen entry,
    free-typed entry) to the mood key, the offered list and the final sweet name. */
module Selection {
  import opened Catalog

  /** The two labels of the mood selector; the first one is the light mood. */
  const LightLabel: string := "さっぱり・軽め"
  const RichLabel: string := "しっかり・濃厚"

  /** The entry at the head of the suggestion selector that stands for "nothing chosen". */
  const Placeholder: string := "選択してください"

  /** The mood key of a mood label: the light key for the light label, the rich
      key for every other value. */
  function MoodKey(mood: string): (k: string)
    ensures k == Light || k == Rich
    ensures k == Light <==> mood == LightLabel
    ensures mood == RichLabel ==> k == Rich
  {
    if mood == LightLabel then Light else Rich
  }

  /** The offered list: the placeholder followed by the suggestions, unchanged and in order. */
  function ChoiceList(suggestions: seq<string>): (r: seq<string>)
    ensures |r| == |suggestions| + 1
    ensures r[0] == Placeholder
    ensures forall i | 0 <= i < |suggestions| :: r[i + 1] == suggestions[i]
  {
    [Placeholder] + suggestions
  }

  /** The final sweet name: a non-empty free-typed entry wins; otherwise the
      chosen entry, unless that is the placeholder, which gives the empty name. */
  function FinalSweet(custom: string, chosen: string): (r: string)
    ensures custom != "" ==> r == custom
    ensures custom == "" && chosen != Placeholder ==> r == chosen
    ensures custom == "" && chosen == Placeholder ==> r == ""
  {
    if custom != "" then custom else if chosen != Placeholder then chosen else ""
  }

  /** The suggestion list shown for a selector state: defined for every style the
      selector offers and every mood value, and never empty. */
  function OfferedSuggestions(style: string, mood: string): (r: seq<string>)
    requires style in StyleChoices
    ensures style in Db && MoodKey(mood) in Db[style].suggestions
    ensures r == Suggestions(style, MoodKey(mood))
    ensures r != []
    ensures forall i | 0 <= i < |r| :: r[i] != ""
  {
    LookupTotal(style, MoodKey(mood));
    Suggestions(style, MoodKey(mood))
  }

  /** For an entry chosen from the offered list, the final name is empty exactly
      when nothing was typed and the placeholder is still selected. */
  lemma FinalSweetEmptyIff(style: string, mood: string, custom: string, chosen: string)
    requires style in StyleChoices
    requires chosen in ChoiceList(OfferedSuggestions(style, mood))
    ensures FinalSweet(custom, chosen) == "" <==> custom == "" && chosen == Placeholder
  {
  }

  /** Every entry of the offered list other than the placeholder is a catalog
      suggestion for the selected style and mood. */
  lemma ChosenIsSuggestion(style: string, mood: string, chosen: string)
    requires style in StyleChoices
    requires chosen in ChoiceList(OfferedSuggestions(style, mood))
    requires chosen != Placeholder
    ensures style in Db && MoodKey(mood) in Db[style].suggestions
    ensures chosen in Db[style].suggestions[MoodKey(mood)]
  {
  }
}
