/** The pairing log: the records built from submissions, how a record's rating
    and comment are shown, and the session history that submissions grow. */
module PairingLog {
  import opened Catalog
  import opened Selection

  /** The rating glyph (U+2B50) and the text shown in place of an empty comment. */
  const Star: char := '⭐'
  const NoComment: string := "（未入力）"

  /** The message shown when a submission has no sweet name. */
  const MissingSweetMessage: string := "スイーツ名を入力するか選択してください"

  /** One logged pairing. `volume` holds the full mood label and `stars` the
      rating as a string of stars; `date` is the formatted submission time. */
  datatype Record = Record(
    date: string,
    coffee: string,
    sweet: string,
    volume: string,
    stars: string,
    comment: string)

  /** What a submission produced: the stored record or the validation error. */
  datatype Outcome = Saved(record: Record) | Rejected(message: string)

  /** The rating as stars: the glyph repeated `n` times, and the empty string
      when `n` is zero or negative, as string repetition does. */
  function Stars(n: int): (r: string)
    ensures |r| == if n > 0 then n else 0
    ensures forall i | 0 <= i < |r| :: r[i] == Star
    decreases n
  {
    if n <= 0 then "" else Stars(n - 1) + [Star]
  }

  /** The comment as the detail card shows it: the comment itself, or the
      placeholder text when it is empty. */
  function DetailComment(comment: string): (r: string)
    ensures r != ""
    ensures comment != "" ==> r == comment
    ensures r == NoComment <==> comment == "" || comment == NoComment
  {
    if comment != "" then comment else NoComment
  }

  /** The record a successful submission stores. */
  function MakeRecord(date: string, coffee: string, sweet: string, mood: string, rating: int, comment: string): (r: Record)
    ensures r.date == date
    ensures r.coffee == coffee && r.sweet == sweet
    ensures r.volume == mood
    ensures r.comment == comment
    ensures |r.stars| == (if rating > 0 then rating else 0)
    ensures forall i | 0 <= i < |r.stars| :: r.stars[i] == Star
    ensures 1 <= rating <= 5 ==> 1 <= |r.stars| <= 5
  {
    Record(date, coffee, sweet, mood, Stars(rating), comment)
  }

  /** A stored record has a sweet name and a star string made of stars only. */
  predicate Stored(r: Record) {
    && r.sweet != ""
    && forall i | 0 <= i < |r.stars| :: r.stars[i] == Star
  }

  /** The session's pairing history, newest record first. */
  class History {
    var records: seq<Record>

    /** Every record in the history was stored by a successful submission. */
    predicate Valid()
      reads this
    {
      forall i | 0 <= i < |records| :: Stored(records[i])
    }

    /** A new session starts with an empty history. */
    constructor ()
      ensures Valid()
      ensures records == []
    {
      records := [];
    }

    /** Submit one pairing. An empty sweet name is rejected and the history is
        left exactly as it was; otherwise the new record goes to the front and
        every older record keeps its contents and relative order. */
    method Submit(date: string, coffee: string, sweet: string, mood: string, rating: int, comment: string)
      returns (outcome: Outcome)
      requires Valid()
      modifies this
      ensures Valid()
      ensures sweet == "" ==> outcome == Rejected(MissingSweetMessage) && records == old(records)
      ensures sweet != "" ==> outcome == Saved(MakeRecord(date, coffee, sweet, mood, rating, comment))
      ensures sweet != "" ==> records == [outcome.record] + old(records)
      ensures sweet != "" ==> |records| == |old(records)| + 1 && records[0] == outcome.record
      ensures sweet != "" ==> forall i | 0 <= i < |old(records)| :: records[i + 1] == old(records)[i]
    {
      if sweet == "" {
        outcome := Rejected(MissingSweetMessage);
      } else {
        var record := MakeRecord(date, coffee, sweet, mood, rating, comment);
        records := [record] + records;
        outcome := Saved(record);
      }
    }

    /** Press the record button with the selector state as it stands: the sweet
        name is resolved from the typed and the chosen entry, and the submission
        is rejected exactly when nothing was typed and the placeholder is selected. */
    method SubmitSelection(date: string, style: string, mood: string, custom: string, chosen: string, rating: int, comment: string)
      returns (outcome: Outcome)
      requires Valid()
      requires style in StyleChoices
      requires chosen in ChoiceList(OfferedSuggestions(style, mood))
      modifies this
      ensures Valid()
      ensures outcome.Rejected? <==> custom == "" && chosen == Placeholder
      ensures outcome.Rejected? ==> outcome == Rejected(MissingSweetMessage) && records == old(records)
      ensures outcome.Saved? ==> records == [outcome.record] + old(records)
      ensures outcome.Saved? ==> outcome.record == MakeRecord(date, style, FinalSweet(custom, chosen), mood, rating, comment)
    {
      FinalSweetEmptyIff(style, mood, custom, chosen);
      outcome := Submit(date, style, FinalSweet(custom, chosen), mood, rating, comment);
    }
  }
}
