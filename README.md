# Coffee & Sweets Pairing — verified model of the pairing logic

The application is a single Streamlit page. A user picks a coffee style and a
mood ("さっぱり・軽め" or "しっかり・濃厚"), sees the catalog's reason and
suggested sweets for that style and mood, picks one of the suggestions or types
a sweet name, adds a comment and a one-to-five rating, and records the pairing
into a per-session history that is shown newest first.

This project models the logic under the widgets:

- `Catalog` (catalog.dfy): the constant pairing catalog `COFFEE_DB` as an
  immutable `map<string, Style>`, the ordered list of styles the style selector
  offers, and the lookups of a style's reason and suggestion list. Lemmas prove
  that every entry is well formed (non-empty reason, exactly the keys
  "さっぱり" and "しっかり", non-empty lists of non-empty names) and that the
  suggestion lookup is defined for every style the selector can offer.
- `Selection` (selection.dfy): the mood label to mood key rule, the offered
  list with the placeholder "選択してください" in front, and the precedence rule
  that yields the final sweet name from the typed and the chosen entry.
- `PairingLog` (pairing_log.dfy): the stored record, the star string of a
  rating, the comment as the detail card shows it, and the session history as a
  class `History` holding a `seq<Record>` whose `Submit` method rejects an empty
  sweet name without change and otherwise inserts the new record at the front.
  `History.Valid()` is the invariant every submission keeps: every stored record
  has a non-empty sweet name and a star string made of stars only.

Widget values are plain parameters. The submission date, produced in the
application by reading the clock and formatting it, is an opaque string
parameter.

## Model

| member | source | states |
|---|---|---|
| Catalog.CatalogWellFormed | streamlit_app.py:9-52 | every catalog entry has a non-empty reason, exactly the two mood keys "さっぱり" and "しっかり", and under each a non-empty list of non-empty sweet names |
| Catalog.StyleChoicesAreCatalogKeys | streamlit_app.py:60 | the style selector offers every catalog key, only catalog keys, and each exactly once |
| Catalog.Suggestions | streamlit_app.py:67 | the suggestion list for a present style and mood key is the catalog's list unchanged, is non-empty, and holds no empty name |
| Catalog.Reason | streamlit_app.py:98 | the reason shown for a catalog style is the catalog's text and is never empty |
| Catalog.LookupTotal | streamlit_app.py:60-67 | for any style the selector offers and either mood key, the two-level lookup of the suggestion list is defined |
| Selection.MoodKey | streamlit_app.py:63-64 | the mood key is one of the two catalog keys, and it is "さっぱり" exactly when the mood label is "さっぱり・軽め" |
| Selection.ChoiceList | streamlit_app.py:68 | the offered list is the placeholder followed by the suggestions in order, one longer than the suggestions |
| Selection.FinalSweet | streamlit_app.py:72 | a non-empty typed name always wins; otherwise the chosen entry, and the empty name when the chosen entry is the placeholder |
| Selection.OfferedSuggestions | streamlit_app.py:60-67 | for any style the selector offers and any mood value the line-67 lookup with that mood's key is defined, and the list shown is exactly that catalog list, non-empty and with no empty name |
| Selection.FinalSweetEmptyIff | streamlit_app.py:67-72 | for an entry chosen from the offered list, the final name is empty if and only if nothing was typed and the placeholder is selected |
| Selection.ChosenIsSuggestion | streamlit_app.py:67-68 | a chosen entry other than the placeholder is one of the catalog's suggestions for the selected style and mood |
| PairingLog.Stars | streamlit_app.py:87 | the star string has exactly `n` characters, all "⭐", for positive `n`, and is empty otherwise, as string repetition is |
| PairingLog.DetailComment | streamlit_app.py:120 | the detail view shows the comment itself when it is non-empty and "（未入力）" when it is empty; what it shows is never empty |
| PairingLog.MakeRecord | streamlit_app.py:82-89 | the record carries the given date string, the selected style, the final sweet name, the full mood label (not the key), the comment unchanged, and a star string of length `rating`, so one to five stars for a slider rating |
| PairingLog.History.constructor | streamlit_app.py:55-56 | a new session starts with an empty history that satisfies the invariant |
| PairingLog.History.Submit | streamlit_app.py:78-91 | an empty sweet name yields the error message and leaves the history exactly unchanged; otherwise the history becomes the new record followed by the old history, one longer, with the new record first and every older record shifted by one, contents unchanged; the invariant is kept |
| PairingLog.History.SubmitSelection | streamlit_app.py:72-91 | pressing the record button with a selector state is rejected exactly when nothing was typed and the placeholder is selected; a rejection carries the missing-name error message and changes nothing, a success stores the record built from the resolved sweet name at the front |

## Left out

- All Streamlit calls (page setup, sidebar widgets, buttons, columns, expanders, success/error/info boxes, the rerun model): they belong to the UI framework. Widget values are method parameters.
- How `st.session_state` keeps the history across reruns (streamlit_app.py:55-56): framework behaviour; `History` models only the list and its update.
- The date string (streamlit_app.py:83): a clock read plus library formatting, taken as an opaque parameter.
- The table view built with pandas (streamlit_app.py:111-113): a foreign library and pure presentation.
- The card title and mood line of each detail card (streamlit_app.py:118-119) and the suggestion tiles (streamlit_app.py:100-103): string layout for display with nothing to state beyond the concatenation itself.
- The slider's range (streamlit_app.py:76) is a widget guarantee; `Stars` and `Submit` accept any integer rating, as the application code does, and the one-to-five bound on the star count is stated for ratings in that range.

## Notes on the code

- An unknown style would raise KeyError at streamlit_app.py:67 and :98; nothing handles it. The style selector offers only catalog keys, so that path is never reached: `Catalog.Suggestions` and `Catalog.Reason` require the key, and `Catalog.LookupTotal` proves that every offered style meets the requirement.
- A record has no identifier. Its order is its position in the session list, newest first, because each new record is inserted at index 0 (streamlit_app.py:90).
