# Quote page model

A Dafny model of the quote page script `dom-manipulation/script.js`: a list of
quotes (text and category) seeded with four entries, saved to and loaded from
the browser's local store, extended through an add-quote form whose inputs are
validated after trimming, shown one at a time at random or by category, and an
add-quote form that a button shows and hides.

Files:

- `wrappers.dfy`: `Option`, used for "the store has no entry".
- `text.dfy`: `trim` (exactly the ECMAScript white-space and line-terminator
  characters, removed from both ends) and an ASCII `toLowerCase`.
- `quotes.dfy`: the `Quote` record, the seed list, the validation of the two
  inputs, the record a valid submission adds, and what loading does to the list.
- `filter.dfy`: the category selection and what the page shows for it.
- `form.dfy`: the show/hide state of the add-quote form and its button text.
- `page.dfy`: class `QuotePage`, the script's module-level state (the list,
  the store, the inputs and their error markers, the displayed quote, the
  notifications shown, the form) with one method per function of the script.

The random index the script draws with `Math.floor(Math.random() * n)` is a
caller-supplied `draw` below `n` in `Filter.FilterView`, and a
nondeterministic choice in range in the class methods. The store is the
abstract value the key `'quotes'` holds (`None` when absent); serialisation is
taken to round-trip.

The script stores only `{text, category}` per quote, `addQuote` returns
nothing, and there is no synchronisation with a server.

## Model

| member | source | states |
|---|---|---|
| Text.Trim | dom-manipulation/script.js:66-80 | the trimmed input is empty exactly when the input is all white space; otherwise it starts and ends with a non-space |
| Text.TrimIsInfix | dom-manipulation/script.js:79-80 | trimming removes only white space, only from the two ends: the result is the infix of the input between its leading and trailing white space |
| Text.TrimOfPadded | dom-manipulation/script.js:79-80 | white space + a text with non-space ends + white space trims to exactly that text (trim is determined by its characterisation) |
| Text.TrimIdempotent | dom-manipulation/script.js:79-80 | trimming a trimmed string changes nothing |
| Text.Lower | dom-manipulation/script.js:35 | lowercasing keeps the length and maps each character on its own, leaving no upper-case ASCII letter |
| Text.LowerIdempotent | dom-manipulation/script.js:35 | lowercasing twice equals lowercasing once |
| Quotes.Seed | dom-manipulation/script.js:2-7 | the list starts with four quotes |
| Quotes.ValidateInputs | dom-manipulation/script.js:60-75 | each error marker is raised exactly when its input is blank, both inputs are always checked, and the submission is valid exactly when neither is blank |
| Quotes.Entered | dom-manipulation/script.js:78-81 | the record a valid submission adds has non-empty text and category, each beginning and ending with a non-space |
| Quotes.EnteredIsTrimmed | dom-manipulation/script.js:78-81 | both fields of the added record are already trimmed |
| Quotes.Loaded | dom-manipulation/script.js:9-14 | loading keeps the current list as a prefix and appends the saved records after it; with nothing saved the list is unchanged |
| Quotes.LoadTwice | dom-manipulation/script.js:9-14 | loading the same store twice appends its records twice (no de-duplication) |
| Quotes.ReloadRepeatsSeed | dom-manipulation/script.js:2-18 | a page reopened on a list it saved holds the seed twice, followed by the rest of that list |
| Filter.FilterMatching | dom-manipulation/script.js:34-35 | the selection holds exactly the quotes whose lowercased category equals the lowercased argument, and is no longer than the list |
| Filter.Select | dom-manipulation/script.js:34-36 | an empty category selects the whole list; otherwise exactly the matching quotes |
| Filter.SelectIsSubsequence | dom-manipulation/script.js:34-36 | the selection keeps the list's order: it is a subsequence of the list |
| Filter.FilterCounts | dom-manipulation/script.js:35 | a matching quote occurs in the selection as often as in the list, a non-matching one not at all |
| Filter.FilterAppend | dom-manipulation/script.js:35 | filtering a concatenation is the concatenation of the filtered parts |
| Filter.SelectAfterLoad | dom-manipulation/script.js:12 | after loading, the selection is the old selection followed by the selection from the loaded records |
| Filter.FilterIgnoresCase | dom-manipulation/script.js:35 | category names equal up to case select the same quotes |
| Filter.FilterIdempotent | dom-manipulation/script.js:35 | filtering the selection again by the same category changes nothing |
| Filter.FilterView | dom-manipulation/script.js:38-50 | the page only notifies "No quotes found in this category" exactly when no quote is selected; otherwise it shows a selected quote of the list |
| Form.Initial | dom-manipulation/script.js:140-142 | the button starts as "Show Quote Form" whatever the form's state, which agrees with the form exactly when the form starts hidden |
| Form.Toggle | dom-manipulation/script.js:130-136 | a click flips the form's visibility and the button reads "Hide Quote Form" exactly when the form is visible |
| Form.ToggleTwice | dom-manipulation/script.js:126-137 | two clicks restore the visibility, and the whole state exactly when the label agreed with it |
| Page.QuotePage.constructor | dom-manipulation/script.js:139-154 | on page load a seed quote is shown, then the saved records are appended to the seed; the button reads "Show Quote Form" |
| Page.QuotePage.LoadQuotes | dom-manipulation/script.js:9-14 | the list becomes the old list followed by the saved records, if any, and keeps the seed at its front |
| Page.QuotePage.SaveQuotes | dom-manipulation/script.js:16-18 | the store afterwards holds the whole list |
| Page.QuotePage.ShowRandomQuote | dom-manipulation/script.js:21-30 | the list is never empty, so a quote of the list is displayed |
| Page.QuotePage.FilterByCategory | dom-manipulation/script.js:33-51 | with some selected quote a selected quote is displayed and nothing is notified; with none the notice is added and the display is kept |
| Page.QuotePage.ShowNotification | dom-manipulation/script.js:99-101 | the message is recorded after the earlier ones |
| Page.QuotePage.AddQuote | dom-manipulation/script.js:54-96 | error markers follow blankness of each input; a blank input changes nothing else; otherwise exactly one trimmed record is appended, the store equals the new list, the inputs are cleared, a quote of the list is shown and the success notice is added |
| Page.QuotePage.CreateAddQuoteForm | dom-manipulation/script.js:126-137 | a click toggles the form and relabels the button to agree with it |

## Left out

- DOM rendering and event wiring (`innerHTML` templates, element lookups, `addEventListener`, `insertBefore`): the displayed quote and the notifications are recorded as values.
- Page.QuotePage.ShowNotification: styling and the two timers that fade and remove the notification are not modelled; only the message is recorded.
- `Math.random` and `Math.floor`: floating point; replaced by an index below the length, supplied by the caller or chosen nondeterministically.
- `JSON.stringify`, `JSON.parse` and `localStorage`: the stored list is an abstract value that round-trips; malformed JSON, saved entries that are not quote records and storage quota errors are not modelled.
- Text.Lower: maps only A-Z; JavaScript's `toLowerCase` applies full Unicode case mapping, so non-ASCII categories that differ only in case are not matched by the model.
- Text.Trim: works on Unicode scalar values, while JavaScript strings are UTF-16 code units; every white-space character is in the Basic Multilingual Plane, so the results agree on well-formed strings, and lone surrogates are not representable.
- The form's starting visibility comes from the page's HTML, which is not part of this model; the constructor takes it as a parameter.
- Page.QuotePage.AddQuote: clearing the error markers before validation is folded into setting them from the validation result, which gives the same final state.
- Remote fetching and posting, periodic synchronisation, conflict resolution, import and export do not occur in this script and are not modelled.
