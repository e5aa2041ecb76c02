/**
 * The quote page: the module-level quote list, the browser store it is saved
 * to, the add-quote inputs and their error markers, the quote on display, the
 * notifications shown and the add-quote form's toggle.
 */
module Page {
  import opened Wrappers
  import opened Text
  import opened Quotes
  import opened Filter
  import opened Form

  const AddedMessage: string := "Quote added successfully!"

  class QuotePage {
    /** The in-memory list; it only ever grows. */
    var quotes: seq<Quote>
    /** The store's entry under the key 'quotes', if any. */
    var storage: Option<seq<Quote>>
    /** The two input fields of the add-quote form. */
    var textInput: string
    var categoryInput: string
    /** Whether the error marker next to each input is shown. */
    var textErrorShown: bool
    var categoryErrorShown: bool
    /** The quote currently on display. */
    var display: Option<Quote>
    /** Every notification shown, oldest first. */
    var notifications: seq<string>
    var form: FormState

    /** The seed quotes stay at the front of the list, so the list is never empty. */
    ghost predicate Valid()
      reads this
    {
      Seed() <= quotes
    }

    /**
     * Loading the page: the toggle button is created, a random seed quote is
     * shown, and then whatever the store holds is loaded.
     */
    constructor (saved: Option<seq<Quote>>, formHidden: bool)
      ensures Valid()
      ensures quotes == Loaded(Seed(), saved)
      ensures storage == saved
      ensures display.Some? && display.value in Seed()
      ensures form == Initial(formHidden)
      ensures notifications == []
      ensures textInput == [] && categoryInput == []
      ensures !textErrorShown && !categoryErrorShown
    {
      quotes := Seed();
      storage := saved;
      textInput, categoryInput := [], [];
      textErrorShown, categoryErrorShown := false, false;
      display := None;
      notifications := [];
      form := Initial(formHidden);
      new;
      ShowRandomQuote();
      LoadQuotes();
    }

    /** Appends the stored records, if any, after the current ones. */
    method LoadQuotes()
      requires Valid()
      modifies this`quotes
      ensures Valid()
      ensures quotes == Loaded(old(quotes), storage)
    {
      if storage.Some? {
        quotes := quotes + storage.value;
      }
    }

    /** Overwrites the store with the whole list. */
    method SaveQuotes()
      modifies this`storage
      ensures storage == Some(quotes)
    {
      storage := Some(quotes);
    }

    /** Shows a quote drawn from the whole list. */
    method ShowRandomQuote()
      requires Valid()
      modifies this`display
      ensures display.Some? && display.value in quotes
    {
      var randomIndex :| 0 <= randomIndex < |quotes|;
      display := Some(quotes[randomIndex]);
    }

    /**
     * Shows a quote of `category` (any quote when `category` is empty), or only
     * notifies when there is none and leaves the display as it was.
     */
    method FilterByCategory(category: string)
      modifies this`display, this`notifications
      ensures (exists q :: q in quotes && Selected(q, category)) ==>
                && notifications == old(notifications)
                && display.Some? && display.value in quotes && Selected(display.value, category)
      ensures !(exists q :: q in quotes && Selected(q, category)) ==>
                && notifications == old(notifications) + [NoQuotesMessage]
                && display == old(display)
    {
      var filtered := Select(quotes, category);
      var randomIndex: nat := 0;
      if filtered != [] {
        randomIndex :| randomIndex < |filtered|;
      }
      match FilterView(quotes, category, randomIndex)
      case Notice(message) =>
        ShowNotification(message);
      case Shown(quote) =>
        display := Some(quote);
    }

    method ShowNotification(message: string)
      modifies this`notifications
      ensures notifications == old(notifications) + [message]
    {
      notifications := notifications + [message];
    }

    /**
     * Submitting the add-quote form. Each error marker ends up shown exactly when
     * its input is blank. A blank input changes nothing else; otherwise the trimmed
     * record is appended, the whole list is saved, the inputs are cleared, a random
     * quote is shown and a success notification is given.
     */
    method AddQuote()
      requires Valid()
      modifies this`quotes, this`storage, this`textInput, this`categoryInput
      modifies this`textErrorShown, this`categoryErrorShown, this`display, this`notifications
      ensures Valid()
      ensures textErrorShown <==> AllSpace(old(textInput))
      ensures categoryErrorShown <==> AllSpace(old(categoryInput))
      ensures AllSpace(old(textInput)) || AllSpace(old(categoryInput)) ==>
                && quotes == old(quotes) && storage == old(storage)
                && textInput == old(textInput) && categoryInput == old(categoryInput)
                && display == old(display) && notifications == old(notifications)
      ensures !AllSpace(old(textInput)) && !AllSpace(old(categoryInput)) ==>
                && quotes == old(quotes) + [Quote(Trim(old(textInput)), Trim(old(categoryInput)))]
                && storage == Some(quotes)
                && textInput == [] && categoryInput == []
                && display.Some? && display.value in quotes
                && notifications == old(notifications) + [AddedMessage]
    {
      var isValid, textError, categoryError := ValidateInputs(textInput, categoryInput);
      textErrorShown, categoryErrorShown := textError, categoryError;
      if !isValid {
        return;
      }
      var newQuote := Entered(textInput, categoryInput);
      quotes := quotes + [newQuote];
      SaveQuotes();
      textInput, categoryInput := [], [];
      ShowRandomQuote();
      ShowNotification(AddedMessage);
    }

    /** The toggle button's click: shows a hidden form, hides a shown one, and relabels the button. */
    method CreateAddQuoteForm()
      modifies this`form
      ensures form == Toggle(old(form))
      ensures form.hidden == !old(form.hidden) && LabelAgrees(form)
    {
      if form.hidden {
        form := FormState(false, HideLabel);
      } else {
        form := FormState(true, ShowLabel);
      }
    }
  }
}
