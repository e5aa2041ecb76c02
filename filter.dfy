/**
 * Choosing quotes by category: the selection a category filter makes, and what
 * the page shows for it (one of the selected quotes, or a notice when there is
 * none).
 */
module Filter {
  import opened Text
  import opened Quotes

  const NoQuotesMessage: string := "No quotes found in this category"

  /** A quote belongs to `category` when the two category names agree ignoring case. */
  predicate Matches(q: Quote, category: string)
  {
    Lower(q.category) == Lower(category)
  }

  /** An empty category name stands for "no filter". */
  predicate Selected(q: Quote, category: string)
  {
    category == [] || Matches(q, category)
  }

  /** `quotes.filter(...)`: the quotes of `category`, in list order. */
  function FilterMatching(quotes: seq<Quote>, category: string): (r: seq<Quote>)
    ensures |r| <= |quotes|
    ensures forall q :: q in r <==> q in quotes && Matches(q, category)
  {
    if quotes == [] then []
    else
      var rest := FilterMatching(quotes[1..], category);
      assert forall q :: q in quotes <==> q == quotes[0] || q in quotes[1..];
      if Matches(quotes[0], category) then [quotes[0]] + rest else rest
  }

  /** The list the page picks from: the whole list without a category, else the matching quotes. */
  function Select(quotes: seq<Quote>, category: string): (r: seq<Quote>)
    ensures forall q :: q in r <==> q in quotes && Selected(q, category)
    ensures category == [] ==> r == quotes
  {
    if category == [] then quotes else FilterMatching(quotes, category)
  }

  /** `sub` can be obtained from `s` by deleting elements, keeping the order of the rest. */
  predicate IsSubsequence(sub: seq<Quote>, s: seq<Quote>)
    decreases |s|
  {
    if sub == [] then true
    else if s == [] then false
    else if sub[0] == s[0] then IsSubsequence(sub[1..], s[1..])
    else IsSubsequence(sub, s[1..])
  }

  /** The selection keeps the original order: it is a subsequence of the list. */
  lemma {:induction false} SelectIsSubsequence(quotes: seq<Quote>, category: string)
    ensures IsSubsequence(Select(quotes, category), quotes)
  {
    if category == [] {
      SubsequenceReflexive(quotes);
    } else {
      FilterIsSubsequence(quotes, category);
    }
  }

  lemma {:induction false} FilterIsSubsequence(quotes: seq<Quote>, category: string)
    ensures IsSubsequence(FilterMatching(quotes, category), quotes)
    decreases |quotes|
  {
    if quotes != [] {
      var r := FilterMatching(quotes, category);
      var rest := FilterMatching(quotes[1..], category);
      FilterIsSubsequence(quotes[1..], category);
      if !Matches(quotes[0], category) && r != [] {
        // r[0] matches, so it cannot be the skipped head
        assert r[0] in rest;
      }
    }
  }

  lemma {:induction false} SubsequenceReflexive(s: seq<Quote>)
    ensures IsSubsequence(s, s)
    decreases |s|
  {
    if s != [] {
      SubsequenceReflexive(s[1..]);
    }
  }

  /** Each quote occurs in the selection as often as in the list if it matches, and not at all otherwise. */
  lemma {:induction false} FilterCounts(quotes: seq<Quote>, category: string, q: Quote)
    ensures multiset(FilterMatching(quotes, category))[q]
         == if Matches(q, category) then multiset(quotes)[q] else 0
    decreases |quotes|
  {
    if quotes != [] {
      FilterCounts(quotes[1..], category, q);
      assert quotes == [quotes[0]] + quotes[1..];
    }
  }

  /** Filtering a concatenation filters each part: loading more quotes only adds to the end of any selection. */
  lemma {:induction false} FilterAppend(a: seq<Quote>, b: seq<Quote>, category: string)
    ensures FilterMatching(a + b, category) == FilterMatching(a, category) + FilterMatching(b, category)
    decreases |a|
  {
    if a == [] {
      assert a + b == b;
    } else {
      assert (a + b)[1..] == a[1..] + b;
      FilterAppend(a[1..], b, category);
    }
  }

  lemma {:induction false} SelectAfterLoad(current: seq<Quote>, saved: seq<Quote>, category: string)
    ensures Select(Loaded(current, Wrappers.Some(saved)), category)
         == Select(current, category) + Select(saved, category)
  {
    if category != [] {
      FilterAppend(current, saved, category);
    }
  }

  /** Category names that differ only in case select the same quotes. */
  lemma {:induction false} FilterIgnoresCase(quotes: seq<Quote>, c1: string, c2: string)
    requires Lower(c1) == Lower(c2)
    ensures FilterMatching(quotes, c1) == FilterMatching(quotes, c2)
    decreases |quotes|
  {
    if quotes != [] {
      FilterIgnoresCase(quotes[1..], c1, c2);
    }
  }

  /** Filtering a selection again by the same category changes nothing. */
  lemma {:induction false} FilterIdempotent(quotes: seq<Quote>, category: string)
    ensures FilterMatching(FilterMatching(quotes, category), category) == FilterMatching(quotes, category)
    decreases |quotes|
  {
    if quotes != [] {
      var rest := FilterMatching(quotes[1..], category);
      FilterIdempotent(quotes[1..], category);
      if Matches(quotes[0], category) {
        assert ([quotes[0]] + rest)[1..] == rest;
      }
    }
  }

  /** What the page ends up showing. */
  datatype View = Notice(message: string) | Shown(quote: Quote)

  /**
   * The outcome of filtering by `category`, where `draw` is the random index
   * into the selection (`Math.floor(Math.random() * length)`, always below the
   * length). A notice is given exactly when nothing is selected; otherwise a
   * selected quote from the list is shown.
   */
  function FilterView(quotes: seq<Quote>, category: string, draw: nat): (v: View)
    requires Select(quotes, category) == [] || draw < |Select(quotes, category)|
    ensures v.Notice? <==> !exists q :: q in quotes && Selected(q, category)
    ensures v.Notice? ==> v.message == NoQuotesMessage
    ensures v.Shown? ==> v.quote in quotes && Selected(v.quote, category)
  {
    var filtered := Select(quotes, category);
    if |filtered| == 0 then Notice(NoQuotesMessage)
    else
      assert filtered[draw] in filtered;
      Shown(filtered[draw])
  }
}
