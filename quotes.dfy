/**
 * The quote record, the four quotes the page starts with, input validation
 * and what loading the saved list does to the in-memory list.
 */
module Quotes {
  import opened Wrappers
  import opened Text

  datatype Quote = Quote(text: string, category: string)

  /** The list the script is seeded with, before anything is loaded. */
  function Seed(): (s: seq<Quote>)
    ensures |s| == 4
  {
    [ Quote("Life is what happens while you're busy making other plans.", "Life"),
      Quote("The only way to do great work is to love what you do.", "Work"),
      Quote("Innovation distinguishes between a leader and a follower.", "Leadership"),
      Quote("Stay hungry, stay foolish.", "Motivation") ]
  }

  /**
   * The validation step of adding a quote. Both error markers are first reset,
   * then each input that is empty once trimmed raises its own marker and clears
   * the validity flag; both inputs are always checked.
   */
  method ValidateInputs(text: string, category: string) returns (isValid: bool, textError: bool, categoryError: bool)
    ensures textError <==> AllSpace(text)
    ensures categoryError <==> AllSpace(category)
    ensures isValid <==> !AllSpace(text) && !AllSpace(category)
    ensures isValid ==> Trim(text) != [] && Trim(category) != []
  {
    textError, categoryError := false, false;
    isValid := true;
    if Trim(text) == [] {
      textError := true;
      isValid := false;
    }
    if Trim(category) == [] {
      categoryError := true;
      isValid := false;
    }
  }

  /** The record a valid submission adds: both fields trimmed. */
  function Entered(text: string, category: string): (q: Quote)
    requires !AllSpace(text) && !AllSpace(category)
    ensures q.text != [] && q.category != []
    ensures !IsSpace(q.text[0]) && !IsSpace(q.text[|q.text| - 1])
    ensures !IsSpace(q.category[0]) && !IsSpace(q.category[|q.category| - 1])
  {
    Quote(Trim(text), Trim(category))
  }

  /** Trimming the added record again would change nothing: both fields are already trimmed. */
  lemma EnteredIsTrimmed(text: string, category: string)
    requires !AllSpace(text) && !AllSpace(category)
    ensures Trim(Entered(text, category).text) == Entered(text, category).text
    ensures Trim(Entered(text, category).category) == Entered(text, category).category
  {
    TrimIdempotent(text);
    TrimIdempotent(category);
  }

  /**
   * The list after loading: the saved records, if there are any, pushed after the
   * current ones, with no check for records already present.
   */
  function Loaded(current: seq<Quote>, saved: Option<seq<Quote>>): (r: seq<Quote>)
    ensures current <= r
    ensures saved.None? ==> r == current
    ensures saved.Some? ==> r[|current|..] == saved.value
  {
    match saved
    case None => current
    case Some(s) => current + s
  }

  /** Loading the same store twice appends its records twice. */
  lemma LoadTwice(current: seq<Quote>, s: seq<Quote>)
    ensures Loaded(Loaded(current, Some(s)), Some(s)) == current + s + s
  {
  }

  /**
   * A page that saved list `l` (which always starts with the seed) and is opened
   * again starts from the seed and loads `l` after it: the seed quotes then appear
   * twice.
   */
  lemma {:induction false} ReloadRepeatsSeed(l: seq<Quote>)
    requires Seed() <= l
    ensures |Loaded(Seed(), Some(l))| == |l| + |Seed()|
    ensures Loaded(Seed(), Some(l))[..2 * |Seed()|] == Seed() + Seed()
    ensures Loaded(Seed(), Some(l))[2 * |Seed()|..] == l[|Seed()|..]
    ensures forall q :: q in Seed() ==> multiset(Loaded(Seed(), Some(l)))[q] >= 2
  {
    var r := Loaded(Seed(), Some(l));
    assert r == Seed() + l;
    assert l == Seed() + l[|Seed()|..];
    assert r == Seed() + Seed() + l[|Seed()|..];
    assert r[..2 * |Seed()|] == Seed() + Seed();
    forall q | q in Seed() ensures multiset(r)[q] >= 2 {
      assert multiset(r) == multiset(Seed()) + multiset(Seed()) + multiset(l[|Seed()|..]);
    }
  }
}
