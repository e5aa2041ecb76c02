/**
 * The add-quote form's show/hide toggle: whether the form is hidden, and the
 * label on the button that toggles it.
 */
module Form {

  const ShowLabel: string := "Show Quote Form"
  const HideLabel: string := "Hide Quote Form"

  datatype FormState = FormState(hidden: bool, buttonText: string)

  /** The button offers the action that toggling would take. */
  predicate LabelAgrees(f: FormState)
  {
    f.buttonText == (if f.hidden then ShowLabel else HideLabel)
  }

  /** The page's start: the button is created reading "Show Quote Form", whatever the form's state. */
  function Initial(hidden: bool): (f: FormState)
    ensures f.hidden == hidden
    ensures f.buttonText == ShowLabel
    ensures LabelAgrees(f) <==> hidden
  {
    FormState(hidden, ShowLabel)
  }

  /** One click: the form changes visibility and the label follows it. */
  function Toggle(f: FormState): (g: FormState)
    ensures g.hidden == !f.hidden
    ensures LabelAgrees(g)
    ensures g.buttonText == HideLabel <==> !g.hidden
  {
    FormState(!f.hidden, if f.hidden then HideLabel else ShowLabel)
  }

  /** Two clicks restore the visibility, and restore the whole state once the label agrees with it. */
  lemma ToggleTwice(f: FormState)
    ensures Toggle(Toggle(f)).hidden == f.hidden
    ensures LabelAgrees(f) <==> Toggle(Toggle(f)) == f
  {
  }
}
