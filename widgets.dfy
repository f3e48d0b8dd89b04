/**
 * The Streamlit input widgets the student form uses, reduced to the integer
 * each one can hand back. A widget is rendered with a label; what the user
 * picks is outside the program, so it is modelled as an oracle that answers
 * every widget inside that widget's own domain.
 */
module Widgets {
  import opened Wrappers

  datatype Widget =
    /** st.number_input(label, min_value, max_value, value) */
    | NumberInput(caption: string, minValue: int, maxValue: int, value: int)
    /** st.selectbox(label, options); preselects the first option */
    | SelectBox(caption: string, options: seq<int>)
    /** st.select_slider(label, options, value) */
    | SelectSlider(caption: string, options: seq<int>, value: int)
    /** st.slider(label, min_value, max_value, value) */
    | Slider(caption: string, minValue: int, maxValue: int, value: int)
    /** st.radio(label, options); preselects the first option */
    | Radio(caption: string, options: seq<int>)

  /** The values the user can leave a widget on. */
  predicate Allows(w: Widget, v: int) {
    match w
    case NumberInput(_, lo, hi, _) => lo <= v <= hi
    case SelectBox(_, options) => v in options
    case SelectSlider(_, options, _) => v in options
    case Slider(_, lo, hi, _) => lo <= v <= hi
    case Radio(_, options) => v in options
  }

  /** The value a widget shows before the user touches it. */
  function Preselected(w: Widget): Option<int> {
    match w
    case NumberInput(_, _, _, value) => Some(value)
    case SelectBox(_, options) => if options == [] then None else Some(options[0])
    case SelectSlider(_, _, value) => Some(value)
    case Slider(_, _, _, value) => Some(value)
    case Radio(_, options) => if options == [] then None else Some(options[0])
  }

  /** A widget Streamlit accepts: it has a preselected value and that value is in its domain. */
  predicate WellFormed(w: Widget) {
    Preselected(w).Some? && Allows(w, Preselected(w).value)
  }

  /**
   * The user's answers: `user(name, w)` is what widget `w`, rendered for the
   * feature `name`, returns. Honest: a well-formed widget only ever returns a
   * value of its domain.
   */
  ghost predicate Honest(user: (string, Widget) -> int) {
    forall name, w :: WellFormed(w) ==> Allows(w, user(name, w))
  }

  /** The user who submits the form without touching any widget. */
  function Untouched(name: string, w: Widget): int {
    if Preselected(w).Some? then Preselected(w).value else 0
  }

  lemma UntouchedIsHonest()
    ensures Honest(Untouched)
  {
  }
}
