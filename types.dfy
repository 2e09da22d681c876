/** The shared vocabulary of the coordinator: the two formation modes of the
    decorative elements and the nullable locket identifier. */
module Types {

  /** The `TreeState` enum: exactly one of the two formations is active. */
  datatype TreeState = SCATTERED | TREE_SHAPE

  /** `string | null`: `None` stands for JavaScript's `null`. */
  datatype Option<T> = None | Some(value: T)

  /** The other formation: the new-value expression of the toggle mutator.
      `TREE_SHAPE` goes to `SCATTERED`, anything else to `TREE_SHAPE`. */
  function Flip(t: TreeState): (r: TreeState)
    ensures r != t
  {
    if t == TREE_SHAPE then SCATTERED else TREE_SHAPE
  }

  /** Flipping twice gives the formation back. */
  lemma FlipInvolutive(t: TreeState)
    ensures Flip(Flip(t)) == t
  {
  }

  /** JavaScript truthiness of the focused-locket identifier: `null` and the
      empty string are both falsy, every other string is truthy. */
  predicate Focused(id: Option<string>)
  {
    id != None && id != Some("")
  }

  /** Neither `null` nor `""` counts as a focus. */
  lemma NullAndEmptyAreUnfocused()
    ensures !Focused(None) && !Focused(Some(""))
  {
  }

  /** Every non-empty identifier counts as a focus. */
  lemma NonEmptyIsFocused(id: string)
    ensures Focused(Some(id)) <==> id != ""
  {
  }
}
