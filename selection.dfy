/** The numbered choice both commands ask for: a 1-based position in the listed profiles. */
module Selection {
  import opened Wrappers

  /** The answer to the prompt after `int(...)`: a number, or text that is not one (the
      conversion raises `ValueError`). An empty answer takes the prompt's default, `1`. */
  datatype Answer = Number(n: int) | NotANumber

  /** The item the answer names, or None when the answer is not a number in `[1, |items|]`. */
  function Choose<T>(items: seq<T>, answer: Answer): Option<T> {
    if answer.Number? && 1 <= answer.n <= |items| then Some(items[answer.n - 1]) else None
  }

  /** A choice is made exactly for a number in `[1, |items|]`, and it is the item at that
      number minus one; 0, `|items| + 1`, negative numbers and non-numbers make no choice. */
  lemma ChooseInRange<T>(items: seq<T>, answer: Answer)
    ensures Choose(items, answer).Some? <==> answer.Number? && 1 <= answer.n <= |items|
    ensures Choose(items, answer).Some? ==> Choose(items, answer).value == items[answer.n - 1]
  { }
}
