/** `getButtonStyle`: how an option button is marked once the question is answered. */
module ButtonStyles {
  import opened Wrappers
  import opened Questions

  /** `styles.optionB` alone, or with `styles.correctB` / `styles.wrongB`. */
  datatype Style = Plain | MarkedCorrect | MarkedWrong

  function ButtonStyle(isAnswered: bool, correct: string, selected: Option<string>, option: string): (s: Style)
    ensures s == MarkedCorrect <==> isAnswered && option == correct
    ensures s == MarkedWrong <==> isAnswered && selected == Some(option) && option != correct
    ensures !isAnswered ==> s == Plain
  {
    if !isAnswered then Plain
    else if option == correct then MarkedCorrect
    else if selected.Some? && option == selected.value && selected.value != correct then MarkedWrong
    else Plain
  }

  /** Among any list of options, every button marked wrong shows the same text: the selection. */
  lemma AtMostOneWrong(isAnswered: bool, correct: string, selected: Option<string>, options: seq<string>)
    ensures forall i, j :: 0 <= i < |options| && 0 <= j < |options| &&
                           ButtonStyle(isAnswered, correct, selected, options[i]) == MarkedWrong &&
                           ButtonStyle(isAnswered, correct, selected, options[j]) == MarkedWrong
                           ==> options[i] == options[j] && selected == Some(options[i])
  {
  }

  /** Options without duplicates, as a generated question has: at most one button is marked wrong. */
  lemma AtMostOneWrongButton(isAnswered: bool, correct: string, selected: Option<string>, options: seq<string>)
    requires Distinct(options)
    ensures forall i, j :: 0 <= i < |options| && 0 <= j < |options| &&
                           ButtonStyle(isAnswered, correct, selected, options[i]) == MarkedWrong &&
                           ButtonStyle(isAnswered, correct, selected, options[j]) == MarkedWrong
                           ==> i == j
  {
  }

  /** Once answered, the correct option is marked correct, and nothing is marked
      wrong when the selection was the correct answer. */
  lemma AnsweredMarking(correct: string, selected: Option<string>, option: string)
    ensures ButtonStyle(true, correct, selected, correct) == MarkedCorrect
    ensures selected == Some(correct) ==> ButtonStyle(true, correct, selected, option) != MarkedWrong
  {
  }
}
