/** One game screen (words or sentences): loading the two lists for the route's
    category, the question-trigger effect, taps and their feedback cue. */
module Session {
  import opened Wrappers
  import opened Categories
  import opened Questions

  /** Fallbacks of `getItem(...) || 'en'` and `getItem(...) || 'tr'`. */
  const DefaultNative: string := "en"
  const DefaultTarget: string := "tr"

  /** `stored || fallback`: `null` and the empty string are both falsy. */
  function StoredOr(stored: Option<string>, fallback: string): (code: string)
    ensures stored.None? || stored.value == "" ==> code == fallback
    ensures stored.Some? && stored.value != "" ==> code == stored.value
  {
    match stored
    case Some(s) => if s != "" then s else fallback
    case None => fallback
  }

  /** `languageMap[code]`: the content file of a supported code, `undefined` otherwise. */
  function Lookup(languageMap: map<string, Dataset>, code: string): Option<Dataset>
  {
    if code in languageMap then Some(languageMap[code]) else None
  }

  /** The content authors' promise: every pair of language files is aligned. */
  ghost predicate AlignedMap(languageMap: map<string, Dataset>)
  {
    forall a, b :: a in languageMap && b in languageMap ==> GroupsAligned(languageMap[a], languageMap[b])
  }

  /** The resolver applied to a possibly `undefined` file and a possibly `undefined`
      route category. `None` is the `TypeError` thrown by reading a group of `undefined`;
      an unrecognised or missing category reaches `default` before touching the file. */
  function ResolveRoute(data: Option<Dataset>, category: Option<string>): (r: Option<seq<string>>)
    ensures r.None? <==> data.None? && category.Some? && category.value in CategoryIds
    ensures data.Some? && category.Some? ==> r == Some(Resolve(data.value, category.value))
    ensures category.None? || category.value !in CategoryIds ==> r == Some([])
  {
    match category
    case None => Some([])
    case Some(id) =>
      if id !in CategoryIds then
        Some([])
      else if data.None? then None
      else Some(Resolve(data.value, id))
  }

  /** The words screen's `route.params?.category || ''`. */
  function WordsRouteCategory(param: Option<string>): Option<string>
  {
    match param
    case None => Some("")
    case Some(id) => Some(id)
  }

  /** Defaulting a missing words category to "" resolves like leaving it `undefined`,
      as the sentences screen does. */
  lemma RouteDefaultAgrees(data: Option<Dataset>, param: Option<string>)
    ensures ResolveRoute(data, WordsRouteCategory(param)) == ResolveRoute(data, param)
  {
  }

  /** The lists the `try` block of `loadWords` / `loadSentences` would set, or `None`
      when it throws and only `isLoading` is cleared. */
  function LoadResult(languageMap: map<string, Dataset>, category: Option<string>,
                      storedNative: Option<string>, storedTarget: Option<string>): Option<(seq<string>, seq<string>)>
  {
    var nativeList := ResolveRoute(Lookup(languageMap, StoredOr(storedNative, DefaultNative)), category);
    var targetList := ResolveRoute(Lookup(languageMap, StoredOr(storedTarget, DefaultTarget)), category);
    if nativeList.Some? && targetList.Some? then Some((nativeList.value, targetList.value)) else None
  }

  /** Loading fails exactly when the category is recognised and one of the two
      language codes (after the fallbacks) has no content file. */
  lemma LoadFailsIff(languageMap: map<string, Dataset>, category: Option<string>,
                     storedNative: Option<string>, storedTarget: Option<string>)
    ensures LoadResult(languageMap, category, storedNative, storedTarget).None? <==>
            category.Some? && category.value in CategoryIds &&
            (StoredOr(storedNative, DefaultNative) !in languageMap || StoredOr(storedTarget, DefaultTarget) !in languageMap)
  {
  }

  /** With nothing (or an empty string) stored, the native list comes from "en" and
      the target list from "tr". */
  lemma LoadDefaults(languageMap: map<string, Dataset>, id: string,
                     storedNative: Option<string>, storedTarget: Option<string>)
    requires DefaultNative in languageMap && DefaultTarget in languageMap
    requires storedNative.None? || storedNative == Some("")
    requires storedTarget.None? || storedTarget == Some("")
    ensures LoadResult(languageMap, Some(id), storedNative, storedTarget) ==
            Some((Resolve(languageMap[DefaultNative], id), Resolve(languageMap[DefaultTarget], id)))
  {
  }

  /** An unrecognised or missing category loads two empty lists, whatever the languages. */
  lemma UnknownCategoryLoadsEmpty(languageMap: map<string, Dataset>, category: Option<string>,
                                  storedNative: Option<string>, storedTarget: Option<string>)
    requires category.None? || category.value !in CategoryIds
    ensures LoadResult(languageMap, category, storedNative, storedTarget) == Some(([], []))
  {
  }

  /** With aligned content, the two loaded lists have the same length. */
  lemma LoadAligned(languageMap: map<string, Dataset>, category: Option<string>,
                    storedNative: Option<string>, storedTarget: Option<string>)
    requires AlignedMap(languageMap)
    ensures var out := LoadResult(languageMap, category, storedNative, storedTarget);
            out.Some? ==> |out.value.0| == |out.value.1|
  {
    var nativeCode := StoredOr(storedNative, DefaultNative);
    var targetCode := StoredOr(storedTarget, DefaultTarget);
    if category.Some? && nativeCode in languageMap && targetCode in languageMap {
      ResolveAligned(languageMap[nativeCode], languageMap[targetCode], category.value);
    }
  }

  /** Possible option lists: none yet, or a generated question's options. */
  ghost predicate OptionsSound(options: seq<string>, correct: string)
  {
    options == [] || (Distinct(options) && multiset(options)[correct] == 1 && |options| <= WrongWanted + 1)
  }

  class QuizSession {
    /** The screen's `languageMap`: word files or sentence files. */
    const languageMap: map<string, Dataset>
    var native: seq<string>
    var target: seq<string>
    var question: string
    var options: seq<string>
    var correctAnswer: string
    var selected: Option<string>
    var isAnswered: bool
    var isLoading: bool
    /** Success cues requested from `playSound`. */
    ghost var cueRequests: nat

    ghost predicate Valid()
      reads this
    {
      AlignedMap(languageMap) && |native| == |target| &&
      (selected.Some? <==> isAnswered) &&
      OptionsSound(options, correctAnswer)
    }

    /** The state right after `generateNewQuestion` has drawn with `promptDraw` and `draws`. */
    ghost predicate FreshQuestion(promptDraw: int, draws: seq<int>)
      reads this
    {
      IsQuestion(native, target, promptDraw, draws, question, correctAnswer, options) &&
      selected == None && !isAnswered
    }

    /** The `useState` initial values. */
    constructor (languageMap: map<string, Dataset>)
      requires AlignedMap(languageMap)
      ensures Valid()
      ensures this.languageMap == languageMap
      ensures native == [] && target == [] && question == "" && options == [] && correctAnswer == ""
      ensures selected == None && !isAnswered && isLoading && cueRequests == 0
    {
      this.languageMap := languageMap;
      native, target := [], [];
      question, options, correctAnswer := "", [], "";
      selected, isAnswered := None, false;
      isLoading := true;
      cueRequests := 0;
    }

    /** `loadWords` / `loadSentences` with the stored preferences supplied. */
    method Load(category: Option<string>, storedNative: Option<string>, storedTarget: Option<string>)
      requires Valid()
      modifies this
      ensures Valid() && !isLoading
      ensures var out := LoadResult(languageMap, category, storedNative, storedTarget);
              if out.Some? then native == out.value.0 && target == out.value.1
              else native == old(native) && target == old(target)
      ensures question == old(question) && options == old(options) && correctAnswer == old(correctAnswer)
      ensures selected == old(selected) && isAnswered == old(isAnswered) && cueRequests == old(cueRequests)
    {
      var out := LoadResult(languageMap, category, storedNative, storedTarget);
      if out.Some? {
        LoadAligned(languageMap, category, storedNative, storedTarget);
        native, target := out.value.0, out.value.1;
      }
      isLoading := false;
    }

    /** `generateNewQuestion`, with the random draws supplied. */
    method GenerateNewQuestion(promptDraw: int, draws: seq<int>)
      requires Valid() && DrawsFit(|target|, promptDraw, draws)
      modifies this
      ensures Valid()
      ensures native == old(native) && target == old(target)
      ensures isLoading == old(isLoading) && cueRequests == old(cueRequests)
      ensures |native| == 0 || |target| == 0 ==>
                question == old(question) && options == old(options) && correctAnswer == old(correctAnswer) &&
                selected == old(selected) && isAnswered == old(isAnswered)
      ensures |native| > 0 && |target| > 0 ==> FreshQuestion(promptDraw, draws)
    {
      if |native| == 0 || |target| == 0 {
        return;
      }
      var questionIndex := promptDraw;
      var correct := native[questionIndex];
      var prompt := target[questionIndex];

      var wrongs, attempts := CollectWrongAnswers(native, correct, draws);
      var arranged := Shuffle([correct] + wrongs);
      OptionsShape(correct, wrongs, arranged);
      question, options, correctAnswer, selected, isAnswered := prompt, arranged, correct, None, false;
    }

    /** `handlePress`: a tap on `option`, with the draws for a possible next question. */
    method HandlePress(option: string, promptDraw: int, draws: seq<int>)
      requires Valid() && DrawsFit(|target|, promptDraw, draws)
      modifies this
      ensures Valid()
      ensures native == old(native) && target == old(target) && isLoading == old(isLoading)
      ensures !old(isAnswered) ==>
                isAnswered && selected == Some(option) &&
                question == old(question) && options == old(options) && correctAnswer == old(correctAnswer) &&
                cueRequests == old(cueRequests) + (if option == old(correctAnswer) then 1 else 0)
      ensures old(isAnswered) ==> cueRequests == old(cueRequests)
      ensures old(isAnswered) && |native| > 0 ==> FreshQuestion(promptDraw, draws)
      ensures old(isAnswered) && |native| == 0 ==>
                question == old(question) && options == old(options) && correctAnswer == old(correctAnswer) &&
                selected == old(selected) && isAnswered
    {
      if !isAnswered {
        selected := Some(option);
        isAnswered := true;
        if option == correctAnswer {
          cueRequests := cueRequests + 1;
        }
      } else {
        GenerateNewQuestion(promptDraw, draws);
      }
    }

    /** The effect run when `isLoading` or the lists change. */
    method QuestionEffect(promptDraw: int, draws: seq<int>)
      requires Valid() && DrawsFit(|target|, promptDraw, draws)
      modifies this
      ensures Valid()
      ensures native == old(native) && target == old(target)
      ensures isLoading == old(isLoading) && cueRequests == old(cueRequests)
      ensures !isLoading && |native| > 0 && |target| > 0 ==> FreshQuestion(promptDraw, draws)
      ensures isLoading || |native| == 0 || |target| == 0 ==>
                question == old(question) && options == old(options) && correctAnswer == old(correctAnswer) &&
                selected == old(selected) && isAnswered == old(isAnswered)
    {
      if !isLoading && |native| > 0 && |target| > 0 {
        GenerateNewQuestion(promptDraw, draws);
      }
    }

    /** Opening a category: the load effect, then the question-trigger effect it sets off.
        React re-runs that effect only when `isLoading` or a list changed: the first load
        clears `isLoading`, a successful reload installs new lists, and a failed reload
        changes nothing, so the old question stays. */
    method OpenCategory(category: Option<string>, storedNative: Option<string>, storedTarget: Option<string>,
                        promptDraw: int, draws: seq<int>)
      requires Valid()
      requires var out := LoadResult(languageMap, category, storedNative, storedTarget);
               DrawsFit(if out.Some? then |out.value.0| else |native|, promptDraw, draws)
      modifies this
      ensures Valid() && !isLoading && cueRequests == old(cueRequests)
      ensures var out := LoadResult(languageMap, category, storedNative, storedTarget);
              if out.Some? then native == out.value.0 && target == out.value.1
              else native == old(native) && target == old(target)
      ensures var triggered := old(isLoading) || LoadResult(languageMap, category, storedNative, storedTarget).Some?;
              triggered && |native| > 0 ==> FreshQuestion(promptDraw, draws)
      ensures var triggered := old(isLoading) || LoadResult(languageMap, category, storedNative, storedTarget).Some?;
              !triggered || |native| == 0 ==>
                question == old(question) && options == old(options) && correctAnswer == old(correctAnswer) &&
                selected == old(selected) && isAnswered == old(isAnswered)
    {
      var wasLoading := isLoading;
      var out := LoadResult(languageMap, category, storedNative, storedTarget);
      Load(category, storedNative, storedTarget);
      if wasLoading || out.Some? {
        QuestionEffect(promptDraw, draws);
      }
    }
  }

  /** Two taps on a fresh question: the first records the selection and requests a
      cue only if it was right; the second, on any option, starts a new unanswered question. */
  method TwoTaps(s: QuizSession, first: string, second: string, promptDraw: int, draws: seq<int>)
    requires s.Valid() && !s.isAnswered && |s.native| > 0 && DrawsFit(|s.target|, promptDraw, draws)
    modifies s
    ensures s.Valid()
    ensures s.cueRequests == old(s.cueRequests) + (if first == old(s.correctAnswer) then 1 else 0)
    ensures s.FreshQuestion(promptDraw, draws)
    ensures s.selected == None && !s.isAnswered
  {
    s.HandlePress(first, promptDraw, draws);
    assert s.selected == Some(first);
    s.HandlePress(second, promptDraw, draws);
  }
}
