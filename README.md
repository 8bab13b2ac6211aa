# Quiz engine of the words and sentences game screens

This project models the quiz engine of a flashcard app, and proves properties of that model. A learner picks a native
language, a target language and a grammatical category. The engine then shows one target-language item at a time. Under
it are up to four native-language options, and exactly one of them is correct.

The engine is written twice: once in `Screens/WordsGameScreen.tsx` and once in `Screens/SentencesGameScreen.tsx`. The
resolver, loader, generator, tap handler, button styling, and the load and question-trigger effects are the same line for
line in both files, apart from names and the imported content files. The words screen also has a header-title effect,
and its `playSound` guards the unloading of the sound, which the sentences screen's does not; neither is part of the
engine. The model therefore defines the engine once. Each screen is one
`Session.QuizSession` object, built with its own language map (word files or sentence files). The table below cites
whichever screen a property is most naturally read against.

Modules:

- `Wrappers` (`wrappers.dfy`): `Option`, for JavaScript `null`/`undefined`.
- `Categories` (`categories.dfy`): the category resolver (`getWordsForCategory` / `getSentencesForCategory`) and its
  inner `splitArray`. A language file is a `Dataset` of eight ordered string groups. A separate description of the id
  scheme serves as the reference: a whole group is named after the group, and the two halves of a split group add the
  suffixes "1" and "2".
- `Questions` (`questions.dfy`): the question generator (`generateNewQuestion`) as functions of the supplied random
  draws. It has the wrong-answer loop (`CollectWrongAnswers`), the function that specifies it (`FillWrong`) and the
  shuffle (`Shuffle`).
- `ButtonStyles` (`button_styles.dfy`): `getButtonStyle`.
- `Session` (`session.dfy`): preference fallbacks, the load step, and the class `QuizSession`. The class has the
  screen's state fields, a ghost counter of success-cue requests, and the methods `Load`, `GenerateNewQuestion`,
  `HandlePress`, `QuestionEffect` and `OpenCategory`.

How the model represents the source:

- Randomness is an input. `promptDraw` stands for `Math.floor(Math.random() * targetWords.length)`. `draws[k]` stands
  for the index drawn at attempt `k` of the wrong-answer loop. Every draw must lie in `[0, n)`, and at least 50 loop
  draws are supplied.
- The JavaScript `Set` of wrong answers is a duplicate-free sequence in insertion order. That is the order
  `Array.from` gives.
- `.sort(() => Math.random() - 0.5)` is `Questions.Shuffle`. It returns some arrangement of the same items, and the
  order is left open.
- `playSound()` is one increment of the ghost field `cueRequests`.
- Stored preferences are `Option<string>` inputs. `Session.StoredOr` models `|| 'en'` / `|| 'tr'`, which also replace
  an empty string.
- `languageMap[code]` is `Session.Lookup`. A code without a content file gives `undefined`. A recognised category then
  reads a group of `undefined` and throws, so the `catch` branch only clears `isLoading`. An unrecognised or missing
  category reaches `default` before reading the file, so it does not throw. `Session.ResolveRoute` models this.
- The sentences screen's route category may be `undefined`. The words screen turns `undefined` into `''`.
  `RouteDefaultAgrees` shows the two screens resolve alike.
- The code does not promise `min(4, distinct pool)` options. Because of the 50-attempt cap, it promises only that
  there are one to four options, no more than there are distinct native items, and four unless all 50 attempts ran.
  With a degenerate pool there is one option. The options are ordered by a random-comparator sort. An empty category
  shows no question and no special empty state.

## Model

| member | source | states |
|---|---|---|
| `Categories.CeilHalf` | Screens/WordsGameScreen.tsx:58 | The midpoint m is `Math.ceil(n/2)`: n <= 2m <= n+1. |
| `Categories.SplitArray` | Screens/WordsGameScreen.tsx:57-60 | The first half has ceil(n/2) items and the second has n - ceil(n/2). The first followed by the second is exactly the input. |
| `Categories.Resolve` | Screens/WordsGameScreen.tsx:62-105 | The resolver's `switch` itself. It has no contract of its own. `ResolveFollowsNaming`, `NamingCoversIds` and `UnknownIdIsEmpty` pin it down for every id. |
| `Categories.ResolveFollowsNaming` | Screens/WordsGameScreen.tsx:62-102 | An id the naming scheme gives to a part of a group resolves to that part. `basic`, `determiners`, `adverbs` and `prepositions` give their whole group. `X1`/`X2` give the first/second `splitArray` half of group X. |
| `Categories.NamingCoversIds` | Screens/WordsGameScreen.tsx:62-105 | The twelve ids the switch recognises are exactly the ids the naming scheme produces (both directions). |
| `Categories.UnknownIdIsEmpty` | Screens/WordsGameScreen.tsx:103-104 | Any other id, for example "", "xyz" or the sentences catalogue's "adjectives-2", resolves to `[]`. |
| `Categories.HalvesReassemble` | Screens/SentencesGameScreen.tsx:57-98 | For a split group, the "1" result followed by the "2" result gives back the group, with nothing dropped or reordered. The "1" result has ceil(n/2) items. |
| `Categories.ResolveAligned` | Screens/WordsGameScreen.tsx:55-106 | If two language files have equal group lengths, then for every id their resolved lists have equal length. |
| `Questions.FillWrong` | Screens/WordsGameScreen.tsx:135-146 | The loop keeps its invariant: wrong answers have no duplicates, differ from the answer, come from the list and number at most 3; attempts never exceed 50. On exit there are 3 wrong answers or 50 attempts ran. |
| `Questions.Distractors` | Screens/WordsGameScreen.tsx:135-146 | The loop's result from an empty set and no attempts. It has no contract of its own. `FillWrong`'s ensures, `FillWrongCollects` and `DegeneratePool` pin it down, and `CollectWrongAnswers` is proved to compute it. |
| `Questions.CollectWrongAnswers` | Screens/WordsGameScreen.tsx:135-146 | The `while` loop computes exactly `FillWrong` from an empty set and no attempts, with its invariant and exit condition. |
| `Questions.FillWrongCollects` | Screens/WordsGameScreen.tsx:139-145 | A value ends up among the wrong answers if and only if it was drawn during one of the attempts made and differs from the answer. |
| `Questions.DegeneratePool` | Screens/SentencesGameScreen.tsx:135-146 | If every item equals the answer, the loop runs all 50 attempts and collects nothing. |
| `Questions.Shuffle` | Screens/WordsGameScreen.tsx:149 | The random-comparator sort returns the same items, as a multiset, in some order. |
| `Questions.OptionsShape` | Screens/SentencesGameScreen.tsx:135-150 | Any arrangement of the answer plus the wrong answers has no duplicates, holds the answer exactly once and has 1 to 4 items. An item is an option if and only if it is the answer or a wrong answer. |
| `Questions.IsQuestion` | Screens/WordsGameScreen.tsx:131-150 | A state `generateNewQuestion` can produce from the given draws. It has no contract of its own. `QuestionShape`, `DegenerateQuestion` and `SmallPoolQuestion` pin it down, and `Session.QuizSession.GenerateNewQuestion` is proved to produce one. |
| `Questions.QuestionShape` | Screens/WordsGameScreen.tsx:131-150 | A generated question's options hold the answer exactly once, have no duplicates and number 1 to 4. Every option is a native item, and there are no more options than distinct native items. There are 4 options unless all 50 attempts ran. |
| `Questions.DegenerateQuestion` | Screens/SentencesGameScreen.tsx:135-149 | If every native item equals the answer, all 50 attempts run and the options are exactly `[correct]`. |
| `Questions.SmallPoolQuestion` | Screens/WordsGameScreen.tsx:131-149 | With native items cat, dog, bird and target items kedi, köpek, kuş, drawing index 0 gives the prompt "kedi" and the answer "cat". There are at most 3 options, and "cat" is one of them. |
| `ButtonStyles.ButtonStyle` | Screens/WordsGameScreen.tsx:187-196 | Unanswered buttons are plain. Marked correct holds if and only if answered and the option is the answer. Marked wrong holds if and only if answered, the option is the selection and the selection is not the answer. |
| `ButtonStyles.AtMostOneWrong` | Screens/WordsGameScreen.tsx:192-194 | Every option marked wrong has the same text, and that text is the selection. |
| `ButtonStyles.AtMostOneWrongButton` | Screens/WordsGameScreen.tsx:187-196 | When the options have no duplicates, as a generated question's options do, at most one button (one index) is marked wrong. |
| `ButtonStyles.AnsweredMarking` | Screens/SentencesGameScreen.tsx:181-190 | Once answered, the correct option is always marked correct. No option is marked wrong when the selection was correct. |
| `Session.StoredOr` | Screens/SentencesGameScreen.tsx:110-111 | A missing or empty stored code falls back to the default. Any other stored code is used as it is. |
| `Session.Lookup` | Screens/WordsGameScreen.tsx:113-114 | `languageMap[code]`. It has no contract of its own. `LoadFailsIff` and `LoadDefaults` pin down its use. |
| `Session.ResolveRoute` | Screens/SentencesGameScreen.tsx:113-117 | Resolving throws if and only if the content file is `undefined` and the category is one of the twelve ids. A missing or unrecognised category gives `[]`. Otherwise the result is the resolver's list. |
| `Session.WordsRouteCategory` | Screens/WordsGameScreen.tsx:43 | The words screen's route category, with `''` when the parameter is missing. It has no contract of its own. `RouteDefaultAgrees` pins down its effect. |
| `Session.RouteDefaultAgrees` | Screens/WordsGameScreen.tsx:43 | The words screen's default of an empty category id resolves exactly like the sentences screen's `undefined` category. |
| `Session.LoadResult` | Screens/WordsGameScreen.tsx:108-121 | The lists the `try` block sets, or `None` when it throws. It has no contract of its own. `LoadFailsIff`, `LoadDefaults`, `UnknownCategoryLoadsEmpty` and `LoadAligned` pin it down, and `Session.QuizSession.Load` is proved to install it. |
| `Session.LoadFailsIff` | Screens/SentencesGameScreen.tsx:108-125 | Loading takes the `catch` path if and only if the category is recognised and the native or target code, after fallbacks, has no content file. |
| `Session.LoadDefaults` | Screens/SentencesGameScreen.tsx:110-117 | For every combination of missing or empty stored preferences, the lists come from the "en" (native) and "tr" (target) files. |
| `Session.UnknownCategoryLoadsEmpty` | Screens/SentencesGameScreen.tsx:103-104 | A missing or unrecognised category loads two empty lists, whatever the languages. |
| `Session.LoadAligned` | Screens/WordsGameScreen.tsx:113-120 | With aligned content files, a successful load sets lists of equal length. |
| `Session.QuizSession.constructor` | Screens/WordsGameScreen.tsx:46-53 | The initial state: empty lists and texts, no selection, unanswered, loading, no cue requested. |
| `Session.QuizSession.Load` | Screens/WordsGameScreen.tsx:108-126 | On success both lists are set to the resolved lists. On an exception the lists are unchanged. Either way `isLoading` becomes false, the question state is untouched and the invariant is kept. |
| `Session.QuizSession.GenerateNewQuestion` | Screens/WordsGameScreen.tsx:128-153 | With an empty list nothing changes. Otherwise the prompt is `target[i]` and the answer `native[i]` for the drawn i. The options rearrange the answer plus the loop's wrong answers. The selection is cleared and the question is unanswered. The lists, `isLoading` and the cue count are unchanged. |
| `Session.QuizSession.HandlePress` | Screens/WordsGameScreen.tsx:175-185 | If unanswered, the tap records the selection, marks the question answered, leaves the question unchanged and requests one cue if and only if the tap was the answer. If answered, any tap generates a new question and requests no cue. |
| `Session.QuizSession.QuestionEffect` | Screens/WordsGameScreen.tsx:202-206 | A question is generated if and only if loading has finished and both lists are non-empty. Otherwise nothing changes. |
| `Session.QuizSession.OpenCategory` | Screens/SentencesGameScreen.tsx:192-200 | Loading, then the trigger effect if it fires. The lists are as loaded and loading is finished. The effect fires when loading was still in progress or the load succeeded. Then there is a fresh question if the lists are non-empty. Otherwise, and whenever a reload fails, the old question state stays, so an unrecognised id produces no question. |
| `Session.TwoTaps` | Screens/SentencesGameScreen.tsx:169-179 | Two taps on a fresh question: the first requests one cue if and only if it was correct. The second, on any option, leaves a new unanswered question with no selection. |

## Left out

- Rendering, `StyleSheet` values, navigation and the header title effect (`Screens/WordsGameScreen.tsx:209-215`) are
  user interface. `App.tsx` and the JSX are not part of this model.
- AsyncStorage is I/O. Stored values are inputs. A rejected `getItem` is not modelled. It would take the same `catch`
  path as a missing content file.
- `expo-av` playback in `playSound` is a foreign asynchronous call, together with its loading, unloading and error
  logging. Only the request is counted.
- The `console.error` in the `catch` of `loadWords` / `loadSentences` (line 123 of both screens) is logging. The model
  keeps only the effect of that branch: `isLoading` becomes false.
- `Math.random` is not modelled. Its results are supplied as draws.
- The concrete order produced by `.sort(() => Math.random() - 0.5)` depends on the engine's sort algorithm. Only the
  multiset of items is stated.
- The content of the JSON files is external data. Every file is assumed to carry all eight groups. A file whose group is
  missing would throw or set `undefined` lists, and that is not modelled.
- A lookup of an inherited object property name such as "toString" in `languageMap` is treated like a missing code. In
  the source it yields a function, not `undefined`. A whole-group id then sets `undefined` lists, and the trigger
  effect throws when it reads their `.length`. A split id throws inside `splitArray` and takes the `catch` path. The
  model does not capture the first outcome.
- `i18n.ts`, `Screens/HomeScreen.tsx` (preference writes, `i18n.changeLanguage`) and the category screens' display lists
  are not part of this model. Category ids enter as inputs.
- Asynchronous interleaving, React state batching and stale closures are not modelled. Each handler is one atomic step.
- Session.QuizSession.GenerateNewQuestion: requires the two lists to have equal length. This is a class invariant that
  follows from aligned content files, which the constructor requires. With unaligned files the source draws the index
  from the target list's length and may read `undefined` past the end of the native list. That case is not modelled.
- Session.QuizSession.OpenCategory: treats every successful load as installing new list references, so the
  question-trigger effect fires. This holds for the source's reloads, because the load effect re-runs only when the
  category changes, and two different ids never return the same array: each whole id reads its own group, and each
  split id and `default` build a new array. Reloading the same category is not modelled.
- Questions.Shuffle: leaves the order open with an assign-such-that statement. This is enough for verification, but
  Dafny's compilers cannot translate it, so the model is not executable as it stands.
