/** The question generator (`generateNewQuestion`) as functions of the supplied
    random draws: the prompt/answer pair and the bounded loop that collects wrong answers. */
module Questions {

  /** `maxAttempts` of the wrong-answer loop. */
  const MaxAttempts: nat := 50
  /** The loop stops once this many distinct wrong answers are held. */
  const WrongWanted: nat := 3

  predicate Distinct(s: seq<string>)
  {
    forall i, j :: 0 <= i < j < |s| ==> s[i] != s[j]
  }

  /** Results of `Math.floor(Math.random() * n)` for the loop, one per attempt. */
  predicate PickDraws(n: nat, draws: seq<int>)
  {
    |draws| >= MaxAttempts && forall k :: 0 <= k < |draws| ==> 0 <= draws[k] < n
  }

  /** What the generator may be called with: when the list is non-empty, a prompt
      index and the loop's draws, all in range. */
  predicate DrawsFit(n: nat, promptDraw: int, draws: seq<int>)
  {
    n > 0 ==> 0 <= promptDraw < n && PickDraws(n, draws)
  }

  /** The wrong answers held (in insertion order, as `Array.from` of a `Set` gives them)
      and the number of attempts made when the loop stops. */
  datatype Fill = Fill(wrongs: seq<string>, attempts: nat)

  ghost predicate WrongsSound(pool: seq<string>, correct: string, wrongs: seq<string>)
  {
    Distinct(wrongs) && correct !in wrongs && |wrongs| <= WrongWanted &&
    forall w :: w in wrongs ==> w in pool
  }

  /** The loop `while (set.size < 3 && attempts < 50)` from a given attempt count and set. */
  function FillWrong(pool: seq<string>, correct: string, draws: seq<int>, attempts: nat, wrongs: seq<string>): (r: Fill)
    requires attempts <= MaxAttempts && PickDraws(|pool|, draws)
    requires WrongsSound(pool, correct, wrongs)
    ensures WrongsSound(pool, correct, r.wrongs)
    ensures attempts <= r.attempts <= MaxAttempts
    ensures |r.wrongs| == WrongWanted || r.attempts == MaxAttempts
    decreases MaxAttempts - attempts
  {
    if |wrongs| < WrongWanted && attempts < MaxAttempts then
      var wrong := pool[draws[attempts]];
      FillWrong(pool, correct, draws, attempts + 1,
                if wrong != correct && wrong !in wrongs then wrongs + [wrong] else wrongs)
    else
      Fill(wrongs, attempts)
  }

  /** The whole loop, from an empty set and no attempts. */
  function Distractors(pool: seq<string>, correct: string, draws: seq<int>): (r: Fill)
    requires PickDraws(|pool|, draws)
  {
    FillWrong(pool, correct, draws, 0, [])
  }

  /** The `while` loop of `generateNewQuestion`: up to `MaxAttempts` draws into a set of
      at most `WrongWanted` distinct answers that differ from `correct`. */
  method CollectWrongAnswers(pool: seq<string>, correct: string, draws: seq<int>)
    returns (wrongs: seq<string>, attempts: nat)
    requires PickDraws(|pool|, draws)
    ensures Fill(wrongs, attempts) == Distractors(pool, correct, draws)
    ensures WrongsSound(pool, correct, wrongs) && attempts <= MaxAttempts
    ensures |wrongs| == WrongWanted || attempts == MaxAttempts
  {
    wrongs, attempts := [], 0;
    while |wrongs| < WrongWanted && attempts < MaxAttempts
      invariant attempts <= MaxAttempts
      invariant WrongsSound(pool, correct, wrongs)
      invariant FillWrong(pool, correct, draws, attempts, wrongs) == Distractors(pool, correct, draws)
      decreases MaxAttempts - attempts
    {
      var wrong := pool[draws[attempts]];
      if wrong != correct && wrong !in wrongs {
        wrongs := wrongs + [wrong];
      }
      attempts := attempts + 1;
    }
  }

  /** A value ends up among the wrong answers exactly when it was held already or
      was drawn during one of the attempts made and differs from the correct answer. */
  lemma {:induction false} FillWrongCollects(pool: seq<string>, correct: string, draws: seq<int>,
                                             attempts: nat, wrongs: seq<string>, x: string)
    requires attempts <= MaxAttempts && PickDraws(|pool|, draws)
    requires WrongsSound(pool, correct, wrongs)
    ensures var r := FillWrong(pool, correct, draws, attempts, wrongs);
            x in r.wrongs <==>
              x in wrongs || (x != correct && exists k :: attempts <= k < r.attempts && pool[draws[k]] == x)
    decreases MaxAttempts - attempts
  {
    var r := FillWrong(pool, correct, draws, attempts, wrongs);
    if |wrongs| < WrongWanted && attempts < MaxAttempts {
      var wrong := pool[draws[attempts]];
      var next := if wrong != correct && wrong !in wrongs then wrongs + [wrong] else wrongs;
      FillWrongCollects(pool, correct, draws, attempts + 1, next, x);
      assert r == FillWrong(pool, correct, draws, attempts + 1, next);
      if x != correct && (exists k :: attempts <= k < r.attempts && pool[draws[k]] == x) {
        var k :| attempts <= k < r.attempts && pool[draws[k]] == x;
        if k > attempts {
          assert attempts + 1 <= k < r.attempts && pool[draws[k]] == x;
        }
      }
      if x != correct && (exists k :: attempts + 1 <= k < r.attempts && pool[draws[k]] == x) {
        var k :| attempts + 1 <= k < r.attempts && pool[draws[k]] == x;
        assert attempts <= k < r.attempts && pool[draws[k]] == x;
      }
      if x == wrong && x != correct {
        assert attempts <= attempts < r.attempts && pool[draws[attempts]] == x;
      }
    }
  }

  /** A pool in which every item is the correct answer yields no wrong answer,
      and the loop runs all `MaxAttempts` attempts. */
  lemma {:induction false} DegeneratePool(pool: seq<string>, correct: string, draws: seq<int>, attempts: nat)
    requires attempts <= MaxAttempts && PickDraws(|pool|, draws)
    requires forall i :: 0 <= i < |pool| ==> pool[i] == correct
    ensures FillWrong(pool, correct, draws, attempts, []) == Fill([], MaxAttempts)
    decreases MaxAttempts - attempts
  {
    if attempts < MaxAttempts {
      DegeneratePool(pool, correct, draws, attempts + 1);
    }
  }

  /** A duplicate-free sequence is one in which every value occurs at most once. */
  lemma {:induction false} DistinctCounts(s: seq<string>)
    ensures Distinct(s) <==> forall x :: multiset(s)[x] <= 1
  {
    if s != [] {
      DistinctCounts(s[1..]);
      assert s == [s[0]] + s[1..];
      if Distinct(s) {
        assert Distinct(s[1..]);
        assert s[0] !in s[1..];
      }
      if forall x :: multiset(s)[x] <= 1 {
        assert multiset(s) == multiset{s[0]} + multiset(s[1..]);
        forall x ensures multiset(s[1..])[x] <= 1 {
          assert multiset(s)[x] <= 1;
        }
        assert multiset(s)[s[0]] <= 1;
        assert s[0] !in multiset(s[1..]);
      }
    }
  }

  /** `.sort(() => Math.random() - 0.5)`: the order depends on the comparator's random
      answers and on the engine's sort, so only the items are known. */
  method Shuffle(items: seq<string>) returns (arranged: seq<string>)
    ensures multiset(arranged) == multiset(items)
  {
    // names `items` itself as the witness that an arrangement exists
    assert multiset(items) == multiset(items);
    arranged :| multiset(arranged) == multiset(items);
  }

  /** The distinct values of a list. */
  function Values(s: seq<string>): set<string>
  {
    set x | x in s
  }

  /** A duplicate-free list has as many items as distinct values. */
  lemma {:induction false} DistinctCardinality(s: seq<string>)
    requires Distinct(s)
    ensures |Values(s)| == |s|
  {
    if s != [] {
      assert Distinct(s[1..]);
      DistinctCardinality(s[1..]);
      assert Values(s) == {s[0]} + Values(s[1..]);
      assert s[0] !in Values(s[1..]);
    }
  }

  lemma {:induction false} SubsetCardinality(a: set<string>, b: set<string>)
    requires a <= b
    ensures |a| <= |b|
    decreases |a|
  {
    if a != {} {
      var x :| x in a;
      SubsetCardinality(a - {x}, b - {x});
    }
  }

  /** Any arrangement of the correct answer and the wrong answers (what the
      random-comparator sort produces) is a valid set of options. */
  lemma OptionsShape(correct: string, wrongs: seq<string>, options: seq<string>)
    requires Distinct(wrongs) && correct !in wrongs && |wrongs| <= WrongWanted
    requires multiset(options) == multiset([correct] + wrongs)
    ensures Distinct(options)
    ensures multiset(options)[correct] == 1
    ensures |options| == |wrongs| + 1 && 1 <= |options| <= WrongWanted + 1
    ensures forall o :: o in options <==> o == correct || o in wrongs
  {
    var pool := [correct] + wrongs;
    assert Distinct(pool);
    DistinctCounts(pool);
    DistinctCounts(options);
    assert |options| == |multiset(options)| == |multiset(pool)| == |pool|;
    forall o ensures o in options <==> o == correct || o in wrongs {
      assert o in options <==> o in multiset(options);
      assert o in pool <==> o in multiset(pool);
    }
  }

  /** The new question drawn with `promptDraw` and `draws`: prompt and answer at the
      same index, options an arrangement of the answer and the collected wrong answers. */
  ghost predicate IsQuestion(native: seq<string>, target: seq<string>, promptDraw: int, draws: seq<int>,
                             question: string, correct: string, options: seq<string>)
  {
    0 <= promptDraw < |native| == |target| && PickDraws(|native|, draws) &&
    question == target[promptDraw] && correct == native[promptDraw] &&
    multiset(options) == multiset([correct] + Distractors(native, correct, draws).wrongs)
  }

  /** Options of a generated question: the answer exactly once, no duplicates,
      one to four items, all taken from the native list; four unless all 50 attempts ran. */
  lemma QuestionShape(native: seq<string>, target: seq<string>, promptDraw: int, draws: seq<int>,
                      question: string, correct: string, options: seq<string>)
    requires IsQuestion(native, target, promptDraw, draws, question, correct, options)
    ensures Distinct(options) && multiset(options)[correct] == 1
    ensures 1 <= |options| <= WrongWanted + 1
    ensures forall o :: o in options ==> o in native
    ensures |options| <= |Values(native)|
    ensures |options| == WrongWanted + 1 || Distractors(native, correct, draws).attempts == MaxAttempts
  {
    var r := Distractors(native, correct, draws);
    OptionsShape(correct, r.wrongs, options);
    DistinctCardinality(options);
    SubsetCardinality(Values(options), Values(native));
  }

  /** When every native item equals the answer, the only option is the answer. */
  lemma DegenerateQuestion(native: seq<string>, target: seq<string>, promptDraw: int, draws: seq<int>,
                           question: string, correct: string, options: seq<string>)
    requires IsQuestion(native, target, promptDraw, draws, question, correct, options)
    requires forall i :: 0 <= i < |native| ==> native[i] == correct
    ensures Distractors(native, correct, draws).attempts == MaxAttempts
    ensures options == [correct]
  {
    DegeneratePool(native, correct, draws, 0);
    OptionsShape(correct, [], options);
    assert options[0] in options;
  }

  /** A three-word pool cannot supply three wrong answers: drawing index 0 asks for
      "kedi", expects "cat" and offers at most three options, "cat" among them. */
  lemma SmallPoolQuestion(draws: seq<int>, question: string, correct: string, options: seq<string>)
    requires IsQuestion(["cat", "dog", "bird"], ["kedi", "köpek", "kuş"], 0, draws, question, correct, options)
    ensures question == "kedi" && correct == "cat"
    ensures "cat" in options && |options| <= 3
  {
    var native := ["cat", "dog", "bird"];
    QuestionShape(native, ["kedi", "köpek", "kuş"], 0, draws, question, correct, options);
    assert Values(native) == {"cat", "dog", "bird"};
    assert multiset(options)[correct] == 1;
  }
}
