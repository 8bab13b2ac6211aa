/** The category resolver shared by the words and sentences game screens
    (`getWordsForCategory` / `getSentencesForCategory` with their `splitArray`). */
module Categories {

  /** One language's content file: eight ordered groups of words or sentences. */
  datatype Dataset = Dataset(
    basic: seq<string>,
    pronouns: seq<string>,
    verbs: seq<string>,
    nouns: seq<string>,
    determiners: seq<string>,
    adjectives: seq<string>,
    adverbs: seq<string>,
    prepositions: seq<string>)

  datatype Group = Basic | Pronouns | Verbs | Nouns | Determiners | Adjectives | Adverbs | Prepositions

  function GroupOf(data: Dataset, g: Group): seq<string>
  {
    match g
    case Basic => data.basic
    case Pronouns => data.pronouns
    case Verbs => data.verbs
    case Nouns => data.nouns
    case Determiners => data.determiners
    case Adjectives => data.adjectives
    case Adverbs => data.adverbs
    case Prepositions => data.prepositions
  }

  /** Two language files are aligned when every group has the same length in both. */
  predicate GroupsAligned(a: Dataset, b: Dataset)
  {
    forall g: Group :: |GroupOf(a, g)| == |GroupOf(b, g)|
  }

  /** `Math.ceil(n / 2)` for a length `n`. */
  function CeilHalf(n: nat): (m: nat)
    ensures n <= 2 * m <= n + 1
  {
    (n + 1) / 2
  }

  /** `splitArray`: the first `ceil(n/2)` items and the rest. */
  function SplitArray(arr: seq<string>): (halves: (seq<string>, seq<string>))
    ensures |halves.0| == CeilHalf(|arr|)
    ensures |halves.1| == |arr| - CeilHalf(|arr|)
    ensures halves.0 + halves.1 == arr
  {
    var mid := CeilHalf(|arr|);
    (arr[..mid], arr[mid..])
  }

  /** The `switch` over the category id. */
  function Resolve(data: Dataset, id: string): seq<string>
  {
    match id
    case "basic" => data.basic
    case "pronouns1" => SplitArray(data.pronouns).0
    case "pronouns2" => SplitArray(data.pronouns).1
    case "verbs1" => SplitArray(data.verbs).0
    case "verbs2" => SplitArray(data.verbs).1
    case "nouns1" => SplitArray(data.nouns).0
    case "nouns2" => SplitArray(data.nouns).1
    case "determiners" => data.determiners
    case "adjectives1" => SplitArray(data.adjectives).0
    case "adjectives2" => SplitArray(data.adjectives).1
    case "adverbs" => data.adverbs
    case "prepositions" => data.prepositions
    case _ => []
  }

  /** The ids the switch recognises. */
  const CategoryIds: set<string> :=
    {"basic", "pronouns1", "pronouns2", "verbs1", "verbs2", "nouns1", "nouns2",
     "determiners", "adjectives1", "adjectives2", "adverbs", "prepositions"}

  // An independent description of the id scheme: a whole group is named after the
  // group, a split group's halves carry the suffixes "1" and "2".

  datatype Part = Whole | FirstHalf | SecondHalf

  function GroupName(g: Group): string
  {
    match g
    case Basic => "basic"
    case Pronouns => "pronouns"
    case Verbs => "verbs"
    case Nouns => "nouns"
    case Determiners => "determiners"
    case Adjectives => "adjectives"
    case Adverbs => "adverbs"
    case Prepositions => "prepositions"
  }

  predicate IsSplit(g: Group)
  {
    g == Pronouns || g == Verbs || g == Nouns || g == Adjectives
  }

  /** `id` names part `p` of group `g`. */
  predicate Names(id: string, g: Group, p: Part)
  {
    match p
    case Whole => !IsSplit(g) && id == GroupName(g)
    case FirstHalf => IsSplit(g) && id == GroupName(g) + "1"
    case SecondHalf => IsSplit(g) && id == GroupName(g) + "2"
  }

  function Extract(items: seq<string>, p: Part): seq<string>
  {
    match p
    case Whole => items
    case FirstHalf => SplitArray(items).0
    case SecondHalf => SplitArray(items).1
  }

  /** Every id named by the scheme resolves to its part of its group. */
  lemma ResolveFollowsNaming(data: Dataset, id: string, g: Group, p: Part)
    requires Names(id, g, p)
    ensures Resolve(data, id) == Extract(GroupOf(data, g), p)
  {
    match g
    case Basic =>
    case Pronouns =>
      if p == FirstHalf { assert id == "pronouns1"; } else { assert id == "pronouns2"; }
    case Verbs =>
      if p == FirstHalf { assert id == "verbs1"; } else { assert id == "verbs2"; }
    case Nouns =>
      if p == FirstHalf { assert id == "nouns1"; } else { assert id == "nouns2"; }
    case Determiners =>
    case Adjectives =>
      if p == FirstHalf { assert id == "adjectives1"; } else { assert id == "adjectives2"; }
    case Adverbs =>
    case Prepositions =>
  }

  /** The recognised ids are exactly the ones the scheme names. */
  lemma NamingCoversIds(id: string)
    ensures id in CategoryIds <==> exists g, p :: Names(id, g, p)
  {
    if id in CategoryIds {
      if id == "basic" { assert Names(id, Basic, Whole); }
      else if id == "pronouns1" { assert Names(id, Pronouns, FirstHalf); }
      else if id == "pronouns2" { assert Names(id, Pronouns, SecondHalf); }
      else if id == "verbs1" { assert Names(id, Verbs, FirstHalf); }
      else if id == "verbs2" { assert Names(id, Verbs, SecondHalf); }
      else if id == "nouns1" { assert Names(id, Nouns, FirstHalf); }
      else if id == "nouns2" { assert Names(id, Nouns, SecondHalf); }
      else if id == "determiners" { assert Names(id, Determiners, Whole); }
      else if id == "adjectives1" { assert Names(id, Adjectives, FirstHalf); }
      else if id == "adjectives2" { assert Names(id, Adjectives, SecondHalf); }
      else if id == "adverbs" { assert Names(id, Adverbs, Whole); }
      else { assert Names(id, Prepositions, Whole); }
    }
    forall g, p | Names(id, g, p) ensures id in CategoryIds {
      match g
      case Pronouns => assert id == "pronouns1" || id == "pronouns2";
      case Verbs => assert id == "verbs1" || id == "verbs2";
      case Nouns => assert id == "nouns1" || id == "nouns2";
      case Adjectives => assert id == "adjectives1" || id == "adjectives2";
      case _ =>
    }
  }

  /** Any id outside the twelve, such as "", "adjectives-2" or "xyz", gives no items. */
  lemma UnknownIdIsEmpty(data: Dataset, id: string)
    requires id !in CategoryIds
    ensures Resolve(data, id) == []
  {
  }

  /** The "1" and "2" categories of a split group, in order, give back the group
      with nothing dropped or reordered; the first has ceil(n/2) items. */
  lemma HalvesReassemble(data: Dataset, g: Group)
    requires IsSplit(g)
    ensures Resolve(data, GroupName(g) + "1") + Resolve(data, GroupName(g) + "2") == GroupOf(data, g)
    ensures |Resolve(data, GroupName(g) + "1")| == CeilHalf(|GroupOf(data, g)|)
  {
    ResolveFollowsNaming(data, GroupName(g) + "1", g, FirstHalf);
    ResolveFollowsNaming(data, GroupName(g) + "2", g, SecondHalf);
  }

  /** Aligned language files resolve to equally long lists for every id. */
  lemma ResolveAligned(a: Dataset, b: Dataset, id: string)
    requires GroupsAligned(a, b)
    ensures |Resolve(a, id)| == |Resolve(b, id)|
  {
    if id in CategoryIds {
      NamingCoversIds(id);
      var g, p :| Names(id, g, p);
      ResolveFollowsNaming(a, id, g, p);
      ResolveFollowsNaming(b, id, g, p);
      assert |GroupOf(a, g)| == |GroupOf(b, g)|;
    }
  }
}
