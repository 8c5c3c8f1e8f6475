/** `HealthEvaluator.GetKeyword`: the phrase of a qualitative guideline tier
    that a client's free-text answer is searched for. A description that
    mentions one of nine canonical phrases is reduced to the first of them;
    any other description to its first three space-separated pieces. */
module KeywordMatcher {
  import opened Text

  /** The canonical phrases, in the order they are looked for. */
  const KnownPhrases: seq<string> := [
    "restful sleep",
    "frequent disturbances",
    "severe sleep issues",
    "Low self-reported stress",
    "Moderate self-reported stress",
    "High chronic stress",
    "Balanced, nutrient-rich diet",
    "Processed or high-sugar diet",
    "Poor nutrition with deficiencies"
  ]

  /** The index of the first known phrase, from `from` on, that `description`
      contains ignoring case; `|KnownPhrases|` when there is none. */
  function FirstKnownPhrase(description: string, from: nat): (k: nat)
    requires from <= |KnownPhrases|
    ensures from <= k <= |KnownPhrases|
    ensures k < |KnownPhrases| ==> ContainsIgnoreCase(description, KnownPhrases[k])
    ensures forall j :: from <= j < k ==> !ContainsIgnoreCase(description, KnownPhrases[j])
    decreases |KnownPhrases| - from
  {
    if from == |KnownPhrases| then from
    else if ContainsIgnoreCase(description, KnownPhrases[from]) then from
    else FirstKnownPhrase(description, from + 1)
  }

  /** `string.Join(" ", description.Split(' ').Take(3))`. */
  function FirstWords(description: string): string {
    Join(Take(Split(description, ' '), 3), " ")
  }

  /** The keyword of a guideline tier's description. */
  function GetKeyword(description: string): string {
    if IsBlank(description) then ""
    else
      var k := FirstKnownPhrase(description, 0);
      if k < |KnownPhrases| then KnownPhrases[k] else FirstWords(description)
  }

  /** A blank description has the empty keyword, which every string contains. */
  lemma BlankKeyword(description: string, answer: string)
    requires IsBlank(description)
    ensures GetKeyword(description) == ""
    ensures ContainsIgnoreCase(answer, GetKeyword(description))
  {
    assert StartsWith(ToLower(answer), ToLower(""));
  }

  /** A description that mentions a known phrase has as keyword the first
      known phrase, in table order, that it mentions. */
  lemma KeywordIsFirstKnownPhrase(description: string, i: nat)
    requires !IsBlank(description) && i < |KnownPhrases|
    requires ContainsIgnoreCase(description, KnownPhrases[i])
    requires forall j :: 0 <= j < i ==> !ContainsIgnoreCase(description, KnownPhrases[j])
    ensures GetKeyword(description) == KnownPhrases[i]
  {
    var k := FirstKnownPhrase(description, 0);
    assert k <= i;
  }

  /** A description that mentions no known phrase has as keyword its first
      three space-separated pieces: a prefix of the description that ends
      where the description ends or just before a space, and holds at most two
      spaces. */
  lemma KeywordFallsBackToFirstWords(description: string)
    requires !IsBlank(description)
    requires forall j :: 0 <= j < |KnownPhrases| ==> !ContainsIgnoreCase(description, KnownPhrases[j])
    ensures GetKeyword(description) == FirstWords(description)
    ensures PrefixBefore(description, GetKeyword(description), ' ')
    ensures CountChar(GetKeyword(description), ' ') <= 2
  {
    FirstWordsPrefix(description);
  }

  /** The first three pieces are a prefix ending at a space boundary, with
      fewer than three spaces in it. */
  lemma FirstWordsPrefix(description: string)
    ensures PrefixBefore(description, FirstWords(description), ' ')
    ensures CountChar(FirstWords(description), ' ') <= 2
  {
    TakeSplitPrefix(description, ' ', 3);
  }

  /** A non-blank description contains its own keyword, ignoring case: either
      the known phrase it was reduced to, or its leading words. */
  lemma KeywordOccursInDescription(description: string)
    requires !IsBlank(description)
    ensures ContainsIgnoreCase(description, GetKeyword(description))
  {
    var k := FirstKnownPhrase(description, 0);
    if k == |KnownPhrases| {
      var w := FirstWords(description);
      FirstWordsPrefix(description);
      PrefixContainedIgnoringCase(description, w);
    }
  }

  /** A prefix is contained in the string it starts, ignoring case. */
  lemma PrefixContainedIgnoringCase(s: string, p: string)
    requires StartsWith(s, p)
    ensures ContainsIgnoreCase(s, p)
  {
    var ls, lp := ToLower(s), ToLower(p);
    assert ls[..|lp|] == lp by {
      forall i | 0 <= i < |lp| ensures ls[i] == lp[i] {
        assert s[i] == p[i];
      }
    }
    assert StartsWith(ls, lp);
  }
}
