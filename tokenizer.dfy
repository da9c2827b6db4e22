// `Tokenizer._count_words`: the frequency dictionary of a list of tokens.
module Tokenizer {
  import opened Counting

  /** `dict(Counter(words).items())`: each distinct token mapped to its
      number of occurrences. */
  function CountWords(words: seq<string>): (r: map<string, nat>)
    ensures r.Keys == set w | w in words
    ensures forall w :: w in r ==> r[w] == multiset(words)[w] && r[w] >= 1
  {
    TallyCounts(words);
    Tally(words)
  }

  /** The counts add up to the number of tokens. */
  lemma CountWordsTotal(words: seq<string>)
    ensures Total(CountWords(words)) == |words|
  {
    TallyTotal(words);
  }

  /** Reordering the tokens does not change the dictionary. */
  lemma CountWordsPermutation(a: seq<string>, b: seq<string>)
    requires multiset(a) == multiset(b)
    ensures CountWords(a) == CountWords(b)
  {
    TallyPermutation(a, b);
  }
}
