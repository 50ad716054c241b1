/** Bigram statistics over a list of sentences and the selection of the bigrams to contract,
    as one pass of the contraction loop computes them from `tokens_by_sent`. The counting is
    that of nltk's BigramCollocationFinder.from_documents: every sentence is padded at its end,
    so a bigram never spans two sentences, while word counts and the total run over every
    token. The association score itself is a parameter. */
module Collocations {
  import opened Structure

  /** An ordered pair of adjacent tokens, by identity. */
  type Bigram = (Token, Token)

  /** The counts a bigram association measure is given: how often the pair occurs (n_ii), how
      often its left and its right token occur (n_ix, n_xi), and how many tokens there are (n_xx). */
  datatype Contingency = Contingency(pair: nat, left: nat, right: nat, total: nat)

  /** The association measure (nltk's likelihood ratio), left uninterpreted. */
  type Score = Contingency -> real

  /** The pair occurs at some position j, j + 1 of the sentence. */
  predicate AdjacentIn(s: Sentence, p: Bigram)
  {
    exists j :: 0 <= j < |s| - 1 && s[j] == p.0 && s[j + 1] == p.1
  }

  /** The pair occurs adjacently inside one of the sentences. */
  predicate OccursIn(sents: seq<Sentence>, p: Bigram)
  {
    exists i :: 0 <= i < |sents| && AdjacentIn(sents[i], p)
  }

  /** Occurrences of the pair inside one sentence. */
  function SentencePairCount(s: Sentence, p: Bigram): nat
  {
    if |s| < 2 then 0
    else (if s[0] == p.0 && s[1] == p.1 then 1 else 0) + SentencePairCount(s[1..], p)
  }

  /** Occurrences of the pair over all sentences (the bigram frequency distribution). */
  function PairCount(sents: seq<Sentence>, p: Bigram): nat
  {
    if sents == [] then 0 else SentencePairCount(sents[0], p) + PairCount(sents[1..], p)
  }

  /** Occurrences of the token over all sentences (the word frequency distribution). */
  function WordCount(sents: seq<Sentence>, w: Token): nat
  {
    multiset(Flatten(sents))[w]
  }

  /** Number of tokens over all sentences. */
  function TokenTotal(sents: seq<Sentence>): nat
  {
    |Flatten(sents)|
  }

  /** The distinct bigrams the finder scores: those occurring in some sentence. */
  function Bigrams(sents: seq<Sentence>): set<Bigram>
  {
    set i, j | 0 <= i < |sents| && 0 <= j < |sents[i]| - 1 :: PairAt(sents[i], j)
  }

  /** The bigram starting at position j. */
  function PairAt(s: Sentence, j: nat): Bigram
    requires j < |s| - 1
  {
    (s[j], s[j + 1])
  }

  /** The counts handed to the score for one bigram. */
  function Stats(sents: seq<Sentence>, p: Bigram): Contingency
  {
    Contingency(PairCount(sents, p), WordCount(sents, p.0), WordCount(sents, p.1), TokenTotal(sents))
  }

  /** The bigrams whose score exceeds the threshold (`above_score`, read as a set). */
  function Candidates(sents: seq<Sentence>, score: Score, minScore: real): set<Bigram>
  {
    set p | p in Bigrams(sents) && score(Stats(sents, p)) > minScore
  }

  lemma {:induction false} SentencePairCountPositive(s: Sentence, p: Bigram)
    ensures SentencePairCount(s, p) > 0 <==> AdjacentIn(s, p)
  {
    if |s| >= 2 {
      SentencePairCountPositive(s[1..], p);
      if AdjacentIn(s[1..], p) {
        var j :| 0 <= j < |s[1..]| - 1 && s[1..][j] == p.0 && s[1..][j + 1] == p.1;
        assert s[j + 1] == p.0 && s[j + 2] == p.1;
      }
      if AdjacentIn(s, p) {
        var j :| 0 <= j < |s| - 1 && s[j] == p.0 && s[j + 1] == p.1;
        if j > 0 {
          assert s[1..][j - 1] == p.0 && s[1..][j] == p.1;
        }
      }
    }
  }

  /** A bigram has a positive count exactly when it occurs adjacently inside some sentence. */
  lemma {:induction false} PairCountPositive(sents: seq<Sentence>, p: Bigram)
    ensures PairCount(sents, p) > 0 <==> OccursIn(sents, p)
  {
    if sents != [] {
      PairCountPositive(sents[1..], p);
      SentencePairCountPositive(sents[0], p);
      if OccursIn(sents[1..], p) {
        var i :| 0 <= i < |sents[1..]| && AdjacentIn(sents[1..][i], p);
        assert AdjacentIn(sents[i + 1], p);
      }
      if OccursIn(sents, p) {
        var i :| 0 <= i < |sents| && AdjacentIn(sents[i], p);
        if i > 0 {
          assert AdjacentIn(sents[1..][i - 1], p);
        }
      }
    }
  }

  /** The bigrams scored are exactly those occurring inside a sentence, and each has a
      positive count. */
  lemma BigramsOccur(sents: seq<Sentence>, p: Bigram)
    ensures p in Bigrams(sents) <==> OccursIn(sents, p)
    ensures p in Bigrams(sents) <==> PairCount(sents, p) > 0
  {
    PairCountPositive(sents, p);
    if OccursIn(sents, p) {
      var i :| 0 <= i < |sents| && AdjacentIn(sents[i], p);
      var j :| 0 <= j < |sents[i]| - 1 && sents[i][j] == p.0 && sents[i][j + 1] == p.1;
      assert p == PairAt(sents[i], j);
    }
  }

  /** Selection rule: a bigram is selected exactly when it occurs inside some sentence and
      its score strictly exceeds the threshold. */
  lemma CandidatesRule(sents: seq<Sentence>, score: Score, minScore: real, p: Bigram)
    ensures p in Candidates(sents, score, minScore) <==>
              OccursIn(sents, p) && score(Stats(sents, p)) > minScore
  {
    BigramsOccur(sents, p);
  }

  lemma {:induction false} SentencePairCountBounds(s: Sentence, p: Bigram)
    ensures SentencePairCount(s, p) <= multiset(s)[p.0]
    ensures |s| > 0 ==> SentencePairCount(s, p) <= multiset(s[1..])[p.1]
  {
    if |s| >= 2 {
      SentencePairCountBounds(s[1..], p);
      assert s == [s[0]] + s[1..];
      assert s[1..] == [s[1]] + s[1..][1..];
    }
  }

  lemma {:induction false} OccurrencesBounded(xs: seq<Token>, w: Token)
    ensures multiset(xs)[w] <= |xs|
  {
    if xs != [] {
      assert xs == [xs[0]] + xs[1..];
      OccurrencesBounded(xs[1..], w);
    }
  }

  /** Two distinct tokens together occur no more often than there are tokens. */
  lemma {:induction false} TwoOccurrencesBounded(xs: seq<Token>, a: Token, b: Token)
    requires a != b
    ensures multiset(xs)[a] + multiset(xs)[b] <= |xs|
  {
    if xs != [] {
      assert xs == [xs[0]] + xs[1..];
      TwoOccurrencesBounded(xs[1..], a, b);
    }
  }

  /** Bounds on the counts handed to the score: a pair occurs no more often than either of its
      tokens, and no token occurs more often than there are tokens. For a pair of two distinct
      tokens the counts also form a 2x2 contingency table whose fourth cell,
      total - left - right + pair, is not negative. For a token paired with itself that cell can
      be negative: in the one sentence "a a a" the pair ("a", "a") gets pair 2, left 3, right 3,
      total 3. */
  lemma {:induction false} StatsConsistent(sents: seq<Sentence>, p: Bigram)
    ensures Stats(sents, p).pair <= Stats(sents, p).left <= Stats(sents, p).total
    ensures Stats(sents, p).pair <= Stats(sents, p).right <= Stats(sents, p).total
    ensures p.0 != p.1 ==>
              Stats(sents, p).left + Stats(sents, p).right <= Stats(sents, p).total + Stats(sents, p).pair
  {
    if p.0 != p.1 {
      TwoOccurrencesBounded(Flatten(sents), p.0, p.1);
    }
    OccurrencesBounded(Flatten(sents), p.0);
    OccurrencesBounded(Flatten(sents), p.1);
    if sents != [] {
      StatsConsistent(sents[1..], p);
      SentencePairCountBounds(sents[0], p);
      var s := sents[0];
      if s != [] {
        assert s == [s[0]] + s[1..];
      }
      assert Flatten(sents) == s + Flatten(sents[1..]);
    }
  }
}
