/** One contraction pass: nltk's MWETokenizer built from two-token expressions. Each sentence is
    scanned left to right; when the current token and the next form a selected bigram both are
    replaced by their join with "_" and the scan moves past the pair, otherwise the current
    token is kept. Every sentence of every document is rewritten that way. */
module Contraction {
  import opened Structure
  import opened Collocations

  const SEPARATOR: string := "_"

  /** The text of a contracted token. */
  function Join(left: Token, right: Token): Token
  {
    left + SEPARATOR + right
  }

  /** The greedy, non-overlapping merge of one sentence (`MWETokenizer.tokenize`). */
  function Merge(s: Sentence, mwes: set<Bigram>): Sentence
  {
    if |s| < 2 then s
    else if (s[0], s[1]) in mwes then [Join(s[0], s[1])] + Merge(s[2..], mwes)
    else [s[0]] + Merge(s[1..], mwes)
  }

  /** How many pairs the scan of one sentence merges. */
  function MergeCount(s: Sentence, mwes: set<Bigram>): nat
  {
    if |s| < 2 then 0
    else if (s[0], s[1]) in mwes then 1 + MergeCount(s[2..], mwes)
    else MergeCount(s[1..], mwes)
  }

  /** No adjacent pair of the sentence is selected. */
  predicate NoSelectedPair(s: Sentence, mwes: set<Bigram>)
  {
    forall j :: 0 <= j < |s| - 1 ==> (s[j], s[j + 1]) !in mwes
  }

  /** `tokenize_sents`: every sentence of one document merged. */
  function MergeSentences(sents: seq<Sentence>, mwes: set<Bigram>): seq<Sentence>
  {
    seq(|sents|, i requires 0 <= i < |sents| => Merge(sents[i], mwes))
  }

  /** One pass over the whole corpus. */
  function ContractCorpus(c: Corpus, mwes: set<Bigram>): Corpus
  {
    seq(|c|, d requires 0 <= d < |c| => MergeSentences(c[d], mwes))
  }

  /** `after` has the same documents and sentences as `before`, none of its sentences longer. */
  predicate ShapeKept(before: Corpus, after: Corpus)
  {
    |after| == |before| &&
    forall d :: 0 <= d < |before| ==>
      |after[d]| == |before[d]| &&
      forall s :: 0 <= s < |before[d]| ==> |after[d][s]| <= |before[d][s]|
  }

  /** Number of tokens in the whole corpus. */
  function CorpusTokens(c: Corpus): nat
  {
    TokenTotal(TokensBySent(c))
  }

  /** A merge shortens the sentence by exactly the number of merged pairs, and merged pairs do
      not overlap: each consumes two tokens of the input. */
  lemma {:induction false} MergeLength(s: Sentence, mwes: set<Bigram>)
    ensures |Merge(s, mwes)| + MergeCount(s, mwes) == |s|
    ensures 2 * MergeCount(s, mwes) <= |s|
  {
    if |s| >= 2 {
      if (s[0], s[1]) in mwes {
        MergeLength(s[2..], mwes);
      } else {
        MergeLength(s[1..], mwes);
      }
    }
  }

  /** The scan merges nothing exactly when no adjacent pair of the sentence is selected. */
  lemma {:induction false} MergeCountZero(s: Sentence, mwes: set<Bigram>)
    ensures MergeCount(s, mwes) == 0 <==> NoSelectedPair(s, mwes)
  {
    if |s| >= 2 && (s[0], s[1]) !in mwes {
      MergeCountZero(s[1..], mwes);
      if NoSelectedPair(s[1..], mwes) {
        forall j | 0 <= j < |s| - 1
          ensures (s[j], s[j + 1]) !in mwes
        {
          if j > 0 {
            assert (s[1..][j - 1], s[1..][j]) !in mwes;
          }
        }
      }
      if NoSelectedPair(s, mwes) {
        forall j | 0 <= j < |s[1..]| - 1
          ensures (s[1..][j], s[1..][j + 1]) !in mwes
        {
          assert (s[j + 1], s[j + 2]) !in mwes;
        }
      }
    }
  }

  /** A merge leaves the sentence as it is exactly when no adjacent pair of it is selected. */
  lemma MergeFixpoint(s: Sentence, mwes: set<Bigram>)
    ensures Merge(s, mwes) == s <==> NoSelectedPair(s, mwes)
  {
    MergeLength(s, mwes);
    MergeCountZero(s, mwes);
    if NoSelectedPair(s, mwes) {
      MergeUnchanged(s, mwes);
    }
  }

  lemma {:induction false} MergeUnchanged(s: Sentence, mwes: set<Bigram>)
    requires NoSelectedPair(s, mwes)
    ensures Merge(s, mwes) == s
  {
    if |s| >= 2 {
      assert (s[0], s[1]) !in mwes;
      forall j | 0 <= j < |s[1..]| - 1
        ensures (s[1..][j], s[1..][j + 1]) !in mwes
      {
        assert (s[j + 1], s[j + 2]) !in mwes;
      }
      MergeUnchanged(s[1..], mwes);
      assert s == [s[0]] + s[1..];
    }
  }

  /** A sentence holding an occurrence of a selected pair gets strictly shorter. */
  lemma MergeShrinks(s: Sentence, mwes: set<Bigram>, p: Bigram)
    requires p in mwes && AdjacentIn(s, p)
    ensures |Merge(s, mwes)| < |s|
  {
    var j :| 0 <= j < |s| - 1 && s[j] == p.0 && s[j + 1] == p.1;
    assert (s[j], s[j + 1]) in mwes;
    MergeCountZero(s, mwes);
    MergeLength(s, mwes);
  }

  /** A pass keeps every document and every sentence, and no sentence grows. */
  lemma ContractCorpusShape(c: Corpus, mwes: set<Bigram>)
    ensures ShapeKept(c, ContractCorpus(c, mwes))
  {
    forall d, s | 0 <= d < |c| && 0 <= s < |c[d]|
      ensures |ContractCorpus(c, mwes)[d][s]| <= |c[d][s]|
    {
      MergeLength(c[d][s], mwes);
    }
  }

  lemma ShapeKeptTransitive(a: Corpus, b: Corpus, c: Corpus)
    requires ShapeKept(a, b) && ShapeKept(b, c)
    ensures ShapeKept(a, c)
  {
  }

  lemma ShapeKeptReflexive(a: Corpus)
    ensures ShapeKept(a, a)
  {
  }

  /** Flattening the documents after a pass is the same as merging the flattened sentences. */
  lemma {:induction false} ContractCommutesWithFlatten(c: Corpus, mwes: set<Bigram>)
    ensures TokensBySent(ContractCorpus(c, mwes)) == MergeSentences(TokensBySent(c), mwes)
  {
    if c != [] {
      ContractCommutesWithFlatten(c[1..], mwes);
      assert ContractCorpus(c, mwes)[1..] == ContractCorpus(c[1..], mwes);
      assert MergeSentences(c[0] + Flatten(c[1..]), mwes)
          == MergeSentences(c[0], mwes) + MergeSentences(Flatten(c[1..]), mwes);
    }
  }

  lemma {:induction false} MergeSentencesShrink(sents: seq<Sentence>, mwes: set<Bigram>, p: Bigram)
    ensures TokenTotal(MergeSentences(sents, mwes)) <= TokenTotal(sents)
    ensures p in mwes && OccursIn(sents, p) ==>
              TokenTotal(MergeSentences(sents, mwes)) < TokenTotal(sents)
  {
    if sents != [] {
      var rest := MergeSentences(sents[1..], mwes);
      assert MergeSentences(sents, mwes) == [Merge(sents[0], mwes)] + rest;
      MergeSentencesShrink(sents[1..], mwes, p);
      MergeLength(sents[0], mwes);
      FlattenAppend([Merge(sents[0], mwes)], rest);
      if p in mwes && OccursIn(sents, p) {
        var i :| 0 <= i < |sents| && AdjacentIn(sents[i], p);
        if i == 0 {
          MergeShrinks(sents[0], mwes, p);
        } else {
          assert AdjacentIn(sents[1..][i - 1], p);
        }
      }
    }
  }

  /** A pass whose selection occurs somewhere in the corpus removes at least one token; a pass
      never adds tokens. */
  lemma ContractCorpusShrinks(c: Corpus, mwes: set<Bigram>, p: Bigram)
    ensures CorpusTokens(ContractCorpus(c, mwes)) <= CorpusTokens(c)
    ensures p in mwes && OccursIn(TokensBySent(c), p) ==>
              CorpusTokens(ContractCorpus(c, mwes)) < CorpusTokens(c)
  {
    ContractCommutesWithFlatten(c, mwes);
    MergeSentencesShrink(TokensBySent(c), mwes, p);
  }

  /** The scan is greedy and non-overlapping: in "a a a" only the first two merge, and every
      occurrence of a selected pair is contracted, as in the "foo_bar" of the tests. */
  lemma MergeExamples()
    ensures Merge(["a", "a", "a"], {("a", "a")}) == ["a_a", "a"]
    ensures Merge(["foo", "bar", "pok", "foo", "bar"], {("foo", "bar")}) == ["foo_bar", "pok", "foo_bar"]
  {
    var aa := {("a", "a")};
    assert Join("a", "a") == "a_a";
    assert ["a", "a", "a"][2..] == ["a"];
    assert Merge(["a", "a", "a"], aa) == [Join("a", "a")] + Merge(["a"], aa);
    var fb := {("foo", "bar")};
    var s := ["foo", "bar", "pok", "foo", "bar"];
    assert Join("foo", "bar") == "foo_bar";
    assert s[2..] == ["pok", "foo", "bar"] && s[2..][1..] == ["foo", "bar"];
    assert ("pok", "foo") !in fb;
    assert Merge(["foo", "bar"], fb) == [Join("foo", "bar")] + Merge([], fb);
    assert Merge(s[2..], fb) == ["pok"] + Merge(["foo", "bar"], fb);
    assert Merge(s, fb) == [Join("foo", "bar")] + Merge(s[2..], fb);
  }

  /** A token as a contraction tree: an original word, or the contraction of two tokens
      made in an earlier pass. */
  datatype Mwe = Word(word: Token) | Compound(left: Mwe, right: Mwe)

  /** The token text the tokenizer stores for a tree. */
  function Text(m: Mwe): Token
  {
    match m
    case Word(w) => w
    case Compound(l, r) => Join(Text(l), Text(r))
  }

  /** The original words a tree stands for, in order. */
  function Words(m: Mwe): seq<Token>
  {
    match m
    case Word(w) => [w]
    case Compound(l, r) => Words(l) + Words(r)
  }

  function Texts(ts: seq<Mwe>): seq<Token>
  {
    seq(|ts|, i requires 0 <= i < |ts| => Text(ts[i]))
  }

  /** The original words of a sentence of trees. */
  function Expand(ts: seq<Mwe>): seq<Token>
  {
    if ts == [] then [] else Words(ts[0]) + Expand(ts[1..])
  }

  function Atoms(s: Sentence): seq<Mwe>
  {
    seq(|s|, i requires 0 <= i < |s| => Word(s[i]))
  }

  /** The same scan as Merge, on trees: the decision looks at the texts, the result keeps
      the two parts. */
  function MergeTrees(ts: seq<Mwe>, mwes: set<Bigram>): seq<Mwe>
  {
    if |ts| < 2 then ts
    else if (Text(ts[0]), Text(ts[1])) in mwes then [Compound(ts[0], ts[1])] + MergeTrees(ts[2..], mwes)
    else [ts[0]] + MergeTrees(ts[1..], mwes)
  }

  /** The texts of the merged trees are what the string merge produces from their texts. */
  lemma {:induction false} MergeTreesRenders(ts: seq<Mwe>, mwes: set<Bigram>)
    ensures Texts(MergeTrees(ts, mwes)) == Merge(Texts(ts), mwes)
  {
    if |ts| >= 2 {
      var s := Texts(ts);
      if (Text(ts[0]), Text(ts[1])) in mwes {
        MergeTreesRenders(ts[2..], mwes);
        assert Texts(ts[2..]) == s[2..];
        assert Texts([Compound(ts[0], ts[1])] + MergeTrees(ts[2..], mwes))
            == [Join(s[0], s[1])] + Texts(MergeTrees(ts[2..], mwes));
      } else {
        MergeTreesRenders(ts[1..], mwes);
        assert Texts(ts[1..]) == s[1..];
        assert Texts([ts[0]] + MergeTrees(ts[1..], mwes))
            == [s[0]] + Texts(MergeTrees(ts[1..], mwes));
      }
    }
  }

  lemma {:induction false} ExpandAppend(ts: seq<Mwe>, us: seq<Mwe>)
    ensures Expand(ts + us) == Expand(ts) + Expand(us)
  {
    if ts != [] {
      assert (ts + us)[1..] == ts[1..] + us;
      ExpandAppend(ts[1..], us);
    } else {
      assert ts + us == us;
    }
  }

  /** Round trip of one pass: expanding the merged trees gives back the words expanded from
      the trees before the pass. */
  lemma {:induction false} MergeTreesExpands(ts: seq<Mwe>, mwes: set<Bigram>)
    ensures Expand(MergeTrees(ts, mwes)) == Expand(ts)
  {
    if |ts| >= 2 {
      if (Text(ts[0]), Text(ts[1])) in mwes {
        MergeTreesExpands(ts[2..], mwes);
        ExpandAppend([Compound(ts[0], ts[1])], MergeTrees(ts[2..], mwes));
        assert ts == [ts[0]] + ([ts[1]] + ts[2..]);
        ExpandAppend([ts[0]], [ts[1]] + ts[2..]);
        ExpandAppend([ts[1]], ts[2..]);
      } else {
        MergeTreesExpands(ts[1..], mwes);
        ExpandAppend([ts[0]], MergeTrees(ts[1..], mwes));
        assert ts == [ts[0]] + ts[1..];
        ExpandAppend([ts[0]], ts[1..]);
      }
    }
  }

  /** Plain words render and expand to the sentence they were made from. */
  lemma {:induction false} AtomsRoundTrip(s: Sentence)
    ensures Texts(Atoms(s)) == s
    ensures Expand(Atoms(s)) == s
  {
    if s != [] {
      AtomsRoundTrip(s[1..]);
      assert Atoms(s)[1..] == Atoms(s[1..]);
      assert s == [s[0]] + s[1..];
    }
  }

  /** A corpus whose tokens are contraction trees. */
  type MweCorpus = seq<seq<seq<Mwe>>>

  /** The token texts of a tree corpus. */
  function Render(tc: MweCorpus): Corpus
  {
    seq(|tc|, d requires 0 <= d < |tc| =>
      seq(|tc[d]|, s requires 0 <= s < |tc[d]| => Texts(tc[d][s])))
  }

  /** The original words of every sentence of a tree corpus. */
  function Unfold(tc: MweCorpus): Corpus
  {
    seq(|tc|, d requires 0 <= d < |tc| =>
      seq(|tc[d]|, s requires 0 <= s < |tc[d]| => Expand(tc[d][s])))
  }

  function AtomCorpus(c: Corpus): MweCorpus
  {
    seq(|c|, d requires 0 <= d < |c| =>
      seq(|c[d]|, s requires 0 <= s < |c[d]| => Atoms(c[d][s])))
  }

  function ContractMweCorpus(tc: MweCorpus, mwes: set<Bigram>): MweCorpus
  {
    seq(|tc|, d requires 0 <= d < |tc| =>
      seq(|tc[d]|, s requires 0 <= s < |tc[d]| => MergeTrees(tc[d][s], mwes)))
  }

  /** A pass on trees renders to the string pass and keeps the words every sentence expands to. */
  lemma ContractMweCorpusCorrect(tc: MweCorpus, mwes: set<Bigram>)
    ensures Render(ContractMweCorpus(tc, mwes)) == ContractCorpus(Render(tc), mwes)
    ensures Unfold(ContractMweCorpus(tc, mwes)) == Unfold(tc)
  {
    var next := ContractMweCorpus(tc, mwes);
    forall d | 0 <= d < |tc|
      ensures Render(next)[d] == ContractCorpus(Render(tc), mwes)[d]
      ensures Unfold(next)[d] == Unfold(tc)[d]
    {
      forall s | 0 <= s < |tc[d]|
        ensures Texts(next[d][s]) == Merge(Texts(tc[d][s]), mwes)
        ensures Expand(next[d][s]) == Expand(tc[d][s])
      {
        MergeTreesRenders(tc[d][s], mwes);
        MergeTreesExpands(tc[d][s], mwes);
      }
    }
  }

  /** A corpus of plain words renders and unfolds to itself. */
  lemma AtomCorpusRoundTrip(c: Corpus)
    ensures Render(AtomCorpus(c)) == c
    ensures Unfold(AtomCorpus(c)) == c
  {
    forall d | 0 <= d < |c|
      ensures Render(AtomCorpus(c))[d] == c[d]
      ensures Unfold(AtomCorpus(c))[d] == c[d]
    {
      forall s | 0 <= s < |c[d]|
        ensures Texts(Atoms(c[d][s])) == c[d][s]
        ensures Expand(Atoms(c[d][s])) == c[d][s]
      {
        AtomsRoundTrip(c[d][s]);
      }
    }
  }
}
