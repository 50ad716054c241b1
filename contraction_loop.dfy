/** The bigram-contraction loop shared by both concrete tokenizers, as a specification: up to
    `budget` passes, each selecting bigrams from the current corpus, stopping as soon as none is
    selected, and otherwise merging the selected bigrams everywhere. The loop is stated for any
    selector; the tokenizers' selector counts bigrams over `tokens_by_sent` and keeps those
    whose score exceeds the threshold. */
module ContractionLoop {
  import opened Structure
  import opened Collocations
  import opened Contraction

  /** What a pass selects in a corpus. */
  type Selector = Corpus -> set<Bigram>

  /** The tokenizers' selector: score the bigrams of `tokens_by_sent` and keep those above
      the threshold. */
  function Selection(score: Score, minScore: real): Selector
  {
    c => Candidates(TokensBySent(c), score, minScore)
  }

  /** A selector that only picks bigrams occurring inside some sentence. */
  ghost predicate Sound(sel: Selector)
  {
    forall c, p | p in sel(c) :: OccursIn(TokensBySent(c), p)
  }

  /** The corpus before the first pass and after each pass that runs. */
  function Trace(c: Corpus, budget: nat, sel: Selector): (t: seq<Corpus>)
    ensures |t| >= 1 && t[0] == c
    decreases budget
  {
    if budget == 0 then [c]
    else if sel(c) == {} then [c]
    else [c] + Trace(ContractCorpus(c, sel(c)), budget - 1, sel)
  }

  /** The corpus once the loop has finished. */
  function Contracted(c: Corpus, budget: nat, sel: Selector): Corpus
  {
    var t := Trace(c, budget, sel);
    t[|t| - 1]
  }

  /** At most `budget` passes run. */
  lemma {:induction false} TraceBound(c: Corpus, budget: nat, sel: Selector)
    ensures |Trace(c, budget, sel)| - 1 <= budget
    decreases budget
  {
    if budget > 0 && sel(c) != {} {
      TraceBound(ContractCorpus(c, sel(c)), budget - 1, sel);
    }
  }

  /** One pass that runs: the selection in `before` is not empty and `after` merges it. */
  predicate IsPass(before: Corpus, after: Corpus, sel: Selector)
  {
    sel(before) != {} && after == ContractCorpus(before, sel(before))
  }

  lemma TraceUnfold(c: Corpus, budget: nat, sel: Selector)
    requires budget > 0 && sel(c) != {}
    ensures IsPass(c, Trace(c, budget, sel)[1], sel)
    ensures Trace(c, budget, sel)[1..] == Trace(ContractCorpus(c, sel(c)), budget - 1, sel)
  {
  }

  /** Each snapshot after the first comes from the one before it by a pass that runs. */
  predicate IsRun(t: seq<Corpus>, sel: Selector)
  {
    forall k :: 0 <= k < |t| - 1 ==> IsPass(t[k], t[k + 1], sel)
  }

  lemma RunCons(t: seq<Corpus>, sel: Selector)
    requires |t| >= 2 && IsPass(t[0], t[1], sel) && IsRun(t[1..], sel)
    ensures IsRun(t, sel)
  {
    forall k | 0 <= k < |t| - 1
      ensures IsPass(t[k], t[k + 1], sel)
    {
      if k > 0 {
        assert t[k] == t[1..][k - 1] && t[k + 1] == t[1..][k];
      }
    }
  }

  /** Every pass that runs had a non-empty selection and merged exactly it: no pass runs after
      an empty selection. */
  lemma {:induction false} TraceSteps(c: Corpus, budget: nat, sel: Selector)
    ensures IsRun(Trace(c, budget, sel), sel)
    decreases budget
  {
    if budget > 0 && sel(c) != {} {
      TraceUnfold(c, budget, sel);
      TraceSteps(ContractCorpus(c, sel(c)), budget - 1, sel);
      RunCons(Trace(c, budget, sel), sel);
    }
  }

  /** The loop ends before using its whole budget only because the last corpus had an empty
      selection. */
  lemma {:induction false} TraceStop(c: Corpus, budget: nat, sel: Selector)
    ensures var t := Trace(c, budget, sel);
            |t| - 1 < budget ==> sel(t[|t| - 1]) == {}
    decreases budget
  {
    if budget > 0 && sel(c) != {} {
      TraceUnfold(c, budget, sel);
      TraceStop(ContractCorpus(c, sel(c)), budget - 1, sel);
      var t := Trace(c, budget, sel);
      assert t[|t| - 1] == t[1..][|t[1..]| - 1];
    }
  }

  /** A run of the loop: it starts at c, uses at most its budget, each step is a pass that
      runs, and it ends early only on an empty selection. */
  predicate IsLoop(t: seq<Corpus>, c: Corpus, budget: nat, sel: Selector)
  {
    |t| >= 1 && t[0] == c && |t| - 1 <= budget && IsRun(t, sel) &&
    (|t| - 1 < budget ==> sel(t[|t| - 1]) == {})
  }

  lemma TraceIsLoop(c: Corpus, budget: nat, sel: Selector)
    ensures IsLoop(Trace(c, budget, sel), c, budget, sel)
  {
    TraceBound(c, budget, sel);
    TraceSteps(c, budget, sel);
    TraceStop(c, budget, sel);
  }

  /** Round i of such a run, with budget left: an empty selection means the run ends there,
      otherwise the next snapshot merges the selection. */
  lemma LoopRound(t: seq<Corpus>, c: Corpus, budget: nat, sel: Selector, i: nat)
    requires IsLoop(t, c, budget, sel) && i < |t| && i < budget
    ensures sel(t[i]) == {} ==> i == |t| - 1
    ensures sel(t[i]) != {} ==> i + 1 < |t| && t[i + 1] == ContractCorpus(t[i], sel(t[i]))
  {
    if i < |t| - 1 {
      assert IsPass(t[i], t[i + 1], sel);
    }
  }

  /** With no budget the result is the initial structure. */
  lemma NoIterations(c: Corpus, sel: Selector)
    ensures Contracted(c, 0, sel) == c
  {
  }

  /** When nothing is selected the loop stops at once and leaves the structure as it was. */
  lemma EarlyStop(c: Corpus, budget: nat, sel: Selector)
    requires sel(c) == {}
    ensures Trace(c, budget, sel) == [c]
    ensures Contracted(c, budget, sel) == c
  {
  }

  /** Each bigram the tokenizers select occurs inside a sentence of some document, so every
      pass that runs merges at least one occurrence. */
  lemma SelectionOccurs(c: Corpus, score: Score, minScore: real, p: Bigram)
    requires p in Selection(score, minScore)(c)
    ensures exists d, s :: 0 <= d < |c| && 0 <= s < |c[d]| && AdjacentIn(c[d][s], p)
  {
    CandidatesRule(TokensBySent(c), score, minScore, p);
    var i :| 0 <= i < |TokensBySent(c)| && AdjacentIn(TokensBySent(c)[i], p);
    TokensBySentMembership(c, TokensBySent(c)[i]);
    var d :| 0 <= d < |c| && TokensBySent(c)[i] in c[d];
    var s :| 0 <= s < |c[d]| && c[d][s] == TokensBySent(c)[i];
  }

  /** The tokenizers' selector only picks bigrams occurring inside some sentence. */
  lemma SelectionSound(score: Score, minScore: real)
    ensures Sound(Selection(score, minScore))
  {
    forall c, p | p in Selection(score, minScore)(c)
      ensures OccursIn(TokensBySent(c), p)
    {
      CandidatesRule(TokensBySent(c), score, minScore, p);
    }
  }

  /** A pass that runs keeps the shape and removes at least one token. */
  lemma PassShrinks(c: Corpus, sel: Selector)
    requires Sound(sel) && sel(c) != {}
    ensures ShapeKept(c, ContractCorpus(c, sel(c)))
    ensures CorpusTokens(ContractCorpus(c, sel(c))) < CorpusTokens(c)
  {
    var mwes := sel(c);
    ContractCorpusShape(c, mwes);
    var p :| p in mwes;
    ContractCorpusShrinks(c, mwes, p);
  }

  /** Every snapshot keeps the documents and sentences of the initial structure with no
      sentence longer, and every pass that runs removes at least one token. */
  lemma {:induction false} TraceShape(c: Corpus, budget: nat, sel: Selector)
    requires Sound(sel)
    ensures forall k :: 0 <= k < |Trace(c, budget, sel)| ==> ShapeKept(c, Trace(c, budget, sel)[k])
    ensures forall k :: 0 <= k < |Trace(c, budget, sel)| - 1 ==>
              CorpusTokens(Trace(c, budget, sel)[k + 1]) < CorpusTokens(Trace(c, budget, sel)[k])
    decreases budget
  {
    var t := Trace(c, budget, sel);
    ShapeKeptReflexive(c);
    if budget > 0 && sel(c) != {} {
      var next := ContractCorpus(c, sel(c));
      TraceUnfold(c, budget, sel);
      TraceShape(next, budget - 1, sel);
      PassShrinks(c, sel);
      var rest := t[1..];
      forall k | 0 <= k < |t|
        ensures ShapeKept(c, t[k])
      {
        if k > 0 {
          assert t[k] == rest[k - 1];
          ShapeKeptTransitive(c, next, t[k]);
        }
      }
      forall k | 0 <= k < |t| - 1
        ensures CorpusTokens(t[k + 1]) < CorpusTokens(t[k])
      {
        if k > 0 {
          assert t[k] == rest[k - 1] && t[k + 1] == rest[k];
        }
      }
    }
  }

  /** The final structure keeps the documents and sentences of the initial one, none longer. */
  lemma ContractedShape(c: Corpus, budget: nat, sel: Selector)
    requires Sound(sel)
    ensures ShapeKept(c, Contracted(c, budget, sel))
  {
    TraceShape(c, budget, sel);
  }

  /** The loop run on contraction trees: the selection is made on the rendered texts. */
  function Derivation(tc: MweCorpus, budget: nat, sel: Selector): MweCorpus
    decreases budget
  {
    if budget == 0 then tc
    else if sel(Render(tc)) == {} then tc
    else Derivation(ContractMweCorpus(tc, sel(Render(tc))), budget - 1, sel)
  }

  /** The tree loop renders to the string loop and keeps the words of every sentence. */
  lemma {:induction false} DerivationCorrect(tc: MweCorpus, budget: nat, sel: Selector)
    ensures Render(Derivation(tc, budget, sel)) == Contracted(Render(tc), budget, sel)
    ensures Unfold(Derivation(tc, budget, sel)) == Unfold(tc)
    decreases budget
  {
    var mwes := sel(Render(tc));
    if budget > 0 && mwes != {} {
      ContractMweCorpusCorrect(tc, mwes);
      DerivationCorrect(ContractMweCorpus(tc, mwes), budget - 1, sel);
    }
  }

  /** Round trip: the contracted structure is the text of contraction trees that expand back
      to exactly the initial sentences, across all passes. */
  lemma RoundTrip(c: Corpus, budget: nat, sel: Selector)
    ensures Render(Derivation(AtomCorpus(c), budget, sel)) == Contracted(c, budget, sel)
    ensures Unfold(Derivation(AtomCorpus(c), budget, sel)) == c
  {
    AtomCorpusRoundTrip(c);
    DerivationCorrect(AtomCorpus(c), budget, sel);
  }
}
