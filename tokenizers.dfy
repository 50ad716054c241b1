/** The tokenizer estimators: the base tokenizer, the NLTK tokenizer and the CountVectorizer
    tokenizer. Both concrete tokenizers build the document / sentence / token structure and then
    run the same bigram-contraction loop over it, rebinding `tokensBySentByDoc` after each pass. */
module Tokenizers {
  import opened Wrappers
  import opened Structure
  import opened Collocations
  import opened Contraction
  import opened ContractionLoop

  const DEFAULT_MAX_MWE_ITERATIONS: int := 2
  const DEFAULT_MIN_MWE_PMI: real := 12.0

  /** The external text-processing functions the tokenizers call. */
  datatype Toolkit = Toolkit(
    sentTokenize: string -> seq<string>,  // nltk sent_tokenize
    wordTokenize: string -> seq<Token>,   // nltk word_tokenize
    lower: string -> string,              // str.lower
    cvPreprocess: string -> string,       // CountVectorizer().build_preprocessor()
    cvTokenize: string -> seq<Token>)     // CountVectorizer().build_tokenizer()

  /** Which tokenizer, with its configuration. `Base` is the abstract base tokenizer, whose
      fit leaves no structure. */
  datatype Kind =
    | Base
    | Nltk(lowerCase: bool, maxMweIterations: int, minMwePmi: real)
    | CountVectorizer(maxMweIterations: int, minMwePmi: real)

  /** `range(n)` runs max(n, 0) times. */
  function Budget(n: int): nat
  {
    if n < 0 then 0 else n
  }

  /** The NLTK tokenizer's initial structure: sentence-split each document, optionally
      lower-case each sentence, word-split it. */
  function NltkStructure(X: seq<string>, tk: Toolkit, lowerCase: bool): (r: Corpus)
    ensures |r| == |X|
    ensures forall d :: 0 <= d < |X| ==> |r[d]| == |tk.sentTokenize(X[d])|
    ensures forall d, s :: 0 <= d < |X| && 0 <= s < |tk.sentTokenize(X[d])| ==>
              r[d][s] == tk.wordTokenize(
                if lowerCase then tk.lower(tk.sentTokenize(X[d])[s]) else tk.sentTokenize(X[d])[s])
  {
    seq(|X|, d requires 0 <= d < |X| =>
      var sents := tk.sentTokenize(X[d]);
      seq(|sents|, s requires 0 <= s < |sents| =>
        tk.wordTokenize(if lowerCase then tk.lower(sents[s]) else sents[s])))
  }

  /** The CountVectorizer tokenizer's initial structure: preprocess each document, split it
      into sentences, split each sentence with CountVectorizer's word tokenizer. */
  function CountVectorizerStructure(X: seq<string>, tk: Toolkit): (r: Corpus)
    ensures |r| == |X|
    ensures forall d :: 0 <= d < |X| ==> |r[d]| == |tk.sentTokenize(tk.cvPreprocess(X[d]))|
    ensures forall d, s :: 0 <= d < |X| && 0 <= s < |tk.sentTokenize(tk.cvPreprocess(X[d]))| ==>
              r[d][s] == tk.cvTokenize(tk.sentTokenize(tk.cvPreprocess(X[d]))[s])
  {
    seq(|X|, d requires 0 <= d < |X| =>
      var sents := tk.sentTokenize(tk.cvPreprocess(X[d]));
      seq(|sents|, s requires 0 <= s < |sents| => tk.cvTokenize(sents[s])))
  }

  /** The sentences a concrete tokenizer finds in one document. */
  function SentencesOf(kind: Kind, doc: string, tk: Toolkit): seq<string>
    requires !kind.Base?
  {
    if kind.Nltk? then tk.sentTokenize(doc) else tk.sentTokenize(tk.cvPreprocess(doc))
  }

  function InitialStructure(kind: Kind, X: seq<string>, tk: Toolkit): Corpus
    requires !kind.Base?
  {
    match kind
    case Nltk(lowerCase, _, _) => NltkStructure(X, tk, lowerCase)
    case CountVectorizer(_, _) => CountVectorizerStructure(X, tk)
  }

  /** What `fit` leaves in `tokens_by_sent_by_doc_`. */
  function FitResult(kind: Kind, X: seq<string>, tk: Toolkit, score: Score): Option<Corpus>
  {
    if kind.Base? then None
    else Some(Contracted(InitialStructure(kind, X, tk), Budget(kind.maxMweIterations), Selection(score, kind.minMwePmi)))
  }

  /** The snapshots a fit goes through: the initial structure and the result of each pass. */
  function FitTrace(kind: Kind, X: seq<string>, tk: Toolkit, score: Score): seq<Corpus>
  {
    if kind.Base? then []
    else Trace(InitialStructure(kind, X, tk), Budget(kind.maxMweIterations), Selection(score, kind.minMwePmi))
  }

  /** A concrete tokenizer yields one document per input string, including the empty string,
      each with one sentence per sentence found in it and no sentence longer than its initial
      word split; at most `max_MWE_iterations` passes run. */
  lemma FitStructure(kind: Kind, X: seq<string>, tk: Toolkit, score: Score)
    requires !kind.Base?
    ensures FitResult(kind, X, tk, score).Some?
    ensures |FitResult(kind, X, tk, score).value| == |X|
    ensures forall d :: 0 <= d < |X| ==>
              |FitResult(kind, X, tk, score).value[d]| == |SentencesOf(kind, X[d], tk)|
    ensures ShapeKept(InitialStructure(kind, X, tk), FitResult(kind, X, tk, score).value)
    ensures |FitTrace(kind, X, tk, score)| - 1 <= Budget(kind.maxMweIterations)
  {
    SelectionSound(score, kind.minMwePmi);
    ContractedShape(InitialStructure(kind, X, tk), Budget(kind.maxMweIterations), Selection(score, kind.minMwePmi));
    TraceBound(InitialStructure(kind, X, tk), Budget(kind.maxMweIterations), Selection(score, kind.minMwePmi));
  }

  /** With `max_MWE_iterations` zero or negative, fit leaves the initial tokenization as it is. */
  lemma FitWithoutIterations(kind: Kind, X: seq<string>, tk: Toolkit, score: Score)
    requires !kind.Base? && kind.maxMweIterations <= 0
    ensures FitResult(kind, X, tk, score) == Some(InitialStructure(kind, X, tk))
  {
    NoIterations(InitialStructure(kind, X, tk), Selection(score, kind.minMwePmi));
  }

  /** Expanding every contracted token of the fitted structure into the words it joins gives
      back the initial tokenization. */
  lemma FitRoundTrip(kind: Kind, X: seq<string>, tk: Toolkit, score: Score)
    requires !kind.Base?
    ensures var init := InitialStructure(kind, X, tk);
            var trees := Derivation(AtomCorpus(init), Budget(kind.maxMweIterations), Selection(score, kind.minMwePmi));
            Some(Render(trees)) == FitResult(kind, X, tk, score) && Unfold(trees) == init
  {
    RoundTrip(InitialStructure(kind, X, tk), Budget(kind.maxMweIterations), Selection(score, kind.minMwePmi));
  }

  /** The two concrete tokenizers run the same contraction loop: given the same initial
      structure and settings they fit the same structure. */
  lemma SameContraction(X1: seq<string>, tk1: Toolkit, lowerCase: bool, X2: seq<string>, tk2: Toolkit,
                        score: Score, maxMweIterations: int, minMwePmi: real)
    requires NltkStructure(X1, tk1, lowerCase) == CountVectorizerStructure(X2, tk2)
    ensures FitResult(Kind.Nltk(lowerCase, maxMweIterations, minMwePmi), X1, tk1, score)
         == FitResult(Kind.CountVectorizer(maxMweIterations, minMwePmi), X2, tk2, score)
    ensures FitTrace(Kind.Nltk(lowerCase, maxMweIterations, minMwePmi), X1, tk1, score)
         == FitTrace(Kind.CountVectorizer(maxMweIterations, minMwePmi), X2, tk2, score)
  {
  }

  /** Growing a prefix of a sequence by its next element. */
  lemma PrefixGrows<T>(t: seq<T>, i: nat)
    requires i + 1 < |t|
    ensures t[..i + 1] + [t[i + 1]] == t[..i + 2]
  {
  }

  class Tokenizer {
    const kind: Kind
    /** `tokens_by_sent_by_doc_`; None before a fit and after the base tokenizer's fit. */
    var tokensBySentByDoc: Option<Corpus>
    /** The snapshots of the last fit: the initial structure, then one per pass. */
    ghost var history: seq<Corpus>

    constructor Base()
      ensures kind == Kind.Base && tokensBySentByDoc == None && history == []
    {
      kind := Kind.Base;
      tokensBySentByDoc := None;
      history := [];
    }

    constructor Nltk(lowerCase: bool := false, maxMweIterations: int := DEFAULT_MAX_MWE_ITERATIONS,
                     minMwePmi: real := DEFAULT_MIN_MWE_PMI)
      ensures kind == Kind.Nltk(lowerCase, maxMweIterations, minMwePmi)
      ensures tokensBySentByDoc == None && history == []
    {
      kind := Kind.Nltk(lowerCase, maxMweIterations, minMwePmi);
      tokensBySentByDoc := None;
      history := [];
    }

    constructor CountVectorizer(maxMweIterations: int := DEFAULT_MAX_MWE_ITERATIONS,
                                minMwePmi: real := DEFAULT_MIN_MWE_PMI)
      ensures kind == Kind.CountVectorizer(maxMweIterations, minMwePmi)
      ensures tokensBySentByDoc == None && history == []
    {
      kind := Kind.CountVectorizer(maxMweIterations, minMwePmi);
      tokensBySentByDoc := None;
      history := [];
    }

    /** `tokens_by_sent_by_doc()`. */
    function TokensBySentByDoc(): (r: Option<Corpus>)
      reads this
      ensures r == tokensBySentByDoc
    {
      tokensBySentByDoc
    }

    /** `tokens_by_sent()`: all sentences, one entry per sentence of every document. */
    function TokensBySent(): (r: Option<seq<Sentence>>)
      reads this
      ensures r.Some? <==> tokensBySentByDoc.Some?
      ensures r.Some? ==> r.value == Structure.TokensBySent(tokensBySentByDoc.value)
      ensures r.Some? ==> |r.value| == TotalLength(tokensBySentByDoc.value)
      ensures r.Some? ==> forall sentence :: sentence in r.value <==>
                exists d :: 0 <= d < |tokensBySentByDoc.value| && sentence in tokensBySentByDoc.value[d]
    {
      match tokensBySentByDoc
      case None => None
      case Some(c) =>
        Structure.TokensBySentLayout(c);
        assert forall sentence :: sentence in Structure.TokensBySent(c) <==>
          exists d :: 0 <= d < |c| && sentence in c[d] by {
          forall sentence {
            Structure.TokensBySentMembership(c, sentence);
          }
        }
        Some(Structure.TokensBySent(c))
    }

    /** `tokens_by_doc()`: one token sequence per document, all of its sentences in order. */
    function TokensByDoc(): (r: Option<seq<seq<Token>>>)
      reads this
      ensures r.Some? <==> tokensBySentByDoc.Some?
      ensures r.Some? ==> |r.value| == |tokensBySentByDoc.value|
      ensures r.Some? ==> forall d :: 0 <= d < |r.value| ==>
                |r.value[d]| == TotalLength(tokensBySentByDoc.value[d])
      ensures r.Some? ==> Flatten(r.value) == Flatten(Structure.TokensBySent(tokensBySentByDoc.value))
    {
      match tokensBySentByDoc
      case None => None
      case Some(c) =>
        Structure.TokensByDocLayout(c);
        Some(Structure.TokensByDoc(c))
    }

    /** `fit`: build the initial structure, then run up to `max_MWE_iterations` passes, each
        selecting the bigrams of the current `tokens_by_sent()` whose score exceeds
        `min_MWE_PMI`, stopping when none is selected, otherwise merging them everywhere. */
    method Fit(X: seq<string>, tk: Toolkit, score: Score)
      modifies this
      ensures tokensBySentByDoc == FitResult(kind, X, tk, score)
      ensures history == FitTrace(kind, X, tk, score)
    {
      if kind.Base? {
        tokensBySentByDoc := None;
        history := [];
        return;
      }
      var initial := InitialStructure(kind, X, tk);
      tokensBySentByDoc := Some(initial);
      history := [initial];
      ghost var budget := Budget(kind.maxMweIterations);
      ghost var whole := Trace(initial, budget, Selection(score, kind.minMwePmi));
      TraceIsLoop(initial, budget, Selection(score, kind.minMwePmi));
      var i := 0;
      while i < kind.maxMweIterations
        invariant 0 <= i <= budget && i < |whole|
        invariant tokensBySentByDoc == Some(whole[i])
        invariant history == whole[..i + 1]
      {
        var sents := TokensBySent();
        var mwes := Candidates(sents.value, score, kind.minMwePmi);
        assert mwes == Selection(score, kind.minMwePmi)(whole[i]);
        LoopRound(whole, initial, budget, Selection(score, kind.minMwePmi), i);
        if mwes == {} {
          break;
        }
        PrefixGrows(whole, i);
        tokensBySentByDoc := Some(ContractCorpus(tokensBySentByDoc.value, mwes));
        history := history + [whole[i + 1]];
        i := i + 1;
      }
      assert i == |whole| - 1;
    }

    /** `fit_transform`: fit, then return the structure `tokens_by_sent_by_doc()` reports. */
    method FitTransform(X: seq<string>, tk: Toolkit, score: Score) returns (r: Option<Corpus>)
      modifies this
      ensures tokensBySentByDoc == FitResult(kind, X, tk, score)
      ensures history == FitTrace(kind, X, tk, score)
      ensures r == TokensBySentByDoc()
    {
      Fit(X, tk, score);
      r := tokensBySentByDoc;
    }
  }
}
