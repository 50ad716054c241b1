# Tokenization and multi-word-expression contraction (textmap tokenizers)

This project models, in Dafny, the tokenizers of the textmap text-vectorization toolkit
(`textmap/tokenizers.py`). A tokenizer turns a list of raw documents into a three-level
structure, `tokens_by_sent_by_doc_`: documents, each a list of sentences, each a list of tokens.
It then runs a bounded bigram-contraction loop. Each pass does four things:

- it counts adjacent token pairs over `tokens_by_sent()`, the sentences of all documents;
- it selects the pairs whose association score exceeds `min_MWE_PMI`;
- it stops if none is selected;
- otherwise it merges every non-overlapping occurrence of a selected pair into one token,
  the two texts joined by `"_"`. The scan runs left to right and is greedy.

The tokenizer also exposes two flattening projections, `tokens_by_sent()` and `tokens_by_doc()`.

Modules:

- `Structure` (structure.dfy): the corpus types, `Flatten`, and the two projections
  `TokensBySent` and `TokensByDoc`. `Wrappers` in the same file holds `Option`.
- `Collocations` (collocations.dfy): the bigram counts. Pairs are counted inside sentences,
  never across a sentence end. Word counts and the token total cover all tokens. The counts are
  packed as a `Contingency` and passed to the score. The module also holds the candidate set,
  the bigrams whose score exceeds the threshold.
- `Contraction` (contraction.dfy): the greedy merge of one sentence (`Merge`) and the pass over
  the whole corpus (`ContractCorpus`). It also gives a tree view (`Mwe`) of the merged tokens.
  The tree view states the round trip without splitting strings at `"_"`.
- `ContractionLoop` (contraction_loop.dfy): the loop as a specification. `Trace` lists the
  snapshots of the corpus, one per pass; `Contracted` is the last one. `Derivation` runs the
  same loop on trees. The loop is written for any `Selector`, a function from a corpus to the
  bigrams to merge. The tokenizers use `Selection(score, minScore)`, the candidates of
  `tokens_by_sent()`. The facts about shape and shrinking need only that the selector is
  `Sound`: it picks only bigrams that occur inside some sentence. `SelectionSound` proves that
  of the tokenizers' selector.
- `Tokenizers` (tokenizers.dfy): the NLTK and CountVectorizer initial structures and the class
  `Tokenizer`. `Fit` assigns and rebinds the field `tokensBySentByDoc` in a bounded `while`
  loop with an early `break`. The loop is proved equal to `Contracted`, and the ghost field
  `history` is proved equal to `Trace`.

The external tokenizers are the functions of a `Toolkit` value passed to `Fit`: nltk
`sent_tokenize`, nltk `word_tokenize`, `str.lower`, and CountVectorizer's preprocessor and word
tokenizer. The likelihood-ratio score is a function `Score` over the integer counts, also passed
to `Fit`. The model relies only on "selected means the score is strictly greater than the
threshold".

The three tokenizer classes of the source are modelled as one class. A `Kind` value says which
one it is: `Base`, `Nltk(lowerCase, maxMweIterations, minMwePmi)` or
`CountVectorizer(maxMweIterations, minMwePmi)`. The two concrete `fit` methods differ only in
how they build the initial structure. Their contraction loops are identical (lines 124-136
and 168-180), so the loop is written once. The fitted structure of either kind is
`Contracted(initial structure, ...)`. So the two tokenizers give the same result whenever
their initial structures and settings agree (`SameContraction`).

Two behaviours of the code worth stating:

- The threshold test is strict (`score > min_MWE_PMI`). The docstring says "exceeding"
  (textmap/tokenizers.py:79), and nltk's `above_score` yields a bigram only while its score is
  greater than the minimum.
- A negative `max_MWE_iterations` is not an error. `range(n)` is then empty, so no pass runs
  (`Budget`).

## Model

| member | source | states |
|---|---|---|
| `Structure.TokensBySentLayout` | textmap/tokenizers.py:56-63 | `tokens_by_sent` has one entry per sentence of every document: its length is the sum of the per-document sentence counts, and sentence s of document d sits right after all sentences of the earlier documents |
| `Structure.TokensBySentMembership` | textmap/tokenizers.py:56-63 | a sentence is listed by `tokens_by_sent` if and only if some document contains it |
| `Structure.TokensByDocLayout` | textmap/tokenizers.py:65-73 | `tokens_by_doc` has one entry per document; that entry has as many tokens as the document's sentences together; read in order, it is the same token stream as `tokens_by_sent` |
| `Collocations.PairCountPositive` | textmap/tokenizers.py:125 | a bigram's count over the sentences is positive if and only if the pair occurs adjacently inside one sentence |
| `Collocations.BigramsOccur` | textmap/tokenizers.py:125 | the scored bigrams are exactly the pairs adjacent inside some sentence, which are exactly those with a positive count |
| `Collocations.CandidatesRule` | textmap/tokenizers.py:126-130 | a bigram is selected if and only if it occurs adjacently inside some sentence of `tokens_by_sent()` and its score is strictly greater than the threshold |
| `Collocations.StatsConsistent` | textmap/tokenizers.py:125-129 | the pair count is at most each word count, and each word count is at most the token total; for two distinct tokens left + right ≤ total + pair, so the fourth cell of the 2x2 table is not negative (for a token paired with itself it can be: "a a a" gives pair 2, left 3, right 3, total 3) |
| `Contraction.MergeLength` | textmap/tokenizers.py:133-136 | a merge shortens a sentence by exactly the number of merges, and 2 × merges ≤ length (merges do not overlap, each takes two tokens) |
| `Contraction.MergeCountZero` | textmap/tokenizers.py:133-136 | the scan merges nothing if and only if no adjacent pair of the sentence is selected |
| `Contraction.MergeFixpoint` | textmap/tokenizers.py:133-136 | a merge leaves a sentence unchanged if and only if no adjacent pair of it is selected |
| `Contraction.MergeShrinks` | textmap/tokenizers.py:133-136 | a sentence that holds an occurrence of a selected pair gets strictly shorter |
| `Contraction.MergeExamples` | textmap/tokenizers.py:133-136 | the `MWETokenizer` scan on two concrete sentences: "a a a" with ("a","a") selected gives "a_a a" (greedy, non-overlapping); every "foo bar" becomes the token "foo_bar", the `"_"`-joined label textmap/tests/test_common.py:168-170 also uses |
| `Contraction.ContractCorpusShape` | textmap/tokenizers.py:134-136 | a pass keeps the number of documents and of sentences in each document; no sentence gets longer |
| `Contraction.ContractCommutesWithFlatten` | textmap/tokenizers.py:134-136 | `tokens_by_sent` after a pass equals each sentence of `tokens_by_sent` before it, merged |
| `Contraction.ContractCorpusShrinks` | textmap/tokenizers.py:133-136 | a pass never adds tokens, and removes at least one when a selected pair occurs in some sentence |
| `Contraction.MergeTreesRenders` | textmap/tokenizers.py:133-136 | merging contraction trees and then taking their texts equals merging the texts; a merged token's text is left + "_" + right |
| `Contraction.MergeTreesExpands` | textmap/tokenizers.py:133-136 | round trip of one pass: the merged trees expand to the same words as the trees before the pass |
| `Contraction.AtomsRoundTrip` | textmap/tokenizers.py:116-122 | a sentence of plain words renders and expands to itself |
| `Contraction.ContractMweCorpusCorrect` | textmap/tokenizers.py:134-136 | a pass on a tree corpus renders to the string pass and keeps the words of every sentence |
| `Contraction.AtomCorpusRoundTrip` | textmap/tokenizers.py:116-122 | a corpus of plain words renders and unfolds to itself |
| `ContractionLoop.TraceBound` | textmap/tokenizers.py:124 | at most `max_MWE_iterations` passes run |
| `ContractionLoop.TraceSteps` | textmap/tokenizers.py:124-136 | every pass that runs had a non-empty selection and merged exactly that selection, so no pass runs after an empty selection |
| `ContractionLoop.TraceStop` | textmap/tokenizers.py:131-132 | if the loop stops before its budget is used, the last structure had an empty selection |
| `ContractionLoop.NoIterations` | textmap/tokenizers.py:124 | with no budget, the result is the initial structure |
| `ContractionLoop.EarlyStop` | textmap/tokenizers.py:131-132 | when nothing is selected, no pass runs and the structure stays as it was |
| `ContractionLoop.SelectionOccurs` | textmap/tokenizers.py:125-130 | every selected bigram occurs adjacently inside a sentence of some document |
| `ContractionLoop.SelectionSound` | textmap/tokenizers.py:125-130 | the tokenizers' selector only picks bigrams that occur adjacently inside some sentence of `tokens_by_sent()` |
| `ContractionLoop.TraceIsLoop` | textmap/tokenizers.py:124-136 | the trace starts at the initial structure, runs at most the budget of passes, each of them a pass with a non-empty selection, and ends early only on an empty selection |
| `ContractionLoop.LoopRound` | textmap/tokenizers.py:124-136 | in a round with budget left, an empty selection means the loop's run ends at that structure, and otherwise the next structure merges exactly that selection |
| `ContractionLoop.TraceShape` | textmap/tokenizers.py:124-136 | every snapshot keeps the initial documents and sentences, with no sentence longer; each pass that runs removes at least one token |
| `ContractionLoop.PassShrinks` | textmap/tokenizers.py:131-136 | a pass with a non-empty selection keeps the shape and strictly reduces the token total |
| `ContractionLoop.ContractedShape` | textmap/tokenizers.py:124-136 | the final structure keeps the initial documents and sentences, none longer |
| `ContractionLoop.DerivationCorrect` | textmap/tokenizers.py:124-136 | the loop on trees renders to the string loop and keeps the words of every sentence |
| `ContractionLoop.RoundTrip` | textmap/tokenizers.py:124-136 | across all passes, the contracted structure is the text of trees that expand back to exactly the initial sentences |
| `Tokenizers.NltkStructure` | textmap/tokenizers.py:115-122 | one document per input string; one sentence per sentence `sent_tokenize` finds; each sentence word-tokenized, lower-cased first when `lower_case` is set |
| `Tokenizers.CountVectorizerStructure` | textmap/tokenizers.py:163-167 | one document per input string; the sentences of the preprocessed document, each split by CountVectorizer's word tokenizer |
| `Tokenizers.FitStructure` | textmap/tokenizers.py:116-136 | after a concrete fit there is one document per input string (the empty string included), with the sentence count the splitter gives it; no sentence is longer than its initial word split; at most `max_MWE_iterations` passes ran |
| `Tokenizers.FitWithoutIterations` | textmap/tokenizers.py:124 | with `max_MWE_iterations` ≤ 0, fit leaves exactly the initial tokenization |
| `Tokenizers.FitRoundTrip` | textmap/tokenizers.py:133-136 | expanding every contracted token of the fitted structure into its words gives back the initial tokenization |
| `Tokenizers.Tokenizer.Nltk` | textmap/tokenizers.py:96-101 | the NLTK tokenizer with defaults lower_case = false, max_MWE_iterations = 2, min_MWE_PMI = 12; nothing fitted yet |
| `Tokenizers.Tokenizer.CountVectorizer` | textmap/tokenizers.py:145-149 | the CountVectorizer tokenizer with defaults 2 and 12; nothing fitted yet |
| `Tokenizers.Tokenizer.Base` | textmap/tokenizers.py:14-15 | the base tokenizer; nothing fitted yet |
| `Tokenizers.SameContraction` | textmap/tokenizers.py:124-136 | for any inputs and toolkits under which the NLTK and the CountVectorizer tokenizers build the same initial structure, with the same iteration budget and threshold, they fit the same structure through the same passes (their loops, lines 124-136 and 168-180, are the same) |
| `Tokenizers.Tokenizer.TokensBySentByDoc` | textmap/tokenizers.py:47-54 | reports the fitted structure exactly as the last fit left it, None when no concrete fit has run |
| `Tokenizers.Tokenizer.TokensBySent` | textmap/tokenizers.py:56-63 | when fitted, exactly the documents' sentences concatenated in order (`Structure.TokensBySent`): their number is the sum of the documents' sentence counts, and a sentence is listed if and only if some document holds it |
| `Tokenizers.Tokenizer.TokensByDoc` | textmap/tokenizers.py:65-73 | when fitted, one token list per document, as long as its sentences together, with the same overall token stream as `tokens_by_sent` |
| `Tokenizers.Tokenizer.Fit` | textmap/tokenizers.py:103-137 | the loop leaves the field equal to the contraction-loop result on the initial structure, and `history` equal to its trace; this is the same loop as lines 168-180 of the CountVectorizer fit; the base fit (lines 17-30) leaves no structure |
| `Tokenizers.Tokenizer.FitTransform` | textmap/tokenizers.py:32-45 | fits (the field and `history` as after `Fit`), then returns exactly what `tokens_by_sent_by_doc()` reports |

## Left out

- The sentence and word tokenizers (nltk `sent_tokenize`, `word_tokenize`, CountVectorizer's
  preprocessor and tokenizer) and `str.lower` are external. They are the fields of `Toolkit`
  and stay uninterpreted.
- The score `BigramAssocMeasures.likelihood_ratio` is floating-point log arithmetic. It is an
  uninterpreted `Score` over the counts.
- `above_score` returns its bigrams sorted by score. That ordering does not affect the merge,
  so the model returns a set.
- In nltk, the pair count n_ii reaches the score divided by `window_size - 1`; the word counts
  and the token total are passed as they are. That divisor is 1 for bigrams, so the model
  passes the plain integer counts.
- Separator collisions: nothing stops a token from already containing `"_"`. So the round trip
  is stated over contraction trees (`Mwe`), not by splitting strings.
- `textmap/utilities.py` (`flatten`) is not part of this model. `flatten` is modelled as plain
  concatenation.
- Before any fit, the Python object has no `tokens_by_sent_by_doc_` attribute, so reading it
  raises. The model uses `None` for that state, the same value the base tokenizer's fit
  assigns.
- Tokenizers.Tokenizer.TokensBySent: when the field is None, the model returns None. What
  `flatten(None)` does depends on `textmap/utilities.py`, which is not modelled.
- Tokenizers.Tokenizer.TokensByDoc: when the field is None, the model returns None instead of
  raising the error that iterating `None` raises.
- `fit` returning `self` and its ignored `**fit_params` keyword arguments are not modelled.
- The scikit-learn base classes `BaseEstimator` and `TransformerMixin` are not modelled.
- `StanzaTokenizer` (lines 184-185) is not modelled. It is an empty subclass that behaves like
  the base tokenizer.
- The `nltk.download` call in the tests is an I/O side effect and is not modelled.
- Error checks for non-string documents or invalid settings are not modelled, because the code
  performs none.
