/** Option, for the tokenizer field that is unset until a concrete tokenizer has been fitted. */
module Wrappers {
  datatype Option<T> = None | Some(value: T)
}

/** The three-level token structure a tokenizer builds (document, sentence, token)
    and the two flattening projections it exposes. */
module Structure {

  /** A token is an opaque string; a contracted token is its parts joined by "_". */
  type Token = string
  type Sentence = seq<Token>
  type Document = seq<Sentence>
  type Corpus = seq<Document>

  /** Concatenation of a sequence of sequences, in order. */
  function Flatten<T>(xss: seq<seq<T>>): seq<T>
  {
    if xss == [] then [] else xss[0] + Flatten(xss[1..])
  }

  /** Sum of the lengths of the inner sequences. */
  function TotalLength<T>(xss: seq<seq<T>>): nat
  {
    if xss == [] then 0 else |xss[0]| + TotalLength(xss[1..])
  }

  /** Every sentence of the corpus, document after document (`tokens_by_sent`). */
  function TokensBySent(c: Corpus): seq<Sentence>
  {
    Flatten(c)
  }

  /** One token sequence per document: its sentences concatenated (`tokens_by_doc`). */
  function TokensByDoc(c: Corpus): seq<seq<Token>>
  {
    seq(|c|, d requires 0 <= d < |c| => Flatten(c[d]))
  }

  lemma {:induction false} FlattenAppend<T>(xss: seq<seq<T>>, yss: seq<seq<T>>)
    ensures Flatten(xss + yss) == Flatten(xss) + Flatten(yss)
  {
    if xss == [] {
      assert xss + yss == yss;
    } else {
      assert (xss + yss)[1..] == xss[1..] + yss;
      FlattenAppend(xss[1..], yss);
    }
  }

  lemma {:induction false} FlattenLength<T>(xss: seq<seq<T>>)
    ensures |Flatten(xss)| == TotalLength(xss)
  {
    if xss != [] {
      FlattenLength(xss[1..]);
    }
  }

  /** Element j of inner sequence i sits at offset TotalLength(xss[..i]) + j of the flattening. */
  lemma {:induction false} FlattenAt<T>(xss: seq<seq<T>>, i: nat, j: nat)
    requires i < |xss| && j < |xss[i]|
    ensures TotalLength(xss[..i]) + j < |Flatten(xss)|
    ensures Flatten(xss)[TotalLength(xss[..i]) + j] == xss[i][j]
  {
    if i == 0 {
      assert xss[..0] == [];
    } else {
      FlattenAt(xss[1..], i - 1, j);
      assert xss[..i][1..] == xss[1..][..i - 1];
    }
  }

  lemma {:induction false} FlattenMembership<T>(xss: seq<seq<T>>, x: T)
    ensures x in Flatten(xss) <==> exists i :: 0 <= i < |xss| && x in xss[i]
  {
    if xss != [] {
      FlattenMembership(xss[1..], x);
      if x in Flatten(xss[1..]) {
        var i :| 0 <= i < |xss[1..]| && x in xss[1..][i];
        assert x in xss[i + 1];
      }
      if exists i :: 0 <= i < |xss| && x in xss[i] {
        var i :| 0 <= i < |xss| && x in xss[i];
        if i > 0 {
          assert x in xss[1..][i - 1];
        }
      }
    }
  }

  /** flat lists the inner sequences of xss one after another: its length is their total
      length, and element j of inner sequence i sits right after the elements of the inner
      sequences before i. */
  ghost predicate Layout<T>(xss: seq<seq<T>>, flat: seq<T>)
  {
    |flat| == TotalLength(xss) &&
    forall i, j | 0 <= i < |xss| && 0 <= j < |xss[i]| ::
      TotalLength(xss[..i]) + j < |flat| && flat[TotalLength(xss[..i]) + j] == xss[i][j]
  }

  lemma FlattenLayout<T>(xss: seq<seq<T>>)
    ensures Layout(xss, Flatten(xss))
  {
    FlattenLength(xss);
    forall i, j | 0 <= i < |xss| && 0 <= j < |xss[i]|
      ensures TotalLength(xss[..i]) + j < |Flatten(xss)|
      ensures Flatten(xss)[TotalLength(xss[..i]) + j] == xss[i][j]
    {
      FlattenAt(xss, i, j);
    }
  }

  /** `tokens_by_sent` lists every sentence of every document, in order: its length is the
      sum of the per-document sentence counts, and sentence s of document d sits right after
      the sentences of the documents before d. */
  lemma TokensBySentLayout(c: Corpus)
    ensures Layout(c, TokensBySent(c))
  {
    FlattenLayout(c);
  }

  /** A sentence is listed by `tokens_by_sent` exactly when some document contains it. */
  lemma TokensBySentMembership(c: Corpus, sentence: Sentence)
    ensures sentence in TokensBySent(c) <==> exists d :: 0 <= d < |c| && sentence in c[d]
  {
    FlattenMembership(c, sentence);
  }

  /** `tokens_by_doc` has one entry per document, holding as many tokens as the document's
      sentences together, and read in order it is the same token stream as `tokens_by_sent`. */
  lemma {:induction false} TokensByDocLayout(c: Corpus)
    ensures |TokensByDoc(c)| == |c|
    ensures forall d :: 0 <= d < |c| ==> |TokensByDoc(c)[d]| == TotalLength(c[d])
    ensures Flatten(TokensByDoc(c)) == Flatten(TokensBySent(c))
  {
    forall d | 0 <= d < |c|
      ensures |TokensByDoc(c)[d]| == TotalLength(c[d])
    {
      FlattenLength(c[d]);
    }
    if c != [] {
      TokensByDocLayout(c[1..]);
      assert TokensByDoc(c) == [Flatten(c[0])] + TokensByDoc(c[1..]);
      FlattenAppend(c[0], Flatten(c[1..]));
    }
  }
}
