/** `rerank_docs` (modules/agent.py): pair every retrieved document with its
    cross-encoder score and sort the pairs by score, highest first. Python's
    `sorted(..., reverse=True)` is stable, so equal scores keep their
    retrieval order; the sort is modelled as a stable insertion sort. */
module Rerank {
  import opened Base

  /** A (document, score) pair. Scores are only compared, never computed on. */
  datatype Candidate = Candidate(doc: Document, score: real)

  /** The cross-encoder, one score per (query, passage) pair. */
  type Scorer = (string, string) -> real

  /** `list(zip(retrieved_docs, scores))`. */
  function Zip(query: string, docs: seq<Document>, score: Scorer): (r: seq<Candidate>)
    ensures |r| == |docs|
    ensures forall i :: 0 <= i < |docs| ==> r[i].doc == docs[i] && r[i].score == score(query, docs[i].pageContent)
  {
    if docs == [] then []
    else [Candidate(docs[0], score(query, docs[0].pageContent))] + Zip(query, docs[1..], score)
  }

  /** Scores never increase from one position to a later one. */
  predicate NonIncreasing(cs: seq<Candidate>) {
    forall i, j :: 0 <= i < j < |cs| ==> cs[i].score >= cs[j].score
  }

  /** The subsequence of candidates whose score is `s`. */
  function WithScore(cs: seq<Candidate>, s: real): seq<Candidate> {
    if cs == [] then []
    else (if cs[0].score == s then [cs[0]] else []) + WithScore(cs[1..], s)
  }

  /** Stability: for every score the candidates carrying it appear in the same
      relative order in both sequences. */
  ghost predicate SameTieOrder(a: seq<Candidate>, b: seq<Candidate>) {
    forall s :: WithScore(a, s) == WithScore(b, s)
  }

  /** Insert `c` into a list sorted highest first, after every strictly
      higher score and before every score that is not higher. */
  function Insert(c: Candidate, sorted: seq<Candidate>): seq<Candidate> {
    if sorted == [] || sorted[0].score <= c.score then [c] + sorted
    else [sorted[0]] + Insert(c, sorted[1..])
  }

  /** Stable sort by score, highest first. */
  function SortByScore(cs: seq<Candidate>): seq<Candidate> {
    if cs == [] then [] else Insert(cs[0], SortByScore(cs[1..]))
  }

  lemma {:induction false} InsertPermutes(c: Candidate, sorted: seq<Candidate>)
    ensures multiset(Insert(c, sorted)) == multiset(sorted) + multiset{c}
  {
    if sorted != [] && sorted[0].score > c.score {
      InsertPermutes(c, sorted[1..]);
      assert sorted == [sorted[0]] + sorted[1..];
    }
  }

  lemma {:induction false} InsertOrdered(c: Candidate, sorted: seq<Candidate>)
    requires NonIncreasing(sorted)
    ensures NonIncreasing(Insert(c, sorted))
  {
    if sorted != [] && sorted[0].score > c.score {
      InsertOrdered(c, sorted[1..]);
      InsertPermutes(c, sorted[1..]);
      var rest := Insert(c, sorted[1..]);
      forall k | 0 <= k < |rest| ensures sorted[0].score >= rest[k].score {
        assert rest[k] in multiset(rest);
        assert rest[k] == c || rest[k] in multiset(sorted[1..]);
      }
    }
  }

  /** The candidates with score `s` of a list headed by `x`. */
  lemma {:induction false} WithScoreCons(x: Candidate, rest: seq<Candidate>, s: real)
    ensures WithScore([x] + rest, s) == WithScore([x], s) + WithScore(rest, s)
    ensures WithScore([x], s) == if x.score == s then [x] else []
  {
    assert ([x] + rest)[0] == x && ([x] + rest)[1..] == rest;
    assert [x][1..] == [];
  }

  lemma {:induction false} WithScoreAppend(a: seq<Candidate>, b: seq<Candidate>, s: real)
    ensures WithScore(a + b, s) == WithScore(a, s) + WithScore(b, s)
  {
    if a == [] {
      assert a + b == b;
    } else {
      var x, tail := a[0], a[1..];
      assert a == [x] + tail;
      calc {
        WithScore(a + b, s);
        { assert a + b == [x] + (tail + b); WithScoreCons(x, tail + b, s); }
        WithScore([x], s) + WithScore(tail + b, s);
        { WithScoreAppend(tail, b, s); }
        WithScore([x], s) + (WithScore(tail, s) + WithScore(b, s));
        (WithScore([x], s) + WithScore(tail, s)) + WithScore(b, s);
        { WithScoreCons(x, tail, s); }
        WithScore(a, s) + WithScore(b, s);
      }
    }
  }

  /** In a list sorted highest first, the candidates with score `s` all come
      after those with higher scores; so inserting `c` puts it in front of
      every earlier candidate of its own score. */
  lemma {:induction false} InsertTieOrder(c: Candidate, sorted: seq<Candidate>, s: real)
    requires NonIncreasing(sorted)
    ensures WithScore(Insert(c, sorted), s) == WithScore([c], s) + WithScore(sorted, s)
  {
    if sorted == [] || sorted[0].score <= c.score {
      WithScoreCons(c, sorted, s);
    } else {
      var h, tail := sorted[0], sorted[1..];
      assert sorted == [h] + tail;
      assert NonIncreasing(tail) by {
        forall i, j | 0 <= i < j < |tail| ensures tail[i].score >= tail[j].score {
          assert tail[i] == sorted[i + 1] && tail[j] == sorted[j + 1];
        }
      }
      InsertTieOrder(c, tail, s);
      assert Insert(c, sorted) == [h] + Insert(c, tail);
      WithScoreCons(h, Insert(c, tail), s);
      WithScoreCons(h, tail, s);
      WithScoreCons(c, [], s);
      if h.score == s && c.score == s {
        assert false;
      }
    }
  }

  /** The sort returns a permutation of its input. */
  lemma {:induction false} SortPermutes(cs: seq<Candidate>)
    ensures multiset(SortByScore(cs)) == multiset(cs)
    ensures |SortByScore(cs)| == |cs|
  {
    if cs != [] {
      SortPermutes(cs[1..]);
      InsertPermutes(cs[0], SortByScore(cs[1..]));
      assert cs == [cs[0]] + cs[1..];
    }
  }

  /** The sort's output is non-increasing in score. */
  lemma {:induction false} SortOrdered(cs: seq<Candidate>)
    ensures NonIncreasing(SortByScore(cs))
  {
    if cs != [] {
      SortOrdered(cs[1..]);
      InsertOrdered(cs[0], SortByScore(cs[1..]));
    }
  }

  /** The sort is stable: equal scores keep their input order. */
  lemma {:induction false} SortStable(cs: seq<Candidate>, s: real)
    ensures WithScore(SortByScore(cs), s) == WithScore(cs, s)
  {
    if cs != [] {
      SortStable(cs[1..], s);
      SortOrdered(cs[1..]);
      InsertTieOrder(cs[0], SortByScore(cs[1..]), s);
      WithScoreAppend([cs[0]], cs[1..], s);
      assert cs == [cs[0]] + cs[1..];
    }
  }

  /** `rerank_docs`: `[]` for no documents, otherwise the zipped pairs sorted
      by score, highest first, ties in retrieval order. */
  function RerankDocs(query: string, docs: seq<Document>, score: Scorer): (r: seq<Candidate>)
    ensures |r| == |docs|
    ensures multiset(r) == multiset(Zip(query, docs, score))
    ensures NonIncreasing(r)
    ensures SameTieOrder(r, Zip(query, docs, score))
  {
    if docs == [] then []
    else
      var pairs := Zip(query, docs, score);
      SortPermutes(pairs);
      SortOrdered(pairs);
      assert forall s :: WithScore(SortByScore(pairs), s) == WithScore(pairs, s) by {
        forall s ensures WithScore(SortByScore(pairs), s) == WithScore(pairs, s) {
          SortStable(pairs, s);
        }
      }
      SortByScore(pairs)
  }

  /** Reranking a non-empty retrieval never yields an empty list, so the
      "no documents after re-ranking" branch of `on_message` is dead. */
  lemma {:induction false} RerankNonEmpty(query: string, docs: seq<Document>, score: Scorer)
    requires docs != []
    ensures RerankDocs(query, docs, score) != []
  {
  }

  /** Every reranked document is one of the retrieved ones. */
  lemma {:induction false} RerankKeepsDocuments(query: string, docs: seq<Document>, score: Scorer)
    ensures forall c :: c in RerankDocs(query, docs, score) ==> c.doc in docs
  {
    var r := RerankDocs(query, docs, score);
    var z := Zip(query, docs, score);
    forall c | c in r ensures c.doc in docs {
      assert c in multiset(r);
      assert c in multiset(z);
      var i :| 0 <= i < |z| && z[i] == c;
      assert z[i].doc == docs[i];
    }
  }
}
