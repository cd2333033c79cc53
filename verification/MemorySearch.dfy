/**
Fan-out of one memory search over every scope, merged into the best `limit` hits.
Scores are real numbers: the comparison, not the rounding, is what the merge depends on.
*/
module MemorySearch {
  import opened Wrappers
  import opened StableSort

  datatype Hit = Hit(text: string, score: real, scope: string)

  const MEMORY_SCOPES: seq<string> := ["fact", "preference", "decision", "contact", "summary"]

  /** Ascending in this key is descending in score. */
  const BY_SCORE: Hit -> real := (h: Hit) => -h.score

  function Tagged(hits: seq<Hit>, scope: string): (r: seq<Hit>)
    ensures |r| == |hits|
  {
    if hits == [] then [] else Tagged(hits[..|hits| - 1], scope) + [hits[|hits| - 1].(scope := scope)]
  }

  /** The hits of one scope, each with its scope; a scope that failed gives none. */
  function Part(answer: Option<seq<Hit>>, scope: string): seq<Hit> {
    if answer.Some? then Tagged(answer.value, scope) else []
  }

  function Parts(answers: seq<Option<seq<Hit>>>): seq<seq<Hit>>
    requires |answers| == |MEMORY_SCOPES|
  {
    seq(|answers|, i requires 0 <= i < |answers| => Part(answers[i], MEMORY_SCOPES[i]))
  }

  /** The hits of all scopes that answered, in scope order. */
  function Gathered(answers: seq<Option<seq<Hit>>>): seq<Hit>
    requires |answers| == |MEMORY_SCOPES|
  {
    Concat(Parts(answers))
  }

  /** The number of hits of the first `n` scopes. */
  function HitsBefore(answers: seq<Option<seq<Hit>>>, n: nat): nat
    requires n <= |answers|
  {
    if n == 0 then 0
    else HitsBefore(answers, n - 1) + (if answers[n - 1].Some? then |answers[n - 1].value| else 0)
  }

  lemma {:induction false} TaggedAt(hits: seq<Hit>, scope: string, j: nat)
    requires j < |hits|
    ensures Tagged(hits, scope)[j] == Hit(hits[j].text, hits[j].score, scope)
  {
    if j < |hits| - 1 {
      TaggedAt(hits[..|hits| - 1], scope, j);
    }
  }

  lemma ConcatNext<T>(parts: seq<seq<T>>, n: nat)
    requires n < |parts|
    ensures Concat(parts[..n + 1]) == Concat(parts[..n]) + parts[n]
  {
    assert parts[..n + 1][..n] == parts[..n];
  }

  lemma {:induction false} ConcatAt<T>(parts: seq<seq<T>>, n: nat, i: nat, j: nat)
    requires i < n <= |parts| && j < |parts[i]|
    ensures |Concat(parts[..i])| + j < |Concat(parts[..n])|
    ensures Concat(parts[..n])[|Concat(parts[..i])| + j] == parts[i][j]
  {
    hide Concat;
    ConcatNext(parts, n - 1);
    if i < n - 1 {
      ConcatAt(parts, n - 1, i, j);
    }
  }

  lemma {:induction false} ConcatLength(answers: seq<Option<seq<Hit>>>, n: nat)
    requires |answers| == 5 && n <= 5
    ensures |Concat(Parts(answers)[..n])| == HitsBefore(answers, n)
  {
    hide Concat;
    if n > 0 {
      ConcatLength(answers, n - 1);
      ConcatNext(Parts(answers), n - 1);
    } else {
      NoParts(Parts(answers));
    }
  }

  lemma NoParts<T>(parts: seq<seq<T>>)
    ensures Concat(parts[..0]) == []
  {
  }

  /**
  What is gathered: the hits of the scopes that answered, one scope after the other, each hit
  with the scope it came from.
  */
  lemma GatheredIs(answers: seq<Option<seq<Hit>>>)
    requires |answers| == 5
    ensures |Gathered(answers)| == HitsBefore(answers, 5)
    ensures forall i, j | 0 <= i < 5 && answers[i].Some? && 0 <= j < |answers[i].value| ::
              var hit := answers[i].value[j];
              && HitsBefore(answers, i) + j < |Gathered(answers)|
              && Gathered(answers)[HitsBefore(answers, i) + j]
              == Hit(hit.text, hit.score, ["fact", "preference", "decision", "contact", "summary"][i])
  {
    hide Tagged, Concat, HitsBefore;
    var parts := Parts(answers);
    assert parts[..5] == parts;
    ConcatLength(answers, 5);
    forall i, j | 0 <= i < 5 && answers[i].Some? && 0 <= j < |answers[i].value|
      ensures
        var hit := answers[i].value[j];
        && HitsBefore(answers, i) + j < |Gathered(answers)|
        && Gathered(answers)[HitsBefore(answers, i) + j] == Hit(hit.text, hit.score, MEMORY_SCOPES[i])
    {
      ConcatLength(answers, i);
      ConcatAt(parts, 5, i, j);
      TaggedAt(answers[i].value, MEMORY_SCOPES[i], j);
    }
  }

  /** `store` is `None` when there is no store, and otherwise holds what the search of each scope returns. */
  method SearchAcrossScopes(store: Option<seq<Option<seq<Hit>>>>, limit: int) returns (best: seq<Hit>)
    requires store.Some? ==> |store.value| == |MEMORY_SCOPES|
    ensures store.None? || limit <= 0 ==> best == []
    ensures store.Some? && limit > 0 ==>
              && best == Take(Sort(BY_SCORE, Gathered(store.value)), limit)
              && |best| == if |Gathered(store.value)| <= limit then |Gathered(store.value)| else limit
  {
    if store.None? {
      return [];
    }
    if limit <= 0 {
      return [];
    }
    var all: seq<Hit> := [];
    ghost var parts := Parts(store.value);
    var i := 0;
    while i < |MEMORY_SCOPES|
      invariant i <= |MEMORY_SCOPES|
      invariant all == Concat(parts[..i])
    {
      if store.value[i].Some? {
        var hits, scope := store.value[i].value, MEMORY_SCOPES[i];
        var j := 0;
        while j < |hits|
          invariant j <= |hits|
          invariant all == Concat(parts[..i]) + Tagged(hits[..j], scope)
        {
          all := all + [hits[j].(scope := scope)];
          assert hits[..j + 1][..j] == hits[..j];
          j := j + 1;
        }
        assert hits[..j] == hits;
      }
      assert parts[..i + 1][..i] == parts[..i];
      i := i + 1;
    }
    assert parts[..i] == parts;
    var a := new Hit[|all|](k requires 0 <= k < |all| => all[k]);
    assert a[..] == all;
    InsertionSort(BY_SCORE, a);
    best := a[..];
    if |best| > limit {
      best := best[..limit];
    }
  }

  lemma {:induction false} InsertTagged(hits: seq<Hit>, x: Hit, scope: string)
    ensures Insert(BY_SCORE, Tagged(hits, scope), x.(scope := scope)) == Tagged(Insert(BY_SCORE, hits, x), scope)
  {
    var t := Tagged(hits, scope);
    if hits != [] && BY_SCORE(hits[|hits| - 1]) > BY_SCORE(x) {
      var front := hits[..|hits| - 1];
      InsertTagged(front, x, scope);
      assert t[..|t| - 1] == Tagged(front, scope);
      assert (Insert(BY_SCORE, front, x) + [hits[|hits| - 1]])[..|hits|] == Insert(BY_SCORE, front, x);
    } else {
      assert (hits + [x])[..|hits|] == hits;
    }
  }

  lemma {:induction false} SortTagged(hits: seq<Hit>, scope: string)
    ensures Sort(BY_SCORE, Tagged(hits, scope)) == Tagged(Sort(BY_SCORE, hits), scope)
  {
    if hits != [] {
      var front := hits[..|hits| - 1];
      SortTagged(front, scope);
      InsertTagged(Sort(BY_SCORE, front), hits[|hits| - 1], scope);
      assert Tagged(hits, scope)[..|hits| - 1] == Tagged(front, scope);
    }
  }

  lemma {:induction false} TakeTagged(hits: seq<Hit>, scope: string, k: nat)
    ensures Take(Tagged(hits, scope), k) == Tagged(Take(hits, k), scope)
  {
    if |hits| > k {
      var front := hits[..|hits| - 1];
      TakeTagged(front, scope, k);
      assert Take(front, k) == Take(hits, k);
    }
  }

  /** Every scope that answers returns the best `limit` of its own documents, best first. */
  ghost predicate AnswersBest(answers: seq<Option<seq<Hit>>>, corpora: seq<Option<seq<Hit>>>, limit: nat) {
    && |answers| == |corpora| == |MEMORY_SCOPES|
    && forall i | 0 <= i < |answers| ::
         && (answers[i].None? <==> corpora[i].None?)
         && (answers[i].Some? ==> answers[i].value == Take(Sort(BY_SCORE, corpora[i].value), limit))
  }

  lemma OneScopeBest(answer: seq<Hit>, corpus: seq<Hit>, scope: string, limit: nat)
    requires answer == Take(Sort(BY_SCORE, corpus), limit)
    ensures Take(Sort(BY_SCORE, Tagged(answer, scope)), limit) == Take(Sort(BY_SCORE, Tagged(corpus, scope)), limit)
  {
    SortTagged(corpus, scope);
    TakeTagged(Sort(BY_SCORE, corpus), scope, limit);
    SortIsStable(BY_SCORE, Tagged(corpus, scope));
    TakeAscends(BY_SCORE, Sort(BY_SCORE, Tagged(corpus, scope)), limit);
    SortAscending(BY_SCORE, Tagged(answer, scope));
  }

  /**
  Asking each scope for only its best `limit` loses nothing: the merged answer is what one
  search over the documents of all scopes that answered would give, ties in the same order.
  */
  lemma FanOutIsGlobalTopK(answers: seq<Option<seq<Hit>>>, corpora: seq<Option<seq<Hit>>>, limit: nat)
    requires AnswersBest(answers, corpora, limit)
    ensures Take(Sort(BY_SCORE, Gathered(answers)), limit) == Take(Sort(BY_SCORE, Gathered(corpora)), limit)
  {
    forall i | 0 <= i < |answers|
      ensures Take(Sort(BY_SCORE, Parts(answers)[i]), limit) == Take(Sort(BY_SCORE, Parts(corpora)[i]), limit)
    {
      if answers[i].Some? {
        OneScopeBest(answers[i].value, corpora[i].value, MEMORY_SCOPES[i], limit);
      }
    }
    TakeSortConcatAll(BY_SCORE, Parts(answers), Parts(corpora), limit);
  }

  /**
  What that means for the caller: scores descend, every hit is a document, and no document left
  out scores higher.
  */
  lemma BestAreBest(answers: seq<Option<seq<Hit>>>, corpora: seq<Option<seq<Hit>>>, limit: nat, best: seq<Hit>)
    requires AnswersBest(answers, corpora, limit)
    requires best == Take(Sort(BY_SCORE, Gathered(answers)), limit)
    ensures forall i, j | 0 <= i < j < |best| :: best[i].score >= best[j].score
    ensures multiset(best) <= multiset(Gathered(corpora))
    ensures forall out, kept | out in multiset(Gathered(corpora)) - multiset(best) && kept in best ::
              out.score <= kept.score
  {
    var all := Gathered(corpora);
    FanOutIsGlobalTopK(answers, corpora, limit);
    assert best == Take(Sort(BY_SCORE, all), limit);
    ByScoreMeans(all, best, limit);
  }

  lemma ByScoreMeans(all: seq<Hit>, best: seq<Hit>, limit: nat)
    requires best == Take(Sort(BY_SCORE, all), limit)
    ensures forall i, j | 0 <= i < j < |best| :: best[i].score >= best[j].score
    ensures multiset(best) <= multiset(all)
    ensures forall out, kept | out in multiset(all) - multiset(best) && kept in best :: out.score <= kept.score
  {
    TakeSortIsBest(BY_SCORE, all, limit);
    assert forall h :: BY_SCORE(h) == -h.score;
    forall i, j | 0 <= i < j < |best| ensures best[i].score >= best[j].score {
      assert BY_SCORE(best[i]) <= BY_SCORE(best[j]);
    }
    forall out, kept | out in multiset(all) - multiset(best) && kept in best ensures out.score <= kept.score {
      assert BY_SCORE(kept) <= BY_SCORE(out);
    }
  }
}
