/**
  The reader's chunk navigation: the Prev and Next buttons, which dispatch a
  new chunk index only when their guard holds, and the chunk the reader
  currently shows.
 */
module App {
  import opened ArticlesSlice

  /** A click on one of the two navigation buttons. */
  datatype Click = Prev | Next

  /** The action handlePrevChunk dispatches, if any: one chunk back, only when
      an article is selected and the index is above 0. */
  function PrevChunkAction(s: ArticlesState): (a: Option<Action>)
    ensures a.None? <==> s.selectedArticle.None? || s.currentChunkIndex <= 0
    ensures a.Some? ==> a.value.SetCurrentChunkIndex? && 0 <= a.value.index < s.currentChunkIndex
  {
    if s.selectedArticle.Some? && s.currentChunkIndex > 0
    then Some(SetCurrentChunkIndex(s.currentChunkIndex - 1))
    else None
  }

  /** The action handleNextChunk dispatches, if any: one chunk forward, only
      when an article is selected and the index is below its last chunk's. */
  function NextChunkAction(s: ArticlesState): (a: Option<Action>)
    ensures a.None? <==> s.selectedArticle.None?
                         || s.currentChunkIndex >= |s.selectedArticle.value.chunks| - 1
    ensures a.Some? ==> a.value.SetCurrentChunkIndex?
                        && s.currentChunkIndex < a.value.index < |s.selectedArticle.value.chunks|
  {
    if s.selectedArticle.Some? && s.currentChunkIndex < |s.selectedArticle.value.chunks| - 1
    then Some(SetCurrentChunkIndex(s.currentChunkIndex + 1))
    else None
  }

  /** The state after a handler has dispatched what it decided, or nothing. */
  function AfterDispatch(s: ArticlesState, a: Option<Action>): ArticlesState
  {
    match a
    case None => s
    case Some(action) => Reduce(s, action)
  }

  /** The state after handlePrevChunk: only the index can change, by one step
      back, and a valid chunk position stays valid. */
  function PrevChunk(s: ArticlesState): (r: ArticlesState)
    ensures r.articles == s.articles && r.selectedArticle == s.selectedArticle
    ensures r.currentChunkIndex == s.currentChunkIndex || r.currentChunkIndex == s.currentChunkIndex - 1
    ensures IndexInRange(s) ==> IndexInRange(r)
  {
    AfterDispatch(s, PrevChunkAction(s))
  }

  /** The state after handleNextChunk: only the index can change, by one step
      forward, and a valid chunk position stays valid. */
  function NextChunk(s: ArticlesState): (r: ArticlesState)
    ensures r.articles == s.articles && r.selectedArticle == s.selectedArticle
    ensures r.currentChunkIndex == s.currentChunkIndex || r.currentChunkIndex == s.currentChunkIndex + 1
    ensures IndexInRange(s) ==> IndexInRange(r)
  {
    AfterDispatch(s, NextChunkAction(s))
  }

  function Step(s: ArticlesState, c: Click): ArticlesState
  {
    match c
    case Prev => PrevChunk(s)
    case Next => NextChunk(s)
  }

  /** The state after a sequence of button clicks. Clicks never touch the
      article list or the selection, and move the index by at most one each. */
  function Navigate(s: ArticlesState, clicks: seq<Click>): (r: ArticlesState)
    ensures r.articles == s.articles
    ensures r.selectedArticle == s.selectedArticle
    ensures -|clicks| <= r.currentChunkIndex - s.currentChunkIndex <= |clicks|
    decreases |clicks|
  {
    if clicks == [] then s else Navigate(Step(s, clicks[0]), clicks[1..])
  }

  /** A JavaScript array read: `xs[i]` is undefined unless i is a position of xs. */
  function Lookup<T>(xs: seq<T>, i: int): (r: Option<T>)
    ensures r.None? <==> i < 0 || |xs| <= i
    ensures r.Some? ==> r.value in xs
  {
    if 0 <= i < |xs| then Some(xs[i]) else None
  }

  /** The chunk on screen, `selectedArticle?.chunks[currentChunkIndex]`: present
      exactly when the index is a position of the selected article's chunks,
      and then that chunk. */
  function CurrentChunk(s: ArticlesState): (c: Option<Chunk>)
    ensures c.Some? <==> IndexInRange(s)
    ensures c.Some? ==> c.value == s.selectedArticle.value.chunks[s.currentChunkIndex]
  {
    match s.selectedArticle
    case None => None
    case Some(article) => Lookup(article.chunks, s.currentChunkIndex)
  }

  /** With nothing selected, neither button does anything. */
  lemma NoSelectionButtonsInert(s: ArticlesState)
    requires s.selectedArticle.None?
    ensures PrevChunk(s) == s && NextChunk(s) == s
  {
  }

  /** Prev moves back by exactly one chunk when an article is selected and the
      index is above 0, and otherwise changes nothing. */
  lemma PrevChunkStep(s: ArticlesState)
    ensures s.selectedArticle.Some? && s.currentChunkIndex > 0
            ==> PrevChunk(s) == s.(currentChunkIndex := s.currentChunkIndex - 1)
    ensures s.currentChunkIndex <= 0 ==> PrevChunk(s) == s
  {
  }

  /** Next moves forward by exactly one chunk when an article is selected and
      the index is below the last chunk's, and otherwise changes nothing. */
  lemma NextChunkStep(s: ArticlesState)
    requires s.selectedArticle.Some?
    ensures s.currentChunkIndex < |s.selectedArticle.value.chunks| - 1
            ==> NextChunk(s) == s.(currentChunkIndex := s.currentChunkIndex + 1)
    ensures s.currentChunkIndex >= |s.selectedArticle.value.chunks| - 1 ==> NextChunk(s) == s
  {
  }

  /** With an empty chunk list the Next guard compares against -1, so Next
      changes the state only from an index below -1, which only an unchecked
      setCurrentChunkIndex can produce; from index 0 it is a no-op. */
  lemma NextOnEmptyArticle(s: ArticlesState)
    requires s.selectedArticle.Some? && s.selectedArticle.value.chunks == []
    ensures NextChunk(s) != s <==> s.currentChunkIndex < -1
  {
  }

  /** Prev undoes Next, and Next undoes Prev, inside the chunk list. */
  lemma PrevNextRestore(s: ArticlesState)
    requires s.selectedArticle.Some?
    ensures 0 < s.currentChunkIndex < |s.selectedArticle.value.chunks|
            ==> NextChunk(PrevChunk(s)) == s
    ensures 0 <= s.currentChunkIndex < |s.selectedArticle.value.chunks| - 1
            ==> PrevChunk(NextChunk(s)) == s
  {
  }

  /** One click keeps a valid chunk position valid. */
  lemma StepKeepsInRange(s: ArticlesState, c: Click)
    requires IndexInRange(s)
    ensures IndexInRange(Step(s, c))
  {
  }

  /** Any sequence of clicks keeps a valid chunk position valid. */
  lemma {:induction false} NavigateKeepsInRange(s: ArticlesState, clicks: seq<Click>)
    requires IndexInRange(s)
    ensures IndexInRange(Navigate(s, clicks))
    decreases |clicks|
  {
    if clicks != [] {
      StepKeepsInRange(s, clicks[0]);
      NavigateKeepsInRange(Step(s, clicks[0]), clicks[1..]);
    }
  }

  /** With nothing selected, no sequence of clicks changes the state. */
  lemma {:induction false} NoSelectionNavigateInert(s: ArticlesState, clicks: seq<Click>)
    requires s.selectedArticle.None?
    ensures Navigate(s, clicks) == s
    decreases |clicks|
  {
    if clicks != [] {
      NoSelectionButtonsInert(s);
      NoSelectionNavigateInert(s, clicks[1..]);
    }
  }

  /** After selecting an article that has chunks, the reader shows a chunk of
      it whatever the buttons clicked afterwards. */
  lemma SelectThenNavigateShowsChunk(s: ArticlesState, article: Article, clicks: seq<Click>)
    requires |article.chunks| > 0
    ensures CurrentChunk(Navigate(Reduce(s, SetSelectedArticle(article)), clicks)).Some?
  {
    SetSelectedArticleInRange(s, article);
    NavigateKeepsInRange(Reduce(s, SetSelectedArticle(article)), clicks);
  }

  function Min(a: int, b: int): int { if a <= b then a else b }
  function Max(a: int, b: int): int { if a >= b then a else b }

  /** Clicking Next k times climbs one chunk per click and stops at the last
      chunk; from an index at or beyond the last chunk it does nothing. */
  lemma {:induction false} RepeatedNext(s: ArticlesState, k: nat)
    requires s.selectedArticle.Some?
    ensures var last := |s.selectedArticle.value.chunks| - 1;
            Navigate(s, seq(k, _ => Next)).currentChunkIndex
            == if s.currentChunkIndex >= last then s.currentChunkIndex
               else Min(s.currentChunkIndex + k, last)
    decreases k
  {
    if k > 0 {
      assert seq(k, _ => Next)[1..] == seq(k - 1, _ => Next);
      RepeatedNext(NextChunk(s), k - 1);
    }
  }

  /** Clicking Prev k times descends one chunk per click and stops at chunk 0;
      from an index at or below 0 it does nothing. */
  lemma {:induction false} RepeatedPrev(s: ArticlesState, k: nat)
    requires s.selectedArticle.Some?
    ensures Navigate(s, seq(k, _ => Prev)).currentChunkIndex
            == if s.currentChunkIndex <= 0 then s.currentChunkIndex
               else Max(s.currentChunkIndex - k, 0)
    decreases k
  {
    if k > 0 {
      assert seq(k, _ => Prev)[1..] == seq(k - 1, _ => Prev);
      RepeatedPrev(PrevChunk(s), k - 1);
    }
  }

  /** handlePrevChunk: read the stored slice and dispatch one chunk back when
      the guard holds. */
  method HandlePrevChunk(store: ArticlesStore)
    modifies store
    ensures store.State() == PrevChunk(old(store.State()))
  {
    if store.selectedArticle.Some? && store.currentChunkIndex > 0 {
      store.Dispatch(SetCurrentChunkIndex(store.currentChunkIndex - 1));
    }
  }

  /** handleNextChunk: read the stored slice and dispatch one chunk forward
      when the guard holds. */
  method HandleNextChunk(store: ArticlesStore)
    modifies store
    ensures store.State() == NextChunk(old(store.State()))
  {
    if store.selectedArticle.Some?
       && store.currentChunkIndex < |store.selectedArticle.value.chunks| - 1
    {
      store.Dispatch(SetCurrentChunkIndex(store.currentChunkIndex + 1));
    }
  }
}
