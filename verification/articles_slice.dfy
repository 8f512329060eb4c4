/**
  The reader's articles slice: the state the frontend keeps about the article
  list, the article being read and the chunk being played, and the three
  reducers that change it.
 */
module ArticlesSlice {

  datatype Option<+T> = None | Some(value: T)

  /** One synthesised segment of an article: its text and where its audio is. */
  datatype Chunk = Chunk(text: string, audioPath: string)

  /** An article as the backend's metadata record describes it. */
  datatype Article = Article(title: string, path: string, chunks: seq<Chunk>)

  /** The whole slice. `currentChunkIndex` is a plain integer: nothing ties it
      to the selected article's chunk list. */
  datatype ArticlesState = ArticlesState(
    articles: seq<Article>,
    selectedArticle: Option<Article>,
    currentChunkIndex: int)

  /** The actions the slice exports, one per reducer. */
  datatype Action =
    | SetArticles(list: seq<Article>)
    | SetSelectedArticle(article: Article)
    | SetCurrentChunkIndex(index: int)

  /** The slice before any action: no articles, nothing selected, chunk 0. */
  const InitialState := ArticlesState([], None, 0)

  /** The slice's reducer: the state after one dispatched action. Only
      setArticles touches the list, only setSelectedArticle the selection, and
      the index only changes to the rewind value 0 or to setCurrentChunkIndex's
      payload. */
  function Reduce(s: ArticlesState, a: Action): (r: ArticlesState)
    ensures !a.SetArticles? ==> r.articles == s.articles
    ensures !a.SetSelectedArticle? ==> r.selectedArticle == s.selectedArticle
    ensures r.currentChunkIndex == s.currentChunkIndex
            || (a.SetSelectedArticle? && r.currentChunkIndex == 0)
            || (a.SetCurrentChunkIndex? && r.currentChunkIndex == a.index)
  {
    match a
    case SetArticles(list) => s.(articles := list)
    case SetSelectedArticle(article) =>
      s.(selectedArticle := Some(article), currentChunkIndex := 0)
    case SetCurrentChunkIndex(i) => s.(currentChunkIndex := i)
  }

  /** The index names one of the selected article's chunks. */
  predicate IndexInRange(s: ArticlesState)
  {
    s.selectedArticle.Some? && 0 <= s.currentChunkIndex < |s.selectedArticle.value.chunks|
  }

  lemma InitialStateIsEmpty()
    ensures InitialState.articles == []
    ensures InitialState.selectedArticle == None
    ensures InitialState.currentChunkIndex == 0
    ensures !IndexInRange(InitialState)
  {
  }

  /** setArticles replaces the list by the payload and touches nothing else. */
  lemma SetArticlesReplacesList(s: ArticlesState, list: seq<Article>)
    ensures Reduce(s, SetArticles(list)).articles == list
    ensures Reduce(s, SetArticles(list)).selectedArticle == s.selectedArticle
    ensures Reduce(s, SetArticles(list)).currentChunkIndex == s.currentChunkIndex
  {
  }

  /** setSelectedArticle selects the payload, rewinds to chunk 0 and keeps the list. */
  lemma SetSelectedArticleRewinds(s: ArticlesState, article: Article)
    ensures Reduce(s, SetSelectedArticle(article)).selectedArticle == Some(article)
    ensures Reduce(s, SetSelectedArticle(article)).currentChunkIndex == 0
    ensures Reduce(s, SetSelectedArticle(article)).articles == s.articles
  {
  }

  /** Selecting the same article twice gives the same slice as selecting it once. */
  lemma SetSelectedArticleIdempotent(s: ArticlesState, article: Article)
    ensures Reduce(Reduce(s, SetSelectedArticle(article)), SetSelectedArticle(article))
         == Reduce(s, SetSelectedArticle(article))
  {
  }

  /** Selecting an article with at least one chunk leaves a valid chunk position. */
  lemma SetSelectedArticleInRange(s: ArticlesState, article: Article)
    ensures IndexInRange(Reduce(s, SetSelectedArticle(article))) <==> |article.chunks| > 0
  {
  }

  /** setCurrentChunkIndex stores its payload as it is, in range or not, and
      leaves the list and the selection alone. */
  lemma SetCurrentChunkIndexUnchecked(s: ArticlesState, i: int)
    ensures Reduce(s, SetCurrentChunkIndex(i)).currentChunkIndex == i
    ensures Reduce(s, SetCurrentChunkIndex(i)).articles == s.articles
    ensures Reduce(s, SetCurrentChunkIndex(i)).selectedArticle == s.selectedArticle
    ensures s.selectedArticle.Some? && i >= |s.selectedArticle.value.chunks|
            ==> !IndexInRange(Reduce(s, SetCurrentChunkIndex(i)))
  {
  }

  /** The store's copy of the slice, whose reducers assign its fields in place. */
  class ArticlesStore {
    var articles: seq<Article>
    var selectedArticle: Option<Article>
    var currentChunkIndex: int

    /** The slice as a value. */
    function State(): ArticlesState
      reads this
    {
      ArticlesState(articles, selectedArticle, currentChunkIndex)
    }

    constructor ()
      ensures articles == [] && selectedArticle == None && currentChunkIndex == 0
    {
      articles := [];
      selectedArticle := None;
      currentChunkIndex := 0;
    }

    method SetArticles(list: seq<Article>)
      modifies this
      ensures articles == list
      ensures selectedArticle == old(selectedArticle)
      ensures currentChunkIndex == old(currentChunkIndex)
    {
      articles := list;
    }

    method SetSelectedArticle(article: Article)
      modifies this
      ensures selectedArticle == Some(article)
      ensures currentChunkIndex == 0
      ensures articles == old(articles)
    {
      selectedArticle := Some(article);
      currentChunkIndex := 0;
    }

    method SetCurrentChunkIndex(i: int)
      modifies this
      ensures currentChunkIndex == i
      ensures articles == old(articles)
      ensures selectedArticle == old(selectedArticle)
    {
      currentChunkIndex := i;
    }

    /** Dispatching an action runs the matching reducer on the stored slice. */
    method Dispatch(a: Action)
      modifies this
      ensures State() == Reduce(old(State()), a)
    {
      match a
      case SetArticles(list) => SetArticles(list);
      case SetSelectedArticle(article) => SetSelectedArticle(article);
      case SetCurrentChunkIndex(i) => SetCurrentChunkIndex(i);
    }
  }
}
