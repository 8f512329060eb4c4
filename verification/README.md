# Read-aloud reader: chunk navigation

The read-aloud frontend lists converted articles, shows one selected article
and plays it one chunk at a time. The chunks are the synthesised audio segments the backend
produced. This project models the frontend's state and the rules that move
through the chunks:

- `articles_slice.dfy`, module `ArticlesSlice`, models the Redux slice.
  - Its value types are `Chunk`, `Article` and `ArticlesState`, and its initial state is `InitialState`.
  - The three reducers (`setArticles`, `setSelectedArticle`, `setCurrentChunkIndex`) are modelled twice.
    `Reduce` is the slice's pure reducer over an `Action`.
    The class `ArticlesStore` holds the slice's fields and has one in-place method per reducer, plus `Dispatch`.
- `app.dfy`, module `App`, models the Prev and Next buttons and the chunk on screen.
  - `PrevChunkAction` and `NextChunkAction` say what `handlePrevChunk` and `handleNextChunk` dispatch, if anything.
  - `PrevChunk` and `NextChunk` give the state that follows.
  - `HandlePrevChunk` and `HandleNextChunk` perform the same steps on an `ArticlesStore`.
  - `CurrentChunk` is the optional lookup `selectedArticle?.chunks[currentChunkIndex]`.
  - `Navigate` applies a sequence of clicks.

The chunk index is unchecked: `setCurrentChunkIndex` stores any
integer, so the lemmas that keep the index valid assume it starts valid.
Selecting an article with at least one chunk makes it valid.

With an empty chunk list, Next is a no-op only while the index is at least -1.
The guard is `index < chunks.length - 1`, which is `index < -1` here.
So one Next click changes the state exactly when the index is below -1
(`NextOnEmptyArticle`). Repeated Next clicks from such an index climb one
step per click and stop at -1 (`RepeatedNext`).

## Model

| member | source | states |
|---|---|---|
| `ArticlesSlice.Reduce` | react-frontend/src/store/articlesSlice.ts:31-42 | the three reducers: only setArticles changes the list, only setSelectedArticle the selection, and the index changes only to 0 on a selection or to setCurrentChunkIndex's payload; the per-reducer lemmas below state each case exactly |
| `ArticlesSlice.InitialStateIsEmpty` | react-frontend/src/store/articlesSlice.ts:22-26 | the initial slice has no articles, no selection and chunk index 0, so no chunk position is valid |
| `ArticlesSlice.SetArticlesReplacesList` | react-frontend/src/store/articlesSlice.ts:32-34 | setArticles makes the list exactly the payload and keeps the selection and the index |
| `ArticlesSlice.SetSelectedArticleRewinds` | react-frontend/src/store/articlesSlice.ts:35-38 | setSelectedArticle selects the payload, resets the index to 0 and keeps the article list |
| `ArticlesSlice.SetSelectedArticleIdempotent` | react-frontend/src/store/articlesSlice.ts:35-38 | selecting the same article twice yields the same slice as selecting it once |
| `ArticlesSlice.SetSelectedArticleInRange` | react-frontend/src/store/articlesSlice.ts:37 | after a selection the index is a valid chunk position exactly when the article has at least one chunk |
| `ArticlesSlice.SetCurrentChunkIndexUnchecked` | react-frontend/src/store/articlesSlice.ts:39-41 | setCurrentChunkIndex stores the payload verbatim, even past the last chunk, and keeps the list and selection |
| `ArticlesSlice.ArticlesStore.constructor` | react-frontend/src/store/articlesSlice.ts:22-26 | a new store holds the initial slice |
| `ArticlesSlice.ArticlesStore.SetArticles` | react-frontend/src/store/articlesSlice.ts:32-34 | in place: the list becomes the payload, the other two fields are unchanged |
| `ArticlesSlice.ArticlesStore.SetSelectedArticle` | react-frontend/src/store/articlesSlice.ts:35-38 | in place: the selection becomes the payload, the index 0, the list is unchanged |
| `ArticlesSlice.ArticlesStore.SetCurrentChunkIndex` | react-frontend/src/store/articlesSlice.ts:39-41 | in place: the index becomes the payload, the list and selection are unchanged |
| `ArticlesSlice.ArticlesStore.Dispatch` | react-frontend/src/store/articlesSlice.ts:45-47 | dispatching an action changes the stored slice exactly as the slice's reducer does |
| `App.PrevChunkAction` | react-frontend/src/App.tsx:39-43 | handlePrevChunk dispatches nothing exactly when no article is selected or the index is at most 0, and otherwise a setCurrentChunkIndex to a non-negative index below the current one |
| `App.PrevChunk` | react-frontend/src/App.tsx:39-43 | after Prev the list and selection are unchanged, the index is the same or one less, and a valid chunk position stays valid; `PrevChunkStep` gives the exact step |
| `App.NextChunkAction` | react-frontend/src/App.tsx:45-49 | handleNextChunk dispatches nothing exactly when no article is selected or the index is at or past length - 1, and otherwise a setCurrentChunkIndex to an index above the current one and within the chunk list |
| `App.NextChunk` | react-frontend/src/App.tsx:45-49 | after Next the list and selection are unchanged, the index is the same or one more, and a valid chunk position stays valid; `NextChunkStep` gives the exact step |
| `App.Lookup` | react-frontend/src/App.tsx:51 | a JavaScript array read is undefined exactly for a negative index or one at or past the length, and otherwise yields an element of the array; `CurrentChunk` pins it to the element at the index |
| `App.CurrentChunk` | react-frontend/src/App.tsx:51 | the shown chunk is present exactly when an article is selected and the index is within its chunk list, and is then the chunk at that index |
| `App.NoSelectionButtonsInert` | react-frontend/src/App.tsx:39-49 | with no selected article both Prev and Next leave the state unchanged |
| `App.PrevChunkStep` | react-frontend/src/App.tsx:39-43 | Prev decrements the index by exactly one when an article is selected and the index is above 0, and is a no-op at or below 0 |
| `App.NextChunkStep` | react-frontend/src/App.tsx:45-49 | Next increments the index by exactly one below the last chunk index and is a no-op at or past it |
| `App.NextOnEmptyArticle` | react-frontend/src/App.tsx:46 | with an empty chunk list Next changes the state if and only if the index is below -1, so it is a no-op from index 0 |
| `App.PrevNextRestore` | react-frontend/src/App.tsx:39-49 | inside the chunk list Prev then Next, and Next then Prev, restore the original state |
| `App.StepKeepsInRange` | react-frontend/src/App.tsx:39-49 | one click keeps a valid chunk position valid |
| `App.Navigate` | react-frontend/src/App.tsx:39-49 | any click sequence keeps the article list and the selection and moves the index by at most one per click |
| `App.NavigateKeepsInRange` | react-frontend/src/App.tsx:39-49 | if the index starts within the chunk list it stays there after any sequence of Prev and Next clicks |
| `App.NoSelectionNavigateInert` | react-frontend/src/App.tsx:39-49 | with nothing selected no click sequence changes the state |
| `App.SelectThenNavigateShowsChunk` | react-frontend/src/App.tsx:51 | after selecting an article with chunks, a chunk is shown whatever clicks follow |
| `App.RepeatedNext` | react-frontend/src/App.tsx:45-49 | k Next clicks advance the index by k, stopping at the last chunk; from an index at or past the last chunk they do nothing |
| `App.RepeatedPrev` | react-frontend/src/App.tsx:39-43 | k Prev clicks move the index back by k, stopping at 0; from an index at or below 0 they do nothing |
| `App.HandlePrevChunk` | react-frontend/src/App.tsx:39-43 | in place on the store: the new slice is the guarded Prev step of the old one |
| `App.HandleNextChunk` | react-frontend/src/App.tsx:45-49 | in place on the store: the new slice is the guarded Next step of the old one |

## Left out

- py-backend/server.py is not part of this model. It does article download and parsing, speech synthesis, a temporary audio file and HTTP routing. All of these are foreign libraries or I/O.
- The backend's title sanitiser and sentence chunker are not modelled. This model covers only the frontend's navigation state.
- The `useEffect` article fetch and `handleArticleClick` (react-frontend/src/App.tsx:15-37) are asynchronous HTTP calls. Only the reducers they end in are modelled.
- JSX rendering in App.tsx and react-frontend/src/Chunk.tsx is left out. Chunk.tsx only dispatches `setCurrentChunkIndex`, which is modelled.
- react-frontend/src/axiosInstance.ts and react-frontend/src/store/index.ts are configuration with no logic.
- The index is a mathematical integer. JavaScript's `number` can also be fractional, where `chunks[1.5]` is undefined. It also loses precision beyond 2^53. Neither case is modelled.
- Redux Toolkit produces a new immutable state from the reducers' in-place assignments. The model treats that as an update in place and does not model object identity or the React re-render.
- The handlers read `selectedArticle` and `currentChunkIndex` from the render in which they were created. The model reads the current store, so it does not model stale closures between renders.
