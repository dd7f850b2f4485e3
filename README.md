# AI image gallery: state model

A Dafny model of the `ImageGallery` component of the AI image gallery front end.
The component keeps six pieces of state: the gallery (`images`), the view
(`filteredImages`), the search query, the drag flag, the loading flag and the
error message. Users drop or pick files. Every file whose media type starts with
`image/` goes to an analysis service. The records that come back are appended
to the gallery all together, or, if any analysis fails, not at all. The view can
then be narrowed by a case-insensitive search over titles and keywords, or reset
with "show all". Under each image, the first five keywords are shown, joined by
", " and followed by "...".

Layout:

- `text.dfy` (module `Text`): the JavaScript string built-ins the component
  uses. These are `toLowerCase` (ASCII letters), `startsWith`, `includes` and
  `join`. `includes` and `join` have lemmas that read them through string
  positions. `startsWith` is stated as an occurrence at position 0. The
  lower-casing lemmas cover idempotence, slicing and substring preservation.
- `subsequence.dfy` (module `Subsequences`): ordered subsequences. The view is
  always an ordered subsequence of the gallery.
- `records.dfy` (modules `Wrappers`, `Records`): image records, files, and the
  analysis oracle type `File -> Analysis`. A file carries an `id` for the
  identity of the browser's `File` object, so two files with the same name and
  type stay two files.
- `batch.dfy` (module `Batch`): one batch as the source computes it. `map` over
  the files gives `StartAll`. `Promise.all` gives `AwaitAll`. `filter(Boolean)`
  gives `Compact`. `NewImages` composes the three. Lemmas compare the result
  with an independent description: the analyses of the image files, in order.
- `search.dfy` (module `Search`): the match rule and the filter.
- `keywords.dfy` (module `KeywordSummary`): the keyword line under each image.
- `gallery.dfy` (module `Gallery`): the `Gallery` class. It has the six state
  fields and the event handlers as methods. Its object invariant says the view
  is an ordered subsequence of the gallery. It also holds the two-image upload,
  search and show-all scenario as a client method, with its two supporting
  lemmas.

The analysis service is a parameter `analyze: File -> Analysis`. Each
operation that runs a batch receives it.

Clearing the query does not reset the view. Typing into the search box only
changes the query (`SetSearchQuery`). The view changes only when Search or Show All is pressed, or
when a batch succeeds. So after the query is cleared, the view can still be the
result of an older search.

## Model

| member | source | states |
|---|---|---|
| `Text.LowerChar` | ImageGallery.js:89-90 | one character of `toLowerCase`: the result is never an upper-case ASCII letter, upper-case letters move by the fixed 'A'→'a' distance, and every other character is kept |
| `Text.Lower` | ImageGallery.js:89-90 | `toLowerCase`: same length, every upper-case ASCII letter becomes its lower-case letter, no upper-case ASCII letter is left, and every other character is kept |
| `Text.StartsWithConcat` | ImageGallery.js:54 | `startsWith` holds exactly when the string is the prefix followed by some rest (both directions); `Batch.IsImageFile` applies it to `file.type` with "image/" |
| `Text.Includes` | ImageGallery.js:89-90 | `includes` holds whenever the string starts with the query, and only when the query is no longer than the string |
| `Text.Join` | ImageGallery.js:172 | `join` of no parts is "", and the joined string starts with the first part |
| `Text.IncludesIff` | ImageGallery.js:89-90 | `includes` holds exactly when the query occurs at some index of the string (both directions) |
| `Text.IncludesEmpty` | ImageGallery.js:89 | the empty query is included in every string |
| `Text.LowerIdempotent` | ImageGallery.js:89-90 | lower-casing an already lower-cased string changes nothing |
| `Text.LowerSlice` | ImageGallery.js:89-90 | lower-casing commutes with taking a slice |
| `Text.LowerPreservesIncludes` | ImageGallery.js:89-90 | a substring found case-sensitively is also found after both sides are lower-cased |
| `Text.JoinLength` | ImageGallery.js:172 | a joined string is the parts' total length plus one separator between each pair |
| `Text.JoinPartAt` | ImageGallery.js:172 | part i of a join starts after the i earlier parts and i separators |
| `Text.JoinSeparatorAt` | ImageGallery.js:172 | between parts i and i+1 the joined string holds exactly the separator |
| `Subsequences.SubsequenceReflexive` | ImageGallery.js:95-98 | the whole gallery is a valid view of itself |
| `Subsequences.SubsequenceMembers` | ImageGallery.js:88-92 | a view holds no record that the gallery does not hold |
| `Subsequences.SubsequenceLength` | ImageGallery.js:88-92 | a view is never longer than the gallery |
| `Batch.Settled` | ImageGallery.js:54-57 | a non-rejected pending result settles to `undefined` exactly for a non-image file, otherwise to the analysed record |
| `Batch.StartAll` | ImageGallery.js:53-57 | one pending result per input file, and it awaits an analysis exactly when the file's type starts with `image/` |
| `Batch.AwaitAll` | ImageGallery.js:52-58 | `Promise.all` fails exactly when some analysis failed; otherwise each value sits at its promise's index: `undefined` for a non-image file, the record for an image file |
| `Batch.Compact` | ImageGallery.js:60 | `filter(Boolean)` keeps exactly the present records and never lengthens the list |
| `Batch.CompactAppend` | ImageGallery.js:60 | `filter(Boolean)` of a concatenation is the concatenation of the two results, so order is kept |
| `Batch.CompactOne` | ImageGallery.js:60 | one entry: a present record survives, `undefined` does not |
| `Batch.CompactCounts` | ImageGallery.js:60 | every present record survives exactly as often as it occurs |
| `Batch.ImageFiles` | ImageGallery.js:54 | the files sent for analysis are an ordered subsequence of the input, and exactly the image-typed ones |
| `Batch.ImageFilesCounts` | ImageGallery.js:53-54 | every image file is sent exactly as often as it occurs in the batch, and no other file is sent |
| `Batch.ImageFilesOfImages` | ImageGallery.js:54 | a batch of image files only is sent for analysis unchanged |
| `Batch.StartAllTail` | ImageGallery.js:53-57 | the pending results for the later files do not depend on the first file |
| `Batch.NewImagesCons` | ImageGallery.js:52-60 | a successful batch is the first file's record (if it is an image) followed by the rest of the batch's records |
| `Batch.NewImages` | ImageGallery.js:51-66 | a batch fails exactly when the analysis of one of its image files fails (both directions) |
| `Batch.NewImagesRecords` | ImageGallery.js:52-60 | a successful batch gives one record per image file, the analysis of that file, in input order |
| `Batch.NonImageFilesIgnored` | ImageGallery.js:53-60 | non-image files contribute nothing: the batch gives what its image files alone give |
| `Search.Filter` | ImageGallery.js:88-91 | the search result is an ordered subsequence of the gallery, and holds a record exactly when the gallery holds it and it matches |
| `Search.Matches` | ImageGallery.js:89-90 | the match rule on the lower-cased title and keywords; the empty query matches every record |
| `Search.FilterCounts` | ImageGallery.js:88-91 | every matching record is kept exactly as often as the gallery holds it, and no other record is kept |
| `Search.FilterAppend` | ImageGallery.js:88-91 | searching a concatenation is searching each part, so records from a later batch come after earlier ones |
| `Search.FilterEmptyQuery` | ImageGallery.js:88-91 | searching for "" yields the whole gallery, the same view as Show All |
| `Search.FilterIdempotent` | ImageGallery.js:88-91 | searching a search result again with the same query changes nothing |
| `Search.MatchesIgnoresQueryCase` | ImageGallery.js:89-90 | a query and its lower-cased form match the same records |
| `Search.MatchesTitle` | ImageGallery.js:89 | a record whose title contains the query as typed is always found |
| `KeywordSummary.Shown` | ImageGallery.js:172 | `slice(0, 5)` gives a prefix of the keywords, five long or all of them |
| `KeywordSummary.Summary` | ImageGallery.js:172 | the keyword line always ends with "..." |
| `KeywordSummary.SummaryIgnoresRest` | ImageGallery.js:172 | keywords after the fifth never change the line |
| `KeywordSummary.SummaryShowsKeyword` | ImageGallery.js:172 | each of the first five keywords appears, after the earlier ones and one ", " per earlier keyword |
| `KeywordSummary.SummaryLength` | ImageGallery.js:172 | the line holds only the shown keywords, the separators between them and the ellipsis |
| `KeywordSummary.SummaryOfFewKeywords` | ImageGallery.js:172 | no keywords give "..." and one keyword k gives k followed by "..." |
| `Gallery.Gallery.constructor` | ImageGallery.js:10-15 | empty gallery and view, empty query, both flags false, no error |
| `Gallery.Gallery.HandleDrag` | ImageGallery.js:18-26 | dragenter/dragover raise the drag flag, dragleave lowers it, other events leave it alone; the invariant holds |
| `Gallery.Gallery.BeginBatch` | ImageGallery.js:49-50 | at the start of a batch loading is on and the old error is cleared; the invariant holds |
| `Gallery.Gallery.FinishBatch` | ImageGallery.js:51-68 | success appends the records and shows the whole gallery; failure changes neither list and sets the fixed message; loading is off either way; the invariant holds |
| `Gallery.Gallery.HandleFiles` | ImageGallery.js:48-69 | a batch ends with loading off, and either all of its records appended (view = gallery, no error) or nothing changed and the fixed error message set |
| `Gallery.Gallery.HandleDrop` | ImageGallery.js:28-35 | a drop always lowers the drag flag; an empty file list changes nothing else; a non-empty one runs a batch |
| `Gallery.Gallery.HandleChange` | ImageGallery.js:37-42 | an empty file list changes nothing; a non-empty one runs a batch |
| `Gallery.Gallery.SetSearchQuery` | ImageGallery.js:139 | typing sets the query and leaves the view as it was; the invariant holds |
| `Gallery.Gallery.SearchImages` | ImageGallery.js:87-93 | the view becomes the gallery's records matching the current query; it holds only records of the gallery and is no longer than it; the invariant holds |
| `Gallery.Gallery.ShowAllImages` | ImageGallery.js:95-98 | the view becomes the whole gallery and the query is cleared; the gallery is untouched |
| `Gallery.BothImagesAdded` | ImageGallery.js:52-60 | two image files that both analyse give their two records in input order |
| `Gallery.UploadSearchShowAll` | ImageGallery.js:48-98 | uploading "Cat" and "Dog" in one drop gives the gallery [Cat, Dog]; searching "ca" shows [Cat]; Show All shows [Cat, Dog] again |
| `Gallery.CatFoundDogNot` | ImageGallery.js:88-91 | the query "ca" finds the "Cat" record and not the "Dog" record |

## Left out

- The HTTP request (axios, `FormData`) and `URL.createObjectURL` (ImageGallery.js:71-85) are not modelled. The oracle `analyze` stands for them and returns a whole record or a failure. So the model does not cover a response body that overrides `url` through the object spread, or one that lacks `keywords` or `title`.
- `Promise.all` runs the analyses at the same time. The model awaits them as one step: either every result, in input order, or a failure. Suspension points are not modelled, so neither are interleavings with other events while a batch is pending. That includes a second batch started before the first has finished.
- React specifics are not modelled. This covers `useState` batching, the `useCallback` dependency lists and the stale closure they give `handleDrop`. It also covers `useRef` and `onButtonClick` (ImageGallery.js:44-46), and all JSX rendering and styling. The disabled Search and Show All buttons during loading (ImageGallery.js:143, 146) are part of the rendering, so `SearchImages` and `ShowAllImages` do not require `!isLoading`.
- `console.error` logging (ImageGallery.js:65, 82) is diagnostics only.
- Text.LowerChar: lower-cases ASCII 'A'..'Z' only, because full Unicode case mapping is not modelled.
- Text.LowerPreservesIncludes: holds only for a case map that works character by character and ignores context. JavaScript's `toLowerCase` does not: a final capital sigma becomes 'ς', a lone one 'σ'. So a title "ΟΔΟΣ" does not include the query "Σ" after lower-casing.
- Search.MatchesTitle: holds only for a case map that ignores context, for the same reason as `Text.LowerPreservesIncludes`.
- A `null` file list from the browser is modelled as the empty sequence. `files[0]` is truthy exactly when the list is non-empty.
- Analysis results are records, which are always truthy, so `filter(Boolean)` removes exactly the `undefined` entries of non-image files.
