# AdTopia core, modelled in Dafny

AdTopia is a web application for making promotional ad cards and image
galleries and sharing them. It is a React client over a hosted backend that
provides authentication, a Postgres database with row-level security, object
storage and serverless edge functions. This project models the parts of it
that hold logic of their own, one Dafny module per source file:

- the chunked, queued and batched processing utilities;
- the browser-side stores: cards, short links, trash, favourites, the
  e-mail hold and time-limited admin access;
- the card and gallery editors, the upload hook, signed image URLs and the
  drag-and-drop gallery page;
- the access rules: role and tier gating, the route guard, the passcode
  gate, the edge middleware and the blocking of development-only routes;
- the invite-based authentication service;
- payment links;
- the edge functions that optimise images in batches and generate ad copy;
- the pure helpers: export presets and file names, canvas geometry, image
  compression arithmetic, error texts, the HTML sanitiser, clickable embeds,
  the lazy loader and the lightbox.

Code that changes state step by step is modelled as classes whose fields
are the state it changes, with methods proved against specification
functions. Code that only computes is modelled as functions and lemmas.
Remote services, the clock, randomness and browser APIs are inputs, either
their answers or functions from request to answer. Each file's opening
comment says which inputs it takes.

## Model

| member | source | states |
|---|---|---|
| ChunkedProcessor.AsError | src/lib/chunked-processor.ts:57-61 | the recorded error is always an `Error`: an `Error` is kept as it is, any other thrown value becomes an `Error` whose message is its text |
| ChunkedProcessor.ProcessChunk | src/lib/chunked-processor.ts:45-65 | after the inner loop the accumulators hold the successful results and the error records of every item before the chunk's end, the chunk count is the number of successes in the chunk, and the callbacks made are those of the chunk's items in order |
| ChunkedProcessor.ProcessInChunks | src/lib/chunked-processor.ts:21-81 | `processed` is the successful results in input order, `errors` the records of the rejected items in input order, the totals are their lengths, and the callback trace is the chunk-by-chunk run trace (no callback at all for no items) |
| ChunkedProcessor.EveryItemAccountedFor | src/lib/chunked-processor.ts:45-47 | every input item is attempted once: successes plus errors is the item count |
| ChunkedProcessor.FailuresKeepIndex | src/lib/chunked-processor.ts:47-62 | each error record carries the original global index of a rejected item together with that item |
| ChunkedProcessor.RunProgress | src/lib/chunked-processor.ts:50-55 | over a run, `onProgress` is called exactly once per success, with the counts 1 .. totalProcessed and the item total |
| ChunkedProcessor.RunErrors | src/lib/chunked-processor.ts:56-63 | over a run, `onError` is called exactly with the error records, in order |
| ChunkedProcessor.RunChunks | src/lib/chunked-processor.ts:39-42 | over a run, `onChunkComplete` is called once per contiguous chunk of `chunkSize` items, with its index and its success count |
| ChunkedProcessor.RunPauses | src/lib/chunked-processor.ts:69-72 | with a positive delay there is one pause between consecutive chunks and none after the last; with delay 0 there is none |
| ChunkedProcessor.RunReports | src/lib/chunked-processor.ts:50-72 | the four previous statements together, for the callbacks of one run |
| ChunkedProcessor.ProgressCountsIncrease | src/lib/chunked-processor.ts:52-55 | the progress counts are 1, 2, ..., m: strictly increasing and ending at the number of successes |
| ChunkedProcessor.ChunkCountsSum | src/lib/chunked-processor.ts:42-67 | there is one chunk report per chunk, and the per-chunk success counts add up to the successes of all chunks |
| ChunkedProcessor.ChunkReportsCoverInput | src/lib/chunked-processor.ts:39-42 | `onChunkComplete` is called ceil(n / chunkSize) times and the counts it receives add up to `totalProcessed` |
| ChunkedProcessor.NonBlankLines | src/lib/chunked-processor.ts:110 | the kept lines are exactly the lines with a non-blank character, in their original order and with their multiplicities, none added |
| ChunkedProcessor.StripQuotes | src/lib/chunked-processor.ts:121 | the cell gets no longer, and a cell without a leading or trailing quote is unchanged |
| ChunkedProcessor.StripQuotesReassembles | src/lib/chunked-processor.ts:121 | the stripped cell with the leading and trailing quote put back is the cell: one quote is removed at each end, independently |
| ChunkedProcessor.ParseCsv | src/lib/chunked-processor.ts:110-122 | fewer than two non-blank lines is the "CSV must have at least header and one data row" error; otherwise one row per data line, one header per comma-separated field of the first line, one cell per field of its line |
| ChunkedProcessor.HeadersAreClean | src/lib/chunked-processor.ts:116 | every parsed header is trimmed, lower-case and free of commas |
| ChunkedProcessor.CellsAreClean | src/lib/chunked-processor.ts:120-122 | no parsed cell contains a comma or a newline |
| ChunkedProcessor.ParseCsvInChunks | src/lib/chunked-processor.ts:105-129 | a too-short text fails with the header-and-row error, otherwise the rows are processed as by `processInChunks` and every row is either processed or an error |
| ChunkedProcessor.ConcurrencyQueue.Add | src/lib/chunked-processor.ts:143-158 | the task joins the backlog and starts at once exactly when fewer than `maxConcurrency` tasks run; the running count never exceeds `maxConcurrency` and tasks start in submission order |
| ChunkedProcessor.ConcurrencyQueue.Process | src/lib/chunked-processor.ts:160-167 | with a free slot and a non-empty backlog the head of the backlog starts and `running` goes up by one; otherwise nothing changes |
| ChunkedProcessor.ConcurrencyQueue.Settle | src/lib/chunked-processor.ts:169-176 | a settled task, resolved or rejected alike, frees its slot and the next queued task starts if there is one |
| ChunkedProcessor.ConcurrencyQueue.constructor | src/lib/chunked-processor.ts:139-141 | an empty queue, nothing running, `maxConcurrency` 3 unless given |
| ChunkedProcessor.BatchProcessor.constructor | src/lib/chunked-processor.ts:199-207 | an empty buffer, batch size 10 and timeout 1000 unless given |
| ChunkedProcessor.BatchProcessor.Flush | src/lib/chunked-processor.ts:226-243 | an empty buffer is a no-op; otherwise the handler gets a copy of the buffer, the buffer and timer are cleared, and the batch counts as delivered even if the handler fails; every added item is delivered in order or still buffered |
| ChunkedProcessor.BatchProcessor.Add | src/lib/chunked-processor.ts:209-224 | the item is buffered; a buffer reaching `batchSize` is flushed at once, otherwise the timer restarts for `timeout` ms |
| ChunkedProcessor.BatchProcessor.TimerFires | src/lib/chunked-processor.ts:222 | when the timer expires the whole buffer is handed over and cleared |
| BatchOptimize.TextCompareAntisymmetric | src/pages/Admin/BatchOptimize.tsx:165-169 | comparing text both ways gives opposite signs, and 0 exactly for equal texts |
| BatchOptimize.TextCompare | src/pages/Admin/BatchOptimize.tsx:165-169 | comparing two texts gives -1, 0 or 1, and 0 exactly when they are equal |
| BatchOptimize.TextCompareFirstDifference | src/pages/Admin/BatchOptimize.tsx:165-169 | after a common prefix, the text that ends first or has the smaller next code unit sorts first |
| BatchOptimize.Compare | src/pages/Admin/BatchOptimize.tsx:158-176 | a missing value sorts after a present one; two texts or two numbers are ordered in the chosen direction and tie only when equal; any other pair ties |
| BatchOptimize.NullsLast | src/pages/Admin/BatchOptimize.tsx:162-163 | a missing value sorts after any present one, whichever the direction |
| BatchOptimize.DescendingReverses | src/pages/Admin/BatchOptimize.tsx:165-173 | for two strings or two numbers, descending is ascending with the sign flipped, and only equal values compare as 0 |
| BatchOptimize.NextSort | src/pages/Admin/BatchOptimize.tsx:183-188 | the clicked column becomes the sort key; the direction is descending exactly when that column was sorted ascending |
| BatchOptimize.SortClicksAlternate | src/pages/Admin/BatchOptimize.tsx:183-188 | clicking one column again flips its direction, and a click on a new column sorts it ascending |
| BatchOptimize.Toggled | src/pages/Admin/BatchOptimize.tsx:130-140 | toggling flips the membership of the id and of no other id |
| BatchOptimize.ToggleTwice | src/pages/Admin/BatchOptimize.tsx:130-140 | toggling the same id twice restores the selection |
| BatchOptimize.SelectAll | src/pages/Admin/BatchOptimize.tsx:145-151 | checking selects exactly the ids of the displayed images; unchecking empties the selection |
| BatchOptimize.ExtractFilePath | src/pages/Admin/BatchOptimize.tsx:193-207 | a URL that does not parse is returned unchanged |
| BatchOptimize.ExtractPublicObject | src/pages/Admin/BatchOptimize.tsx:197-199 | a pathname `/storage/v1/object/public/<bucket>/<file>` gives `<file>` |
| BatchOptimize.ExtractOtherPath | src/pages/Admin/BatchOptimize.tsx:202 | a pathname without the public-object prefix loses only a leading `/` |
| BatchOptimize.TallyOfCounts | src/pages/Admin/BatchOptimize.tsx:264-274 | each result counts once as a success or a failure; the reductions are those of the successes and none is 0, since a zero reduction is a failure |
| BatchOptimize.BatchTally | src/pages/Admin/BatchOptimize.tsx:248-291 | a batch that threw counts all its paths as failures, one without `results` counts nothing, and one answered in full counts each path once; every reduction counted is a non-zero success |
| BatchOptimize.RunTally | src/pages/Admin/BatchOptimize.tsx:294-298 | the batches run so far record one reduction per success, none of them 0 |
| BatchOptimize.RunTallyCountsEveryPath | src/pages/Admin/BatchOptimize.tsx:283-288 | when every batch threw or returned one result per path, every path of the batches run so far is counted once |
| BatchOptimize.AverageBounds | src/pages/Admin/BatchOptimize.tsx:301-304 | the average is 0 without reductions, and otherwise lies between the smallest and largest bound of the reductions |
| BatchOptimize.LogFor | src/pages/Admin/BatchOptimize.tsx:307-322 | the log row carries the selection size and the counts, the rounded average, and the smallest and largest reduction (each one of the reductions and bounding all of them), all three 0 without reductions |
| BatchOptimize.SelectedImages | src/pages/Admin/BatchOptimize.tsx:227 | the displayed images whose ids are selected, in table order, each as often as it is displayed |
| BatchOptimize.SelectedPaths | src/pages/Admin/BatchOptimize.tsx:227-228 | the extracted file path of each selected image, in the same order; empty exactly when no displayed image is selected |
| BatchOptimize.SplitIntoBatches | src/pages/Admin/BatchOptimize.tsx:233-238 | the paths are cut, in order, into consecutive batches of 3, the last one possibly shorter |
| BatchOptimize.FailBatch | src/pages/Admin/BatchOptimize.tsx:282-288 | a batch that threw adds each of its paths to `failed`, and `completed` grows with it |
| BatchOptimize.CountResults | src/pages/Admin/BatchOptimize.tsx:263-274 | each returned result is tallied as a success (with its reduction) or a failure, and `completed` stays the sum of both |
| BatchOptimize.ProcessBatch | src/pages/Admin/BatchOptimize.tsx:248-291 | a batch adds its own tally: all failed when it threw, its results when it answered, nothing without `results` |
| BatchOptimize.RunGroup | src/pages/Admin/BatchOptimize.tsx:294-298 | one group of up to three batches, awaited together, adds every batch's tally, so the running total stays the tally of every batch so far (added here in index order; see `GroupOrderFree` for any other order) |
| BatchOptimize.RunTallyGroup | src/pages/Admin/BatchOptimize.tsx:294-298 | the tally after a group is the tally before it plus the sum of the group's batch tallies |
| BatchOptimize.SumTalliesOrderFree | src/pages/Admin/BatchOptimize.tsx:297 | adding the same batch tallies in any order gives the same success and failure counts and the same multiset of reductions |
| BatchOptimize.GroupOrderFree | src/pages/Admin/BatchOptimize.tsx:248-319 | whatever order the batches of a group finish in under `Promise.all`, the counts, and the reductions as a multiset (hence their average, minimum and maximum), are those of the batches run in index order |
| BatchOptimize.RunBatches | src/pages/Admin/BatchOptimize.tsx:294-298 | the batches run in groups of at most 3, in order, and the total is the tally of all batches |
| BatchOptimize.OptimizeSelection | src/pages/Admin/BatchOptimize.tsx:212-323 | nothing is invoked for an empty selection; an empty path list is rejected by the request schema; otherwise the selected paths run in batches of 3 in groups of at most 3, and the activity log is written exactly when there is a user |
| BatchOptimize.CompletedCountsEveryPath | src/pages/Admin/BatchOptimize.tsx:236-304 | when every batch is answered in full, `success + failed` is the number of selected paths |
| BatchOptimize.BatchOptimizePage.HandleBatchOptimize | src/pages/Admin/BatchOptimize.tsx:212-347 | an empty selection changes nothing; the selection is cleared only after a completed run; the `finally` always resets the busy flag and the progress |
| BatchOptimize.BatchOptimizePage.ToggleSelection | src/pages/Admin/BatchOptimize.tsx:130-140 | the selection becomes the toggled set; nothing else changes |
| BatchOptimize.BatchOptimizePage.ToggleSelectAll | src/pages/Admin/BatchOptimize.tsx:145-151 | the selection becomes all displayed ids or none; nothing else changes |
| BatchOptimize.BatchOptimizePage.HandleSort | src/pages/Admin/BatchOptimize.tsx:183-188 | the sort configuration becomes the next one; nothing else changes |
| OptimizeImageBatch.ReductionRange | supabase/functions/optimize-image-batch/index.ts:77-82 | for a random draw in [0, 1) the reported reduction, rounded to two decimals, lies in [10, 40] |
| OptimizeImageBatch.ResultFor | supabase/functions/optimize-image-batch/index.ts:54-90 | a path's result names the path; it succeeds exactly when the download did, with the rounded reduction, and otherwise carries the error message and no reduction |
| OptimizeImageBatch.ProcessPaths | supabase/functions/optimize-image-batch/index.ts:47-95 | there is exactly one result per input path, at the path's own index, and the downloads are requested from the bucket in input order |
| OptimizeImageBatch.SummaryPartitions | supabase/functions/optimize-image-batch/index.ts:102-104 | `successful + failed` is the number of results |
| OptimizeImageBatch.Handle | supabase/functions/optimize-image-batch/index.ts:27-119 | OPTIONS answers `ok` with the CORS headers and downloads nothing; an unreadable body is a 500 with the error's message, or `Failed to optimize images` when what was thrown is not an `Error`; a missing, non-array or empty `filePaths` is a 400; otherwise a 200 whose `processed` is the path count, with one result per path in order, `successful + failed == processed`, and paths read from `bucket`, `gallery-images` by default |
| OptimizeImageBatch.ResponseAnswersBatch | supabase/functions/optimize-image-batch/index.ts:77-101 | the function answers every path the admin page sends it, and a path counts as a success on the page exactly when it was downloaded, since its reduction is never 0 |
| GalleryDetail.IsOwner | src/pages/GalleryDetail.tsx:155-159 | with both gallery and user known, the user owns the gallery or has the `admin` or `super_admin` role, and never otherwise |
| GalleryDetail.CardOf | src/pages/GalleryDetail.tsx:218-226 | a card keeps the image's id and url, shows the url as its image, and takes the stored position or else its index |
| GalleryDetail.CardsOf | src/pages/GalleryDetail.tsx:218-226 | one card per loaded image, in query order, the k-th made with index k |
| GalleryDetail.ArrayMoveShape | src/pages/GalleryDetail.tsx:297 | after a move the moved card sits at the target index, and removing it gives the list without it, so the other cards keep their order |
| GalleryDetail.ArrayMovePermutes | src/pages/GalleryDetail.tsx:297 | a move is a permutation: the same cards, each as often |
| GalleryDetail.ArrayMoveInverse | src/pages/GalleryDetail.tsx:297 | moving back from the target to the source undoes the move |
| GalleryDetail.FindIndex | src/pages/GalleryDetail.tsx:291-294 | the index found holds the first card with the id; no index means no card has it |
| GalleryDetail.SetPosition | src/pages/GalleryDetail.tsx:309-313 | a row with that id in that gallery gets the new position and nothing else changes; for an id not in the table or a row of another gallery the table is unchanged |
| GalleryDetail.WritePositionsEffect | src/pages/GalleryDetail.tsx:303-319 | after the first m position writes, each of those cards that is a row of this gallery has its new index as position, and every other row is unchanged; no row is added or removed |
| GalleryDetail.ArrayMoveKeepsDistinct | src/pages/GalleryDetail.tsx:297-306 | distinct card ids stay distinct through a move, so each row receives one position |
| GalleryDetail.Without | src/pages/GalleryDetail.tsx:265 | the local list keeps exactly the cards with another id, in their original order and with their multiplicities |
| GalleryDetail.WithoutRemovesOne | src/pages/GalleryDetail.tsx:265 | with distinct ids, deleting a listed card shortens the list by exactly one |
| GalleryDetail.GalleryDetailPage.LoadGallery | src/pages/GalleryDetail.tsx:170-239 | without a gallery id nothing happens; a container error or a missing container leaves gallery and cards alone; an images error keeps the container but not the images; otherwise the cards are the mapped images; loading ends in every case |
| GalleryDetail.GalleryDetailPage.HandleDeleteCard | src/pages/GalleryDetail.tsx:244-279 | a non-owner or a declined confirmation changes nothing; a failed write changes nothing; a delete hides the row of this gallery (`visible = false`) and removes exactly that card from the list |
| GalleryDetail.GalleryDetailPage.WritePositionsInOrder | src/pages/GalleryDetail.tsx:303-319 | card k of the new order is given position k, in order, and writing stops at the first failure, so the table holds the writes before it |
| GalleryDetail.GalleryDetailPage.HandleDragEnd | src/pages/GalleryDetail.tsx:284-337 | a drop by a non-owner, onto nothing, onto itself or with an unknown id changes nothing; otherwise the list becomes the moved list, positions 0 .. n-1 are written in that order, and on the first write error the list reverts to the order before the drag, with the writes made so far kept; the busy flag ends false |
| Trash.Retained | src/lib/trash.ts:25-27 | the kept items are exactly the listed items younger than 30 days, in list order and with their multiplicities, none added |
| Trash.RetainedAllKept | src/lib/trash.ts:30-32 | when the filter drops nothing it returns the list itself, so a load with nothing expired writes nothing back |
| Trash.RetainedLater | src/lib/trash.ts:25-27 | filtering again at a later time keeps what filtering then would keep: expiry only grows |
| Trash.SelectionMembers | src/lib/trash.ts:87-93 | the restored items are exactly the chosen ones and the remaining items exactly the others |
| Trash.RestorePartitions | src/lib/trash.ts:87-93 | restored and remaining items together are exactly the trash, as a multiset and in number |
| Trash.TrashStore.Save | src/lib/trash.ts:44-51 | with a window and a `setItem` that succeeds the trash is stored; without a window, or when `setItem` throws and the error is caught, the key keeps its old content |
| Trash.TrashStore.Load | src/lib/trash.ts:15-39 | the result holds only unexpired items (none for a missing or unreadable entry, or without a window); the cleaned list is written back exactly when the window exists, the write succeeds and something was dropped, otherwise the store is unchanged; loading again at the same time gives the same list |
| Trash.TrashStore.AddToTrash | src/lib/trash.ts:56-71 | the new items, one per card in order, stamped `now` with id `trash_<cardId>_<now>`, come first and the loaded trash follows unchanged; that list is returned and saved unless the write fails |
| Trash.TrashStore.RestoreFromTrash | src/lib/trash.ts:76-98 | the restored cards are the cards of the chosen items in trash order, the remaining items the others in trash order, and only the remaining items are saved, unless the write fails |
| Trash.TrashStore.PermanentlyDelete | src/lib/trash.ts:103-110 | exactly the items whose id is not chosen are saved, unless the write fails |
| Trash.TrashStore.ClearTrash | src/lib/trash.ts:115-117 | an empty list is saved, unless the write fails |
| Trash.TrashStore.GetTrashCount | src/lib/trash.ts:122-124 | the count is the number of items `loadTrash` returns, and what a later load returns is unaffected |
| Storage.DataUrlMatch | src/lib/storage.ts:13 | a match of `data:image/<type>;base64,` starts with `data:image/`, has a non-empty media type without `;`, and ends with `;base64,` |
| Storage.ReplaceDataUrlsShrinks | src/lib/storage.ts:13 | replacing every base64 image prefix by `~` never lengthens the text |
| Storage.Compress | src/lib/storage.ts:4-16 | compressing never lengthens the text |
| Storage.Decompress | src/lib/storage.ts:18-27 | a text holding no `~` and no quoted short key comes back unchanged |
| Storage.DecompressCompress | src/lib/storage.ts:4-27 | decompressing the compressed text gives back the original, for any text without `~`, without a quoted short key (`"i"`, `"d"`, `"k"`, `"l"`, `"c"`, `"t"`), and whose every `data:image/` begins the JPEG base64 prefix; overlapping keys such as `"title"keywords"` included |
| Storage.LastN | src/lib/storage.ts:49 | `slice(-n)` keeps exactly the last min(n, length) elements |
| Storage.BrowserStorage.constructor | src/lib/storage.ts:30-34 | the storage starts with the given keys and whether a window exists |
| Storage.BrowserStorage.LoadCards | src/lib/storage.ts:37-44 | no window, no key or an empty stored text gives no cards; otherwise the parse of the stored text, returned as parsed (an envelope is not unwrapped), or no cards when it does not parse |
| Storage.BrowserStorage.SaveCards | src/lib/storage.ts:46-88 | the last 20 cards are written, as a compressed `v2` envelope exactly when their JSON exceeds 100000 characters; on a quota error the last 10 cards are written compressed; any other failure or a failing retry leaves every key as it was; other keys never change |
| Storage.SaveThenLoad | src/lib/storage.ts:37-66 | with a lossless JSON codec, loading after a save gives back the last 20 cards, or the `v2` envelope of their compressed text when it is long |
| Storage.BrowserStorage.LoadShorts | src/lib/storage.ts:91-99 | the stored short-link list, or none when missing, unreadable or without a window |
| Storage.BrowserStorage.SaveShorts | src/lib/storage.ts:101-108 | unless the window is missing or `setItem` throws (caught, key unchanged), loading afterwards gives back exactly the list; nothing else changes |
| Storage.BrowserStorage.LoadEmail | src/lib/storage.ts:111-118 | the stored text, or the empty text |
| Storage.BrowserStorage.SaveEmail | src/lib/storage.ts:120-127 | unless the window is missing or `setItem` throws (caught, key unchanged), loading afterwards gives back the address; only the e-mail key can change |
| Storage.BrowserStorage.LoadGiftStatus | src/lib/storage.ts:130-137 | claimed exactly when the stored text is `true` |
| Storage.BrowserStorage.SaveGiftStatus | src/lib/storage.ts:139-146 | unless the window is missing or `setItem` throws (caught, key unchanged), stores `true` or `false` and loading then gives back the flag |
| Storage.BrowserStorage.LoadQRCodes | src/lib/storage.ts:149-157 | that card's entry, or an empty record when absent, unreadable or without a window |
| Storage.BrowserStorage.SaveQRCodes | src/lib/storage.ts:159-168 | loading the card afterwards gives the new codes and every other card's codes are unchanged; unreadable stored content, a missing window or a throwing `setItem` makes the save change nothing |
| Shortener.Slug | src/lib/shortener.ts:6 | a slug is 7 characters, each from the alphabet `123456789abcdefghjkmnpqrstuvwxyz` |
| Shortener.Create | src/lib/shortener.ts:9-16 | the new record carries the slug, target and time, and the stored list becomes it followed by the previous records unless the write throws (then it is unchanged); other keys are untouched |
| Shortener.List | src/lib/shortener.ts:18-20 | the stored list, unchanged |
| Shortener.MakeHostedUrl | src/lib/shortener.ts:24-26 | the URL starts with `base/landing/`, ends with `/cardId` and is exactly as long as its parts |
| Shortener.HostedUrlSegments | src/lib/shortener.ts:24-26 | for an id and variant without `/`, the last path segment is the card id and the one before it the lower-cased variant |
| Shortener.SplitConcatSeparator | src/lib/shortener.ts:25 | splitting two texts joined by the separator gives the pieces of each in turn |
| ProjectExport.ExportProject | src/lib/project-export.ts:14-23 | version `1.0`, the time, and exactly what the storage loads for cards, e-mail, gift flag and short links |
| ProjectExport.CountValidCards | src/lib/project-export.ts:55-60 | the number of valid card entries is at most the number of entries |
| ProjectExport.CountValidCardsExtremes | src/lib/project-export.ts:55-65 | no card is counted exactly when no entry has a truthy id, title and image, and all are counted exactly when every entry does |
| ProjectExport.CountValidCardsAppend | src/lib/project-export.ts:55-64 | the count over two lists joined is the sum of their counts |
| ProjectExport.CardsNeedAnImage | src/lib/project-export.ts:56-59 | entries without a truthy `imageDataUrl` are never counted |
| ProjectExport.CountValidLinks | src/lib/project-export.ts:78-85 | at most the number of entries, and zero exactly when no entry has a truthy slug and target |
| ProjectExport.ImportProject | src/lib/project-export.ts:32-109 | no window fails with all counts zero; `null` or `undefined` data fails through the catch, and so does a file with a valid card when the stored cards cannot be spread (a compressed envelope); otherwise it succeeds with the valid cards, whether a non-blank e-mail text is present, and the valid links, and writes nothing |
| DemoData.WithIds | src/lib/demo-data.ts:111-114 | the mapped list is as long as the templates, and each card equals its template except for the fresh id |
| DemoData.LoadDemoCards | src/lib/demo-data.ts:6-108 | nine demo cards, the first five in English |
| DemoData.AddRMoversCards | src/lib/demo-data.ts:110-116 | the existing cards untouched, followed by the five R Movers templates under fresh ids |
| DemoData.AddFresnoCards | src/lib/demo-data.ts:118-124 | the existing cards untouched, followed by the seven Fresno templates under fresh ids |
| DemoData.CampaignsCommute | src/lib/demo-data.ts:110-124 | adding both campaigns in either order gives the same cards apart from order |
| Favorites.Dedup | src/hooks/useFavorites.ts:9 | `new Set(list)` holds each listed id once and nothing else |
| Favorites.RemoveId | src/hooks/useFavorites.ts:17 | deleting an id keeps every other id and no duplicates |
| Favorites.Toggle | src/hooks/useFavorites.ts:15-20 | the id is present afterwards exactly when it was absent before; every other id is unchanged |
| Favorites.ToggleTwice | src/hooks/useFavorites.ts:15-19 | toggling the same id twice restores the set |
| Favorites.FavoritesHook.constructor | src/hooks/useFavorites.ts:4 | the set starts empty |
| Favorites.FavoritesHook.LoadStored | src/hooks/useFavorites.ts:6-11 | a stored array becomes the set; a missing key leaves it; unreadable content throws and leaves it |
| Favorites.FavoritesHook.ToggleFavorite | src/hooks/useFavorites.ts:13-24 | a throwing `setItem` reaches the caller with the set and the stored array unchanged; otherwise the set becomes the toggle of the old one and the stored array equals it; in both cases no other id's membership changes |
| Favorites.FavoritesHook.IsFavorite | src/hooks/useFavorites.ts:26 | true exactly when some entry of the favourites is the id |
| AuthService.InvitesWithCode | modules/auth/services/AuthService.ts:121-125 | `.eq('code', code)` selects exactly the rows with that code, in their original order and with their multiplicities |
| AuthService.UsersWithEmail | modules/auth/services/AuthService.ts:226-230 | `.eq('email', email)` selects exactly the rows with that e-mail, in their original order and with their multiplicities |
| AuthService.Single | modules/auth/services/AuthService.ts:125 | `.single()` yields a row exactly when one row matched, and then that row |
| AuthService.ValidateInviteCode | modules/auth/services/AuthService.ts:115-142 | a lookup error or no single row gives `Invalid invite code`; a past expiry or a set `used_at` gives `Invite code expired or already used`; otherwise valid for that row's tenant, which holds the code |
| AuthService.MarkUsed | modules/auth/services/AuthService.ts:191-194 | every row with the code gets `used_at`; all other rows are unchanged |
| AuthService.InvitesWithCodeAfterMark | modules/auth/services/AuthService.ts:191-194 | marking keeps the number of rows with the code, and all of them are then used |
| AuthService.UsedCodeIsRefused | modules/auth/services/AuthService.ts:134-136 | a code consumed by a registration is refused from then on |
| AuthService.GenerateInviteCode | modules/auth/services/AuthService.ts:71-73 | at most eight characters, each a digit or an upper-case letter, and exactly eight when the random fraction has that many digits |
| AuthService.Base36Digit | modules/auth/services/AuthService.ts:72 | a base-36 digit is a digit or a lower-case letter |
| AuthService.VerifyToken | modules/auth/services/AuthService.ts:60-66 | null exactly when verification fails, otherwise the verified claims |
| AuthService.StampLogin | modules/auth/services/AuthService.ts:243-246 | only the row with the id gets the login time |
| AuthService.AuthServiceState.CreateInviteCode | modules/auth/services/AuthService.ts:78-110 | an insert error writes nothing; otherwise a row expiring after seven days is added; either failure gives `Failed to create invite code`, success the code |
| AuthService.AuthServiceState.RegisterUser | modules/auth/services/AuthService.ts:147-218 | an invalid invite or an existing e-mail fails with nothing written; a failed insert answers `Failed to create user`; success inserts the user under the invite's tenant, marks the code used unless that update fails (its error is ignored) and returns a token for that user; any failure leaves both tables |
| AuthService.AuthServiceState.LoginUser | modules/auth/services/AuthService.ts:223-270 | an unknown e-mail and a wrong password give the same `Invalid credentials`; only success stamps the login time, unless that update fails, whose error is ignored, and returns a token for the found user |
| AuthService.UsersWithEmailAppend | modules/auth/services/AuthService.ts:161-185 | after inserting a user, looking up that e-mail finds the earlier matches and then the new row |
| AuthService.SecondRegistrationRefused | modules/auth/services/AuthService.ts:161-169 | after a first registration, the lookup for that e-mail finds exactly the new user, so a second one is refused |
| FeatureAccess.FreeTier | modules/auth/hooks/useFeatureAccess.ts:60-100 | the fallback record is FREE with an empty id, exactly the five features, all off, and every usage limit 0 |
| FeatureAccess.CheckFeatureAccess | modules/auth/hooks/useFeatureAccess.ts:106-140 | no record: not allowed, `User access not loaded`, upgrade required; otherwise allowed exactly when the feature's own flag is on, or the record has no such flag and the name is one every object inherits (`constructor`, `toString`, …), whatever the limits; a refusal names the feature and the tier |
| FeatureAccess.AccessLevelBenefits | modules/auth/hooks/useFeatureAccess.ts:142-172 | a name every object inherits finds that member instead of a benefits record; any other unknown level falls back to FREE's benefits; only FULL lists no limits |
| FeatureAccess.TableBenefits | modules/auth/hooks/useFeatureAccess.ts:143-171 | the five tiers' entries, FREE's for any other text, and only FULL without limits |
| FeatureAccess.TierIndex | modules/auth/hooks/useFeatureAccess.ts:182-183 | `indexOf` on the tier ladder: the level's position, or -1 exactly when it is not on the ladder |
| FeatureAccess.NextTier | modules/auth/hooks/useFeatureAccess.ts:179-190 | STARTER without a record; the next rung for a level on the ladder and none for FULL; FREE for an unknown level; always a tier name |
| FeatureAccess.CanUpgrade | modules/auth/hooks/useFeatureAccess.ts:174-190 | an upgrade is possible exactly when `getNextTier` gives a tier, that is unless the level is FULL |
| FeatureAccess.NextTierClimbs | modules/auth/hooks/useFeatureAccess.ts:182-187 | below FULL, the next tier is exactly one rung up |
| FeatureAccess.FreeTierDeniesEverything | modules/auth/hooks/useFeatureAccess.ts:60-123 | the FREE record installed after a failed lookup grants no feature; exactly the names it inherits from `Object.prototype` pass the check |
| FeatureAccess.FeatureAccessHook.constructor | modules/auth/hooks/useFeatureAccess.ts:26-27 | no record, loading |
| FeatureAccess.FeatureAccessHook.FetchUserAccess | modules/auth/hooks/useFeatureAccess.ts:29-104 | no user id clears the record; a found record is installed; no record or a lookup error installs the FREE tier for the user's e-mail; loading always ends |
| AdminAccess.AdminAccessStore.SetAdminAccess | modules/core/utils/adminAccess.ts:17-31 | stores a granted record ending at the given time and stamped now, as `JSON.parse` reads it back (a `NaN` expiry comes back `null`); without a window, or when `setItem` throws (caught), nothing changes |
| AdminAccess.AdminAccessStore.HasAdminAccess | modules/core/utils/adminAccess.ts:37-58 | true exactly when a readable record is unexpired (its `expiresAt`, converted to a number, is `NaN` or later than now) and its `granted` is `true`; an expired record is removed; anything else is kept |
| AdminAccess.AdminAccessStore.ClearAdminAccess | modules/core/utils/adminAccess.ts:63-71 | the record is removed |
| AdminAccess.AdminAccessStore.RemainingAccessTime | modules/core/utils/adminAccess.ts:77-92 | never negative; positive exactly when a readable record's `expiresAt`, converted to a number (`null` as 0, numeric text as its value), lies after now, and then the time until it |
| AdminAccess.ClearThenCheck | modules/core/utils/adminAccess.ts:37-71 | after clearing, access is refused |
| AdminAccess.GrantHoldsUntilExpiry | modules/core/utils/adminAccess.ts:17-53 | a fresh grant holds exactly until its expiry |
| AdminAccess.GrantImpliesTimeLeft | modules/core/utils/adminAccess.ts:47-87 | a granted record whose expiry is a number has time left, and a granted record with time left grants |
| AdminAccess.SetThenCheck | modules/core/utils/adminAccess.ts:17-58 | granting until a time and then checking gives access exactly before that time |
| AdminAccess.NaNGrantExpired | modules/core/utils/adminAccess.ts:17-53 | a grant given a `NaN` expiry is stored with `null`, which reads as time 0, so it is refused at any time from 1970 on |
| AdminAccess.MissingExpiryNeverExpires | modules/core/utils/adminAccess.ts:44-53 | a record without `expiresAt` never expires: it grants exactly when its `granted` is `true` |
| AdminAccess.NumericTextExpiry | modules/core/utils/adminAccess.ts:44-86 | an expiry stored as numeric text expires at that number, and the remaining time counts down to it |
| AdminAccess.NumericTextReadsBack | modules/core/utils/adminAccess.ts:47 | the number conversion reads the decimal text of a number back as that number |
| AdminAccess.WordIsNaN | modules/core/utils/adminAccess.ts:47 | the number conversion reads non-numeric text such as `soon` as `NaN` |
| Common.DigitPrefix | src/lib/hold.ts:26 | the leading run of decimal digits that `parseInt` reads |
| Hold.ParseInt | src/lib/hold.ts:26 | `parseInt(s, 10)` gives a number only when the text holds a digit |
| Common.DigitsOfDecimal | src/lib/hold.ts:18-26 | reading back the decimal digits of a number gives the number |
| Hold.ParseIntOfDecimal | src/lib/hold.ts:18-26 | `parseInt(String(n))` is n: the stored end time reads back as written |
| Hold.StorageGet | src/lib/hold.ts:24 | a value exactly when a window exists and the key is stored |
| Hold.HoldActive | src/lib/hold.ts:31-37 | active exactly when a window exists and the stored end time reads as a number later than now; an empty stored text is not a number |
| Hold.HoldActiveEarlier | src/lib/hold.ts:31-37 | a hold active now was active at every earlier time |
| Hold.HoldEmail | src/lib/hold.ts:22-29 | an address only when an end time is stored that does not read as a number at or before now, and then the stored non-empty address |
| Hold.HoldEmailWithoutHold | src/lib/hold.ts:22-37 | an end time that is not a number yields the address while `holdActive` is false |
| Hold.HoldEmailCorrected | src/lib/hold.ts:22-37 | the address is given only while the hold is active |
| Hold.CorrectedAgreesOnNumbers | src/lib/hold.ts:22-29 | wherever the end time is missing or a number, the corrected reading equals the written one |
| Hold.PreviewExpiry | src/lib/hold.ts:39-42 | the base plus the hold's days while the hold is active, otherwise plus the default days |
| Hold.QueryParam | src/lib/hold.ts:13-14 | a query parameter, with an empty value read as absent |
| Hold.QueryEmail | src/lib/hold.ts:13 | `email`, else `e`; absent only when both are |
| Hold.HoldStore.ApplyHoldFromQuery | src/lib/hold.ts:9-20 | with a window, an address and `hold` of `30` or `true`, stores the address and then the end time now plus the hold days, each unless its `setItem` throws (swallowed by `safeStorage.set`); otherwise writes nothing; with the end time stored the hold is active and gives the new address, or the earlier one when only the address write failed; with the end time unstored, whether a hold is active does not change |
| Hold.HoldAfterFailedEmail | src/lib/hold.ts:13-37 | when only the end time is stored, the hold is active and gives back whatever address was stored before |
| Hold.HoldAfterApply | src/lib/hold.ts:16-37 | right after an end time later than now is stored, the hold is active and gives the address |
| Pay.GetParam | src/lib/pay.ts:31-39 | a query parameter's value, absent exactly when no pair has that name |
| Pay.Without | src/lib/pay.ts:31-39 | removing a name leaves no pair with it and never lengthens the list |
| Pay.SetParam | src/lib/pay.ts:31-39 | `searchParams.set` makes the parameter read back as the value |
| Pay.SetOnUrl | src/lib/pay.ts:31-39 | setting a parameter keeps the URL's location and makes the parameter read back as the value |
| Pay.WithoutKeepsOthers | src/lib/pay.ts:31-39 | removing one name leaves every other parameter's value |
| Pay.SetParamKeepsOthers | src/lib/pay.ts:31-39 | setting one parameter leaves every other parameter's value |
| Pay.PayBase | src/lib/pay.ts:19-28 | the two nested analytics keys resolve to their config entries, any other key to `APP.PAY[key]`, and an absent entry is the `new URL` failure |
| Pay.PayHref | src/lib/pay.ts:16-42 | the base link with `success_url`, `cancel_url`, `utm_source=adtopia`, `utm_medium=beta` and `utm_campaign` set to the source or `site`; `prefilled_email` is the hold e-mail when there is one and otherwise untouched |
| Pay.TaggingKeeps | src/lib/pay.ts:37-39 | the three UTM tags leave every other parameter as it was |
| Pay.PayHrefKeepsOthers | src/lib/pay.ts:16-42 | every query parameter of the base link other than the six `payHref` sets reads in the result as it did in the base link |
| Pay.Browser.OpenPaymentLink | src/lib/pay.ts:44-56 | one `payment_link_opened` event with the source (default `site`), then the link opened in `_blank`; an unknown key throws after tracking and opens nothing |
| PaymentLinks.BuildLink | src/lib/payment-links-deprecated.ts:79-100 | `null` exactly when the link is disabled or its URL empty; otherwise the URL, with `utm_source`, `utm_medium=web` and the campaign only when the link has a UTM source, and `prefilled_email` exactly when a non-empty e-mail is given |
| PaymentLinks.BuildFrom | src/lib/payment-links-deprecated.ts:80-83 | an id neither in the table nor inherited from `Object.prototype` throws on `.enabled`; an inherited one gives `null`; a present one builds its link |
| PaymentLinks.IsPaymentAvailable | src/lib/payment-links-deprecated.ts:125-127 | throws for an unknown tier, is `undefined` for an inherited name, and false for every known tier |
| PaymentLinks.BuildPaymentUrl | src/lib/payment-links-deprecated.ts:79-100 | throws exactly when `isPaymentAvailable` throws, for an unknown tier; `null` where it is `undefined`; builds a link only for an available tier |
| PaymentLinks.BuildAddonPaymentUrl | src/lib/payment-links-deprecated.ts:102-123 | throws exactly for an id neither in the table nor inherited; otherwise a link exactly when the add-on is available, tagged with campaign `addon` |
| PaymentLinks.BuildPickYourPriceUrl | src/lib/payment-links-deprecated.ts:133-154 | throws exactly for an id neither in the table nor inherited; otherwise a link exactly when the option is available |
| PaymentLinks.IsAddonPaymentAvailable | src/lib/payment-links-deprecated.ts:129-131 | available exactly for `extra-cards`, which has a link; an unknown or inherited id is unavailable rather than throwing |
| PaymentLinks.IsPickYourPriceAvailable | src/lib/payment-links-deprecated.ts:156-158 | no option is available, and an unknown id is unavailable rather than throwing |
| PaymentLinks.NoPackageLinks | src/lib/payment-links-deprecated.ts:10-31 | every package tier is disabled, so `buildPaymentUrl` gives `null` for each |
| PaymentLinks.InheritedTierBuildsNull | src/lib/payment-links-deprecated.ts:79-158 | `constructor`, `toString` and `valueOf` build `null` and read as `undefined` instead of throwing, while an unknown tier such as `PRO` throws |
| PaymentLinks.NoPickYourPriceLinks | src/lib/payment-links-deprecated.ts:34-50 | every pick-your-price option is disabled, so each known id builds `null` and none is available |
| PaymentLinks.OnlyExtraCardsAddon | src/lib/payment-links-deprecated.ts:53-77 | `extra-cards` is the only available add-on, unknown ids are unavailable, and availability agrees with the builder giving a link |
| PaymentLinks.ExtraCardsLinkTagged | src/lib/payment-links-deprecated.ts:108-120 | the extra-cards link carries `utm_source=adcards` and campaign `addon`, and `prefilled_email` exactly when an e-mail is given |
| RouteProtection.ShouldBlockRoute | modules/auth/middleware/routeProtection.ts:23-31 | nothing is blocked in development; in production a path is blocked exactly when it starts with one of the ten listed prefixes |
| RouteProtection.BlockedByAny | modules/auth/middleware/routeProtection.ts:30 | `some(route => startsWith(route))`: true exactly when some listed prefix starts the path |
| RouteProtection.RouteProtectionFor | modules/auth/middleware/routeProtection.ts:52-64 | allowed exactly when not blocked, then with no redirect or reason; a blocked path redirects to `/404` with the production reason |
| RouteProtection.GetBlockedRoutes | modules/auth/middleware/routeProtection.ts:7-38 | the list `shouldBlockRoute` checks: in production a path is blocked exactly when it starts with one of the returned prefixes; ten distinct prefixes, each a `/` followed by more |
| RouteProtection.BlockedExtends | modules/auth/middleware/routeProtection.ts:30 | extending a blocked path keeps it blocked |
| RouteProtection.TestimonialsBlocked | modules/auth/middleware/routeProtection.ts:10-30 | in production `/testimonials` is blocked by the `/test` prefix |
| Middleware.AppRouteHeaders | middleware.ts:71-105 | the three CORS headers always; `Authorization` echoed exactly when a non-empty one was sent; `X-Rls-Mode` present exactly for `/admin` paths or anonymous `/gallery` paths, `public` for the latter and `private` otherwise; never `Max-Age` |
| Middleware.Handle | middleware.ts:34-112 | status 200 always; assets and API paths get no headers; an OPTIONS request gets the CORS headers with a one-day `Max-Age`; the app routes get their headers and any other path none |
| Middleware.RlsHint | middleware.ts:91-97 | a response says `public` exactly for a non-asset, non-OPTIONS anonymous `/gallery` request and `private` exactly for a non-asset, non-OPTIONS `/admin` request |
| Middleware.EmptyAuthorizationOnGallery | middleware.ts:84-97 | an empty `Authorization` header is not echoed, yet it suppresses the public hint, leaving only the CORS headers |
| Middleware.GalleryImageIsAsset | middleware.ts:39-55 | an image under `/gallery` takes the asset early return, with no headers even for OPTIONS |
| AdminRoutes.Level | src/hooks/useAdminRoutes.ts:6-23 | the rank is at most 4 and is 0 exactly when there is no role |
| AdminRoutes.RouteTable | src/lib/adminRoutes.ts:23-84 | eight routes with distinct paths, each in the section of its required role; only `/` and `/gallery` are public and only `/admin/system` needs `super_admin` |
| AdminRoutes.VisibleRoutes | src/hooks/useAdminRoutes.ts:22-30 | a route is kept exactly when it is public or the role ranks at least its required role; never more routes than given; table order and multiplicities are kept |
| AdminRoutes.VisibilityMonotone | src/hooks/useAdminRoutes.ts:25-29 | a role that ranks at least as high sees every route a lower one sees |
| AdminRoutes.InSection | src/hooks/useAdminRoutes.ts:34-37 | holds exactly the routes of the given section, in their original order and with their multiplicities |
| AdminRoutes.RoutesBySection | src/hooks/useAdminRoutes.ts:32-39 | the four groups together are the visible routes as a multiset, each holding only its own section and each a subsequence of the visible routes, so table order is kept |
| AdminRoutes.SectionsPartition | src/hooks/useAdminRoutes.ts:32-39 | every route lands in exactly one of the four sections |
| AdminRoutes.SameLevelSameRoutes | src/hooks/useAdminRoutes.ts:6-13 | two roles of equal rank see the same routes, so `enterprise` sees what `admin` sees |
| AdminRoutes.SuperAdminSeesAll | src/hooks/useAdminRoutes.ts:6-29 | `super_admin` sees every route in table order |
| ProtectedRoute.GuardLevel | src/components/ProtectedRoute.tsx:48-54 | every role ranks between 1 and 4 |
| ProtectedRoute.GuardAgreesWithNavigation | src/components/ProtectedRoute.tsx:48-57 | the guard ranks each role exactly as the navigation filter's hierarchy does |
| ProtectedRoute.Guard | src/components/ProtectedRoute.tsx:19-70 | a skeleton exactly while loading; a redirect to `/auth` exactly when auth is required and there is no user; a refusal with the `You need <role> role` toast exactly when both a required role and a user role are present and the user's ranks lower; otherwise the page |
| ProtectedRoute.NullRoleSkipsCheck | src/components/ProtectedRoute.tsx:47 | a signed-in user without a role always sees the page |
| ProtectedRoute.GuardMonotone | src/components/ProtectedRoute.tsx:56-59 | a role ranking at least as high as one that passes also passes |
| ProtectedRoute.EnterpriseIsAdmin | src/components/ProtectedRoute.tsx:48-54 | `enterprise` passes exactly where `admin` passes |
| PasscodeGuard.ActiveWithCode | modules/auth/components/PasscodeGuard.tsx:41-46 | keeps exactly the active containers whose passcode is the code, in their original order and with their multiplicities |
| PasscodeGuard.Lookup | modules/auth/components/PasscodeGuard.tsx:41-48 | a container is found exactly when the query does not fail and exactly one active container has the code, and then it is that container |
| PasscodeGuard.PasscodeGuardState.constructor | modules/auth/components/PasscodeGuard.tsx:16-19 | starts with the initial code or empty, not loading, no error, locked, nothing unlocked yet |
| PasscodeGuard.PasscodeGuardState.Type | modules/auth/components/PasscodeGuard.tsx:84-95 | the field holds the first twenty typed characters upper-cased and the error clears; nothing else changes |
| PasscodeGuard.PasscodeGuardState.HandleSubmit | modules/auth/components/PasscodeGuard.tsx:28-71 | a code under four characters only sets the length error; a thrown lookup shows the generic error and stops loading; a found container unlocks with its id; a miss on `PUBLIC` unlocks the public container; any other miss shows the invalid-passcode error and stops loading |
| PasscodeGuard.PasscodeGuardState.AutoSubmit | modules/auth/components/PasscodeGuard.tsx:22-26 | without a non-empty initial code, or while unlocked or loading, or with a code under four characters, nothing changes; otherwise the code is submitted once, with the outcome `handleSubmit` gives it (unlock with the found container or the public one, or the error message and loading off) |
| PasscodeGuard.ShortCodeNeverUnlocks | modules/auth/components/PasscodeGuard.tsx:31-34 | a code under four characters never unlocks, whatever the table and the lookup do |
| PasscodeGuard.PublicFallback | modules/auth/components/PasscodeGuard.tsx:48-56 | typing `public` in any case, with no container claiming `PUBLIC`, unlocks exactly the public container |
| GalleryForm.InitialValues | src/components/GalleryForm.tsx:74-81 | a stored gallery opens with its name and visibility, the protection switch on exactly when it has a non-empty code, and an empty passcode box |
| GalleryForm.ChooseThumbnail | src/components/GalleryForm.tsx:123-134 | the save fails exactly when a selected file's upload throws; otherwise the thumbnail is the uploaded URL, a typed preview that differs from the stored one, the stored one when it is set, or null; case by case: a non-empty uploaded URL wins, an empty one or no preview falls back to the stored thumbnail (or null), and a set preview is what is saved |
| GalleryForm.AccessCodeFor | src/components/GalleryForm.tsx:150-154 | the code is written exactly when the switch is on and a code was typed; it is cleared exactly when the switch is off; otherwise the column is left out |
| GalleryForm.Payload | src/components/GalleryForm.tsx:136-154 | the metadata keeps every stored key and sets the thumbnail; card ids and display order are the stored gallery's when present and empty otherwise (always empty for a new gallery); user, name, description, visibility and access-code field come from the form and `updated_at` is the current time |
| GalleryForm.ErrorText | src/components/GalleryForm.tsx:187 | an error toast's text is never empty |
| GalleryForm.GalleryFormState.constructor | src/components/GalleryForm.tsx:51-69 | the default values, no preview, no file, not loading, nothing shown or written |
| GalleryForm.GalleryFormState.Open | src/components/GalleryForm.tsx:73-87 | a stored gallery fills the form and previews its thumbnail; no gallery clears the preview and the file but keeps the values |
| GalleryForm.GalleryFormState.SelectFile | src/components/GalleryForm.tsx:89-96 | the file is selected and its data URL previewed; nothing else changes |
| GalleryForm.GalleryFormState.EnterUrl | src/components/GalleryForm.tsx:98-101 | the typed URL is previewed and any file dropped |
| GalleryForm.GalleryFormState.ClearPreview | src/components/GalleryForm.tsx:103-106 | no preview and no file |
| GalleryForm.GalleryFormState.Submit | src/components/GalleryForm.tsx:108-193 | invalid values or no user change nothing; a new gallery asking for a passcode without one only gets the passcode toast; otherwise a failed upload or write shows its error and writes nothing, and a success writes exactly one update or insert of the payload, resets the form, closes the dialog and shows the matching success toast; loading ends off |
| GalleryForm.ProtectionAfterSave | src/components/GalleryForm.tsx:150-154 | after a save the gallery is protected exactly when the switch is on and a code was typed or was already stored |
| GalleryForm.NewGalleryProtectedIffSwitch | src/components/GalleryForm.tsx:111-154 | a new gallery that passes the passcode check is protected exactly when its switch is on |
| GalleryForm.ReopenKeepsAccessCode | src/components/GalleryForm.tsx:74-154 | reopening a stored gallery and saving it untouched keeps its code, and clears only an empty one |
| GalleryForm.PasscodeCheckComesFirst | src/components/GalleryForm.tsx:111-118 | a new gallery with protection on and no code is refused before any upload or write |
| AdCardForm.ParseAdCard | src/components/AdCardForm.tsx:39-46 | the fields parse exactly when the trimmed title has 3 to 100 characters, the trimmed description at most 500, the trimmed link is a URL of at most 500 characters or the link is empty, and category and status are from their lists; the parsed values are the trimmed ones |
| AdCardForm.InitialInput | src/components/AdCardForm.tsx:83-91 | a stored card opens with its title and status, its link or empty, and its category or `Other` |
| AdCardForm.ChooseImage | src/components/AdCardForm.tsx:124-137 | the save fails exactly when a selected file's upload throws; otherwise the image is the uploaded URL, a typed preview that is neither the stored image nor the stored QR code, the stored image when set, or null; case by case: a non-empty uploaded URL wins, an empty one falls back to the stored image, and without a file a typed preview wins over the stored image |
| AdCardForm.Payload | src/components/AdCardForm.tsx:140-153 | never AI-generated; an empty link or template becomes null, any other is kept; title, description, status, user, image and category come from the form; `updated_at` is the current time |
| AdCardForm.ErrorText | src/components/AdCardForm.tsx:206 | an error toast's text is never empty |
| AdCardForm.SavedWrites | src/components/AdCardForm.tsx:155-191 | nothing is written after a failed upload or write; otherwise first an update for a stored card or an insert for a new one carrying the payload, then a second row exactly when a QR code was asked for, a non-empty code came back and storing it did not fail, and that row sets this code on the saved card's id |
| AdCardForm.AdCardFormState.constructor | src/components/AdCardForm.tsx:59-80 | the default fields, no preview, no file, not loading, nothing shown, written or requested |
| AdCardForm.AdCardFormState.Open | src/components/AdCardForm.tsx:82-97 | a stored card fills the form and previews its image or QR code; no card clears the preview and the file but keeps the fields |
| AdCardForm.AdCardFormState.SelectFile | src/components/AdCardForm.tsx:99-106 | the file is selected and its data URL previewed; nothing else changes |
| AdCardForm.AdCardFormState.EnterUrl | src/components/AdCardForm.tsx:108-111 | the typed URL is previewed and any file dropped |
| AdCardForm.AdCardFormState.ClearPreview | src/components/AdCardForm.tsx:113-116 | no preview and no file |
| AdCardForm.AdCardFormState.Save | src/components/AdCardForm.tsx:121-211 | the writes grow by exactly the saved rows; a failed upload or write only adds its error toast; a success asks for a QR code exactly for a published card with a link, resets the form, closes the dialog and shows the matching success toast; loading ends off |
| AdCardForm.AdCardFormState.Submit | src/components/AdCardForm.tsx:118-212 | fields that do not parse, or no user, change nothing; otherwise earlier writes are kept, at most two rows are added, a row is added exactly when the image and the write succeed (an insert for a new card, an update when editing), its payload carrying the parsed values and the image `ChooseImage` picks; a failure adds one error toast and changes nothing else, a success asks for the QR code of a published card with a link, adds the success toast, resets the form and closes the dialog |
| AdCardForm.ParseIdempotent | src/components/AdCardForm.tsx:39-46 | values the schema produced parse again to themselves |
| AdCardForm.ParsesToItself | src/components/AdCardForm.tsx:39-46 | trimmed values that meet every rule parse to themselves |
| AdCardForm.BlankTitleRefused | src/components/AdCardForm.tsx:40 | a title made only of blanks is refused whatever else the form holds |
| AdCardForm.DraftGetsNoQrCode | src/components/AdCardForm.tsx:176 | a draft with a link is inserted without asking for a QR code |
| AdCardForm.QrStoreFailureStillSaves | src/components/AdCardForm.tsx:180-198 | a published card whose QR code cannot be stored is still inserted, the code was asked for, and the success toast shows |
| FileUpload.StoragePath | src/hooks/useFileUpload.ts:27-28 | the path starts with the user's folder and ends with `-` and the file's name |
| FileUpload.FileUploader.constructor | src/hooks/useFileUpload.ts:10-12 | the bucket and allowed types as given, the size limit 5 MB unless given, not uploading, progress 0 |
| FileUpload.FileUploader.UploadFile | src/hooks/useFileUpload.ts:14-60 | an oversized file, then a disallowed type, throws with its message and changes nothing; a storage error throws its error with progress 0; otherwise the path is stored, progress is 100 and the public URL of that path is returned, whatever the optimiser does; the flag always ends down |
| FileUpload.SizeLimitIsInclusive | src/hooks/useFileUpload.ts:15 | a file of exactly the limit passes and one byte more is refused |
| SignedUrl.ImageExtLength | src/hooks/useSignedUrl.ts:32 | the matched extension, in any case, is 4 or 5 characters long and fits in the path |
| SignedUrl.ImageExtShape | src/hooks/useSignedUrl.ts:32 | the matched extension starts with a dot and holds no `/` |
| SignedUrl.LastSegmentStart | src/hooks/useSignedUrl.ts:35 | the last segment is free of `/` and follows a `/` unless it starts the path |
| SignedUrl.ReplaceImageExtShape | src/hooks/useSignedUrl.ts:32 | a path without an image extension is unchanged; one with it keeps everything before the extension and ends with `-<size>.webp` |
| SignedUrl.ReplaceImageExtOnce | src/hooks/useSignedUrl.ts:32 | the rewritten path has no image extension left, so a second rewrite changes nothing |
| SignedUrl.OptimizedPathHasFolder | src/hooks/useSignedUrl.ts:32-35 | a path whose last segment is not empty always yields a variant path inside an `optimized/` folder |
| SignedUrl.FolderSurvivesRename | src/hooks/useSignedUrl.ts:35 | an `optimized/` folder inserted before the last segment survives the extension rewrite |
| SignedUrl.LoadRequests | src/hooks/useSignedUrl.ts:31-52 | one or two requests, each for an hour; the original size signs the path alone; any other size first signs the variant path, and signs the path too exactly when the variant was not served |
| SignedUrl.SignedUrlHook.constructor | src/hooks/useSignedUrl.ts:14-17 | no URL, loading, no error, not a fallback |
| SignedUrl.SignedUrlHook.Load | src/hooks/useSignedUrl.ts:19-69 | disabled or without a path only stops loading; a served variant is shown as no fallback; a thrown original keeps the error's message, stops loading and reads as a fallback; a signed original is shown, as a fallback exactly when a variant was wanted; an empty answer leaves loading on |
| SignedUrl.OriginalSignsOnlyThePath | src/hooks/useSignedUrl.ts:31-58 | asking for the original size signs only the stored path and shows it as no fallback |
| ExportPresets.PresetTable | src/lib/export-presets.ts:30-63 | seventeen presets with distinct ids, each with a non-empty canvas |
| ExportPresets.FormatMimeType | src/lib/export-presets.ts:82-89 | `png`, `jpeg` and `webp` name their own image type and any other format falls back to PNG |
| ExportPresets.RunLength | src/lib/export-presets.ts:96 | the leading run holds no letter or digit and stops at the first one |
| ExportPresets.Dashify | src/lib/export-presets.ts:96 | the result holds only letters, digits and single dashes; it is empty exactly when the input is; it starts or ends with a dash exactly when the input starts or ends outside `[a-z0-9]` |
| ExportPresets.ExportFilename | src/lib/export-presets.ts:91-99 | the name starts with the title's slug and ends with `-<preset id>.<format>`, or with `.<format>` alone when there is no preset |
| ExportPresets.SlugShape | src/lib/export-presets.ts:96 | a slug is letters, digits and single dashes with no dash at either end |
| ExportPresets.DashifyKeepsSlugChars | src/lib/export-presets.ts:96 | the dash rewrite keeps every letter and digit in order |
| ExportPresets.SlugKeepsLettersAndDigits | src/lib/export-presets.ts:96 | the slug holds exactly the lowered title's letters and digits, in order |
| ExportPresets.DashifyFixed | src/lib/export-presets.ts:96 | text already made of letters, digits and single dashes is its own dash rewrite |
| ExportPresets.SlugIdempotent | src/lib/export-presets.ts:96 | slugging a slug changes nothing |
| ErrorMessages.LineLength | src/lib/error-messages.ts:32 | the first line holds no line terminator and ends at one or at the end of the text |
| ErrorMessages.InLineHead | src/lib/error-messages.ts:32 | a phrase lies in the first line exactly when it occurs with no line terminator before it |
| ErrorMessages.ThenOnLineMeaning | src/lib/error-messages.ts:32-82 | the search for `a.*b` succeeds exactly when `a` occurs and `b` occurs after it with no line terminator between, which is what the regular expression matches |
| ErrorMessages.FirstMatch | src/lib/error-messages.ts:92-96 | the index found is of a matching entry with no matching entry before it; no index means no entry matches |
| ErrorMessages.ErrorMessage | src/lib/error-messages.ts:110-135 | a string is its own message; an `Error` gives its message; another object gives its string `message`, else a truthy `response.data.message`, else the default text; anything else gets the default text |
| ErrorMessages.FriendlyText | src/lib/error-messages.ts:92-104 | the first matching entry supplies the text; with no match a message over 100 characters becomes the generic sentence and a shorter one is kept; the text is always one of these |
| ErrorMessages.FriendlyValue | src/lib/error-messages.ts:92-104 | a message that is not a string is matched through its `String` form; with no match a long array (or object with a numeric `length` over 100) gets the generic sentence and any other value is returned as it is |
| ErrorMessages.SingleTextArray | src/lib/error-messages.ts:92-104 | an array holding one text is mapped like that text when an entry matches, and returned as the array otherwise |
| ErrorMessages.FriendlyError | src/lib/error-messages.ts:88-105 | the table lookup applied to the extracted message, a text directly and any other value through its `String` form |
| ErrorMessages.HandleError | src/lib/error-messages.ts:140-152 | returns the friendly message and logs it with the technical message, the whole error and the context, `Error` when none is given |
| ErrorMessages.LowerOfUpper | src/lib/error-messages.ts:14 | lowering an upper-cased text gives the lowered text |
| ErrorMessages.CaseDoesNotChooseEntry | src/lib/error-messages.ts:11-83 | a message in capitals is mapped to the same entry as the message itself |
| SafeHtml.DeleteAll | modules/ui/components/SafeHtml.tsx:22-27 | a global replacement by the empty string only deletes; it changes the text exactly when the pattern matches somewhere, and then the text gets strictly shorter |
| SafeHtml.RunEnd | modules/ui/components/SafeHtml.tsx:24 | a greedy run: every character before its end belongs to the class and the one at its end does not |
| SafeHtml.FindCI | modules/ui/components/SafeHtml.tsx:23 | the first position, ignoring case, where the text occurs; none means it occurs at no later position |
| SafeHtml.ScriptLength | modules/ui/components/SafeHtml.tsx:23 | a script match starts with `<script`, ends with `</script>`, and holds no earlier `</script>` |
| SafeHtml.HandlerLength | modules/ui/components/SafeHtml.tsx:24 | a handler match starts with `on`, is at least six characters long and ends with a quote |
| SafeHtml.HandlerLengthIsMatch | modules/ui/components/SafeHtml.tsx:24 | the length found splits into `on`, word characters, optional white space, `=`, optional white space, a quote, non-quotes and a closing quote; every such split of a prefix gives that length, so it is the only match and none is missed |
| SafeHtml.HandlerSplitFound | modules/ui/components/SafeHtml.tsx:24 | each piece of such a split is a maximal run, so the scan lands on the split's own end |
| SafeHtml.SchemeLength | modules/ui/components/SafeHtml.tsx:25-27 | a scheme matches exactly when the text starts with it, ignoring case, and the match is the scheme's length |
| SafeHtml.MatchLength | modules/ui/components/SafeHtml.tsx:23-27 | a match is never empty and never longer than the text |
| SafeHtml.Sanitize | modules/ui/components/SafeHtml.tsx:20-28 | the sanitised text is never longer than the input |
| SafeHtml.SanitizeUnchangedIffClean | modules/ui/components/SafeHtml.tsx:20-28 | the text comes back unchanged exactly when none of the five patterns occurs in it |
| SafeHtml.SanitizeShortensUnlessClean | modules/ui/components/SafeHtml.tsx:20-28 | a text that is changed loses at least one character |
| SafeHtml.SchemeSurvivesOnePass | modules/ui/components/SafeHtml.tsx:25 | `javajavascript:script:` sanitises to `javascript:`, which still holds a pattern |
| SafeHtml.SanitizeSettled | modules/ui/components/SafeHtml.tsx:20-28 | repeating the passes until nothing changes leaves no pattern, never lengthens the text, and returns a clean text unchanged |
| CanvasHelpers.CanvasSize | src/lib/canvas-helpers.ts:29-30 | no preset gives 1080 by 1080; a preset's non-zero sides are kept and a zero side becomes 1080; both sides are positive |
| CanvasHelpers.PresetCanvas | src/lib/canvas-helpers.ts:29-30 | every preset of the table is exported at its own size |
| CanvasHelpers.ImageFit | src/lib/canvas-helpers.ts:110-171 | `cover` fills the target from a centred crop with the target's proportions that spans the image's full width or full height; `contain` draws the whole image centred, with its own proportions and one side flush; `fill` stretches the whole image over the whole target |
| CanvasHelpers.SameProportionsStretch | src/lib/canvas-helpers.ts:110-171 | when image and target have the same proportions every mode draws the whole image over the whole target |
| CanvasHelpers.QrLayout | src/lib/canvas-helpers.ts:275-278 | the QR side is the floor of its share of the width; a non-empty label adds 20 px and an 8 px gap to the height |
| CanvasHelpers.QrPosition | src/lib/canvas-helpers.ts:308-327 | the code sits 20 px from each edge of the chosen corner, and anything but the four corners means bottom right |
| CanvasHelpers.QrPositionDefaults | src/lib/canvas-helpers.ts:317-326 | the top corners do not depend on the label height, and a missing corner is bottom right |
| CanvasHelpers.QrInsideCanvas | src/lib/canvas-helpers.ts:308-327 | when the canvas has room for the box and both margins, the box lies inside it 20 px clear of every edge |
| CanvasHelpers.DefaultQrPlacement | src/lib/canvas-helpers.ts:275-321 | the default options on a 1080 canvas give a 162 px code 190 px tall with its label, placed at (898, 20) |
| LazyLoading.RetryDelays | src/lib/lazy-loader.ts:130-133 | the k-th retry waits the delay times k, for each of the first n retries |
| LazyLoading.FirstSuccess | src/lib/lazy-loader.ts:113-139 | the attempts before it all fail and the one at it succeeds, unless every attempt fails |
| LazyLoading.LazyLoader.constructor | src/lib/lazy-loader.ts:30-38 | an empty cache, nothing watched, and each option given replacing its default (the loading placeholder, 3 attempts, 1000 ms) |
| LazyLoading.LazyLoader.Observe | src/lib/lazy-loader.ts:53-70 | a fresh unloaded entry for the source; the element records the source and thumbnail, shows the thumbnail or the placeholder, and is watched |
| LazyLoading.LazyLoader.Unobserve | src/lib/lazy-loader.ts:75-82 | the element is no longer watched and the entry of the source it names, if any, is dropped |
| LazyLoading.LazyLoader.LoadImage | src/lib/lazy-loader.ts:104-142 | nothing happens for a source not cached, loaded or loading; a success shows the source, adds `lazy-loaded` and marks the entry loaded with no error; a failure records the error and one more try, schedules a retry after the delay times the tries while they are below the limit, and otherwise shows the error placeholder with `lazy-error` |
| LazyLoading.LazyLoader.LoadWithRetries | src/lib/lazy-loader.ts:104-142 | a fresh entry followed through its retries: a success within the limit leaves it loaded, with as many retries as failures before it; otherwise it ends unloaded with the error after exactly the limit of tries and the error placeholder shown; the retries wait the delay times 1, 2, ... in turn; other entries are untouched |
| LazyLoading.LazyLoader.HandleIntersection | src/lib/lazy-loader.ts:87-99 | exactly the intersecting elements that name a source stop being watched; the cache keeps its sources and loaded entries; skipped entries schedule nothing; the retries are the ones the entries schedule in turn; when no source is triggered twice, each triggered source that was ready holds exactly its entry's attempt and that entry's retry is the one the attempt schedules, and any other triggered source keeps its entry and schedules nothing |
| LazyLoading.LazyLoader.Visit | src/lib/lazy-loader.ts:88-97 | one entry: an intersecting element naming a ready source gets one attempt on that source and its retry, and stops being watched; an intersecting element naming a source that is not ready stops being watched and changes nothing else; any other entry changes nothing |
| LazyLoading.LazyLoader.CacheAfterKeeps | src/lib/lazy-loader.ts:87-99 | a run of entries keeps the cache's sources and never touches a loaded entry |
| LazyLoading.LazyLoader.VisitsOfDistinctSources | src/lib/lazy-loader.ts:87-99 | with no source triggered twice, each triggered source ends with its own entry's attempt and retry, or unchanged with no retry when it was not ready |
| LazyLoading.LazyLoader.VisitsWithoutSource | src/lib/lazy-loader.ts:87-99 | an entry that triggers no load schedules no retry |
| LazyLoading.LazyLoader.ImageDataOf | src/lib/lazy-loader.ts:166-168 | an entry is returned exactly when the source is cached, and it is that entry |
| LazyLoading.LazyLoader.ClearCache | src/lib/lazy-loader.ts:181-183 | the cache is empty |
| LazyLoading.LazyLoader.Destroy | src/lib/lazy-loader.ts:188-191 | the cache is empty and nothing is watched |
| LazyLoading.Ceil | src/lib/lazy-loader.ts:281 | the least integer at or above the value |
| LazyLoading.VisibleRange | src/lib/lazy-loader.ts:278-282 | the range starts at 0 or later and ends at the last item or earlier |
| LazyLoading.VirtualScrollManager.constructor | src/lib/lazy-loader.ts:265-269 | the item height as given, a buffer of 5 unless given, and an initial range of 0 to 0 |
| LazyLoading.VirtualScrollManager.CalculateVisibleRange | src/lib/lazy-loader.ts:274-286 | the range for the scroll position is stored and returned, within the list's bounds |
| LazyLoading.VirtualScrollManager.CalculateThenGet | src/lib/lazy-loader.ts:274-293 | after a range is worked out, `getVisibleRange` gives that range, within the list's bounds |
| LazyLoading.VirtualScrollManager.RowsTile | src/lib/lazy-loader.ts:298-307 | rows start at 0, sit one item height apart, and the last one ends at the total height |
| LazyLoading.VirtualScrollManager.TotalHeight | src/lib/lazy-loader.ts:298-300 | the total height is where a row after the last would start, and is positive exactly when there are rows |
| LazyLoading.VirtualScrollManager.ItemOffset | src/lib/lazy-loader.ts:305-307 | the first row starts at 0, later rows below it and negative indices above |
| LazyLoading.VirtualScrollManager.OffsetsIncrease | src/lib/lazy-loader.ts:305-307 | a later row starts at least one item height below an earlier one |
| LazyLoading.VirtualScrollManager.OnScreenRowsInRange | src/lib/lazy-loader.ts:274-286 | every row that shows in the viewport lies inside the visible range |
| AdEmbed.Width | src/lib/ad-embed.ts:49 | the width given unless absent or zero, in which case 1080; never zero |
| AdEmbed.Height | src/lib/ad-embed.ts:50 | the height given unless absent or zero, in which case 1080; never zero |
| AdEmbed.ClickRegion | src/lib/ad-embed.ts:51 | the region given, or else the whole image from the origin at the resolved width and height |
| AdEmbed.IntString | src/lib/ad-embed.ts:92 | a printed integer is non-empty and made only of digits and a minus sign, so it holds no comma |
| AdEmbed.CoordsSplit | src/lib/ad-embed.ts:92 | splitting the printed coordinates on commas gives back the four corner values, in order |
| AdEmbed.DefaultCoords | src/lib/ad-embed.ts:84-92 | with no region or size, the region is 0,0 by 1080 by 1080 and prints as `0,0,1080,1080` |
| AdEmbed.PrintedSides | src/lib/ad-embed.ts:92 | 0 and 1080 print as `0` and `1080` |
| AdEmbed.HtmlImageMap | src/lib/ad-embed.ts:79-101 | a map of the given id with one rectangular area whose coordinates read back as the region's two corners, linking to the landing URL in a new tab without an opener, titled with the URL |
| AdEmbed.ClickableSvgOverlay | src/lib/ad-embed.ts:45-73 | an SVG of the resolved size whose rectangle is exactly the clickable region, wrapped in a new-tab link to the landing URL and labelled with it |
| AdEmbed.EmbedMethod | src/lib/ad-embed.ts:213 | the method given unless absent or empty, in which case `svg-overlay` |
| AdEmbed.EmbedURLInPNGMetadata | src/lib/ad-embed.ts:107-145 | refused exactly where a browser window exists; on the server the image library's output, or the buffer unchanged when the library fails |
| AdEmbed.Embed | src/lib/ad-embed.ts:208-257 | an unknown method fails with its name; the overlay (and metadata in a browser) returns the composite or its failure; metadata on the server returns the written PNG; html-map returns the PNG unchanged; every success carries the map and the metadata |
| AdEmbed.CreateClickableAdEmbed | src/lib/ad-embed.ts:208-257 | the method given or `svg-overlay`; an unknown one fails with its name; otherwise the result carries the map for the options and the metadata naming the URL and the method, with the composite, the PNG unchanged or the server-written buffer as image |
| AdEmbed.DefaultEmbedIsOverlay | src/lib/ad-embed.ts:208-213 | with no method given, a successful composite is returned and the metadata names the URL and `svg-overlay` |
| AdEmbed.DefaultMapCoversCard | src/lib/ad-embed.ts:84-92 | with default options the map's area covers the whole 1080 by 1080 card |
| LightboxView.ZoomStaysInRange | src/components/Lightbox.tsx:53-59 | both zoom steps keep the zoom between 0.5 and 3 and move it by at most one half |
| LightboxView.ZoomStepsUndo | src/components/Lightbox.tsx:53-59 | away from the bounds, zooming out undoes zooming in and the other way round |
| LightboxView.DisabledIffNoEffect | src/components/Lightbox.tsx:147-159 | the zoom-out button is disabled exactly when zooming out changes nothing, and the zoom-in button likewise |
| LightboxView.ZoomInTimesClamps | src/components/Lightbox.tsx:54 | k presses of zoom-in add k halves, stopping at 3 |
| LightboxView.FourStepsToMax | src/components/Lightbox.tsx:24-54 | from the initial 100%, four presses reach 300% and three do not |
| LightboxView.ZoomPercent | src/components/Lightbox.tsx:153 | the percentage shown is the zoom times 100, between 50 and 300 |
| LightboxView.DragTracksPointer | src/components/Lightbox.tsx:78-92 | while dragging the image moves by exactly the distance the pointer moved since the button went down, and does not jump when grabbed |
| LightboxView.Lightbox.constructor | src/components/Lightbox.tsx:24-27 | zoom 100%, not dragging, position and drag anchor at the origin |
| LightboxView.Lightbox.SetOpen | src/components/Lightbox.tsx:29-34 | closing resets the zoom to 100% and the position to the origin; opening keeps both |
| LightboxView.Lightbox.ZoomIn | src/components/Lightbox.tsx:53-55 | the zoom becomes one half more, capped at 3 |
| LightboxView.Lightbox.ZoomOut | src/components/Lightbox.tsx:57-59 | the zoom becomes one half less, floored at 0.5 |
| LightboxView.Lightbox.HandleKey | src/components/Lightbox.tsx:36-51 | while open, Escape and only Escape asks the owner to close, `+` or `=` zooms in, `-` or `_` zooms out; while closed or for any other key the zoom is unchanged |
| LightboxView.Lightbox.MouseDown | src/components/Lightbox.tsx:78-83 | above 100% a drag starts, anchored at the pointer minus the position; otherwise nothing changes |
| LightboxView.Lightbox.MouseMove | src/components/Lightbox.tsx:85-92 | while dragging above 100% the position follows the pointer from the anchor; otherwise it is unchanged |
| LightboxView.Lightbox.MouseUp | src/components/Lightbox.tsx:94-96 | the drag ends |
| LightboxView.DropBlanks | src/components/Lightbox.tsx:68 | a suffix of the text that does not start with a blank, and everything dropped is blank |
| LightboxView.DashRuns | src/components/Lightbox.tsx:68 | no blanks remain and the text does not grow |
| LightboxView.DashRunsUnblanked | src/components/Lightbox.tsx:68 | text without blanks is unchanged |
| LightboxView.DashRunsBlankRun | src/components/Lightbox.tsx:68 | a run made only of blanks becomes exactly one dash |
| LightboxView.BlankRunThenText | src/components/Lightbox.tsx:68 | a run of blanks followed by text that starts with something else dashes as one dash and then that text |
| LightboxView.DashRunsAppend | src/components/Lightbox.tsx:68 | dashing works piece by piece at any cut outside a run of blanks; with `DashRunsBlankRun` and `DashRunsUnblanked` this fixes the result: the text between runs is kept in order and each maximal run of blanks becomes one dash |
| LightboxView.DropBlanksAppend | src/components/Lightbox.tsx:68 | dropping the leading blanks of text that has something else ignores what follows it |
| LightboxView.DropBlanksPastBlanks | src/components/Lightbox.tsx:68 | blanks followed by a non-blank character are dropped entirely |
| LightboxView.DownloadName | src/components/Lightbox.tsx:68 | the name is the dashed alt text (see the `DashRuns` rows), lower-cased, with `.png`: so it has no blanks or capitals, and an alt text without blanks is just lower-cased |
| LightboxView.LowerUnblank | src/components/Lightbox.tsx:68 | lower-casing text without blanks leaves no blanks and no capitals |
| GenerateAiAd.Resolve | supabase/functions/generate-ai-ad/index.ts:38-45 | title, description and user are kept; only an absent style, category or tier becomes `casual`, `general` or `free` |
| GenerateAiAd.FomoPrefix | supabase/functions/generate-ai-ad/index.ts:64-66 | the hook is non-empty exactly for the `pro` and `enterprise` tiers, and is then the "Killer Deal!" text |
| GenerateAiAd.BuildPrompt | supabase/functions/generate-ai-ad/index.ts:68-79 | the prompt carries the title, description, style and category; it has the hook and the urgency bullet exactly for paid tiers |
| GenerateAiAd.ActivityLog.constructor | supabase/functions/generate-ai-ad/index.ts:104 | the log starts empty |
| GenerateAiAd.ActivityLog.Serve | supabase/functions/generate-ai-ad/index.ts:32-137 | the response is the handler's answer and the log gains exactly the rows that answer logs |
| GenerateAiAd.Respond | supabase/functions/generate-ai-ad/index.ts:32-137 | the handler answers only 200, 400 or 500, and every answer but the preflight carries the JSON headers |
| GenerateAiAd.CorsOnEveryResponse | supabase/functions/generate-ai-ad/index.ts:5-8 | every response starts with the two CORS headers |
| GenerateAiAd.Preflight | supabase/functions/generate-ai-ad/index.ts:33-35 | an OPTIONS request is answered `ok` with the CORS headers alone and logs nothing |
| GenerateAiAd.MissingFieldsRejected | supabase/functions/generate-ai-ad/index.ts:47-52 | a parsed request gets 400 exactly when its title or description is missing or empty; the 400 carries the required-fields error and logs nothing |
| GenerateAiAd.DefaultsApply | supabase/functions/generate-ai-ad/index.ts:41-43 | without style, category or tier the request is casual, general and free, and the prompt has no hook |
| GenerateAiAd.SuccessEchoes | supabase/functions/generate-ai-ad/index.ts:98-129 | a success returns the model's copy, the token count, the urgency flag and the tier; the flag is set exactly for paid tiers or copy that mentions "killer deal" in any case |
| GenerateAiAd.LoggedIffSuccessForUser | supabase/functions/generate-ai-ad/index.ts:103-116 | at most one row; a row exactly when the answer succeeds and a user is named; the row holds the same copy, tokens, urgency and tier as the answer |
| GenerateAiAd.FailureIsServerError | supabase/functions/generate-ai-ad/index.ts:130-136 | a body that fails to parse or a model failure gives 500 and logs nothing; a thrown `Error` gives its own message |
| GenerateAiAd.HookCountsAsFomo | supabase/functions/generate-ai-ad/index.ts:100 | copy that opens with the paid tiers' hook counts as urgent on any tier |
| ImageCompression.ResolveOptions | src/lib/image-compression.ts:39-45 | each absent option takes its default (1024, 1024, 0.8, WebP, with a thumbnail) and each given one is kept |
| ImageCompression.DefaultSettings | src/lib/image-compression.ts:5-7 | no options at all gives 1024 by 1024, quality 0.8, WebP with a thumbnail, written as `image/webp` |
| ImageCompression.RoundDivClose | src/lib/image-compression.ts:199 | a rounded quotient is within half a unit of the exact one |
| ImageCompression.RoundDivAtMost | src/lib/image-compression.ts:199-202 | a quotient at most an integer rounds to at most that integer |
| ImageCompression.RoundDivExact | src/lib/image-compression.ts:199-202 | an exact quotient rounds to itself |
| ImageCompression.CalculateDimensions | src/lib/image-compression.ts:185-207 | within both bounds the size is unchanged; otherwise the wider side (the height on a tie) takes its bound and the other side is within half a pixel of the aspect ratio |
| ImageCompression.SquareBoundsFit | src/lib/image-compression.ts:185-207 | with square bounds the written rule's result fits inside them |
| ImageCompression.NonSquareBoundsOverflow | src/lib/image-compression.ts:194-200 | 2000 by 1000 bounded by 1000 by 100 comes out 1000 by 500, over the height bound |
| ImageCompression.FitDimensions | src/lib/image-compression.ts:185-207 | the result always fits both bounds, and a size already within them is unchanged |
| ImageCompression.FitKeepsAspect | src/lib/image-compression.ts:195-203 | the fitted size keeps the aspect ratio to within half a pixel on the longer side |
| ImageCompression.FitAgreesOnSquareBounds | src/lib/image-compression.ts:185-207 | on square bounds the fitted size is exactly the written rule's |
| ImageCompression.ThumbnailDimensions | src/lib/image-compression.ts:90 | the written rule on 300 by 300 bounds: the thumbnail fits them, and an image already that small is unchanged |
| ImageCompression.PlanSizes | src/lib/image-compression.ts:39-90 | sized by the written rule: an image within the resolved bounds keeps its size, the result fits bounds that are square, and a thumbnail no larger than 300 by 300 is planned exactly when thumbnails are asked for |
| ImageCompression.PlanSizesOverflow | src/lib/image-compression.ts:58-63 | with a 1000 by 100 bound, a 2000 by 1000 image is compressed to 1000 by 500 |
| ImageCompression.FittedPlanSizes | src/lib/image-compression.ts:39-90 | sized by the intended rule: the result fits the resolved bounds whatever their shape, agrees with the written plan on square bounds, and plans the thumbnail the same way |
| ImageCompression.CompressThresholdEdge | src/lib/image-compression.ts:256-259 | exactly 2 MB is left alone, one byte more is compressed, and anything larger is compressed too |
| ImageCompression.EstimatedSize | src/lib/image-compression.ts:75-76 | the estimate is within half a byte of three quarters of the base64 length |
| ImageCompression.EstimatedSizeOfBlocks | src/lib/image-compression.ts:75-76 | four base64 characters estimate exactly three bytes |
| ImageCompression.FileSizeFromDataUrl | src/lib/image-compression.ts:264-267 | a data URL without a comma is size 0 |
| ImageCompression.FileSizeAfterComma | src/lib/image-compression.ts:264-267 | with one comma, the size is the estimate for the text after it |

## Left out

- Rendering: markup, styling, icons and toasts' appearance are not modelled. Where a component's output matters, it is a datatype.
- Analytics calls are left out: PostHog tracking, `trackAdClickEmbed` and the console logging. The one exception is the `payment_link_opened` event `openPaymentLink` sends, which is modelled as a recorded event.
- Pay: `LEGACY_KEY_MAP` is kept as a table only. `payHref` never consults it, so nothing is stated about it.
- Pay: a URL is modelled as its location and its list of query parameters, not as text. URL parsing, percent-encoding and `toString()` are left out, so the results are stated by what each parameter reads as.
- ImageCompression.PlanSizes: a thumbnail canvas without a 2D context, for which `compressImage` leaves the thumbnail out, is not modelled.
- Canvas drawing is left out: compositing, watermarks, badges, the drawing calls, `compressImage`'s canvas work, `resizeImageIfNeeded` and `removeBackground`. The sizes and positions those calls use are modelled.
- Floating point: lengths and ratios are exact reals or integers, so IEEE rounding is not captured.
- Images of zero width or height are not given a meaning beyond what the integer formulas yield.
- LazyLoading.VisibleRange: requires a positive item height; the source divides by it, so a zero height is not modelled.
- LazyLoading.LazyLoader.LoadImage: the `'Load failed'` fallback message is not modelled. The preload promise always rejects with an `Error`, so that branch cannot be reached.
- LazyLoading: `ProgressiveImageLoader` and `preloadImages` are left out. They only chain browser image loads.
- The browser's intersection observer is a set of observed elements. Its root, margin and threshold are not modelled.
- Timers are modelled as the delays they are scheduled with, and time does not pass inside the model.
- Options passed explicitly as `undefined` are treated as absent.
- BatchOptimize.RunGroup: the batches of a group are added in index order, while `Promise.all` lets them finish, and push their results, in any order. The `reductions` sequence therefore may differ in order from the source's; `GroupOrderFree` proves the counts and the multiset of reductions are the same for every order.
- BatchOptimize.TextCompare: `localeCompare` is modelled as code-unit order, not a locale's collation, so for example `"B"` sorts before `"a"` here.
- Case mapping is ASCII only. JavaScript's `toLowerCase`/`toUpperCase` also map non-ASCII letters.
- Whitespace: `trim` and `\s` use JavaScript's white-space and line-terminator set (including the Unicode spaces and the byte-order mark). Characters outside the Basic Multilingual Plane are single characters here, not surrogate pairs.
- Strings are sequences of characters. Length limits that zod counts in UTF-16 units are compared on characters.
- The file reader that makes a preview is modelled as synchronous.
- QR code generation is an input: its output, or its failure.
- LightboxView: fetching the image for a download is left out, and so is the owner's `onClose` handler. The file name is modelled.
- GenerateAiAd: the environment and client construction are not modelled, nor are non-string JSON fields. The insert into the activity log is modelled as always succeeding; the source ignores its error.
- ChunkedProcessor: the `processFilesInChunks` wrapper is left out. It only fixes the options of `processInChunks`.
- ChunkedProcessor.ProcessInChunks: requires a positive chunk size when there are items. With `chunkSize <= 0` and at least one item, the loop `for (…; i += chunkSize)` (chunked-processor.ts:39) never ends, so the source has no result to model there.
- ChunkedProcessor.ConcurrencyQueue.Add: the promise `add` returns, which settles with the task's own value or error, is not modelled. The model keeps the backlog, the running count and the start order only.
- JSON encoding and decoding of stored values is treated as lossless.
- AdEmbed.Embed: on the server the PNG bytes are an input. A data URL without a comma, for which `split(',')[1]` is undefined and `Buffer.from` throws, is not modelled as a failure.
- LazyLoading.LazyLoader.HandleIntersection: a load completes within the call. An `unobserve` made while a load is pending, which the load's final `cache.set` then undoes, is not captured.
- DemoData: the demo and campaign templates keep each card's title, image (an inline SVG shortened to its `data:image/svg+xml,` prefix), language and category. Descriptions, calls to action and keywords are left out, so the demo-card statements cover those fields only.
- The `AuthService` constructor and its environment lookup are left out.
- Storage.BrowserStorage.LoadQRCodes: a card id that names an `Object.prototype` member (`constructor`, `__proto__`, …) is treated like any other id. In the source, `allQRs[cardId]` would find the inherited member, and assigning to `__proto__` in `saveQRCodes` would not add an entry. Card ids are generated, so such ids are not modelled.
- Storage.DecompressCompress: the round trip asks that every `data:image/` in the text begin the JPEG base64 prefix. That is slightly more than needed: a `data:image/` that the image pattern does not match would also survive. `decompressData` has no caller in the source; loading returns the stored envelope as parsed.
- AdminAccess.StringToNumber: numeric text in exponent, hexadecimal, octal or binary form, and `Infinity`, reads as `NaN` here. An infinite expiry passed to `setAdminAccess` is not modelled either.
- AdminAccess.AdminAccessStore.ClearAdminAccess: a throwing `removeItem`, which the source catches, is not modelled; the record is always removed.
- ErrorMessages.StringOf: JavaScript's number-to-text conversion is an input, and `length > 100` of an object compares only a numeric `length` field, not one JavaScript would coerce from text.

## Findings

| source | as written | input that shows it | evidently intended | confidence | as-written member | corrected member |
|---|---|---|---|---|---|---|
| src/lib/image-compression.ts:194-204 | with bounds that are not square, the longer side takes its bound even when the other side then exceeds its own | a 2000 x 1000 image bounded by 1000 x 100 comes out 1000 x 500 | scale by the tighter bound, so the result fits both bounds | not executed | ImageCompression.NonSquareBoundsOverflow | ImageCompression.FitDimensions |
| src/lib/image-compression.ts:58-63 | `compressImage` sizes with the written rule, so a caller passing bounds that are not square can get an image over one of them | `maxWidth: 1000, maxHeight: 100` on a 2000 x 1000 image gives 1000 x 500 | the compressed image fits both given bounds | not executed | ImageCompression.PlanSizesOverflow | ImageCompression.FittedPlanSizes |
| src/lib/hold.ts:22-29 | the stored address is returned unless the end time reads as a number at or before now | a stored end time of `soon` gives the address while `holdActive()` is false | give the address only while the hold is active | not executed | Hold.HoldEmailWithoutHold | Hold.HoldEmailCorrected |
| modules/ui/components/SafeHtml.tsx:20-28 | each pattern is removed in a single pass, and a removal can join two halves of a pattern | `javajavascript:script:` sanitises to `javascript:` | the output holds none of the patterns | not executed | SafeHtml.SchemeSurvivesOnePass | SafeHtml.SanitizeSettled |
