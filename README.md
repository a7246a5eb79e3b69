# Anime recommender: data processing, poster strips and anime info

This project models three pieces of an anime recommendation system in Dafny.

- **The data processing pipeline** (`DataProcessor`, module `DataProcessing`) works on a table of
  (user, anime, rating) rows and runs its stages in a fixed order:
  1. keep only the users with at least 400 ratings;
  2. min-max scale the ratings;
  3. index users and anime;
  4. split the rows into train and test arrays;
  5. dump four id mappings and the four arrays.

  Each stage wraps any failure in a `CustomException` naming the stage. `run` logs the first such
  exception and no later stage runs.
  - The processor is a class whose fields the stage methods overwrite, as the source does. Each
    method is tied to a ghost function that gives the stage's outcome on a value copy of those
    fields (`State`).
  - The properties of the pipeline are lemmas about those functions.
  - What Spark and joblib would return, or whether they raise, is an input (`Externals`).
- **The poster strip generator** (module `PosterStrip`):
  - selects and sorts the image files of a directory;
  - cuts the list into chunks of eight;
  - lays each chunk out as one strip of resized posters separated by five pixels.

  The per-strip loops are methods proved against closed-form functions. The strip geometry is
  proved about those functions.
- **The anime info shaping** (module `AnimeInfo`) turns the decoded answers of the metadata
  service into the dictionary the search page shows:
  - up to six sampled reviews, with their text truncated;
  - up to six recommendations;
  - the genre names;
  - `None` for a failed or empty search.

Module `Basics` holds `Option` and `Min`.

### Behaviours of the code worth noting

- **Review texts.** A review is cut at 350 characters but gets "..." only when it is longer than
  500. A review of 351 to 500 characters is therefore cut with no mark (`CutWithoutMark`).
- **Scaling a plain rating column.** `scale_ratings` hands the numeric `rating` column straight to
  Spark's MinMaxScaler. MinMaxScaler documents a vector input column, and `VectorAssembler` is
  imported but never used. So on Spark, fitting raises, and every run that loads its CSV stops at
  scaling and logs "Failed to standardize the ratings" (`RunStopsAtScale`). The model keeps the
  min-max transform the stage is evidently written for: `(x - min) / (max - min)`, and 0.5 for a
  constant column, as MinMaxScaler defines it. Whether fitting raises is an input.
- **The dictionaries.** The four id dictionaries are created empty and no stage fills them, so a
  run that raises nothing saves four empty mappings (`RunSavesEmptyMappings`).

## Model

| member | source | states |
|---|---|---|
| DataProcessing.DataProcessor.constructor | src/data_processing.py:16-33 | A new processor has no table, no arrays and four empty dictionaries. Its trace of invoked stages is empty. |
| DataProcessing.DataProcessor.LoadData | src/data_processing.py:35-42 | Changes only the table: the state afterwards is `LoadDataOutcome` of the state before. Raises `CustomException(Load)` when the CSV cannot be read. Keeps the table well formed. |
| DataProcessing.DataProcessor.FilterUsers | src/data_processing.py:44-52 | Changes only the table, to `FilterUsersOutcome` of the old state. Default threshold 400. Appends `Filter` to the trace. |
| DataProcessing.DataProcessor.ScaleRatings | src/data_processing.py:54-61 | Changes only the table, to `ScaleRatingsOutcome` of the old state. |
| DataProcessing.DataProcessor.EncodeData | src/data_processing.py:63-74 | Changes only the table, to `EncodeDataOutcome`. When anime indexing raises, the table keeps the user index that was already assigned. |
| DataProcessing.DataProcessor.SplitData | src/data_processing.py:76-88 | Changes only the four arrays, to `SplitDataOutcome`. Default test size 0.2. |
| DataProcessing.DataProcessor.SaveArtifacts | src/data_processing.py:90-110 | Loops over the four mapping dumps, then does the four array dumps. The output locations become exactly `SaveArtifactsOutcome` of the old state: every dump before the first failing one is written, and nothing after it. |
| DataProcessing.DataProcessor.Run | src/data_processing.py:112-122 | Calls the six stage methods in order. The state, the returned (logged) exception and the stage trace are those of `RunOutcome`. |
| DataProcessing.CustomException.Message | src/data_processing.py:42-110 | The message each stage gives its exception, as the six `raise` statements spell it. |
| DataProcessing.MessagesDistinct | src/data_processing.py:42-110 | Two stage exceptions carry the same message exactly when they come from the same stage. |
| DataProcessing.Loaded | src/data_processing.py:39 | The loaded table has one row per CSV row, in order. Row i carries CSV row i's user id, anime id and rating. Neither the schema nor any row holds a derived column yet. |
| DataProcessing.LoadDataOutcome | src/data_processing.py:35-42 | Raises exactly when the CSV cannot be read, and then changes nothing. Otherwise it replaces only the table, with the loaded rows. |
| DataProcessing.UserCount | src/data_processing.py:47 | The number of rows of a user, the `count` that grouping by `user_id` gives. |
| DataProcessing.Counted | src/data_processing.py:49 | A joined row: the input row with its user's count added. |
| DataProcessing.KeepFrequent | src/data_processing.py:47-49 | The filter and inner join over a run of rows, counting users in the whole table. |
| DataProcessing.FilterFrequent | src/data_processing.py:47-49 | The rows `filter_users` leaves, counted over the table itself. |
| DataProcessing.FilterStep | src/data_processing.py:49 | The joined table: the filtered rows, with the count column added to the schema. |
| DataProcessing.FilterUsersExact | src/data_processing.py:47-49 | The filtered table lists, in input order, each input row whose user has at least `minRating` input rows, exactly once and with its count added. Every other row is dropped. Duplicated input rows are kept as often as they occur. |
| DataProcessing.FilterUsersThreshold | src/data_processing.py:47-49 | Every remaining row's user has at least `minRating` rows in the input, and the row's count is that number. |
| DataProcessing.FilterUsersNoneQualify | src/data_processing.py:44-49 | When no user reaches the threshold, the filtered table is empty. |
| DataProcessing.FilterStepWellFormed | src/data_processing.py:49 | The join adds the count column to the schema and to every row alike. |
| DataProcessing.FilterUsersOutcome | src/data_processing.py:44-52 | Raises exactly when there is no table. Otherwise it replaces only the table by its filtered version. |
| DataProcessing.LowestRating | src/data_processing.py:58 | The fitted minimum is a rating of the table and no rating is below it. |
| DataProcessing.HighestRating | src/data_processing.py:58 | The fitted maximum is a rating of the table and no rating is above it. |
| DataProcessing.Rescaled | src/data_processing.py:58 | MinMaxScaler's transform onto [0, 1]: `(x - min) / (max - min)`, and 0.5 when every rating is the same. |
| DataProcessing.RescaledRange | src/data_processing.py:57-58 | The min-max transform maps ratings between the bounds into [0, 1], the bounds to 0 and 1, and keeps their order. |
| DataProcessing.ScaleStep | src/data_processing.py:57-58 | Scaling succeeds exactly when the table has no scaled column yet and fitting does not fail. It then adds each row's min-max rescaled rating and changes nothing else. |
| DataProcessing.ScaledRatings | src/data_processing.py:57-58 | After scaling, every scaled rating is in [0, 1], order is kept, and the lowest and highest ratings map to 0 and 1. |
| DataProcessing.ScaleStepWellFormed | src/data_processing.py:58 | Scaling keeps the table well formed. |
| DataProcessing.ScaleRatingsOutcome | src/data_processing.py:54-61 | Raises exactly when there is no table or the scaler fails, and then changes nothing. Otherwise it replaces only the table by the scaled one. |
| DataProcessing.IndexUsers | src/data_processing.py:66-69 | Indexing users succeeds exactly when the table has no user index yet and every user id has a label. It then adds each row's label and changes nothing else. |
| DataProcessing.DenseIndex | src/data_processing.py:66-70 | What fitting a StringIndexer is taken to give: the labels are exactly the distinct values of the column, and distinct values get distinct indices below the number of labels. |
| DataProcessing.IndexAnimes | src/data_processing.py:67-70 | The same for anime ids. |
| DataProcessing.IndexUsersWellFormed | src/data_processing.py:69 | Indexing users keeps the table well formed. |
| DataProcessing.IndexAnimesWellFormed | src/data_processing.py:70 | Indexing anime keeps the table well formed. |
| DataProcessing.DenseUserIndexing | src/data_processing.py:66-69 | With labels fitted on the table's users, indexing succeeds and indices are below the number of distinct users. Two rows share an index exactly when they share a user. |
| DataProcessing.DenseAnimeIndexing | src/data_processing.py:66-70 | With labels fitted on the table's anime, indexing succeeds and indices are below the number of distinct anime. Two rows share an index exactly when they share an anime. |
| DataProcessing.EncodeDataOutcome | src/data_processing.py:63-74 | Succeeds exactly when there is a table and both indexers succeed, giving the doubly indexed table. After a failure the table is the user-indexed one if that step succeeded, otherwise unchanged. |
| DataProcessing.Weights | src/data_processing.py:79 | The split weights `[1 - test_size, test_size]`: two of them, the second the test fraction, summing to one. |
| DataProcessing.ValidWeights | src/data_processing.py:79 | What `randomSplit` demands of its weights before splitting: none negative and a positive total. |
| DataProcessing.Total | src/data_processing.py:79 | The sum of the split weights, as `randomSplit` normalises them. |
| DataProcessing.WeightsAccepted | src/data_processing.py:79 | The weights `[1 - test_size, test_size]` are accepted by the split exactly when 0 <= test_size <= 1. |
| DataProcessing.Side | src/data_processing.py:79 | One side of the split: the rows, in table order, whose positions are (test) or are not (train) among the test positions. |
| DataProcessing.SideWithin | src/data_processing.py:79 | Each side of the split holds only rows of the table. |
| DataProcessing.SplitSizes | src/data_processing.py:79 | The train and test sides together have as many rows as the table. |
| DataProcessing.SplitPartition | src/data_processing.py:79 | Train and test together hold exactly the rows of the table (as a multiset), each row on one side only. |
| DataProcessing.Inputs | src/data_processing.py:80-83 | The user list and the anime list of a split have the split's length and hold each row's user and anime index at the same position. |
| DataProcessing.Targets | src/data_processing.py:84-85 | The targets of a split hold each row's scaled rating at the row's position. |
| DataProcessing.SplitDataOutcome | src/data_processing.py:76-88 | Raises and changes nothing without a table, with unaccepted weights or without both indices. Otherwise it sets the input arrays from the two sides. Without a scaled column it raises after that, keeping the old targets. With one, it sets paired targets, and the two sides share out all rows. |
| DataProcessing.ArtifactsOf | src/data_processing.py:92-106 | The eight dumps in source order: the four mapping files under the output directory, then the four array files. |
| DataProcessing.FileStem | src/data_processing.py:93-100 | The key of each mapping in the `artifacts` dictionary, which is also its file name before `.pkl`. |
| DataProcessing.Store | src/data_processing.py:99-106 | The output locations after the first n dumps, each dump replacing what its place held. |
| DataProcessing.FailureFrom | src/data_processing.py:99-106 | The first failing dump from a position on: no dump before it fails, and it fails unless it is past the last dump. |
| DataProcessing.FirstFailure | src/data_processing.py:99-106 | Where the dump sequence stops: the first dump that raises, or the number of dumps when none does (`FirstFailureAt` characterises it). |
| DataProcessing.FirstFailureAt | src/data_processing.py:99-106 | The first failing dump is at `k` when no earlier dump fails and the dump at `k`, if any, does. |
| DataProcessing.StoreHolds | src/data_processing.py:99-106 | After dumps to distinct places, each place written holds its artifact. |
| DataProcessing.StoreKeeps | src/data_processing.py:99-106 | A place no dump writes keeps what it held. |
| DataProcessing.StoreWritten | src/data_processing.py:99-106 | After all dumps, every place holds what was written there. |
| DataProcessing.ArtifactsDistinct | src/data_processing.py:92-106 | The eight dumps go to eight different places. |
| DataProcessing.SaveArtifactsOutcome | src/data_processing.py:90-110 | Raises exactly when some dump fails. The disk then holds the dumps before the first failing one. Without a failure every artifact is written. Nothing but the disk changes. |
| DataProcessing.RunOutcome | src/data_processing.py:112-122 | A run keeps the table well formed and the input arrays paired. |
| DataProcessing.RunTrace | src/data_processing.py:112-122 | The stages invoked are a non-empty prefix of load, filter, scale, encode, split, save. A run that raises nothing invokes all six. A run that raises stops at the stage that raised, which is never filtering. |
| DataProcessing.RunStopsAtScale | src/data_processing.py:112-122 | When fitting the scaler raises, a run that loads its CSV invokes load, filter and scale only and logs the scaling failure. It leaves the filtered table and changes neither the arrays nor the disk. |
| DataProcessing.RunSplitsFilteredRows | src/data_processing.py:112-119 | A run that raises nothing leaves all four arrays set and paired. Train and test targets together number the rows of the users with at least 400 ratings. |
| DataProcessing.RunKeepsDictionaries | src/data_processing.py:112-119 | A run never changes the four dictionaries. |
| DataProcessing.RunWritesArtifacts | src/data_processing.py:112-119 | A run that raises nothing has written all eight artifacts from the final state. |
| DataProcessing.SavedMapping | src/data_processing.py:92-100 | A written mapping file holds the dictionary of the same name. |
| DataProcessing.RunSavesEmptyMappings | src/data_processing.py:27-30 | From a fresh processor's empty dictionaries, a run that raises nothing saves each of the four mapping files as an empty mapping. |
| PosterStrip.EndsWith | poster_strip_generator.py:14 | Python's `str.endswith` for one suffix. |
| PosterStrip.IsImageFile | poster_strip_generator.py:14 | The extension test: the name ends in .png, .jpg or .jpeg. |
| PosterStrip.ImageNames | poster_strip_generator.py:12-15 | Keeps exactly the listing entries ending in .png, .jpg or .jpeg, each as often as the listing has it. |
| PosterStrip.StrLessEq | poster_strip_generator.py:12 | Python's `<=` on strings: code point by code point, a proper prefix first. |
| PosterStrip.Insert | poster_strip_generator.py:12 | Insertion of one name into a sorted list, before the first name it does not exceed. |
| PosterStrip.Sort | poster_strip_generator.py:12 | The list `sorted` returns, built by insertion. |
| PosterStrip.SortSorted | poster_strip_generator.py:12 | `sorted` gives an ordered permutation of its input, under Python's string order. |
| PosterStrip.SelectImageFiles | poster_strip_generator.py:12-15 | The selected list is sorted and holds each image name exactly as often as the listing does, and nothing else. |
| PosterStrip.ChunksFrom | poster_strip_generator.py:18-20 | The slices `lst[i:i + n]` the generator yields from position i on, the last one cut at the end of the list. |
| PosterStrip.Chunkify | poster_strip_generator.py:18-20 | With a positive step, the chunks concatenate back to the list. There are ceil(len / n) chunks, each non-empty with at most n items, and all but the last have exactly n. A zero step raises and a negative one yields nothing. |
| PosterStrip.Widths | poster_strip_generator.py:35 | The widths of the resized posters of a chunk, in order. |
| PosterStrip.Sum | poster_strip_generator.py:35 | Python's `sum` of the widths. |
| PosterStrip.TotalWidth | poster_strip_generator.py:35 | The strip width: the sum of the widths plus one spacing per poster but the first. |
| PosterStrip.Offset | poster_strip_generator.py:38-41 | Where poster k is pasted: the widths of the posters before it plus one spacing for each of them. |
| PosterStrip.Layout | poster_strip_generator.py:35-41 | The strip of a chunk in closed form: total width, height 200, and each poster pasted at its offset and height 0. |
| PosterStrip.OffsetsApart | poster_strip_generator.py:38-41 | Each poster's paste offset is at least the previous offset plus its width plus the spacing. |
| PosterStrip.StripGeometry | poster_strip_generator.py:35-41 | The strip width is the sum of the widths plus one spacing per gap, and is non-negative. The first poster is at 0, posters never overlap, and the last ends exactly at the right edge. |
| PosterStrip.Resized | poster_strip_generator.py:29-33 | Each file of a chunk as an image of its resized width and height 200, in order. |
| PosterStrip.LoadImages | poster_strip_generator.py:26-33 | The append loop gives each file of the chunk, in order, resized to height 200 with its resized width. |
| PosterStrip.ComposeStrip | poster_strip_generator.py:35-41 | The paste loop, advancing `x_offset` step by step, produces exactly the closed-form layout. |
| PosterStrip.ComposeChunks | poster_strip_generator.py:25-43 | The loop over the chunks makes one strip per chunk, in chunk order, each the layout of its resized posters. |
| PosterStrip.GenerateStrips | poster_strip_generator.py:12-43 | The whole script gives ceil(files / 8) strips whose chunks concatenate to the sorted image files. Each strip is the layout of its chunk, has 1 to 8 posters and a non-negative width. |
| AnimeInfo.DataOrEmpty | pipeline/anime_info.py:21 | `body.get("data", [])`: the list of a decoded body, or none when the key is absent. |
| AnimeInfo.Truncate | pipeline/anime_info.py:26 | A review of at most 350 characters is kept. One of 351 to 500 is cut to 350. A longer one is cut to 350 and gets "...". |
| AnimeInfo.TruncateBounds | pipeline/anime_info.py:26 | A shaped review is at most 353 characters and starts with the first min(350, len) characters of the original. |
| AnimeInfo.CutWithoutMark | pipeline/anime_info.py:26 | A review of 351 to 500 characters is shown exactly as its first 350 characters would be, so it differs from the original without a mark. |
| AnimeInfo.IsSample | pipeline/anime_info.py:22 | The positions `random.sample(population, k)` may pick: `k` of them, distinct and in range. `ReviewList` and `GetAnimeInfo` take `k` as min(6, available), the sample size of line 22. |
| AnimeInfo.ShapeReview | pipeline/anime_info.py:23-27 | One review card: the reviewer's name, the score and the truncated text. |
| AnimeInfo.ReviewList | pipeline/anime_info.py:22-27 | There are min(6, available) review cards. Each shapes the review at a distinct sampled position, in sampling order. |
| AnimeInfo.SimilarList | pipeline/anime_info.py:31-37 | The similar list holds the first min(6, n) recommendations, in order, with their title, image and id. |
| AnimeInfo.GenreNames | pipeline/anime_info.py:43 | The genre names in the same order and number as the genre entries, and none when the key is absent. |
| AnimeInfo.TrailerUrl | pipeline/anime_info.py:46 | The trailer's `url`, or none when the trailer object or its url is absent. |
| AnimeInfo.GetAnimeInfo | pipeline/anime_info.py:3-49 | The result is `None` exactly when the search status is not 200 or found nothing. Otherwise every field is taken from the first hit, with the review, recommendation and genre lists as above. |

## Left out

- Spark sessions and reading the CSV (src/data_processing.py:38-39) are I/O. The selected rows, or the failure to read them, are an input.
- `usecols` is fixed to the three columns `run` passes.
- Row order: Spark promises no order for the join or for `randomSplit`. The model keeps table order.
- Runtime failures of Spark's `groupby`, `join` and `select` other than a missing table or a missing column are not modelled.
- `filter_users` can therefore only raise when there is no table, so `run` is proved never to stop at filtering.
- ScaleStep: models the min-max transform the stage is written for, with fitting failure as the input `scaleFitFails`. On Spark, fitting MinMaxScaler on the plain numeric `rating` column raises, so for the program as written `scaleFitFails` is always true whenever there is a table. Every run that loads then stops at scaling (`RunStopsAtScale`). The success-path lemmas `RunSplitsFilteredRows`, `RunWritesArtifacts` and `RunSavesEmptyMappings` describe the behaviour intended with a vector column.
- The scaled ratings are exact reals, not doubles.
- StringIndexer's label order is library-defined, so the fitted labels are an input map. `DenseUserIndexing` and `DenseAnimeIndexing` state what dense labels give.
- The indices are naturals where Spark gives doubles.
- The converse of a dense index (every index below the label count is used) is not stated.
- `randomSplit`'s seeded generator is replaced by an arbitrary set of test positions. The split is therefore not reproducible in the model, and its proportions are not modelled.
- SaveArtifactsOutcome: treats a failing dump as writing nothing, so the failing place keeps its old content. `joblib.dump` opens its file for writing before pickling, so a dump that fails part-way leaves that file truncated or partly written. The model does not capture this.
- joblib and the path constants of the configuration (src/data_processing.py:100-106) are disk I/O. The output locations are a map from place to artifact, and the failing places are an input.
- Logging is left out throughout. The exception `run` logs is returned instead.
- `os.makedirs` in the constructor is left out.
- `input_file` is kept as a field but the file is not read.
- `anime_df` is set to `None` and never used, so it is a constant.
- application.py is not part of this model: it is Flask routes, form handling and template rendering.
- The HTTP requests of `get_anime_info` are left out. The status and decoded bodies are inputs, and a missing `data` key of the review and recommendation bodies is the `None` case of those inputs.
- `random.sample` is modelled by the positions it picks. `IsSample` requires them to be distinct and in range; the callers fix their number at min(6, available).
- Keys the code reads by indexing (`mal_id`, `images`, `url`, the review and entry fields) are always present in the model. The `KeyError` a missing one would raise is left out.
- JSON `null` values are not represented. With `"trailer": null` the source raises `AttributeError` at pipeline/anime_info.py:46, and with `"genres": null` it raises `TypeError` at :43. The model has only absent keys, for which it returns a result.
- PIL's image opening, RGB conversion, resizing and saving are left out. Each poster's resized width `int(img.width * ratio)` is an input function, since it is floating-point work.
- The strip files `strip{idx}.png` are the positions of the returned sequence.
- The confirmation `print` is left out.
- `STRIPS` is declared by the script and never read. It is kept as a constant only.
