# GenreGenetics track-gene engine in Dafny

GenreGenetics reads a listener's recently played and top tracks from the
Spotify catalog. It gives each track a four-letter "gene" from its audio
features, one letter per axis:

- energy: High or Low;
- mood: Positive or Negative (the track's mode);
- tempo: Fast or Slow;
- instrumentation: Electronic or Acoustic.

It then summarises a listener by those genes: the overall gene, each
gene's share, the examples of a trait, and recommendation seeds drawn from
the tracks of one gene.

The engine exists twice:
- class `UserGenes` in `src/UserGenes.py` builds its own track records;
- the older class `UserPreferences` in `userPreference.py` works on the raw
  top-track items and calls the code a "preference".

A few helpers in `src/functions.py` prepare the tables the web front end
shows and sends to a summary model.

The project has six modules:

| module | file | contents |
|---|---|---|
| `Wrappers` | `wrappers.dfy` | `Option`, `Result` and the Python exceptions the code can raise (`KeyError`, `IndexError`, `TypeError`, `AttributeError`, `ValueError`); `Collect`, the append loop that stops at the first exception |
| `Frame` | `frame.dfy` | the pandas operations the engine relies on, over sequences of rows: column extraction, boolean filtering, inner merge, `drop_duplicates(keep="first")`, `unique`, the first-appearance tally, `value_counts` as percentages, `nlargest`/`nsmallest`, the mean, and `", ".join` |
| `Catalog` | `catalog.dfy` | the catalog service's track, artist and audio-feature records, and the trait-to-column table |
| `Genes` | `genes.dfy` | `src/UserGenes.py`: the classifier, record assembly, library flags, the merge that adds genes, the readers, the recommendation seeds and the card list, with class `UserGenes` holding the fields the source reassigns |
| `Preferences` | `preferences.dfy` | `userPreference.py`: class `UserPreferences` with its `topTracks`, `df`, `audioFeaturesDF` and `readablePreferences` fields |
| `Functions` | `functions.dfy` | `src/functions.py` |

## How the model is shaped

**Tables.** A pandas frame whose columns depend on how far it has been
built is a datatype with one constructor per stage:
- `Genes.Table` is `Unset | Info | Flagged | Enriched`;
- `Preferences.Table` is `Unset | Items | Scored`.

Reading a column the stage lacks is the `KeyError` pandas raises, and
indexing `None` is the `TypeError`. A table built from no tracks has no
columns at all; the model keeps this as the empty `Info`/`Items` table,
so selections on it report every column missing.

**Network calls become inputs.** Every catalog call is a parameter:
- the tracks and artists returned for a set of ids;
- the library flags;
- the audio features;
- the recommended tracks.

A `CatalogResponse` bundles the answers used to build one table.

**`self.df` in `UserGenes`.** `getOverallGenes`, `getGeneCounts`,
`getGeneExamples` and `getExamplesByGene` read `self.df`, which class
`UserGenes` never assigns. They are modelled as functions of an explicit
gene table, in the way `UserPreferences` reads its own `df` field.

**The merge is many-to-many.** pandas' inner merge pairs every row with
every feature row of the same id. A track listed `a` times, with `b`
feature rows, gives `a * b` rows (`Genes.MergeMultiplies`). Deduplicating
ids first, as `UserPreferences` does, means the merge never adds rows
(`Preferences.ScoredRowsAfterDedup`).

**Artist names: list or tuple.** `artistNames` holds a Python list until
`get_selected_dataframe` turns it into a tuple in place. A list cell makes
`drop_duplicates` raise `TypeError: unhashable type: 'list'`. So on a non-empty table
`getRecentlyPlayedForCard` only succeeds once
`get_selected_dataframe` has converted the names; an empty table gives no
cards without any conversion, since `drop_duplicates` returns at once on it (`Functions.SelectionEnablesCards`).

**Random draws.** `Series.sample` is a nondeterministic choice of distinct
positions, bounded as the source bounds it.

## Model

| member | source | states |
|---|---|---|
| Genes.CalculateGene | src/UserGenes.py:118-123 | the code is four letters from {H,L}×{P,N}×{F,S}×{E,A}; each letter is decided by one strict threshold (energy > 0.5, mode > 0.49, tempo > 100, acousticness < 0.5), in both directions |
| Genes.EveryCodeOccurs | src/UserGenes.py:118-123 | every one of the sixteen codes is produced by some feature row |
| Genes.SameGeneSameSides | src/UserGenes.py:118-123 | two feature rows get the same code exactly when they lie on the same side of all four thresholds |
| Genes.ThresholdBoundaries | src/UserGenes.py:119-122 | values equal to the thresholds take the second letter (0.5 / 0 / 100 / 0.5 give "LNSA"); values just across give "HPFE" |
| Genes.Digits | src/UserGenes.py:84-85 | the decimal text of a natural number is non-empty, all digits, with no leading zero |
| Genes.DigitsRoundTrip | src/UserGenes.py:84-85 | reading the digits back gives the number |
| Genes.DecimalRoundTrip | src/UserGenes.py:84-85 | reading the signed decimal text back gives the integer |
| Genes.FormattedNumbersRoundTrip | src/UserGenes.py:84-94 | "<n> (0-100)" and "<n> ms" end with their suffix, and their prefix reads back as n |
| Genes.ArtistInfoDict | src/UserGenes.py:65-71 | the artist-info map is keyed by exactly the returned artist ids; for a repeated id the last entry wins |
| Genes.ArtistIdsMembers | src/UserGenes.py:65-71 | an id is a key of the map exactly when some returned artist has it |
| Genes.TrackRecord | src/UserGenes.py:75-97 | a track with no artists, or no album image, is an index error; a first artist missing from the map is a key error on its id; a record is built exactly when none of these happens |
| Genes.ArtistNamesOf | src/UserGenes.py:76 | the names of all the track's artists, in order |
| Genes.ArtistLinksOf | src/UserGenes.py:77-79 | the links of all the track's artists, in order |
| Genes.TrackRecordFields | src/UserGenes.py:81-96 | every field of a built record: id, name, explicit flag and link of the track; album name, type and release date; names and links of all artists pointwise; the first artist's id, genres and formatted popularity; the formatted track popularity and duration; the first cover image |
| Genes.TrackInfoRows | src/UserGenes.py:75-100 | one record per track in input order, with no deduplication, whenever the table succeeds |
| Genes.TrackInfoRowsOk | src/UserGenes.py:75-98 | the table succeeds exactly when every track's record does |
| Genes.TrackInfoRowsRecords | src/UserGenes.py:75-98 | a table that succeeds holds each track's own record at the track's position |
| Genes.FirstFailingRecord | src/UserGenes.py:75-98 | the table's error is the error of the first track whose record fails |
| Genes.CreateTrackInfoDataFrame | src/UserGenes.py:57-101 | the append loop builds exactly the records of the tracks, or raises the first record's error |
| Genes.CompleteResponseBuilds | src/UserGenes.py:57-101 | when every track has an artist and an image and its first artist was returned, the table has one record per track |
| Genes.WithLibraryFlags | src/UserGenes.py:38-41 | writing the library flags fails with a key error on a table without columns, and with a value error when the flag list has another length; otherwise every row gets its own flag |
| Genes.AddGeneColumn | src/UserGenes.py:237-238 | every row keeps its fields and gets the gene of its own features |
| Genes.MergedRows | src/UserGenes.py:108-115 | the merge holds exactly the pairs of a flagged row and a feature row with equal ids, each with its gene; its size is the join size |
| Genes.Merge | src/UserGenes.py:108-115 | merging with an empty feature list is a key error on "id"; otherwise it is the merged rows |
| Genes.AddColumns | src/UserGenes.py:38-41 | succeeds exactly when the table and the feature list are non-empty and the flags fit; then every row carries its gene, its own features, its id and its flag, every pair of a record and a feature row with the same id is present, and there are as many rows as matching pairs |
| Genes.MergeMultiplies | src/UserGenes.py:112 | a track listed a times with b feature rows of its id gives a·b merged rows |
| Genes.GetOverallGenes | src/UserGenes.py:125-133 | the gene of the column means: each letter compares the column sum with threshold × row count; an empty table gives "LNSA" |
| Genes.UnanimousSums | src/UserGenes.py:125-133 | when every row carries gene g, each column sum lies on the side of its threshold that g's letter names |
| Genes.UnanimousTableKeepsGene | src/UserGenes.py:125-133 | a table whose rows all carry gene g has overall gene g |
| Genes.GetGeneCounts | src/UserGenes.py:135-140 | each listed gene's share is count / rows × 100 and positive; genes are distinct and in non-increasing share; every gene of the table is listed; over a non-empty table the shares add up to 100 |
| Genes.GetExamplesByGene | src/UserGenes.py:171-172 | exactly the rows of that gene, in table order; their number is the gene's count |
| Genes.ExampleRows | src/UserGenes.py:158-164 | each row's name and first artist under a label; a row without artists is an index error |
| Genes.GetGeneExamples | src/UserGenes.py:147-169 | an unknown trait is a key error; otherwise up to three rows with the largest value of the trait's column, largest first and the earliest rows among equal values, labelled Top, then the earliest row with the smallest value, labelled Contrary |
| Genes.GetGeneExamplesAsWritten | src/UserGenes.py:147-169 | the code as written never yields examples: an unknown trait fails as in the corrected reader, and every known trait is a key error, since the gene table has no "name" or "artists" column |
| Genes.GeneExamplesCounterexample | src/UserGenes.py:158-163 | on a one-track table the written reader fails while the corrected one returns a Top and a Contrary example |
| Genes.GetGeneDataFromDF | src/UserGenes.py:174-183 | one entry per distinct gene, listed in the order the genes first appear in the table, each with a positive count; every gene of the table is listed and the counts add up to the number of rows |
| Genes.SampleRows | src/UserGenes.py:200-221 | min(2, n) distinct positions among n rows |
| Genes.UserGenes.constructor | src/UserGenes.py:11-22 | all tables and the remembered features start unset |
| Genes.UserGenes.MergeAudioFeatures | src/UserGenes.py:108-115 | remembers the feature list, then returns the merge |
| Genes.UserGenes.AddColumnsToDF | src/UserGenes.py:38-41 | returns the flagged and merged table; the feature list is remembered only when writing the flags succeeded |
| Genes.UserGenes.InitTracksDF | src/UserGenes.py:29-35 | builds the recent, then the top records, then completes each; a failing step leaves each field as the earlier steps set it, including the flags written in place before a failed merge |
| Genes.UserGenes.GetRecommendationsByGene | src/UserGenes.py:185-235 | a None gene is a value error (the empty string is not rejected); readableGenes becomes exactly the matching rows; no match returns []; otherwise min(2, n) seed artists from distinct matching rows; an empty genre pool for them is a value error; the request carries those artists, min(2, n) seed tracks from distinct matching rows and the limit; and the recommended tracks are built and completed like any table |
| Genes.Cards | src/UserGenes.py:240-260 | a list-valued artist-name cell is "unhashable type: 'list'"; otherwise one card per distinct (track name, artist names), made from the first row with that key, the cards in the order the keys first appear, with the artists joined by ", " |
| Genes.UserGenes.GetRecentlyPlayedForCard | src/UserGenes.py:240-260 | an unloaded table is a type error and a table without genes a key error; a list-valued artist-name cell is "unhashable type: 'list'"; otherwise one card per distinct (track name, artist names), made from the first row with that key, in the order the keys first appear, artists joined by ", " |
| Preferences.CalculatePreference | userPreference.py:110-115 | the same four strict thresholds, in both directions |
| Preferences.PreferenceIsGene | userPreference.py:110-115 | the preference code equals the gene code for every feature row |
| Preferences.DedupById | userPreference.py:108 | the first item of each id, in the order the ids first appear: a subsequence with unique ids that keeps every id |
| Preferences.AddPreferenceColumn | userPreference.py:117-118 | every row keeps its item and features and gets the preference of its own features |
| Preferences.ScoredRows | userPreference.py:41-42 | the merged table has one row per pair of an item and a feature row with equal ids |
| Preferences.ScoredRowsSound | userPreference.py:41-42 | every merged row pairs an item with a feature row of the same id and is scored by its own features |
| Preferences.ScoredRowsComplete | userPreference.py:41-42 | every pair of an item and a feature row with equal ids is in the merged table |
| Preferences.ScoredRowsAfterDedup | userPreference.py:38-42 | with the items deduplicated and feature ids unique, the merge has no more rows than the items |
| Preferences.ExampleRows | userPreference.py:77-84 | each row's name and first artist object under a label; a row without artists is an index error |
| Preferences.ExamplesOfTrait | userPreference.py:76-88 | up to three rows with the largest value of the column, largest first and the earliest rows among equal values, labelled Top, then the earliest row with the smallest value, labelled Contrary; a row without artists is an index error |
| Preferences.PrettyRows | userPreference.py:121-128 | one readable row per table row: name, first artist's name and link, preference, song link; a row without artists is an index error |
| Preferences.PrettyRowsOfPreference | userPreference.py:120-130 | filtering the readable rows by preference equals making the rows of that preference readable |
| Preferences.UserPreferences.constructor | userPreference.py:11-24 | nothing is loaded |
| Preferences.UserPreferences.CreateDataframe | userPreference.py:106-108 | the items become the table with repeated ids dropped, and no items an empty table without error (drop_duplicates returns at once on an empty table); an unset response is a type error |
| Preferences.UserPreferences.GetTopTracks | userPreference.py:34-36 | stores the items, then builds the deduplicated table; it never fails, even on no items |
| Preferences.UserPreferences.GetAudioFeatures | userPreference.py:38-42 | an unloaded table is a type error; otherwise the features are remembered and the table becomes the scored merge; no features is a key error on "id" |
| Preferences.UserPreferences.InitTopTracksDF | userPreference.py:30-32 | the deduplicated items merged with their features and scored; no items fail with a key error on "id" when the features are requested, leaving the empty table and the old feature list |
| Preferences.UserPreferences.GetOverallPreferences | userPreference.py:44-52 | the code of the column means, each letter as the column sum against threshold × row count; a table without features is a key error on "energy" |
| Preferences.UserPreferences.GetPreferenceCounts | userPreference.py:54-59 | each preference's share is count / rows × 100 and positive, distinct, non-increasing, covering every row, adding up to 100 |
| Preferences.UserPreferences.GetExamplesByPreference | userPreference.py:90-91 | exactly the rows of that preference, in table order, as many as the preference's count; an unloaded table is a type error and an unscored one a key error |
| Preferences.UserPreferences.GetPreferenceData | userPreference.py:93-104 | one entry per distinct preference, listed in the order the preferences first appear in the table, with positive counts adding up to the row count |
| Preferences.UserPreferences.GetPreferenceExamples | userPreference.py:66-88 | an unknown trait is a key error before the table is read; an unloaded table has no nlargest; a table without features lacks the column; otherwise the trait's examples |
| Preferences.UserPreferences.GetPrettyGenreDF | userPreference.py:120-130 | stores the readable projection of the whole table and returns its rows of one preference |
| Frame.SelectEqSound | src/UserGenes.py:172 | a boolean filter: a subsequence holding exactly the rows with that key, as many as the key's count |
| Frame.InnerJoin | src/UserGenes.py:112 | the inner merge holds exactly the pairs with equal keys |
| Frame.InnerJoinSize | src/UserGenes.py:112 | the merge has one row per matching pair |
| Frame.InnerJoinUniqueRight | userPreference.py:41 | with unique keys on the right, the merge has at most as many rows as the left |
| Frame.KeepFirstFrom | userPreference.py:108 | the walk behind drop_duplicates never keeps a row whose key it has already seen |
| Frame.FirstPosIsFirst | userPreference.py:108 | no row before the first position of a key carries that key |
| Frame.KeepFirstFromSubsequence | userPreference.py:108 | the kept rows are a subsequence of the input |
| Frame.KeepFirstFromDistinct | userPreference.py:108 | no two kept rows share a key, nor any kept row a key already seen |
| Frame.KeepFirstFromCovers | userPreference.py:108 | every key of the input not already seen is kept |
| Frame.KeepFirstFromEarliest | userPreference.py:108 | each kept row is the first row of the input with its key |
| Frame.KeepFirstFromOrder | userPreference.py:108 | the kept rows are in the order their keys first appear in the input |
| Frame.KeepFirstKept | userPreference.py:108 | drop_duplicates keep="first": a subsequence with distinct keys, every key represented by the first row that has it, in order of first appearance |
| Frame.UniqueProperties | src/UserGenes.py:176 | unique() is a duplicate-free subsequence with the same members, in order of first appearance |
| Frame.TallyOfRows | src/UserGenes.py:176-182 | the tally of a column read from rows has positive counts and distinct values, lists every row's value, and its counts add up to the row count |
| Frame.TallyRowStep | src/UserGenes.py:178-182 | counting the rows a filter keeps for the next value extends the tally by that value's count |
| Frame.TallyProperties | src/UserGenes.py:176-182 | the tally lists each distinct value once with its positive count, every value of the input is listed, and the counts add up to the length |
| Frame.TallyOrder | src/UserGenes.py:176-182 | the tally lists the values in the order they first appear |
| Frame.TallyOfRowsOrder | src/UserGenes.py:176-182 | the tally of a column read from rows lists the values in the order they first appear among the rows |
| Frame.SortDesc | src/UserGenes.py:138 | value_counts order: a permutation sorted by descending count |
| Frame.InsertDescPerm | src/UserGenes.py:138 | one insertion step of the sort adds exactly the inserted row |
| Frame.InsertSelect | src/UserGenes.py:158 | an inserted row goes before every row of equal metric |
| Frame.SortSelect | src/UserGenes.py:158 | the sort is stable: the rows of any one metric value keep their input order |
| Frame.SelectPrefix | src/UserGenes.py:158 | filtering a prefix gives a prefix of the filtered rows |
| Frame.NLargest | src/UserGenes.py:158 | nlargest(n): min(n, rows) rows, sorted descending, drawn from the rows, none smaller than a row left out; for every value, the chosen rows with that value are the earliest input rows with it, in input order (keep="first") |
| Frame.MinIndex | src/UserGenes.py:163 | the first position of the smallest value |
| Frame.NSmallestOne | src/UserGenes.py:163 | nsmallest(1): the earliest row holding the minimum, none for an empty table |
| Frame.SumPercentages | src/UserGenes.py:139 | the percentages add up to total count / rows × 100 |
| Frame.ShareBounds | src/UserGenes.py:139 | a positive count has a positive share, a larger count a share at least as large, and all the rows 100 |
| Frame.SharesSound | src/UserGenes.py:136-140 | the percentages of the sorted tally are positive, distinct, non-increasing, cover the column and add up to 100 |
| Frame.Shares | src/UserGenes.py:136-140 | value_counts as percentages: positive, distinct, non-increasing, covering the column, adding up to 100 |
| Frame.MeanCompared | src/UserGenes.py:126-131 | the mean is above (below) a threshold exactly when the sum is above (below) threshold × count |
| Wrappers.Collect | src/UserGenes.py:75-98 | a loop that appends each element's result, stopping at the first raise, gives one result per element |
| Wrappers.CollectOk | src/UserGenes.py:75-98 | collecting succeeds exactly when every element's step does |
| Wrappers.CollectValues | src/UserGenes.py:75-98 | what collecting yields is each element's own result, in order |
| Wrappers.CollectFirstError | src/UserGenes.py:75-98 | collecting raises the error of the first element whose step raises |
| Frame.JoinStrings | src/UserGenes.py:253 | joining no names gives "", one name gives that name |
| Frame.JoinStringsSnoc | src/UserGenes.py:253 | joining one more name appends ", " and the name to the join so far |
| Catalog.TraitColumn | src/UserGenes.py:148-155 | exactly the traits energy, mood, tempo and instrumentation have a column: energy reads energy, mood valence, tempo tempo and instrumentation instrumentalness |
| Functions.InitUser | src/functions.py:12-15 | a new user whose tables are complete exactly when every step succeeded |
| Functions.TupleKeysCompareNames | src/functions.py:23 | after the conversion two rows share a deduplication key exactly when their track names and artist names are equal, whichever container the names came in |
| Functions.WithTupleNames | src/functions.py:23 | the same rows, in the same number, each with its artist names as a tuple and nothing else changed |
| Functions.DropDuplicateSongs | src/functions.py:25 | the first row of each (track name, artist names), with no key repeated, every key kept, and the rows in the order the keys first appear |
| Functions.Deduplicated | src/functions.py:25 | at every table stage, a table of the same stage holding the first row of each song, in the order the songs first appear |
| Functions.GetSelectedDataframe | src/functions.py:18-26 | converts the user's recent table's names to tuples in place, then returns the deduplicated copy; an unset table is a type error and a table without columns a key error on "artistNames" |
| Functions.SelectionEnablesCards | src/functions.py:23 | once the names are tuples, the card list of src/UserGenes.py:240-260 succeeds with no more cards than rows |
| Functions.PromptIgnoresGenre | src/functions.py:29-42 | the prompt is the same whatever genre is passed |
| Functions.GetGptSummaryDataframe | src/functions.py:45-65 | the sixteen listed columns of the first min(20, n) rows; a table without features and genes lacks five of them, a table without columns all |
| Functions.SummaryOfSelectionDistinct | src/functions.py:18-65 | the summary of a selected table has at most 20 rows and no song twice |
| Functions.TupleNamesKeepSongs | src/functions.py:23 | converting the names to tuples keeps every song's name and artist names |
| Functions.SummaryOfSelectionFromTable | src/functions.py:18-65 | every song the summary names is a song of the user's table |

## Left out

- Network and authentication: OAuth setup, `authenticate`, and every catalog call. Their answers are parameters.
- `getTopTracks` and `getRecentlyPlayed` in `src/UserGenes.py`, and `getRecentlyPlayed` in `userPreference.py`: they only fetch ids or rename the fields of a catalog answer. The model starts from the fetched tracks.
- `getTopTracksForCard`: a field renaming of the top table, with no logic beyond the column selection that the recent-card list models.
- `getGeneBySongID`: a catalog call followed by `CalculateGene`.
- The genre-tag draw in `getRecommendationsByGene`: the model draws nothing from the pooled genres. The pool is built only to decide whether `sample(n=min(1, len(seed_genre)))` fails on an empty pool. Which genre would be drawn is left out, because the result is never sent with the request.
- The CSV write of the audio features, and the `display*` printers.
- The Flask routes, the browser scripts, and the summary-model client together with `load_env_variables`.
- Audio-feature entries that the catalog returns as `None`: the feature list is modelled as records only.
- `None` entries in the catalog's track or artist answers (an unknown id): `createTrackInfoDataFrame` would raise a `TypeError` on subscripting them (src/UserGenes.py:58-60 and 66). The answers are modelled as lists of records, so this error path is not modelled.
- pandas' `_x`/`_y` suffixes on merged columns that both sides share. No reader modelled here uses those columns.
- The row order of the merge in pandas versions before 2.2, which group rows with equal keys: the model keeps the left table's order.
- The order among genes with equal counts in `value_counts`, which pandas leaves unspecified: the model keeps first-appearance order.
- `Frame.Shares` and `Genes.GetGeneCounts`: they do not state that equal counts keep first-appearance order.
- `apply` over an empty merged table: pandas returns an empty frame whose assignment as a column depends on the pandas version. The model gives an empty table the empty gene or preference column.
- `Preferences.UserPreferences.GetAudioFeatures`: requires that the table has not been scored yet. A second call would merge the features again, and pandas would suffix the colliding feature columns. Its only caller runs it once, straight after the items are loaded.
- `Preferences.UserPreferences.GetPrettyGenreDF`: on an empty scored table, the model returns the empty projection without going through pandas' `apply`.
- Floating point: features are reals, and only exact comparisons with the thresholds and the mean are involved. Percentages are exact rationals.
- The catalog's limit of 50 ids per request. `userPreference.py` asks for 100 top tracks, which the service refuses.

## Findings

| source | as written | input that shows it | evidently intended | confidence | as-written member | corrected member |
|---|---|---|---|---|---|---|
| src/UserGenes.py:158-163 | `getGeneExamples` selects the columns "name" and "artists", which the gene table built by `createTrackInfoDataFrame` does not have; every known trait raises a key error | any gene table, e.g. one track, with trait "energy" | select "trackName" and the first of "artistNames", as the table provides them | not executed | Genes.GetGeneExamplesAsWritten | Genes.GetGeneExamples |
