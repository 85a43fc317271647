# itemie survey core in Dafny

This project models the core of **itemie**, a small Python library for analysing survey responses.

A response table maps column names to one cell per respondent. An **item** reads one column by its key. It passes the column through an optional **converter**, then keeps:

- the *fitted* slots (`_raw_fitted`, `_converted_fitted`), written by `fit`;
- the *current* slots (`_raw`, `_converted`), written by `transform`.

The item classes differ as follows:

- A `NumericItem` also keeps the mean, variance, maximum, minimum and standard error of the fitted numbers. These are taken after negating and offsetting the numbers when the item has a `reverse_offset`.
- A `PhraseCount` counts the phrases of its current column.
- A `MultiCodedItem` can flatten list-valued answers (`linearised`).

Items are organised as follows:

- A **group** is an insertion-ordered registry of items and other groups. It broadcasts `fit`, `transform` and `fit_transform` to its members in order, stops at the first member that raises, and assembles what they return as an array, a dict or a data frame.
- A **survey** is a flat registry of everything added to it, with groups' members registered depth first. It runs the three operations on every registered member, naming the member whose run raised.
- `batch.subitems` builds many items of one class from parallel lists of names, keys and keyword arguments.

The model keeps the library's quirks as written:

- Members with the same name replace each other silently.
- `add` with anything but a list or tuple raises `NameError`, because it refers to an undefined variable `item`.
- A phrase that is not in the vocabulary ends one below its number of occurrences.
- A `NumericItem`'s `_post_transform` computes the reversed series and drops it, so `normalised` works on the unreversed numbers against the reversed minimum.
- `values(typ=None)`, the default of `Survey.item_data_dict` and `NumericGroup.values`, is not understood by any item and raises `ValueError`.

## Module layout

- `Wrappers` (`wrappers.dfy`): `Option`, `Result`, `Outcome`, and `Slot` (an attribute not yet assigned).
- `Values` (`values.dfy`): cells, columns (pandas Series, numpy array or list), tables, Python exceptions.
- `Convert` (`convert.dfy`): `itemie/core/convert.py`.
- `Stats` (`stats.dfy`): the numpy statistics `item.py` and `group.py` use, on `real` with NaN as `None`.
- `Linearise` (`linearise.dfy`): `MultiCodedItem.linearised`.
- `Phrases` (`phrases.dfy`): `PhraseCount._count`.
- `Items` (`items.dfy`): `itemie/core/item.py`: an `Item` class with the instance attributes as fields, and methods proved against pure step functions.
- `ItemFacts` (`item_facts.dfy`): properties of items and the repository's test examples.
- `Registry` (`registry.dfy`): insertion-ordered Python dicts.
- `Groups` (`groups.dfy`): `itemie/core/group.py`.
- `Surveys` (`survey.dfy`): `itemie/core/survey.py`.
- `Batch` (`batch.dfy`): `itemie/utils/batch.py`.

The model has no I/O and no clock. A `Function` converter's callable is a parameter: a Dafny function from a cell to a result. The square root that `std`, `sem` and `standardised` need is a parameter `sqrt` as well.

## Model

| member | source | states |
|---|---|---|
| Values.GetColumn | itemie/core/item.py:85-86 | `df[key]` is the key's column as a Series, and raises KeyError naming the key exactly when the key is missing |
| Values.FloatText | itemie/core/item.py:364 | `str(x)` of a float is never empty (its digits are stated by the examples below) |
| Values.Magnitude | itemie/core/item.py:364 | `str(x)` of a float that is not negative is never empty |
| Values.NatText | itemie/core/item.py:364 | a natural number's decimal text is never empty |
| Values.Places | itemie/core/item.py:364 | the number of places is within its bounds, and below the cap it spells the float exactly |
| Values.FloatTextWhole | itemie/core/item.py:364 | `str(1.0)` is "1.0" and `str(2.0)` is "2.0" |
| Values.FloatTextTens | itemie/core/item.py:364 | `str(9.0)` is "9.0" and `str(10.0)` is "10.0" |
| Values.FloatTextHalf | itemie/core/item.py:364 | `str(0.5)` is "0.5" |
| Values.FloatTextLarge | itemie/core/item.py:364 | `str(1e16)` is "1e+16": from there on the text is scientific |
| Convert.Replace | itemie/core/convert.py:26-28 | the lookup comprehension succeeds iff every cell is hashable and a key: then cell `i` becomes `keyvals[data[i]]`; otherwise the first bad cell raises, TypeError (unhashable) for a list or array row and KeyError for an unmapped cell |
| Convert.Apply | itemie/core/convert.py:35-36 | Function succeeds iff the callable succeeds on every cell: then cell `i` becomes `func(data[i])`; otherwise the first cell's exception |
| Convert.Run | itemie/core/convert.py:17-60 | running any converter agrees with `Convert`: BaseConverter raises NotImplementedError, Replacer and Function pass their results through `np.array` as `ArrayOf` states, and Pipeline feeds each stage's output to the next in a loop |
| Convert.Convert | itemie/core/convert.py:17-60 | defines `converter.convert(data)` for each class; its properties are stated by `Run`, `ConvertKeepsLength`, `ConvertContainer` and `PipelineAppend` |
| Convert.ConvertPrefix | itemie/core/convert.py:56-60 | defines what the pipeline loop holds after its first `k` stages; stated by the `Prefix…` lemmas |
| Convert.ArrayOf | itemie/core/convert.py:26-36 | `np.array(results)` succeeds iff no result is a list (one-dimensional) or all are lists of one length (two-dimensional, one row per result), and raises ValueError otherwise; a one-dimensional array keeps the results unless one is a string, in which case every cell becomes text, strings kept and floats as their `str` |
| Convert.Stored | itemie/core/convert.py:28 | an array of text holds every cell as its `str`; any other array holds the cells unchanged |
| Convert.ReplacerMixedResultsAreText | itemie/core/convert.py:26-28 | `Replacer({"a": 1.0, "b": "x"})` on a, b gives the strings "1.0" and "x" |
| Convert.ReplacerRefusesLists | itemie/core/convert.py:26-28 | a list cell raises TypeError: unhashable type: 'list' |
| Convert.FunctionListsBecomeRows | itemie/core/convert.py:35-36 | a callable returning `[v, v]` on 1, 2 gives a two-dimensional array with rows [1, 1] and [2, 2] |
| Convert.FunctionRaggedResults | itemie/core/convert.py:35-36 | a callable returning lists of lengths 1 and 0 makes `np.array` raise ValueError |
| Convert.PrefixFailureSticks | itemie/core/convert.py:58-59 | once a pipeline stage raises, the pipeline raises that exception |
| Convert.ConvertKeepsLength | itemie/core/convert.py:17-60 | a converter that returns gives one cell per input cell |
| Convert.PrefixKeepsLength | itemie/core/convert.py:56-60 | every prefix of a pipeline's loop keeps the length |
| Convert.ConvertContainer | itemie/core/convert.py:17-60 | a converter returns a numpy array, or its input's container when only empty pipelines ran |
| Convert.PrefixContainer | itemie/core/convert.py:56-60 | the same for every prefix of the pipeline loop |
| Convert.PipelineAppend | itemie/core/convert.py:52-60 | `Pipeline(*(a + b))` is `Pipeline(*a)` followed by `Pipeline(*b)`, stopping at an exception |
| Convert.PrefixAppend | itemie/core/convert.py:56-60 | a pipeline of `a + b` after `|a| + k` stages is `a` followed by the first `k` stages of `b` |
| Convert.PrefixOfSame | itemie/core/convert.py:56-60 | two pipelines that agree on their first `k` stages agree after those stages |
| Convert.EmptyPipelineIsIdentity | itemie/core/convert.py:56-60 | a pipeline with no stages returns its input itself |
| Convert.TwoStagePipeline | itemie/core/convert.py:52-60 | `Pipeline(c1, c2).convert(x)` is `c2.convert(c1.convert(x))` |
| Convert.ReplacerExample | test/core/test_convert.py:16-22 | apple, pear, apple, apple, pear become 1.0, 2.0, 1.0, 1.0, 2.0 |
| Convert.ReplacerHasNoFallback | itemie/core/convert.py:26-28 | an unmapped cell raises KeyError naming that cell |
| Stats.Numbers | itemie/core/item.py:304-311 | a column is numeric iff every cell is a number or NaN; the result is those numbers in order |
| Stats.Reversed | itemie/core/item.py:305-306 | `-x + offset` on every cell, keeping NaN, same length |
| Stats.Present | itemie/core/item.py:307-310 | the non-NaN numbers: none exactly when every cell is NaN |
| Stats.NanMean | itemie/core/item.py:307 | `nanmean` is NaN exactly when every cell is NaN |
| Stats.NanMax | itemie/core/item.py:309 | `nanmax` is NaN iff all cells are NaN; otherwise it is a cell that bounds every number from above |
| Stats.NanMin | itemie/core/item.py:310 | `nanmin` is NaN iff all cells are NaN; otherwise it is a cell that bounds every number from below |
| Stats.NanMeanBetween | itemie/core/item.py:307-310 | the mean lies between the minimum and the maximum |
| Stats.PlainMax | itemie/core/item.py:277 | `np.max` propagates NaN: a number iff no cell is NaN, and then the largest cell |
| Stats.Shifted | itemie/core/item.py:276 | `converted - min` cell by cell, NaN on either side giving NaN |
| Stats.Scaled | itemie/core/item.py:277 | `out / top` keeps the length (the cells are stated by `ScaledAt`) |
| Stats.ScaledAt | itemie/core/item.py:277 | cell `i` of `out / top` is `out[i] / top`, NaN staying NaN |
| Stats.ScaledShiftedAt | itemie/core/item.py:276-277 | a number `x` becomes `(x - min) / top` |
| Stats.Normalised | itemie/core/item.py:274-277 | `normalised` raises exactly on a list, or on an empty array; otherwise it returns one cell per cell |
| Stats.NormalisedEndpoints | itemie/core/item.py:274-277 | on complete, non-constant numbers every cell lands in [0, 1], at 0 exactly for the minimum and at 1 exactly for the maximum |
| Stats.NormalisedRange | itemie/core/item.py:274-277 | the same for any bounds `lo < hi` of which `hi` is reached |
| Stats.SeriesRange | itemie/core/item.py:274-277 | on a Series with NaN cells, normalising by any bounds `lo < hi` of the numbers, `hi` reached, puts every number in [0, 1], at 0 exactly for `lo` and at 1 exactly for `hi`, and keeps every NaN |
| Stats.ShiftedNanTop | itemie/core/item.py:276-277 | shifting numbers by their lower bound makes the NaN-skipping maximum the range |
| Stats.NormalisedIsScaled | itemie/core/item.py:274-277 | when both maxima of `out` agree and are non-zero, `normalised` is `out / max(out)` |
| Stats.SeriesNormalisedIsScaled | itemie/core/item.py:274-277 | on a Series the NaN-skipping maximum decides the divisor |
| Stats.ShiftedTop | itemie/core/item.py:276-277 | shifting complete numbers by their minimum makes the range the maximum, with or without NaN skipping |
| Stats.PlainMaxIs | itemie/core/item.py:277 | a complete series bounded by one of its cells has that cell as `np.max` |
| Stats.NanMaxIs | itemie/core/item.py:309 | the same for `nanmax`, with only the numbers bounded |
| Stats.NormalisedSkipsNanOnSeries | itemie/core/item.py:274-277 | on a Series [1, NaN, 3] with minimum 1, `normalised` is [0, NaN, 1] |
| Stats.ShiftedSkipsNan | itemie/core/item.py:276 | [1, NaN, 3] less 1 is [0, NaN, 2], with NaN-skipping maximum 2 |
| Stats.ScaledSkipsNan | itemie/core/item.py:277 | [0, NaN, 2] over 2 is [0, NaN, 1] |
| Stats.NormalisedPropagatesNanOnArray | itemie/core/item.py:274-277 | on an array one NaN makes `np.max` NaN and blanks every cell |
| Stats.NormalisedOfEmpty | itemie/core/item.py:274-277 | an empty array raises; an empty Series gives an empty result |
| Stats.SquaredDeviations | itemie/core/item.py:308 | a sum of squared deviations is never negative |
| Stats.NanVar | itemie/core/item.py:308-311 | the variance with `ddof` is a number iff more than `ddof` cells are numbers, and is never negative |
| Stats.Quotient | itemie/core/item.py:272 | a quotient is a number iff both sides are numbers and the divisor is non-zero, and then it times the divisor gives the dividend |
| Stats.Standardised | itemie/core/item.py:270-272 | `(converted - mean) / std` cell by cell |
| Stats.RowMeans | itemie/core/group.py:118-120 | one mean per respondent |
| Stats.Row | itemie/core/group.py:118-120 | one respondent's cells, one per member |
| Stats.RowMeanMeaning | itemie/core/group.py:118-120 | a respondent's mean is NaN iff all their cells are NaN, and otherwise lies between their smallest and largest value |
| Linearise.Pieces | itemie/core/item.py:161-162 | iterating an answer: a list yields its elements, a string its characters, and anything else has no length |
| Linearise.Repeat | itemie/core/item.py:161 | `[i] * n` is `n` copies of `i` |
| Linearise.Flatten | itemie/core/item.py:161-163 | flattening succeeds iff every answer has a length, and gives as many codes as mapping entries |
| Linearise.Linearised | itemie/core/item.py:157-164 | anything but a Python list raises ValueError naming its type; a list is flattened |
| Linearise.FirstUnsized | itemie/core/item.py:161 | the first answer without a length, before which every answer has one |
| Linearise.FlattenFailure | itemie/core/item.py:161-162 | a failing flatten raises the error of the first answer without a length |
| Linearise.FirstUnsizedPrefix | itemie/core/item.py:161 | the first answer without a length is the same in any prefix that holds one |
| Linearise.FirstUnsizedIsLeast | itemie/core/item.py:161 | an answer without a length that follows only sized answers is the first |
| Linearise.FlattenLength | itemie/core/item.py:161-164 | codes and mapping entries both number the answers' total length |
| Linearise.MappingOrdered | itemie/core/item.py:161-163 | the mapping never decreases, and every entry is an answer's index |
| Linearise.MappingCounts | itemie/core/item.py:161-163 | answer `i` has exactly as many mapping entries as elements |
| Linearise.RepeatCount | itemie/core/item.py:161 | `[i] * n` holds `i` exactly `n` times and nothing else |
| Linearise.CodesComeFromTheirAnswer | itemie/core/item.py:161-163 | every code is an element of the answer its mapping entry names |
| Linearise.FlattenSnoc | itemie/core/item.py:161-163 | one more answer appends its pieces, each mapped to its index |
| Linearise.FlattenExample | itemie/core/item.py:157-164 | [["a", "b"], "cd", []] gives the codes a, b, c, d from answers 0, 0, 1, 1 |
| Linearise.FlattenExampleTwo | itemie/core/item.py:161-163 | [["a", "b"], "cd"] gives the same four codes |
| Linearise.FlattenExampleOne | itemie/core/item.py:161-163 | [["a", "b"]] gives a, b from answer 0 |
| Phrases.Counted | itemie/core/item.py:346-366 | defines what `_count` returns or raises; its properties are stated by `CountedWithVocabulary`, `CountedWithoutVocabulary` and `CountedFails` |
| Phrases.Count | itemie/core/item.py:346-366 | `_count`, loop by loop, returns the counts `Counted` defines |
| Phrases.FirstUnhashable | itemie/core/item.py:347-361 | the index of the first list or array row, before which every value is hashable; none exactly when every value is hashable |
| Phrases.HashFailure | itemie/core/item.py:347-361 | a TypeError exactly when some value is a list or an array row |
| Phrases.FirstUnhashableAppend | itemie/core/item.py:347-361 | the first unhashable value of the vocabulary followed by the phrases is the vocabulary's first, or else the phrases' first |
| Phrases.FirstUnhashableTail | itemie/core/item.py:351-361 | past a hashable head the first unhashable value is one further on |
| Phrases.SeedLoop | itemie/core/item.py:347-350 | the vocabulary loop raises TypeError for the first word that is a list or an array row, and otherwise enters every word at zero |
| Phrases.PhrasesLoop | itemie/core/item.py:351-356 | the first loop collects every list's elements and every other answer itself |
| Phrases.CountLoop | itemie/core/item.py:357-361 | the counting loop raises TypeError for the first phrase that is a list or an array row, and otherwise is the tally `TallyAll` defines |
| Phrases.Text | itemie/core/item.py:364 | defines the sort key `str(x)`: a string itself, NaN as "nan", a float as `Values.FloatText` |
| Phrases.TextLeTotal | itemie/core/item.py:364 | the string order of the sort key is total |
| Phrases.TextLeTransitive | itemie/core/item.py:364 | and transitive |
| Phrases.SortBy | itemie/core/item.py:363-364 | defines `keys.sort(key=...)` as insertion sort on the key's text; stated by `SortByCorrect` |
| Phrases.InsertByPermutes | itemie/core/item.py:363-365 | inserting a key adds exactly that key |
| Phrases.SortedCons | itemie/core/item.py:364 | a list is ordered by a key's text iff its head's text is at most its tail's and its tail is ordered |
| Phrases.InsertKeepsLowerBound | itemie/core/item.py:364 | insertion keeps a lower bound of the keys |
| Phrases.InsertBySorted | itemie/core/item.py:364 | insertion keeps the keys ordered by their text |
| Phrases.SortByCorrect | itemie/core/item.py:362-365 | sorting by the text of a key (`str(x)` in `_count`) keeps exactly the keys and orders them by that text |
| Phrases.SeedValid | itemie/core/item.py:347-348 | `{k: 0 for k in seq}` holds exactly the vocabulary, all at zero |
| Phrases.StepFacts | itemie/core/item.py:357-361 | one iteration adds one to a counted phrase or enters a new phrase at zero, and keeps the earlier keys in place |
| Phrases.OccurrencesSnoc | itemie/core/item.py:357-361 | one more phrase adds one occurrence of itself |
| Phrases.TallyAllValid | itemie/core/item.py:357-361 | the loop keeps the dict well formed, keeps its earlier keys first, and ends with the old keys plus the phrases |
| Phrases.TallyAllCounts | itemie/core/item.py:357-361 | a phrase already counted goes up by its occurrences; a new phrase ends one below its occurrences |
| Phrases.CountedWithVocabulary | itemie/core/item.py:346-366 | with a vocabulary, a word counts its occurrences, any other phrase one fewer, and the vocabulary's keys come first in order |
| Phrases.CountedWithoutVocabulary | itemie/core/item.py:346-366 | without one, every phrase counts one fewer than its occurrences, and the keys are the loop's keys ordered by text |
| Phrases.CountedFails | itemie/core/item.py:346-366 | `_count` raises exactly when a vocabulary word or a phrase is a list or an array row, and the TypeError names the type of the first of them, words before phrases |
| Phrases.AllPhrasesSnoc | itemie/core/item.py:352-356 | one more answer extends the phrases by its own |
| Phrases.TallyAllSnoc | itemie/core/item.py:357-361 | one more phrase is one more iteration |
| Phrases.SeedSnoc | itemie/core/item.py:348 | one more word is one more entry |
| Phrases.PhrasesExample | itemie/core/item.py:351-356 | ["yes"], ["no", "yes"], [] give the phrases yes, no, yes |
| Phrases.TallyExample | itemie/core/item.py:357-361 | the loop over yes, no, yes is three steps |
| Phrases.SeededExample | itemie/core/item.py:346-366 | seeded with yes, no, those answers count yes twice and no once |
| Phrases.SeededTallyExample | itemie/core/item.py:357-361 | the same, from the seeded tally |
| Phrases.UnseededExample | itemie/core/item.py:346-366 | unseeded, they count yes once and no zero times, with no sorted first |
| Phrases.UnseededTallyExample | itemie/core/item.py:357-361 | unseeded, the loop leaves yes at 1 and no at 0, in order of appearance |
| Phrases.SortExample | itemie/core/item.py:363-365 | yes, no sort to no, yes |
| Phrases.SortByTextFractions | itemie/core/item.py:363-365 | 1.0, 0.5 sort to 0.5, 1.0, since "0.5" comes before "1.0" |
| Phrases.SortByTextTens | itemie/core/item.py:363-365 | 9.0, 10.0 sort to 10.0, 9.0, since "10.0" comes before "9.0" |
| Phrases.ArrayRowsAreNotPhrases | itemie/core/item.py:352-361 | the rows of a two-dimensional array are appended whole, and counting the first raises TypeError: unhashable type: 'numpy.ndarray' |
| Phrases.RowsArePhrases | itemie/core/item.py:352-356 | two array rows are each appended whole, as one phrase apiece |
| Phrases.RowsFailToHash | itemie/core/item.py:357-361 | phrases starting with an array row raise TypeError: unhashable type: 'numpy.ndarray' |
| Items.Pull | itemie/core/item.py:78-86 | reading returns the key's column as a Series and its conversion, and raises KeyError for a missing key |
| Items.Attribute | itemie/core/item.py:59-73 | reading an attribute that was never assigned raises AttributeError naming it |
| Items.ValuesOf | itemie/core/item.py:120-129 | `values(typ)` raises "typ not understood" iff the class does not take `typ`; "raw" is the raw column or None, "converted" the converted column, and a PhraseCount's "counts" its counts |
| Items.DataDictOf | itemie/core/item.py:131-135 | `data_dict` passes `values`' error through; otherwise it is `{name: values}`, or `{}` exactly when sizes are matched and differ |
| Items.StatsOf | itemie/core/item.py:279-289 | a NumericItem's stats are the six labels with the mean, min and max it holds and `ci95 = sem * 1.95996` |
| Items.CodingCheck | itemie/core/item.py:188-191 | the length check passes iff the coding table has one row per code; a missing `index` column raises KeyError |
| Items.PostFitStep | itemie/core/item.py:304-312 | defines `_post_fit`: a NumericItem reverses the numbers when it has an offset and records their statistics by `Summarise`; the other classes do nothing. Stated by `ItemFacts.NumericFitStatistics`, `FitOfNumbers` and `NumericFitOfEmptyColumn` |
| Items.Summarise | itemie/core/item.py:307-311 | defines the statistics in the order `_post_fit` sets them, stopping at `nanmax` on an empty series |
| Items.PostTransformStep | itemie/core/item.py:314-317 | defines `_post_transform`: a NumericItem with an offset may raise on the reversal it drops; a PhraseCount stores its counts. Stated by `ItemFacts.PhraseCountTransform` and `HooksKeepColumns` |
| Items.FitStep | itemie/core/item.py:88-93 | defines `fit`: read, convert, store the fitted slots, then `_post_fit`. Stated by `ItemFacts.FitLeavesCurrentSlots` and `FitIdempotent` |
| Items.TransformStep | itemie/core/item.py:95-101 | defines `transform`: read, convert, store the current slots, then `_post_transform`, returning the converted column. Stated by `ItemFacts.TransformLeavesFittedSlots` and `TransformStoresConverted` |
| Items.FitTransformStep | itemie/core/item.py:103-112 | defines `fit_transform`: one read and conversion, then both halves. Stated by `ItemFacts.FitTransformIsFitThenTransform` and `FitTransformFillsBoth` |
| Items.Run | itemie/core/item.py:88-112 | defines the three operations with what each returns; stated by `ItemFacts.RunIdempotent` and `AnswerIgnoresState` |
| Items.StandardisedOf | itemie/core/item.py:270-272 | defines `standardised`; its cells are stated by `Stats.Standardised` |
| Items.NormalisedOf | itemie/core/item.py:274-277 | defines `normalised`; stated by `ItemFacts.NormalisedOfSeries` and the `Stats.Normalised…` lemmas |
| Items.SizeOf | itemie/core/item.py:55-56 | defines `size`: the raw column's length, or the converted column's for a NumericItem (item.py:267-268); `DataDictOf` states how it decides `match_size` |
| Items.MeanOf | itemie/core/item.py:246-248 | defines the `mean` property; stated by `ItemFacts.NumericFitStatistics` and `Groups.MeansOfMembers` |
| Items.LinearisedOf | itemie/core/item.py:157-164 | defines `linearised(data)` on the given data or the converted column; stated by `Linearise.Linearised` |
| Items.SetCodedOf | itemie/core/item.py:180-191 | defines `set_coded` up to its length check; stated by `ItemFacts.SetCodedFails` |
| Items.Item.constructor | itemie/core/item.py:18-29 | a new item holds its arguments, `raw` is None, and nothing else is assigned |
| Items.Item.ConvertSeries | itemie/core/item.py:78-83 | `_convert` is the column itself without a converter, else the converter's output |
| Items.Item.PostFit | itemie/core/item.py:304-312 | `_post_fit` leaves the item as `PostFitStep` says |
| Items.Item.PostFitNumbers | itemie/core/item.py:304-312 | the NumericItem half, statement by statement |
| Items.Item.Record | itemie/core/item.py:307-311 | assigning the five statistics in order leaves the item as `Summarise` says |
| Items.Item.PostTransform | itemie/core/item.py:314-317 | `_post_transform` leaves the item as `PostTransformStep` says |
| Items.Item.Fit | itemie/core/item.py:88-93 | `fit` leaves the item and returns as `FitStep` says |
| Items.Item.Transform | itemie/core/item.py:95-101 | `transform` leaves the item and returns as `TransformStep` says |
| Items.Item.FitTransform | itemie/core/item.py:103-112 | `fit_transform` leaves the item and returns as `FitTransformStep` says |
| Items.Item.Apply | itemie/core/item.py:88-112 | any of the three operations agrees with `Run` |
| ItemFacts.FitTransformIsFitThenTransform | itemie/core/item.py:103-112 | `fit_transform` equals `fit` then `transform`, stopping after `fit` when it raises |
| ItemFacts.FitLeavesCurrentSlots | itemie/core/item.py:88-93 | `fit` leaves `raw`, `converted` and the counts alone |
| ItemFacts.TransformLeavesFittedSlots | itemie/core/item.py:95-101 | `transform` leaves the fitted slots and the statistics alone |
| ItemFacts.TransformStoresConverted | itemie/core/item.py:95-101 | a returning `transform` stores the table's column as `raw` and the converted column (never the reversed one), and returns it |
| ItemFacts.FitTransformFillsBoth | itemie/core/item.py:103-112 | a returning `fit_transform` fills both slot sets with the same columns and returns the converted one |
| ItemFacts.NoConverterKeepsRaw | itemie/core/item.py:78-83 | without a converter the converted column is the raw column |
| ItemFacts.RunIdempotent | itemie/core/item.py:88-112 | running an operation twice is running it once |
| ItemFacts.FitIdempotent | itemie/core/item.py:88-93 | `fit` twice is `fit` once |
| ItemFacts.TransformIdempotent | itemie/core/item.py:95-101 | `transform` twice is `transform` once |
| ItemFacts.FitAfterTransform | itemie/core/item.py:88-101 | refitting a fitted item after a transform changes nothing |
| ItemFacts.AnswerIgnoresState | itemie/core/item.py:88-112 | whether and what the three operations raise or return depends only on the table and the constructor arguments |
| ItemFacts.RunAnswerIgnoresState | itemie/core/item.py:88-112 | the same for `Run` |
| ItemFacts.FitNumbers | itemie/core/item.py:305-306 | the fitted numbers, reversed or not, keep the length |
| ItemFacts.NumericFitStatistics | itemie/core/item.py:304-312 | a passing numeric `fit` sets the mean, min and max of the (reversed) numbers; min ≤ every number ≤ max, and min ≤ mean ≤ max |
| ItemFacts.NumericFitOfEmptyColumn | itemie/core/item.py:307-311 | an empty column sets mean and std to NaN, then raises at the maximum, leaving max, min and sem as they were |
| ItemFacts.PhraseCountTransform | itemie/core/item.py:368-370 | a PhraseCount's `transform` stores the counts of the converted column |
| ItemFacts.DefaultValues | itemie/core/item.py:319-325 | "default" is "converted" for a base item, "standardised" for a NumericItem and "counts" for a PhraseCount |
| ItemFacts.InitialReachable | itemie/core/item.py:25-29 | a new item holds no Python list |
| ItemFacts.HooksKeepColumns | itemie/core/item.py:114-118 | the hooks never touch the stored columns |
| ItemFacts.PulledKinds | itemie/core/item.py:78-86 | the raw column is a Series and the converted one never a list |
| ItemFacts.RunKeepsReachable | itemie/core/item.py:88-112 | no operation ever stores a list |
| ItemFacts.SetCodedFails | itemie/core/item.py:180-191 | `set_coded` always raises before its length check passes, since `converted` is never a list |
| ItemFacts.CodingCheckOnList | itemie/core/item.py:188-191 | given a list, the check passes iff the coding table has one row per code |
| ItemFacts.BananaExample | test/core/test_item.py:24-44 | `BaseItem("banana", "b").fit_transform(df)` returns [2, 3, 2] as both raw and converted |
| ItemFacts.BananaNumbers | test/core/test_item.py:26-32 | the column [2, 3, 2] as numbers |
| ItemFacts.NumericBananaExample | test/core/test_item.py:72-76 | the NumericItem has mean 7/3, min 2, max 3 and normalised values [0, 1, 0] |
| ItemFacts.NumericBananaFit | itemie/core/item.py:304-312 | `_post_fit` on [2, 3, 2] passes with mean 7/3, min 2, max 3 |
| ItemFacts.FitOfNumbers | itemie/core/item.py:304-311 | a numeric `_post_fit` on numbers sets all five statistics of the (reversed) numbers and passes |
| ItemFacts.NumericBananaNormalised | test/core/test_item.py:72-76 | [2, 3, 2] with minimum 2 normalises to [0, 1, 0] |
| ItemFacts.BananaStatistics | itemie/core/item.py:307-310 | mean 7/3, min 2 and max 3 of [2, 3, 2] |
| ItemFacts.BananaNormalised | test/core/test_item.py:72-76 | numpy's normalisation of [2, 3, 2] is [0, 1, 0] |
| ItemFacts.BananaShifted | itemie/core/item.py:276-277 | [2, 3, 2] less 2 is [0, 1, 0], with maximum 1 |
| ItemFacts.UnitScaled | itemie/core/item.py:277 | [0, 1, 0] over 1 is itself |
| ItemFacts.ReversedBananaExample | itemie/core/item.py:304-317 | with `reverse_offset=6` the statistics are of [4, 3, 4], and `normalised` of the unreversed [2, 3, 2] against the minimum 3 is `None` in every cell, standing for numpy's −inf, NaN, −inf |
| ItemFacts.ReversedBananaFit | itemie/core/item.py:304-312 | `_post_fit` with offset 6 gives mean 11/3, min 3, max 4 |
| ItemFacts.BananaReversed | itemie/core/item.py:305-306 | [2, 3, 2] reversed about 6 is [4, 3, 4] |
| ItemFacts.ReversedStatistics | itemie/core/item.py:307-310 | mean 11/3, min 3 and max 4 of [4, 3, 4] |
| ItemFacts.ReversedBananaNormalised | itemie/core/item.py:274-277 | [2, 3, 2] against minimum 3 normalises to `None` in every cell: [−1, 0, −1] over its maximum 0 is −inf, NaN, −inf |
| ItemFacts.NormalisedOfSeries | itemie/core/item.py:274-277 | an item's normalised view of a Series is numpy's normalisation of its numbers |
| ItemFacts.ReversedBananaScaled | itemie/core/item.py:274-277 | numpy's normalisation of [2, 3, 2] against 3 is `None` in every cell, standing for −inf, NaN, −inf |
| ItemFacts.ReversedShiftedTop | itemie/core/item.py:276-277 | [2, 3, 2] less 3 has maximum 0 |
| Registry.Ordered.Put | itemie/core/group.py:48-49 | `d[k] = v` sets `k` and appends it only when it is new |
| Registry.Ordered.Values | itemie/core/group.py:32-34 | `list(d.values())` in key order |
| Registry.Empty | itemie/core/group.py:18 | `{}` is well formed and empty |
| Registry.PutAll | itemie/core/group.py:51-54 | defines the assignments `d[k] = v` in order; stated by the `PutAll…` lemmas |
| Registry.ZipDict | itemie/core/group.py:66 | defines `{k: v for k, v in zip(names, values)}`; stated by `ZipDictFacts` |
| Registry.Zip | itemie/core/group.py:66 | `zip` pairs the `i`-th name with the `i`-th value, as many as the shorter list |
| Registry.PutValid | itemie/core/group.py:48-49 | assignment keeps the dict well formed, grows it exactly for a new key, and changes only that key |
| Registry.PutAllDomain | itemie/core/group.py:51-54 | after the assignments the keys are the old keys plus the assigned ones |
| Registry.PutAllKeys | itemie/core/group.py:51-54 | they keep the dict well formed, with the old keys first and in order |
| Registry.PutAllLast | itemie/core/group.py:51-54 | each key holds the last value assigned to it |
| Registry.PutAllFinal | itemie/core/group.py:51-54 | a pair whose name is not assigned again decides that name's value |
| Registry.PutAllUntouched | itemie/core/group.py:51-54 | a key never assigned keeps its value |
| Registry.LastWith | itemie/core/group.py:51-54 | the last assignment to a key |
| Registry.PutAllAppend | itemie/core/group.py:51-54 | assigning `a` then `b` is assigning `a + b` |
| Registry.ZipDictFacts | itemie/core/group.py:66 | with distinct names, the dict comprehension over `zip` has the names in order as keys, the `i`-th holding the `i`-th value |
| Registry.ZipOwnKeys | itemie/core/survey.py:72-75 | zipping a dict's own keys with one value each gives those keys in order, holding the values in order |
| Registry.DistinctKeys | itemie/core/group.py:66 | distinct names become the keys in order |
| Groups.NamesOf | itemie/core/group.py:28-30 | `[item.name for item in items]` |
| Groups.Entries | itemie/core/group.py:51-54 | `add` assigns `_items[m.name] = m` for each member in order |
| Groups.Assemble | itemie/core/group.py:60-74 | "array" gives the values and "df" a frame with the names as columns, both raising numpy's ValueError when the values differ in shape; "dict" gives `{name: value}` by `zip` whatever the shapes; any other mode raises ValueError naming it |
| Groups.Flipped | itemie/core/group.py:63 | the transpose's shape: the dimensions in reverse order |
| Groups.ColumnShape | itemie/core/group.py:63 | a column's first dimension is its length |
| Groups.AssembleDict | itemie/core/group.py:64-66 | the dict pairs the `i`-th name with the `i`-th value in order |
| Groups.StepUpTo | itemie/core/group.py:77 | each member extends the broadcast by its answer, or raises its error, and its items are reached either way |
| Groups.FailureSticks | itemie/core/group.py:77 | after a member raises, the later members are not run |
| Groups.Broadcast | itemie/core/group.py:60-86 | defines what running an operation on a member returns: an item's answer, or a group's members' answers assembled in its mode, raising ValueError in array or df mode when they differ in shape; stated by `BroadcastSucceeds`, `BroadcastValues`, `FailureIsFirst` and `FitBesideNestedGroupIsRagged` |
| Groups.BroadcastUpTo | itemie/core/group.py:77 | defines the comprehension over the first `k` members; stated by `StepUpTo` and `FailureSticks` |
| Groups.BroadcastUpToStep | itemie/core/group.py:77 | one more returning member appends its answer |
| Groups.NestedPair | itemie/core/group.py:60-86 | an array-mode group of two items answering `None` answers an array of two `None`s |
| Groups.FitBesideNestedGroupIsRagged | itemie/core/group.py:60-86 | an array-mode group holding an item and a nested group of two items raises numpy's ValueError on `fit`, since `[None, array([None, None])]` is ragged |
| Groups.FitBesideNestedGroupAsDict | itemie/core/group.py:60-86 | the same members in a dict-mode group return |
| Groups.RunNode | itemie/core/group.py:76-86 | running a member returns what `Broadcast` defines, including numpy's ValueError for answers of different shapes, and every item it reached has run the operation while the others are unchanged |
| Groups.RunNodes | itemie/core/group.py:77 | the comprehension over the members does the same for a list of members |
| Groups.RunMember | itemie/core/group.py:77 | running the `i`-th member after the earlier ones extends the broadcast by one member |
| Groups.SuccessTouchesAll | itemie/core/group.py:76-86 | a returning run has reached every item of the member |
| Groups.SuccessTouchesUpTo | itemie/core/group.py:77 | and of every member it ran |
| Groups.BroadcastSucceeds | itemie/core/group.py:77 | the broadcast returns iff every member returns |
| Groups.BroadcastValues | itemie/core/group.py:77-78 | then it returns each member's answer in member order |
| Groups.FailureIsFirst | itemie/core/group.py:77 | a raising broadcast raises the error of the first member that raises |
| Groups.NodeValues | itemie/core/group.py:88-90 | defines `m.values(typ)` for a member: an item's view, or a NumericGroup's means; stated by `AllValues` and `MemberViews` |
| Groups.AllValues | itemie/core/group.py:89 | `[m.values(typ) for m in members]` succeeds iff every member's does, and holds them in order |
| Groups.NumberColumns | itemie/core/group.py:120 | the views as numbers: iff every view is numeric, one column per view |
| Groups.GroupMeans | itemie/core/group.py:118-120 | defines `NumericGroup.values`: the members' values, numpy's ValueError when their shapes differ, then the NaN-aware row means; stated by `GroupMeansMeaning` |
| Groups.GroupMeansMeaning | itemie/core/group.py:118-120 | a NumericGroup's means: every member's values as numbers, and each respondent's NaN-aware mean across them |
| Groups.MeansOf | itemie/core/group.py:120 | `nanmean(array(cols).T, axis=1)`: no columns raise AxisError; otherwise it succeeds iff the columns have equal length, with each respondent's mean |
| Groups.MeansOfMembers | itemie/core/group.py:123 | `[m.mean for m in members]` succeeds iff every member is a fitted NumericItem, and holds their means in order |
| Groups.FirstLabels | itemie/core/group.py:43 | `labels, _ = members[0].stats()` returns only for a NumericItem, giving the six labels; for a nested group it raises its own `stats()` error, else the unpacking ValueError, else KeyError: 1 |
| Groups.RowOf | itemie/core/group.py:44 | `m.stats()[1]` returns for an item exactly when its stats do, giving its values; a nested group raises |
| Groups.StatRows | itemie/core/group.py:44 | `[m.stats()[1] for m in members]` succeeds iff every member's does, in order |
| Groups.StatsOf | itemie/core/group.py:42-46 | no members raise IndexError; only NumericItems have stats; a frame has the six labels as index, the names as columns and one row per member |
| Groups.StatsOfSucceeds | itemie/core/group.py:42-46 | `stats` returns exactly when there are members, the mode is known and every member is an item whose `stats()` returns |
| Groups.StatsOfNestedFirst | itemie/core/group.py:42-44 | a nested group as first member raises what its own `stats()` raises, else "too many" or "not enough values to unpack", else KeyError: 1 for a two-member group |
| Groups.StatRowsNested | itemie/core/group.py:44 | a nested group as a later member makes the comprehension raise: its own `stats()` error or KeyError: 1, unless an earlier member raised |
| Groups.Group.Empty | itemie/core/group.py:16-20 | a new group with a valid mode has no members |
| Groups.Group.New | itemie/core/group.py:16-22 | a mode other than array or dict fails the assertion; a non-list `items` raises NameError; otherwise the members are added in order |
| Groups.Group.AddOne | itemie/core/group.py:48-49 | `_add` stores the member under its name, replacing any member of that name |
| Groups.Group.Add | itemie/core/group.py:51-58 | `add` with a list or tuple adds the members in order; anything else raises NameError and adds nothing |
| Groups.Group.Names | itemie/core/group.py:28-30 | the names are the registry's keys in insertion order |
| Groups.Group.Get | itemie/core/group.py:36-40 | `get(key)` returns the member under `key`, or raises KeyError |
| Groups.Group.Apply | itemie/core/group.py:76-86 | `fit`, `transform` and `fit_transform` return what `Broadcast` defines and run exactly the reached items |
| Groups.Group.AllValuesAssembled | itemie/core/group.py:88-90 | `all_values` succeeds only when every member's values do; then an unknown mode raises, as does array or df mode when the views differ in shape; an array holds the values in member order, and a dict holds each member's values under its name |
| Groups.MemberViews | itemie/core/group.py:89 | in a registry keyed by name, the `i`-th value is the view of the member under the `i`-th key |
| Groups.AssembleViews | itemie/core/group.py:88-90 | assembling the members' views fails exactly for an unknown mode or, outside dict mode, views of different shapes; an array holds the views in member order |
| Groups.AssembleViewsDict | itemie/core/group.py:88-90 | assembled as a dict, each member's view is under its name, in order |
| Groups.Group.Values | itemie/core/group.py:118-120 | a BaseGroup has no `values` (AttributeError); an empty NumericGroup raises AxisError; a result means every member's values succeeded |
| Groups.Group.ValuesMeaning | itemie/core/group.py:118-120 | the result's `row`-th value is the NaN-aware mean of the members' `row`-th numbers, one column per member in member order |
| Groups.Group.ItemMeans | itemie/core/group.py:122-123 | `item_means` returns iff every member is a fitted NumericItem, with their means in member order; a BaseGroup has no such method |
| Groups.Group.Stats | itemie/core/group.py:42-46 | `stats` on no members raises IndexError; it returns exactly when the mode is known and every member is an item whose `stats()` returns; as a frame, one row of stats per member under its name, indexed by the labels |
| Groups.KeyedNames | itemie/core/group.py:28-34 | in a registry keyed by name, the members' names in order are the keys |
| Groups.AssembleOwnKeys | itemie/core/group.py:60-71 | assembling one value per member fails exactly for an unknown mode or, outside dict mode, values of different shapes (numpy's ValueError in array and df mode); an array holds the values in order; a dict holds each under its member's name |
| Groups.PutNodesKeyed | itemie/core/group.py:48-54 | adding members keeps every member stored under its own name |
| Surveys.Flattened | itemie/core/survey.py:33-40 | `_add` registers the member first |
| Surveys.FlattenUpToMembers | itemie/core/survey.py:42-45 | registering a list registers exactly its members and what they register |
| Surveys.FlattenedTree | itemie/core/survey.py:33-40 | `_add` registers the member and everything under each of its members, and nothing else; an item registers only itself |
| Surveys.PutMore | itemie/core/survey.py:44-45 | registering `a` then `b` is registering `a + b` |
| Surveys.FlattenStep | itemie/core/survey.py:37-38 | one more sub-member registers what it registers |
| Surveys.PutOne | itemie/core/survey.py:33-34 | registering a member is one assignment, and an item registers only itself |
| Surveys.RegisteredFacts | itemie/core/survey.py:42-45 | every member's name is registered, the old names stay, nothing else appears, and a member no later member shares a name with is what its name holds |
| Surveys.InItem | itemie/core/survey.py:56 | the re-raised message is "Error in item: " and the member's name |
| Surveys.SurveyUpTo | itemie/core/survey.py:51-70 | defines the loop over the first `k` registered members; stated by `SurveyPassesAll`, `SurveyFailsFirst` and `SurveySticks` |
| Surveys.SurveyPassesAll | itemie/core/survey.py:51-56 | a survey run passes iff every member's run returns |
| Surveys.SurveyFailsFirst | itemie/core/survey.py:51-56 | a failing run raises for the first member that raises, wrapping its error with its name |
| Surveys.SurveyPasses | itemie/core/survey.py:51-56 | a survey run passes iff the members' broadcast returns |
| Surveys.SurveySticks | itemie/core/survey.py:52-56 | once a member raised, later members change nothing |
| Surveys.RunAll | itemie/core/survey.py:51-70 | the loop ends as `SurveyUpTo` says, and every reached item has run the operation while the others are unchanged |
| Surveys.RunEntry | itemie/core/survey.py:53-56 | one member's run inside `try`, re-raised with its name |
| Surveys.Survey.constructor | itemie/core/survey.py:15-17 | a new survey has nothing registered |
| Surveys.Survey.Register | itemie/core/survey.py:33-40 | `_add` assigns the member and, depth first, everything beneath it |
| Surveys.Survey.Add | itemie/core/survey.py:42-49 | `add` registers each member of a list or tuple in order; anything else raises NameError and registers nothing |
| Surveys.Survey.Names | itemie/core/survey.py:19-21 | the names are the keys in registration order |
| Surveys.Survey.Get | itemie/core/survey.py:27-31 | `get(key)` returns the registered member, or raises KeyError |
| Surveys.Survey.Apply | itemie/core/survey.py:51-70 | `fit`, `transform` and `fit_transform` end as `SurveyUpTo` says over the registered members, and run exactly the items they reach |
| Surveys.Survey.ItemDataDict | itemie/core/survey.py:72-75 | `item_data_dict` succeeds iff every member's values do, and then maps each name, in order, to that member's values |
| Batch.ValueOf | itemie/utils/batch.py:12 | a keyword left out passes None; a given one passes its value |
| Batch.Make | itemie/utils/batch.py:12 | the constructor succeeds iff the class takes the keywords (only NumericItem takes `reverse_offset`, only PhraseCount `seq`), raising TypeError naming the keyword otherwise; it records name, key, converter, text and the class's extras |
| Batch.KwargsFor | itemie/utils/batch.py:9 | `kwargs` itself, or `len(names)` empty dicts when it is None |
| Batch.Count | itemie/utils/batch.py:11 | `zip` of three lists yields as many triples as the shortest list |
| Batch.SpecsUpTo | itemie/utils/batch.py:11-13 | defines the loop's first `k` constructor calls; stated by `SpecsFacts`, `SpecsFailFirst` and `SpecsSticks` |
| Batch.SubitemSpecs | itemie/utils/batch.py:8-14 | defines the arguments of the items `subitems` builds, or its error; stated by `SubitemsFacts` and `DefaultKwargs` |
| Batch.SpecsFacts | itemie/utils/batch.py:11-13 | the first `k` constructions succeed iff the class takes each triple's keywords; item `i` has name `names[i]`, key `prefix + keys[i]`, and the shared converter |
| Batch.SpecsFailFirst | itemie/utils/batch.py:11-12 | the first triple whose keywords the class refuses decides the error |
| Batch.SpecsStep | itemie/utils/batch.py:11-13 | each triple appends its item or raises |
| Batch.SpecsSticks | itemie/utils/batch.py:11-12 | after a constructor raises, later triples change nothing |
| Batch.SubitemsFacts | itemie/utils/batch.py:8-14 | `subitems` raises iff some triple's keywords are refused; otherwise it returns `min(len(names), len(keys), len(kwargs))` items in input order with those arguments |
| Batch.DefaultKwargs | itemie/utils/batch.py:9 | without `kwargs` nothing raises, there is one item per name that has a key, and no item has text |
| Batch.Subitems | itemie/utils/batch.py:8-14 | `subitems` returns distinct new items in their initial state, with the arguments `SubitemSpecs` lists, or that run's error |
| Batch.Construct | itemie/utils/batch.py:10-14 | the loop over the first `n` triples constructs and appends one new item each, or stops at the first constructor that raises |

## Left out

- pandas and numpy beyond what is modelled:
  - `np.array(values).T` is kept as the list of member values: no transpose and no dtype, with only the shapes compared (see `Groups.Shape` below);
  - a data frame is its index, column names and rows;
  - `pd.pivot_table` and everything after the length check in `set_coded`. With the library's own converter classes that part never runs (`SetCodedFails`), since their output is never a list; a user subclass of `BaseConverter` whose `convert` returns a list would reach the pivot;
  - `linearised_df`, `data_df` and `item_data_df`;
  - CSV reading and writing (`linearised_to_csv`, `set_coded_from_csv`).
- `AutoCorrect`: it calls the TextBlob spelling corrector, a foreign library.
- Floating point: numbers are `real`, and NaN and infinities are one `None`. The square root is a parameter. `std`, `sem` and `ci95` are kept only as the variance a square root is taken of.
- NaN as a dict key: all NaN cells are one value here, whereas Python treats distinct NaN objects as distinct keys.
- numpy's error messages: the errors numpy raises on non-numeric data are one `NonNumeric` error, and those for the maximum of an empty array one `EmptyArrayMax`.
- `np.array` on values of different shapes raises one `Ragged` error. It is raised by a converter's `np.array` on lists of different lengths or lists beside other values, by a group assembling in array or df mode, and by `NumericGroup.values`.
- Groups.Shape: the shape numpy sees is approximated. `None` and a dict are scalars; a column is one-dimensional, or two-dimensional when it is a converter's array of rows; a nested group's array is as deep as its first row. A pandas Series of lists, or a plain list column, counts as one-dimensional.
- Convert.ArrayOf: results nested more than two levels deep keep their inner lists instead of becoming a three-dimensional array. A numeric two-dimensional array is kept as its rows, so later numeric steps treat it as non-numeric, where numpy would compute over all of its cells.
- Groups.GroupMeans: when every member's view is a scalar to numpy (`None` or a dict of counts), `np.array(values).T` is one-dimensional and `nanmean(..., axis=1)` raises an axis error; the model reports that case as the non-numeric error.
- Integers: every number is a `real`, so a pandas column of ints is a column of floats. `str` of a whole number therefore reads "2.0" where Python prints "2" for an int, and the `KeyError: 1` raised by a two-member nested group's `stats` shows the key as the float 1.0.
- Values.FloatText: a float whose decimal expansion is longer than 17 places is cut at the 17th place, whereas Python prints the shortest text that rounds back to the same double. Floats exactly representable in fewer places, the ones the examples use, print as Python prints them.
- Linearise.Pieces: the TypeError for a number without a length always names `float`; for an int cell Python names `int`, which the model does not distinguish.
- `NumericItem.counts` (np.unique with NaN keys), `item_counts`, `item_percents` and `item_stds`: they are numpy counting and floating point.
- `NumericGroup.means`: it is broken as written, since it passes an `assemble_as` argument that `values` does not take.
- `set_converter`: it is only called from `__init__`, so the converter is a constant. `__str__`, `_str` and the `name`, `key` and `text` properties are plain reads.
- Groups as members: a group added to another group or to a survey is recorded with the members it has at that moment. Later additions to that group are not seen through the parent; Python shares the object.
- `Function` converters: the callable is a total Dafny function returning a result, so a callable that does not terminate or has side effects is not modelled.
- `Survey.add` and `BaseGroup.add`: their `ValueError` branch builds its message from the undefined variable `item`, so it raises `NameError` first. Both non-list branches are modelled as that `NameError`.
- Batch.Make: only the keywords `text`, `reverse_offset` and `seq` are modelled. When both `reverse_offset` and `seq` are refused, the error names `reverse_offset`, whereas Python names whichever comes first in the dict. Other stray keywords, and `name`, `key` or `converter` given twice, are not modelled.
- Batch.Subitems: the converter is shared by value. Its object identity across the items is not modelled, since converters are values here.
- Groups.Group.Values: its own contract states only the error cases and that every member's values succeeded. The means it returns are stated by `Groups.Group.ValuesMeaning`.
- Items.ValuesOf: its contract states the error condition and the "raw", "converted" and "counts" views exactly. The standardised and normalised views are stated as `NormalisedOf` and `StandardisedOf`, with lemmas about `Stats.Normalised`.
