# NannyML univariate drift methods and data-quality calculators in Dafny

This project models three parts of NannyML and proves properties about them.

- **Univariate drift methods** (`nannyml/drift/univariate/methods.py`). These are the six
  ways NannyML measures how far one column's distribution in a chunk is from the same column
  in the reference data: Jensen-Shannon, Kolmogorov-Smirnov, chi-squared, L-infinity,
  Wasserstein and Hellinger. The model covers:
  - the method factory that registers the methods and creates them by key and feature type;
  - each method's `fit` / `calculate` / `alert` life cycle, with the "not fitted" errors;
  - the discrete parts of each distance: the choice to treat a column as continuous or
    categorical, how bins and labels are aligned, the leftover padding, the cumulative
    frequencies, and the extended edge grid;
  - the exact and estimated modes that Kolmogorov-Smirnov and Wasserstein choose between.
- **The helpers in `nannyml/base.py`**:
  - missing-value stripping;
  - dtype classification and the continuous/categorical feature split;
  - the required-column and negative-value checks;
  - the calculators' exception policy;
  - the handling of `filter`'s `metrics` argument.
- **The unseen-values and missing-values data-quality calculators.** For each requested column
  and chunk they report how many values were never seen in the reference, or how many are
  missing, with thresholds, alerts and, for missing values, a sampling error and confidence
  bounds.

Modules, one per file:

| file | module | part of NannyML |
|---|---|---|
| `wrappers.dfy` | `Wrappers` | Option, Result and Outcome; the exception kinds |
| `floats.dfy` | `Floats` | NumPy results that may be NaN |
| `seqs.dfy` | `Seqs` | sums, counts, filters and real-arithmetic facts |
| `base.dfy` | `Base` | helpers of `nannyml/base.py` |
| `histogram.dfy` | `Histograms` | `np.histogram` over explicit edges, `np.linspace`, min and max |
| `method_base.dfy` | `MethodBase` | `Method`: identity, `__eq__`, default `alert`, reference-chunk results |
| `registry.dfy` | `Registry` | `MethodFactory` |
| `settings.dfy` | `Settings` | `computation_params` and the exact/estimated mode rules |
| `binned.dfy` | `BinnedDistances` | `JensenShannonDistance`, `HellingerDistance` |
| `kolmogorov_smirnov.dfy` | `KolmogorovSmirnov` | `KolmogorovSmirnovStatistic` |
| `chi2.dfy` | `Chi2` | `Chi2Statistic` |
| `l_infinity.dfy` | `LInfinity` | `LInfinityDistance` |
| `wasserstein.dfy` | `Wasserstein` | `WassersteinDistance` |
| `data_quality.dfy` | `DataQuality` | what the two data-quality calculators share |
| `unseen.dfy` | `UnseenValues` | `UnseenValuesCalculator` |
| `missing.dfy` | `MissingValues` | `MissingValuesCalculator` |

How things are represented:
- A column entry is `Cell<T>`: either `NA` (None or NaN) or `Val(v)`.
- Probabilities and distances are exact reals, and a NumPy result that may be NaN is a `Float`.
- Every exception the code raises is an `Err` / `Fail` value that names its kind.
- Code outside this model is passed in as a function-typed parameter or constant:
  - SciPy's `jensenshannon`, `ks_2samp`, `chi2_contingency` and `wasserstein_distance`;
  - NumPy's Doane bin edges and `sqrt`;
  - `calculate_threshold_values`;
  - `_add_alert_flag`;
  - `Chunker.split`;
  - `SAMPLING_ERROR_RANGE`.

  Each one is modelled only by its type, and the contracts hold for every choice of it.
- Stateful objects are Dafny classes, and their methods carry `modifies` clauses:
  - the factory;
  - the six methods;
  - the two calculators.

  The calculators' `_fit` and `_calculate` loops are `while` loops, proved against
  specification functions (`ChunkRows`, `ReferenceChunkValues`, `Combined`).

How a column is treated (Jensen-Shannon and Hellinger): a non-categorical column is treated as
continuous when it has more than 50 distinct values *or* a distinct ratio above 0.1
(`nannyml/drift/univariate/methods.py:286`), and `BinnedDistances.TreatAsType` states that rule.

## Model

| member | source | states |
|---|---|---|
| MethodBase.InfoOf | nannyml/drift/univariate/methods.py:259-265 | every method has lower threshold limit 0; only Kolmogorov-Smirnov and chi2 have an upper limit, and it is 1 |
| MethodBase.SameMethodIffSameKind | nannyml/drift/univariate/methods.py:161-163 | two methods compare equal (same display and column name) exactly when they are of the same kind |
| MethodBase.BandAlertSpec | nannyml/drift/univariate/methods.py:149-159 | the default alert fires exactly when a number leaves the band of the thresholds that are set; NaN never alerts, and nothing alerts when no threshold is set |
| MethodBase.ChunkResults | nannyml/drift/univariate/methods.py:105-107 | the reference-chunk values are all per-chunk results in chunk order when every chunk succeeds, otherwise the exception of the first failing chunk |
| MethodBase.FirstFailureUnique | nannyml/drift/univariate/methods.py:105-107 | the first failing chunk alone determines the error that the reference-chunk loop reports |
| Registry.Registered | nannyml/drift/univariate/methods.py:236-248 | after registering C under (key, ft), the registry maps (key, ft) to C, and every other (key', ft') entry is unchanged |
| Registry.RegisteredOverwrites | nannyml/drift/univariate/methods.py:236-248 | registering twice under one pair is the same as registering only the second class |
| Registry.Resolve | nannyml/drift/univariate/methods.py:192-209 | `create` succeeds exactly for a string key that is registered for the feature type, and returns that class; otherwise InvalidArguments for a non-string key, an unknown key or an unsupported feature type, checked in that order, each with its own message |
| Registry.ResolveRegistered | nannyml/drift/univariate/methods.py:192-248 | `create` right after `register(key, ft)(C)` returns C |
| Registry.BuiltinContents | nannyml/drift/univariate/methods.py:251-633 | the decorators register Jensen-Shannon and Hellinger for both feature types, Kolmogorov-Smirnov and Wasserstein for continuous, chi2 and L-infinity for categorical, and nothing else |
| Registry.BuiltinRejectsUnsupported | nannyml/drift/univariate/methods.py:204-205 | the built-in factory rejects Kolmogorov-Smirnov for categorical and chi2 for continuous features |
| Registry.MethodFactory.constructor | nannyml/drift/univariate/methods.py:173-176 | the factory's registry holds exactly the registrations of the module's decorators, `Builtin()` |
| Registry.MethodFactory.Register | nannyml/drift/univariate/methods.py:236-248 | the new registry is `Registered(old, key, ft, C)`, and a warning is logged exactly when the pair was already registered |
| Registry.MethodFactory.Create | nannyml/drift/univariate/methods.py:192-209 | returns `registry[key][ft]` exactly when the key is a string registered for ft |
| Settings.ReadSettings | nannyml/drift/univariate/methods.py:370-371 | `calculation_method` defaults to auto and `n_bins` to 10000; a present `calculation_method` is read by name (auto, exact, estimated, or another mode), and a present `n_bins` is kept when it is an integer and becomes no bin count otherwise |
| Settings.SettingsAsWritten | nannyml/drift/univariate/methods.py:361-371 | as written: without `computation_params` or without the method's name as a key, the defaults; otherwise `calculation_method` and `n_bins` from the top level, so auto mode and 10000 bins whenever those keys are absent there |
| Settings.SettingsFor | nannyml/drift/univariate/methods.py:361-371 | the corrected constructor reads the mode and bin count from the method's own section of `computation_params`, and otherwise keeps the defaults |
| Settings.SettingsForReadsOwnSection | nannyml/drift/univariate/methods.py:361-371 | with sections for both methods, each method reads only its own section |
| Settings.AsWrittenIgnoresNestedSettings | nannyml/drift/univariate/methods.py:361-371 | as written, a per-method section selecting exact mode is ignored |
| Settings.AsWrittenDiffers | nannyml/drift/univariate/methods.py:555-565 | as written, any per-method section is ignored, where the corrected reading honours it |
| Settings.ModesAgree | nannyml/drift/univariate/methods.py:373-396 | for auto, exact and estimated, `_calculate` takes the estimated path exactly when `_fit` did not keep the raw sample; any other mode does neither |
| BinnedDistances.TreatAsType | nannyml/drift/univariate/methods.py:281-289 | a categorical dtype is treated as categorical; otherwise as continuous exactly when there are more than 50 distinct values or distinct/len > 0.1; an empty non-categorical column raises ZeroDivisionError |
| BinnedDistances.FitContinuous | nannyml/drift/univariate/methods.py:291-295 | the continuous fit keeps the Doane edges and the reference histogram as finite proportions summing to at most 1 |
| BinnedDistances.FitCategorical | nannyml/drift/univariate/methods.py:296-300 | the categorical fit keeps exactly the distinct reference values, each with its share of the reference |
| BinnedDistances.FitCategoricalSumsToOne | nannyml/drift/univariate/methods.py:296-300 | the categorical reference probabilities of a non-empty column add up to 1 |
| BinnedDistances.FitBinned | nannyml/drift/univariate/methods.py:280-304 | `_fit` gives a consistent state, with edges exactly when the column is treated as continuous, and fails exactly on the treat-as error or non-numeric or unsorted continuous data |
| BinnedDistances.AlignedCounts | nannyml/drift/univariate/methods.py:308-316 | incoming counts are aligned one per reference bin; for labels, each count is the label's count in the data, 0 when absent |
| BinnedDistances.AlignedCountsTotal | nannyml/drift/univariate/methods.py:308-316 | the aligned counts never add up to more than the sample |
| BinnedDistances.Pad | nannyml/drift/univariate/methods.py:318-321 | when the data probabilities sum to less than 1, the shortfall is appended to the data vector and a 0 to a copy of the reference vector; otherwise both are unchanged |
| BinnedDistances.PadCompletes | nannyml/drift/univariate/methods.py:318-321 | padding turns NaN-free probabilities totalling at most 1 into probabilities totalling exactly 1 |
| BinnedDistances.VectorsShape | nannyml/drift/univariate/methods.py:307-321 | after alignment and padding both vectors have equal length, and the reference vector is the stored one, possibly followed by a 0 |
| BinnedDistances.VectorsSumToOne | nannyml/drift/univariate/methods.py:307-321 | for a non-empty sample the data vector holds probabilities in [0, 1] that add up to exactly 1 |
| BinnedDistances.VectorsEmptySample | nannyml/drift/univariate/methods.py:307-321 | an empty sample gives NaN in every bin and no padding |
| BinnedDistances.JensenShannonOf | nannyml/drift/univariate/methods.py:306-329 | the distance is `jensenshannon` applied to the aligned, padded vectors, and it fails exactly when alignment fails |
| BinnedDistances.HellingerFormula | nannyml/drift/univariate/methods.py:704 | the Hellinger formula is NaN exactly when either vector holds NaN |
| BinnedDistances.HellingerFormulaSpec | nannyml/drift/univariate/methods.py:704 | equal vectors are at distance 0 when sqrt(0) = 0, and the distance is never negative when the outer square root is not |
| BinnedDistances.HellingerOf | nannyml/drift/univariate/methods.py:686-708 | the Hellinger distance fails exactly when alignment fails; otherwise it is the Hellinger formula applied to the padded reference and data vectors, which have equal length |
| BinnedDistances.JensenShannonDistance.constructor | nannyml/drift/univariate/methods.py:259-279 | a new method is unfitted and has no thresholds; it keeps the threshold rule and the Doane and `jensenshannon` functions it is given |
| BinnedDistances.JensenShannonDistance.Fit | nannyml/drift/univariate/methods.py:89-123 | `fit` stores the `_fit` state, then sets the thresholds from the reference-chunk distances; a failure leaves the thresholds unchanged |
| BinnedDistances.JensenShannonDistance.Calculate | nannyml/drift/univariate/methods.py:306-329 | before `fit` the stored state is missing (AttributeError); after `fit` it returns the distance against the fitted state |
| BinnedDistances.HellingerDistance.constructor | nannyml/drift/univariate/methods.py:637-658 | a new method is unfitted and has no thresholds; it keeps the threshold rule and the Doane and `sqrt` functions it is given |
| BinnedDistances.HellingerDistance.Fit | nannyml/drift/univariate/methods.py:89-123 | as Jensen-Shannon, on the column with missing values stripped |
| BinnedDistances.HellingerDistance.Calculate | nannyml/drift/univariate/methods.py:686-708 | AttributeError before `fit`, the distance of the stripped chunk after |
| KolmogorovSmirnov.CumFreqsAt | nannyml/drift/univariate/methods.py:381-382 | entry i of the cumulative frequencies is the fraction of the sample counted in bins 0..i |
| KolmogorovSmirnov.CumFreqsBounded | nannyml/drift/univariate/methods.py:381-382 | cumulative frequencies lie in [0, 1] |
| KolmogorovSmirnov.FitKs | nannyml/drift/univariate/methods.py:373-386 | after stripping missing values, `_fit` keeps the raw sample exactly on the exact path; otherwise its edges are `linspace(min, max, n_bins + 1)` and it keeps the reference's cumulative frequencies over them. It fails on an empty sample, a non-integer bin count or a bin count below -1: TypeError for a non-integer count of a non-empty sample, ValueError otherwise |
| KolmogorovSmirnov.FitKsReachesOne | nannyml/drift/univariate/methods.py:378-382 | the reference's cumulative frequency reaches 1 at the last edge |
| KolmogorovSmirnov.ChunkCumFreqs | nannyml/drift/univariate/methods.py:398-401 | the chunk's cumulative frequencies, which include the mass below the first edge, are probabilities with one per bin |
| KolmogorovSmirnov.EstimatedStatistic | nannyml/drift/univariate/methods.py:394-402 | the estimated statistic is the largest \|ref_cum - chunk_cum\| (attained and maximal), with errors for no edges, an empty chunk or a single edge |
| KolmogorovSmirnov.EstimatedStatisticBounded | nannyml/drift/univariate/methods.py:402 | the estimated statistic lies in [0, 1] |
| KolmogorovSmirnov.CalculateKs | nannyml/drift/univariate/methods.py:388-407 | on the estimated path, the estimated statistic of the stripped chunk; otherwise `ks_2samp` on the raw samples exactly when both are non-empty, a ValueError when either is empty, and an error when no sample was kept |
| KolmogorovSmirnov.ChunkCumFreqsNoneBelow | nannyml/drift/univariate/methods.py:400-401 | with nothing below the first edge, the chunk's cumulative frequencies are those of its histogram |
| KolmogorovSmirnov.EstimatedStatisticOfEqual | nannyml/drift/univariate/methods.py:402 | equal cumulative frequencies give statistic 0 |
| KolmogorovSmirnov.SelfComparisonIsZero | nannyml/drift/univariate/methods.py:373-402 | in estimated mode the reference compared with itself gives statistic 0 |
| KolmogorovSmirnov.OtherModeFails | nannyml/drift/univariate/methods.py:373-396 | an unknown calculation method bins in `_fit` and then fails in `_calculate` |
| KolmogorovSmirnov.KolmogorovSmirnovStatistic.constructor | nannyml/drift/univariate/methods.py:337-372 | a new method is unfitted and has no thresholds; its mode and bin count are read from `computation_params` as written, `SettingsAsWritten` (see Findings) |
| KolmogorovSmirnov.KolmogorovSmirnovStatistic.Fit | nannyml/drift/univariate/methods.py:89-123 | stores the `_fit` state, then the thresholds from the reference-chunk statistics |
| KolmogorovSmirnov.KolmogorovSmirnovStatistic.Calculate | nannyml/drift/univariate/methods.py:388-393 | NotFitted before `fit`, the statistic after |
| Chi2.ValueCounts | nannyml/drift/univariate/methods.py:442 | `value_counts` with zeros dropped: exactly the present values, each with its positive count |
| Chi2.Contingency | nannyml/drift/univariate/methods.py:462-471 | the contingency table has one row per value seen in either side, with both counts and 0 for an absent value |
| Chi2.ContingencyColumns | nannyml/drift/univariate/methods.py:462-471 | each column of the table gives back the counts it was built from |
| Chi2.PValueAfter | nannyml/drift/univariate/methods.py:446-454 | the p-value left after calculating chunk after chunk is the earlier one or the p-value of a chunk whose calculation succeeded; a failing first chunk leaves it unchanged |
| Chi2.PValueAfterLast | nannyml/drift/univariate/methods.py:446-454 | after calculating chunk after chunk, the stored p-value is the last chunk's |
| Chi2.Chi2Statistic.constructor | nannyml/drift/univariate/methods.py:416-439 | a new method is unfitted, has no thresholds, no reference counts and no p-value |
| Chi2.Chi2Statistic.Calculate | nannyml/drift/univariate/methods.py:446-454 | NotFitted before `fit`; otherwise the statistic, with the p-value stored |
| Chi2.Chi2Statistic.Fit | nannyml/drift/univariate/methods.py:89-123 | keeps the reference value counts, leaves the p-value of the last successful chunk, and sets the thresholds from the reference-chunk statistics |
| Chi2.Chi2Statistic.Alert | nannyml/drift/univariate/methods.py:456-460 | clears both thresholds and alerts exactly when the stored p-value is below 0.05, whatever the value passed |
| LInfinity.LabelShares | nannyml/drift/univariate/methods.py:500-504 | one share per distinct label: its count over the sample size |
| LInfinity.LabelSharesBounded | nannyml/drift/univariate/methods.py:500-504 | every share lies in [0, 1] |
| LInfinity.LInfinityBounded | nannyml/drift/univariate/methods.py:507-522 | between two share maps the distance lies in [0, 1] |
| LInfinity.LInfinityOfEqual | nannyml/drift/univariate/methods.py:507-522 | a chunk with the reference's shares is at distance 0 |
| LInfinity.IsLInfinityUnique | nannyml/drift/univariate/methods.py:507-522 | the distance of two share maps is unique |
| LInfinity.LInfinityDistance.constructor | nannyml/drift/univariate/methods.py:480-499 | a new method is unfitted, has no thresholds and no reference shares |
| LInfinity.LInfinityDistance.Distance | nannyml/drift/univariate/methods.py:512-522 | the max over the union of labels of \|ref.get(l, 0) - data.get(l, 0)\|; ValueError exactly when neither side has a label |
| LInfinity.LInfinityDistance.MaxValue | nannyml/drift/univariate/methods.py:522 | `max(d.values())` is attained and is an upper bound |
| LInfinity.LInfinityDistance.ChunkDistances | nannyml/drift/univariate/methods.py:105-107 | the reference-chunk loop gives every chunk's distance, in order, and fails with ValueError exactly when some chunk has no label on either side |
| LInfinity.LInfinityDistance.Fit | nannyml/drift/univariate/methods.py:89-123 | stores the reference shares; fails exactly when some reference chunk has no labels; otherwise the thresholds come from the chunks' distances |
| LInfinity.LInfinityDistance.Calculate | nannyml/drift/univariate/methods.py:507-511 | NotFitted before `fit`, the distance after |
| Wasserstein.OuterEdges | nannyml/drift/univariate/methods.py:572 | the histogram range is [min, max], widened when empty or degenerate, and holds the sample |
| Wasserstein.BinReference | nannyml/drift/univariate/methods.py:572-574 | binning keeps n evenly spaced bins over the sample range with the histogram as relative frequencies |
| Wasserstein.FitWasserstein | nannyml/drift/univariate/methods.py:567-579 | keeps the raw sample exactly on the exact path; otherwise the state is `BinReference` of the stripped sample with an integer count of at least 1, and a TypeError for a non-integer count or a ValueError for a count below 1 |
| Wasserstein.BinnedFrequenciesSumToOne | nannyml/drift/univariate/methods.py:572-573 | the binned reference's relative frequencies add up to 1 |
| Wasserstein.ArangeLength | nannyml/drift/univariate/methods.py:606-611 | the length of `np.arange` is the least count whose steps reach the stop value, and 0 for an empty range |
| Wasserstein.LeftEdges | nannyml/drift/univariate/methods.py:606-608 | the prepended edges are increasing, start at min - w and lie below the first edge; none when the chunk is not below the grid |
| Wasserstein.RightEdges | nannyml/drift/univariate/methods.py:609-611 | the appended edges are increasing, lie above the last edge and reach the chunk maximum; none when the chunk is not above the grid |
| Wasserstein.ExtendedEdges | nannyml/drift/univariate/methods.py:613 | the extended grid is sorted and covers the chunk |
| Wasserstein.PaddedFrequencies | nannyml/drift/univariate/methods.py:614-616 | the reference pdf is padded with zeros on both sides and is kept intact in the middle |
| Wasserstein.ExtendedGridFits | nannyml/drift/univariate/methods.py:606-623 | the padded reference pdf has one entry per bin of the extended grid, the chunk is counted whole, and its pdf sums to 1 |
| Wasserstein.EstimatedDistance | nannyml/drift/univariate/methods.py:589-625 | the estimated distance is never negative, and NaN exactly for an empty reference |
| Wasserstein.CalculateWasserstein | nannyml/drift/univariate/methods.py:581-628 | on the estimated path: ValueError for an empty chunk, otherwise the estimated distance; on the other path: `wasserstein_distance` on the raw samples exactly when both are non-empty, a ValueError when either is empty, and an error when no sample was kept |
| Wasserstein.NoExtensionInside | nannyml/drift/univariate/methods.py:606-613 | a chunk inside the reference range needs no extra edges |
| Wasserstein.SelfComparisonIsZero | nannyml/drift/univariate/methods.py:567-628 | in estimated mode the reference compared with itself is at distance 0 |
| Wasserstein.BinnedDistanceToItself | nannyml/drift/univariate/methods.py:589-625 | the binned reference against its own sample is at distance 0 |
| Wasserstein.OtherModeFails | nannyml/drift/univariate/methods.py:567-589 | an unknown calculation method bins in `_fit` and then fails in `_calculate` |
| Wasserstein.WassersteinDistance.constructor | nannyml/drift/univariate/methods.py:532-566 | a new method is unfitted and has no thresholds; its mode and bin count are read from `computation_params` as written, `SettingsAsWritten` (see Findings) |
| Wasserstein.WassersteinDistance.Fit | nannyml/drift/univariate/methods.py:89-123 | stores the `_fit` state, then the thresholds from the reference-chunk distances |
| Wasserstein.WassersteinDistance.Calculate | nannyml/drift/univariate/methods.py:581-585 | NotFitted before `fit`, the distance after |
| Base.IsContinuous | nannyml/base.py:546-561 | the continuous dtypes are the int, uint and float names listed |
| Base.CategoricalNotContinuous | nannyml/base.py:534-561 | no dtype is both categorical and continuous |
| Base.RemoveMissing | nannyml/base.py:538-543 | stripping removes exactly the missing entries |
| Base.RemoveMissingAppend | nannyml/base.py:538-543 | stripping distributes over concatenation, so it keeps the original order |
| Base.RemoveMissingMembers | nannyml/base.py:538-543 | a value survives stripping exactly when it is present in the column |
| Base.RemoveMissingNoMissing | nannyml/base.py:538-543 | a column without missing entries comes back whole |
| Base.SplitFeaturesByType | nannyml/base.py:526-531 | two order-preserving subsequences of the names, holding the continuous and the categorical columns, and disjoint |
| Base.MissingColumns | nannyml/base.py:564-570 | the requested columns that the data set lacks |
| Base.ListMissing | nannyml/base.py:564-570 | InvalidArguments exactly when some requested column is absent |
| Base.NegativeIndices | nannyml/base.py:584-585 | the positions of the negative values, in increasing order |
| Base.RaiseForNegativeValues | nannyml/base.py:573-591 | InvalidArguments exactly when some value is below 0; NaN is not |
| Base.FitPolicy | nannyml/base.py:350-360 | `fit` lets InvalidArguments and InvalidReferenceData through unchanged and wraps every other error as a CalculatorException |
| Base.CalculatePolicy | nannyml/base.py:362-373 | `calculate` lets InvalidArguments and CalculatorNotFitted through unchanged and wraps every other error |
| Base.FitPolicyEscapes | nannyml/base.py:350-360 | only three kinds of error leave `fit`, and applying the policy twice changes no error kind |
| Base.CalculatePolicyEscapes | nannyml/base.py:362-373 | only three kinds of error leave `calculate` |
| Base.NormaliseMetrics | nannyml/base.py:83-92 | a string becomes a one-element list; a truthy object that is neither a string nor a list is rejected; everything else passes unchanged |
| Base.NormaliseMetricsIdempotent | nannyml/base.py:83-92 | normalising an accepted argument a second time changes nothing |
| Histograms.NpHistogram | nannyml/drift/univariate/methods.py:380 | `np.histogram` over explicit edges raises ValueError exactly when the edges decrease somewhere |
| Histograms.Histogram | nannyml/drift/univariate/methods.py:380 | one count per bin, totalling at most the sample |
| Histograms.BinOfSpec | nannyml/drift/univariate/methods.py:380 | over sorted edges a value lies in exactly one bin when it is within the edges, and in none otherwise |
| Histograms.HistogramCounts | nannyml/drift/univariate/methods.py:380 | each count is the number of values in its bin |
| Histograms.HistogramCovers | nannyml/drift/univariate/methods.py:380 | a sample within the edges is counted whole |
| Histograms.HistogramAndBelow | nannyml/drift/univariate/methods.py:398-400 | the values below the first edge and the binned values never add up to more than the sample |
| Histograms.Linspace | nannyml/drift/univariate/methods.py:378 | `linspace(a, b, num)` has num points from a to b, sorted when a <= b |
| DataQuality.UpperLimit | nannyml/data_quality/unseen/calculator.py:110-115 | the upper threshold limit is 1 for a rate and NaN for a count |
| DataQuality.ListNames | nannyml/data_quality/unseen/calculator.py:86-92 | a list is accepted exactly when all its elements are strings, and the first non-string element is reported |
| DataQuality.WidthMatchesIndex | nannyml/data_quality/unseen/calculator.py:200-204 | the frame built from the rows has as many columns as the multilevel index exactly when there is a row and no column name repeats; otherwise `res.columns = result_index` raises the length-mismatch ValueError |
| DataQuality.ColumnNames | nannyml/data_quality/unseen/calculator.py:84-97 | a string becomes a one-element list; a list must hold only strings; any other argument is rejected with the message as written, `OtherTypeMessageAsWritten`, whose text holds the literal `{column_names}` instead of the value |
| DataQuality.ColumnNamesOfStrings | nannyml/data_quality/missing/calculator.py:85-91 | a list of strings is accepted unchanged |
| DataQuality.OtherTypeMessageAsWritten | nannyml/data_quality/unseen/calculator.py:94-97 | the message for an argument of another type, as written |
| DataQuality.OtherTypeMessageAsWrittenIgnoresValue | nannyml/data_quality/missing/calculator.py:93-96 | as written, every such argument gets the same message |
| DataQuality.OtherTypeMessage | nannyml/data_quality/unseen/calculator.py:94-97 | the corrected message is the fixed start followed by the value |
| DataQuality.OtherTypeMessageShowsValue | nannyml/data_quality/unseen/calculator.py:94-97 | the corrected messages of different arguments differ |
| DataQuality.CheckData | nannyml/data_quality/unseen/calculator.py:175-178 | the checks pass exactly when the frame is non-empty and holds every requested column; an empty frame gets the "no rows" message |
| DataQuality.ReferenceRows | nannyml/data_quality/unseen/calculator.py:220 | exactly the reference rows, in their original order (a subsequence), each as often as it occurs |
| DataQuality.ReferenceRowsOfReference | nannyml/data_quality/unseen/calculator.py:220 | rows that are all reference rows are kept whole |
| DataQuality.MarkReference | nannyml/data_quality/unseen/calculator.py:168 | every row is relabelled 'reference' and nothing else changes |
| DataQuality.Combined | nannyml/data_quality/unseen/calculator.py:207-221 | new rows are appended to the earlier result's reference rows, or stand alone when there is no earlier result; the result always ends with the new rows |
| DataQuality.ColumnTuplesAt | nannyml/data_quality/unseen/calculator.py:241-245 | field k of column j sits at position j * fields + k |
| DataQuality.MultilevelIndex | nannyml/data_quality/unseen/calculator.py:236-247 | the seven chunk columns come first, then the column tuples |
| DataQuality.MultilevelIndexAt | nannyml/data_quality/unseen/calculator.py:236-247 | field k of column j sits at position 7 + j * fields + k |
| UnseenValues.SeenValues | nannyml/data_quality/unseen/calculator.py:143 | the seen set is exactly the set of reference values |
| UnseenValues.UnseenStats | nannyml/data_quality/unseen/calculator.py:119-124 | the unseen count, or its share, lies in [0, total] (in [0, 1] as a share); it is 0 exactly when every value was seen, and NaN only for an empty column when normalising; unnormalised it is the column length minus the number of seen entries, and normalised that number divided by the length |
| UnseenValues.SliceOfReferenceHasNoUnseen | nannyml/data_quality/unseen/calculator.py:119-143 | any slice of the reference has no unseen values |
| UnseenValues.ColumnResult | nannyml/data_quality/unseen/calculator.py:225-233 | a column's result holds its unseen statistic, its thresholds and the alert flag of those |
| UnseenValues.ChunkRows | nannyml/data_quality/unseen/calculator.py:182-198 | one 'analysis' row per chunk, in chunk order, with one result per column |
| UnseenValues.ReferenceChunkValues | nannyml/data_quality/unseen/calculator.py:146-153 | one unseen statistic per reference chunk, in order |
| UnseenValues.UnseenValuesCalculator.constructor | nannyml/data_quality/unseen/calculator.py:98-117 | thresholds 0 and an empty seen set for every column, lower limit 0, upper limit 1 or NaN, no result |
| UnseenValues.UnseenValuesCalculator.Create | nannyml/data_quality/unseen/calculator.py:84-117 | the constructor fails exactly when the `column_names` argument is rejected, and with the same error |
| UnseenValues.UnseenValuesCalculator.Calculate | nannyml/data_quality/unseen/calculator.py:173-223 | fails exactly on an empty frame, a missing column, no chunks or a repeated column name, the last two with the ValueError of the column-index length mismatch; on failure the result is unchanged, otherwise it is the earlier reference rows followed by one row per chunk |
| UnseenValues.UnseenValuesCalculator.ChunkRowsOf | nannyml/data_quality/unseen/calculator.py:182-198 | the loop over chunks builds one row per chunk, in chunk order, as `ChunkRows` specifies |
| UnseenValues.UnseenValuesCalculator.ChunkRowOf | nannyml/data_quality/unseen/calculator.py:184-198 | the loop over columns builds one chunk's row with each column's result, in column order |
| UnseenValues.UnseenValuesCalculator.LearnSeenValues | nannyml/data_quality/unseen/calculator.py:142-143 | every requested column's seen set is the set of its reference values, and the thresholds and the result are unchanged |
| UnseenValues.UnseenValuesCalculator.LearnThresholds | nannyml/data_quality/unseen/calculator.py:145-162 | every requested column's thresholds are `calculate_threshold_values` of its unseen statistics over the reference chunks, against the learned seen set; seen sets and result unchanged |
| UnseenValues.UnseenValuesCalculator.Fit | nannyml/data_quality/unseen/calculator.py:127-170 | succeeds exactly when the frame is non-empty, holds every column, every column is categorical, there is a chunk and no column name repeats; an empty frame, a missing or a non-categorical column leaves everything unchanged; with no chunks or a repeated name it fails with the length-mismatch ValueError after learning seen sets and thresholds, leaving the result unchanged; otherwise it keeps the reference rows, marked 'reference' |
| UnseenValues.UnseenValuesCalculator.CheckCategorical | nannyml/data_quality/unseen/calculator.py:134-140 | the categorical check passes exactly when every requested column has a categorical dtype, and fails with InvalidArguments otherwise |
| UnseenValues.UnseenIndex | nannyml/data_quality/unseen/calculator.py:236-247 | 7 chunk tuples followed by 4 tuples per column, in column order |
| MissingValues.MissingStats | nannyml/data_quality/missing/calculator.py:114-119 | the missing count, or the missing rate when normalising (in [0, 1]; NaN only for an empty column), and the total; it is 0 exactly when nothing is missing |
| MissingValues.SamplingErrorComponent | nannyml/data_quality/missing/calculator.py:129-131 | in both branches the stored component is the reference's missing rate, in [0, 1] |
| MissingValues.RateVarianceBounded | nannyml/data_quality/missing/calculator.py:212-214 | the variance term p (1 - p) of a rate lies in [0, 1/4] |
| MissingValues.SamplingError | nannyml/data_quality/missing/calculator.py:212-218 | the sampling error is sqrt(p (1 - p)) divided by sqrt(total) for a rate, multiplied by it for a count; dividing by sqrt(0) gives no finite value |
| MissingValues.SamplingErrorNonNegative | nannyml/data_quality/missing/calculator.py:212-218 | a square root that is never negative gives a sampling error that is never negative |
| MissingValues.CompleteReferenceHasNoSamplingError | nannyml/data_quality/missing/calculator.py:212-218 | a reference with nothing missing gives component 0 and sampling error 0 |
| MissingValues.ConfidenceBounds | nannyml/data_quality/missing/calculator.py:220-221 | the confidence bounds are symmetric about the value, 2 range serr apart, and NaN when either input is |
| MissingValues.ConfidenceBoundsOrdered | nannyml/data_quality/missing/calculator.py:220-221 | with serr >= 0 and range >= 0, lower <= value <= upper |
| MissingValues.ColumnResult | nannyml/data_quality/missing/calculator.py:208-226 | a column's result holds the statistic, the sampling error, the confidence bounds of both, the thresholds and the alert flag |
| MissingValues.ColumnResultBoundsEnclose | nannyml/data_quality/missing/calculator.py:208-226 | the confidence bounds of every column result enclose its value |
| MissingValues.ChunkRows | nannyml/data_quality/missing/calculator.py:165-181 | one 'analysis' row per chunk, in chunk order, with one result per column |
| MissingValues.ReferenceChunkValues | nannyml/data_quality/missing/calculator.py:133-139 | one missing statistic per reference chunk, in order |
| MissingValues.MissingValuesCalculator.constructor | nannyml/data_quality/missing/calculator.py:97-112 | sampling-error components and thresholds 0 for every column, lower limit 0, upper limit 1 or NaN, no result |
| MissingValues.MissingValuesCalculator.Create | nannyml/data_quality/missing/calculator.py:83-112 | the constructor fails exactly when the `column_names` argument is rejected, and with the same error |
| MissingValues.MissingValuesCalculator.Calculate | nannyml/data_quality/missing/calculator.py:156-206 | fails exactly on an empty frame, a missing column, no chunks or a repeated column name, the last two with the ValueError of the column-index length mismatch; on failure the result is unchanged, otherwise it is the earlier reference rows followed by one row per chunk |
| MissingValues.MissingValuesCalculator.ChunkRowsOf | nannyml/data_quality/missing/calculator.py:165-181 | the loop over chunks builds one row per chunk, in chunk order, as `ChunkRows` specifies |
| MissingValues.MissingValuesCalculator.ChunkRowOf | nannyml/data_quality/missing/calculator.py:167-181 | the loop over columns builds one chunk's row with each column's result, in column order |
| MissingValues.MissingValuesCalculator.Fit | nannyml/data_quality/missing/calculator.py:122-153 | succeeds exactly when the frame is non-empty, holds every column, there is a chunk and no column name repeats; an empty frame or a missing column leaves everything unchanged; otherwise each component is the reference missing rate and the thresholds come from the reference chunks, and then no chunks or a repeated name fail with the length-mismatch ValueError, leaving the result unchanged, while success keeps the reference rows, marked 'reference' |
| MissingValues.MissingValuesCalculator.LearnSamplingErrorComponents | nannyml/data_quality/missing/calculator.py:129-131 | the first loop of `_fit` sets each column's component to its reference missing rate |
| MissingValues.MissingValuesCalculator.LearnThresholds | nannyml/data_quality/missing/calculator.py:133-148 | the second loop of `_fit` sets each column's thresholds from its reference-chunk values |
| MissingValues.MissingIndex | nannyml/data_quality/missing/calculator.py:229-248 | 7 chunk tuples followed by 7 tuples per column, in column order |

## Left out

- SciPy's `jensenshannon`, `ks_2samp`, `chi2_contingency` and `wasserstein_distance` are parameters. So are NumPy's Doane bin edges and `sqrt`. The model states nothing about their values.
- `calculate_threshold_values`, `_add_alert_flag`, `Chunker.split` and `SAMPLING_ERROR_RANGE` come from files that are not part of this model, so they are parameters too.
  - A chunker is assumed to keep the frame's columns (`DataQuality.KeepsColumns`).
  - Chunk boundaries are not modelled.
- Floating-point rounding is not modelled: values are exact reals, and NaN is a separate value.
  - Wasserstein's `np.arange` lengths are therefore computed exactly, where NumPy rounds.
  - The base-2 logarithm inside Jensen-Shannon belongs to the foreign `jensenshannon`.
- MissingValues.SamplingError: dividing a positive sampling error by sqrt(0) gives NaN in the model. NumPy gives inf there.
- Registry.MethodFactory.Create: it returns which class to instantiate, not an instance. The six classes share no Dafny supertype, and forwarding keyword arguments is not modelled.
- MethodBase.InfoOf: `display_name` and `column_name` are fixed per class. Overriding them through keyword arguments is not modelled.
- `Method.fit` passes the reference chunks to `_calculate` as a list of columns, split from the reference by the chunker. The model's `Fit` methods take those chunks as an argument. Timestamps are not modelled.
- BinnedDistances.JensenShannonDistance.Fit and BinnedDistances.JensenShannonDistance.Calculate: Jensen-Shannon strips missing values in neither `_fit` nor `_calculate`. The model takes columns that have none, so NaN entries in their input are not modelled.
- The order of labels is not modelled where NumPy sorts them (`np.unique`). Nor is the TypeError that `np.unique` raises when a column mixes numbers and strings: the model compares `Number` and `Label` values for equality and does not raise.
  - L-infinity and chi2 work on maps.
  - The categorical bins of Jensen-Shannon and Hellinger are the distinct values in order of first occurrence.
- The unused `extra_bins_left` / `extra_bins_right` of Wasserstein's `_calculate` are not modelled.
- The pandas `Result` classes are not modelled: MultiIndex slicing, `to_df`, `plot`, deep copies in `filter`. A calculator's result is its sequence of rows.
  - Base.NormaliseMetrics stops at the argument handling that comes before `_filter`.
- Base.ListMissing: the message does not list the missing and the present columns.
- Base.RaiseForNegativeValues: the message does not list the offending rows.
- Registry.Resolve: a non-string key's message shows `type(key)` as a given string.
- KolmogorovSmirnov.KolmogorovSmirnovStatistic.constructor and Wasserstein.WassersteinDistance.constructor: an explicit `computation_params=None` makes the presence test raise a TypeError. The model's `None` stands for an absent keyword, which gives the defaults, and the explicit None is not modelled.
- Wasserstein.FitWasserstein: every non-integer `n_bins` is a TypeError. For a string, `np.histogram` instead accepts the estimator names 'auto', 'fd', 'doane', 'scott', 'stone', 'rice', 'sturges' and 'sqrt' and chooses the edges itself, and it raises a ValueError for any other string. Neither case is modelled.
- Logging, the `log_usage` decorators and the re-registration warning's text are left out. `Register` reports whether a warning was logged.
- `AbstractCalculator.__init__`'s chunker construction from chunk size, number or period belongs to the chunk module, which is not part of this model.
- `nannyml/runner.py` and `nannyml/__init__.py` are orchestration and re-exports, and are not part of this model.

## Findings

| source | as written | input that shows it | evidently intended | confidence | as-written member | corrected member |
|---|---|---|---|---|---|---|
| nannyml/drift/univariate/methods.py:361-371 | the constructor checks whether the method's column name is a key of `computation_params`, and then reads `calculation_method` and `n_bins` from the top level of `computation_params` | `computation_params={'kolmogorov_smirnov': {'calculation_method': 'exact'}}` leaves the method in auto mode with 10000 bins | read the settings from `computation_params[column_name]` | medium, not executed | Settings.SettingsAsWritten | Settings.SettingsFor |
| nannyml/data_quality/unseen/calculator.py:94-97 | the message for a `column_names` argument that is neither a string nor a list is a plain string, so it shows the literal text `{column_names}` (also in nannyml/data_quality/missing/calculator.py:93-96) | `column_names=42` and `column_names=None` get identical messages that do not show the value | an f-string that shows the offending value, like the element message two lines above it | high, not executed | DataQuality.OtherTypeMessageAsWritten | DataQuality.OtherTypeMessage |
