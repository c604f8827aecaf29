# Mixed-model reporting helpers, modelled in Dafny

This project models the deterministic rules that sit under a small
statistical-reporting toolkit for mixed-effects models. The model fitting, the
distribution functions, the document writer and the plotting library are outside
it. The rules it covers are:

- **Model table export** (`export_model_table`). This covers:
  - the title line;
  - the term-name prettifier;
  - the p-value formatting and star rules;
  - the standard-error, statistic, p-value and confidence-interval fallbacks of the fixed-effects table;
  - the variance-components table with its goodness-of-fit cell.
- **Tidy fixed effects** (`mixedlm_fixed_effects_to_df`). The same fallbacks, plus the optional annotation columns.
- **Pairwise treatment contrasts.**
  - `pairwise_condition_contrasts_at_mean_gaze` with `cvec_for_level`. This uses Bonferroni adjustment.
  - `mixedlm_pairwise_contrasts` with `_predicted_means_and_cov` and `_contrast_test`. This selects the p-value adjustment.
  - Both enumerate the pairs i < j of the levels in order.
- **Likelihood-ratio tests** (`drop1_lrt`) and the effect sizes derived from them (`lr_effect_sizes`).
- **Per-group outlier masking.** `_mask_series` masks with 1.5 × IQR, using numpy's default percentile. `iqr_outlier_filter` applies it over a data frame grouped by columns.
- **Significance brackets.**
  - A category's x position comes from an explicit mapping or from the tick labels.
  - The bracket polyline and the label point are computed from the y-limits.
  - The drawing loop adds them to the axes.

Floating-point values are modelled as `Floats.Float`: a finite real, ±infinity, or
NaN. This keeps the code's NaN and infinity cases: for example, a zero standard
error gives an infinite statistic and a p-value of 0. The following are
parameters, not computations:

- the square root, the exponential, the normal CDF, the chi-squared CDF and the Benjamini–Hochberg adjustment are the fields of a `Floats.Numerics` record;
- the only facts used about them are their ranges (`Floats.Sound`).

A fitted result is a record whose optional fields are the attributes the code
probes.

Where a comment and the code differ, the model follows the code. The comment at
export_model_table.py:106 says missing p-values are computed from the statistic,
and mixedlm_helpers.py:90-92 attempts the same. Both p-value fallbacks as
written raise instead (see Findings). The corrected tables compute them, and the
rest of the model uses those. The variance table's "Residual" row
(export_model_table.py:149-156) is added only for a present, non-NaN scale. When
no row at all would be written, the code writes a single Residual row with a
missing SD. Every `Intercept` or `(Intercept)` random-effect name is relabelled
"Random intercept". The model does the same.

## Model

| member | source | states |
|---|---|---|
| PValues.PFmt | export_model_table.py:21-26 | blank exactly for a missing, NaN or infinite p; scientific notation exactly when p ≤ 0.001; three decimals exactly when p > 0.001; the number shown is p |
| PValues.PStars | export_model_table.py:28-31 | "***" iff p < 0.001, "**" iff 0.001 ≤ p < 0.01, "*" iff 0.01 ≤ p < 0.05, "" iff p is NaN/infinite or ≥ 0.05 |
| PValues.PToSignif | stats_helpers.py:7-15 | the same ladder ending in "n.s."; each rung is an iff over the three comparisons, with NaN failing every comparison |
| PValues.StarsAgreeWithSignif | stats_helpers.py:7-15 | for every finite p the two star ladders agree, "n.s." corresponding to no stars |
| PValues.StarsMonotone | export_model_table.py:31 | a smaller p never earns fewer stars |
| PValues.ThreeStarsAreScientific | export_model_table.py:24-31 | a three-star p is always printed in scientific notation, and a p printed with three decimals has at most two stars |
| PValues.Examples | export_model_table.py:21-31 | 0.0009 → "***", 0.005 → "**", 0.03 → "*", 0.5 → ""; 0.0004 is scientific, 0.02 three-decimal, NaN blank |
| TermNames.ReplaceColons | export_model_table.py:14 | the result contains no ":" |
| TermNames.ReplaceColonsAppend | export_model_table.py:14 | colon replacement distributes over concatenation |
| TermNames.InteractionJoined | export_model_table.py:14 | "a:b" of colon-free names becomes "a * b" |
| TermNames.Prettify | export_model_table.py:13-19 | a name that is an intercept alias after colon replacement becomes exactly "Intercept" |
| TermNames.PrettifyAliases | export_model_table.py:15-16 | "Intercept", "const", "(Intercept)" and "Intercept[0]" all become "Intercept" |
| TermNames.PlainNameUnchanged | export_model_table.py:13-19 | a name with no ":", no "[T.", no "np.power(" that is not an intercept alias is shown unchanged |
| TermNames.NoColonAfterPrettify | export_model_table.py:14-19 | no prettified name contains ":" |
| TermNames.LevelMatch | export_model_table.py:17 | a match of the level pattern is an identifier, then "[T.", then a non-empty level without "]", then "]" |
| TermNames.LevelRewritten | export_model_table.py:17 | identifier + "[T.Level]" becomes identifier + " [Level]", and the scan resumes after the match |
| TermNames.BareLevelsUntouched | export_model_table.py:17 | a "[T." not preceded by an identifier character (as in "C(Condition)[T.L2]") leaves the text unchanged |
| TermNames.WrappedLevelExample | export_model_table.py:17 | "C(Condition)[T.L2]" prettifies to itself |
| TermNames.RewriteLevelsAlphabet | export_model_table.py:17 | the level rewrite only adds spaces and square brackets |
| TermNames.PowerMatch | export_model_table.py:18 | a match of the power pattern is "np.power(", a comma-free argument, ",", whitespace, "2)" |
| TermNames.PowerRewritten | export_model_table.py:18 | "np.power(x, 2)" with any whitespace after the comma becomes "x^2", and the rest is rewritten on its own |
| TermNames.NoPowerUntouched | export_model_table.py:18 | text without "np.power(" passes the power step unchanged |
| TermNames.RewritePowerAlphabet | export_model_table.py:18 | the power rewrite only adds "^" and "2" |
| TermNames.SquaredTermExample | export_model_table.py:18 | "np.power(Gaze_c, 2)" prettifies to "Gaze_c^2" |
| LinAlg.IndexOf | mixedlm_helpers.py:40 | `list.index`: the first position holding the name |
| PairOrder.Pairs | mixedlm_helpers.py:47-49 | every visited pair (i, j) has i < j < k |
| PairOrder.PairsCount | mixedlm_helpers.py:47-48 | k levels give k(k−1)/2 pairs |
| PairOrder.PairsMembership | mixedlm_helpers.py:47-49 | (i, j) is visited iff i < j < k |
| PairOrder.PairsOrdered | mixedlm_helpers.py:47-49 | pairs come in strictly increasing lexicographic order, so none repeats |
| Contrasts.DummyName | mixedlm_helpers.py:41 | the dummy name `prefix[T.level]` is never "Intercept" |
| Contrasts.CVec | mixedlm_helpers.py:36-44 | one entry per parameter name |
| Contrasts.CvecForLevel | mixedlm_helpers.py:36-44 | fails without an "Intercept" parameter; otherwise the in-place filled array equals the contrast vector: 1 at the intercept, 1 at the level's dummy if present, 0 elsewhere |
| Contrasts.DotCVec | mixedlm_helpers.py:38-43 | the vector applied to the estimates is the intercept plus the level's dummy coefficient (0 when absent) |
| Contrasts.PairVecShape | mixedlm_helpers.py:50 | every entry of cvec(g2) − cvec(g1) is −1, 0 or 1, and the intercept entry is 0 |
| Contrasts.PairEstimate | mixedlm_helpers.py:50-51 | the estimate is β[dummy g2] − β[dummy g1], an absent dummy counting as 0 |
| Contrasts.ZStat | mixedlm_helpers.py:53 | z is finite iff SE is finite and > 0, then z·SE = est; otherwise NaN |
| Contrasts.ContrastTest | stats_helpers.py:90-98 | est = c·β; SE = √(c·V·c), NaN iff c·V·c < 0, else ≥ 0; z is NaN iff SE is not > 0, else z·SE = est; p = 2(1 − Φ(\|z\|)) for finite z (and unguarded), NaN iff z is NaN, else in [0, 1] |
| Contrasts.GuardIrrelevant | mixedlm_helpers.py:53-54 | z is never infinite, so the `isfinite(z)` guard on p gives the same row as the unguarded test |
| Contrasts.Bonferroni | mixedlm_helpers.py:60 | NaN iff p is NaN; for p in [0, 1], p ≤ min(p·m, 1) ≤ 1 |
| Contrasts.BonferroniColumn | mixedlm_helpers.py:58-62 | each row keeps its comparison and gets min(p·m, 1) with m the row count |
| Contrasts.CompareLevels | mixedlm_helpers.py:49-55 | the inner-loop body fails without an intercept, else yields the row of the pair (i, j) |
| Contrasts.CompareRow | mixedlm_helpers.py:48-55 | the inner loop yields the rows of (i, i+1) … (i, k−1) in order; without an intercept it fails iff it has a pair to visit |
| Contrasts.AdjustColumn | mixedlm_helpers.py:57-62 | the loop filling `p_adj` produces the Bonferroni column |
| Contrasts.PairwiseAtMeanGaze | mixedlm_helpers.py:23-63 | the nested loops return exactly the specified table, or the missing-intercept error |
| Contrasts.PairwiseTable | mixedlm_helpers.py:46-62 | with an intercept: k(k−1)/2 rows; row t has Group1 = levels[i], Group2 = levels[j] for the t-th pair i < j; estimate = dummy difference; p ≤ p_adj ≤ 1 |
| Contrasts.PairwiseNoIntercept | mixedlm_helpers.py:40 | without an intercept the function raises iff there are at least two levels |
| GroupContrasts.InterceptVec | stats_helpers.py:76-77 | one entry per fixed effect |
| GroupContrasts.LevelVec | stats_helpers.py:72-87 | one entry per fixed effect: the intercept vector for the baseline, the dummy-coded vector for later levels |
| GroupContrasts.LevelVecMean | stats_helpers.py:72-87 | each level's vector applied to β gives its mean: the intercept for the baseline, intercept + dummy (0 when absent) for later levels |
| GroupContrasts.PredictedMeans | stats_helpers.py:61-88 | raises iff there is a level and no intercept; otherwise both dictionaries hold exactly the levels, each with its mean and its vector |
| GroupContrasts.AdjustP | stats_helpers.py:116-120 | one adjusted p per row, rows unchanged: p itself when no adjustment is asked, Bonferroni for "bonferroni", Benjamini–Hochberg otherwise |
| GroupContrasts.AdjustColumnBy | stats_helpers.py:116-120 | the column written equals that rule |
| GroupContrasts.GroupCompareRow | stats_helpers.py:108-113 | the inner loop's rows are the tests of L[levels[j]] − L[levels[i]] for j = i+1 … k−1 |
| GroupContrasts.GroupCompareAllRows | stats_helpers.py:106-113 | the nested loops give one row per pair i < j, in the order the pairs are visited |
| GroupContrasts.MixedlmPairwiseContrasts | stats_helpers.py:100-121 | the method's result equals the specified table or error |
| GroupContrasts.GroupEstimate | stats_helpers.py:109-112 | the estimate of pair (i, j) is mean(levels[j]) − mean(levels[i]) |
| GroupContrasts.PairwiseContrastsTable | stats_helpers.py:105-120 | with an intercept: k(k−1)/2 rows in pair order with the right groups; p_adj = p when no adjustment is asked for |
| Lrt.TruncToInt | mixedlm_helpers.py:15-16 | `int()` raises for NaN and ±inf and otherwise truncates toward zero |
| Lrt.TestDf | mixedlm_helpers.py:19 | the chi-squared df is df_diff when positive, else 1 |
| Lrt.UpperTail | mixedlm_helpers.py:19 | p is NaN iff LR is NaN, else in [0, 1] |
| Lrt.Drop1Lrt | mixedlm_helpers.py:11-21 | fails iff either df conversion fails, the full model's error first |
| Lrt.Drop1LrtReport | mixedlm_helpers.py:17-21 | df_diff = df_full − df_red as is; a missing log-likelihood gives NaN LR and p; with finite ones LR = 2(ll_full − ll_red) and p = 1 − χ²cdf(LR, df_diff or 1) in [0, 1] |
| Lrt.LrEffectSizes | mixedlm_helpers.py:132-148 | (NaN, NaN) iff LR or n is non-finite or ≤ 0 |
| Lrt.EffectSizeOdds | mixedlm_helpers.py:146-147 | R2 = 1 − exp(−LR/n); f2 is NaN iff R2 ≥ 1, and f2·(1 − R2) = R2 otherwise |
| Lrt.EffectSizeBounds | mixedlm_helpers.py:146-147 | when exp(−LR/n) lies in (0, 1]: R2 in [0, 1) and f2 ≥ 0 |
| Quartiles.Sort | stats_helpers.py:24-25 | the sorted values are a permutation of the input |
| Quartiles.SortSorted | stats_helpers.py:24-25 | the sorted values are ascending |
| Quartiles.Rank | stats_helpers.py:24-25 | the interpolation rank (n−1)·q/100 lies in [0, n−1] |
| Quartiles.PercentileMonotone | stats_helpers.py:24-26 | over sorted data, min ≤ P(p) ≤ P(q) ≤ max for p ≤ q, so q1 ≤ q3 |
| Outliers.Present | stats_helpers.py:20-21 | the non-missing values, no more than the series holds |
| Outliers.MaskSeries | stats_helpers.py:16-33 | the masked series has the input's length |
| Outliers.MaskGuards | stats_helpers.py:18-28 | an empty series, fewer than 3 values, or a zero IQR leave the series unchanged |
| Outliers.FencesOrdered | stats_helpers.py:24-31 | when the fences exist, q1 < q3, they are q1 − 1.5·iqr and q3 + 1.5·iqr, and they strictly contain [q1, q3] |
| Outliers.MaskKeeps | stats_helpers.py:30-33 | a value is kept iff it is missing or lies in the closed interval, and becomes missing otherwise |
| Outliers.MaskOnlyRemoves | stats_helpers.py:32-33 | every entry is the original or missing |
| Outliers.MaskKeepsMiddle | stats_helpers.py:30-33 | values between the quartiles always survive |
| Outliers.MaskExample | stats_helpers.py:16-33 | [1, 2, 3, 4, 100] masks to [1, 2, 3, 4, NaN] (quartiles 2 and 4, fences −1 and 7) |
| Outliers.GroupValues | stats_helpers.py:44-47 | a group's values, no more than the column holds |
| Outliers.MaskByGroup | stats_helpers.py:44-48 | the realigned masked column has the input's length |
| Outliers.MaskByGroupAgrees | stats_helpers.py:44-48 | row i gets the entry at its own position within its group of `_mask_series` applied to that group |
| Outliers.SingleGroupMask | stats_helpers.py:44-48 | with one group the grouped mask is `_mask_series` of the whole column |
| OutlierFilter.ByList | stats_helpers.py:41-42 | a single column name becomes a one-element list |
| OutlierFilter.ByStringIsList | stats_helpers.py:41-42 | grouping by "c" and by ["c"] give the same result |
| OutlierFilter.ToFloats | stats_helpers.py:20 | conversion succeeds iff the column holds no non-numeric text; missing cells become NaN, numbers stay |
| OutlierFilter.FromFloats | stats_helpers.py:48 | the masked values written back cell by cell, NaN as missing |
| OutlierFilter.FirstMissing | stats_helpers.py:44 | none iff every group column exists; otherwise a requested name that is not a column |
| OutlierFilter.GroupKeys | stats_helpers.py:44 | one key per row |
| OutlierFilter.FilterVariables | stats_helpers.py:46-48 | a successful loop keeps every column n rows long |
| OutlierFilter.FilterShape | stats_helpers.py:40-50 | same columns; columns not named in `variables` unchanged; every cell is the original or missing |
| OutlierFilter.MaskByGroupOnlyRemoves | stats_helpers.py:47-48 | the grouped mask only turns values into missing ones |
| OutlierFilter.FilterSucceeds | stats_helpers.py:46-48 | the loop succeeds whenever every variable is an existing numeric column |
| OutlierFilter.FilterErrors | stats_helpers.py:46-48 | a failure names a requested variable: missing, or present but not numeric |
| OutlierFilter.Frame.Copy | stats_helpers.py:40 | a fresh frame with the same columns |
| OutlierFilter.Frame.SetColumn | stats_helpers.py:48 | replaces exactly one column |
| OutlierFilter.IqrOutlierFilter | stats_helpers.py:35-50 | the input frame is untouched; the result is a fresh frame holding the specified columns, or the specified error |
| ModelTable.Lookup | export_model_table.py:118-120 | NaN when the series or the term is missing, else the entry |
| ModelTable.Predictors | export_model_table.py:45 | exactly the names other than "Intercept" and "const" |
| ModelTable.JoinEmpty | export_model_table.py:45-48 | " + ".join is empty iff there is nothing to join or one empty part |
| ModelTable.TitleCases | export_model_table.py:41-48 | without a formula: the response alone when the right-hand side is empty, else "y ~ a + b" |
| ModelTable.TitleExamples | export_model_table.py:33-50 | a formula wins; intercept-only gives the response; ["const", "x"] gives "y ~ x"; no model gives "Model" |
| ModelTable.StatAt | export_model_table.py:98-109 | NaN when there are no t, z or standard errors |
| ModelTable.FixedTable | export_model_table.py:115-129 | one row per term |
| ModelTable.FixedRowFallbacks | export_model_table.py:55-120 | SE from `bse`, else `bse_fe`; stat·SE = β when stat is computed; fallback p is the normal p of the statistic; without `conf_int()` the interval is β ∓ 1.96·SE, contains β when SE ≥ 0, and is symmetric; no interval without SE |
| ModelTable.FallbackPBlank | export_model_table.py:110-127 | with fallback p-values, the p cell is blank iff the statistic is NaN |
| ModelTable.FixedTableAsWritten | export_model_table.py:81-120 | raises AttributeError iff there is exactly one term, or p-values are missing, a statistic exists and there is at least one term; otherwise the corrected table |
| ModelTable.PFallbackRaises | export_model_table.py:109-120 | a two-term fit with t-values and no p-values raises as written; the corrected table shows each term's normal p |
| ModelTable.SqueezeRaises | export_model_table.py:81-83 | a one-term fit with every attribute present raises as written; the corrected table has that term's one row with its p |
| ModelTable.ReLabel | export_model_table.py:144 | the label changes iff the name is "Intercept" or "(Intercept)", and then is "Random intercept" |
| ModelTable.DefaultReNames | export_model_table.py:143 | one default name per variance |
| ModelTable.ResidualRows | export_model_table.py:149-153 | raises iff the scale is negative; one Residual row iff the scale is present and not NaN |
| ModelTable.VarianceRows | export_model_table.py:133-161 | the loop, the empty replacement and the in-place write give exactly the specified table or error |
| ModelTable.VarianceShape | export_model_table.py:139-161 | one relabelled row per (name, variance) pair, SD = √variance; then Residual iff scale present and not NaN; a single NaN Residual row when nothing else; only row 0 carries the log-likelihood |
| ModelTable.ExportTables | export_model_table.py:76-161 | raises without `params` (NoParams) or for a negative residual variance (MathDomainError), and otherwise not; the result is the title, the fixed-effects table and the variance table; one fixed row per term and at least one variance row |
| TidyEffects.InsertAt | mixedlm_helpers.py:122-127 | the new column lands at position k |
| TidyEffects.InsertAtParts | mixedlm_helpers.py:122-127 | columns before k stay, the rest shift by one, exactly one name is added |
| TidyEffects.Columns | mixedlm_helpers.py:121-127 | the seven base columns are always present |
| TidyEffects.ColumnsAdded | mixedlm_helpers.py:121-127 | each requested annotation is added exactly once, nothing else is added |
| TidyEffects.ColumnsAllOrNone | mixedlm_helpers.py:121-127 | with all three annotations they come first in order; with none, the base columns |
| TidyEffects.ColumnsWithoutTask | mixedlm_helpers.py:121-127 | without a task, "DV" lands after "Term" and "ModelLabel" after "beta" |
| TidyEffects.TidyRows | mixedlm_helpers.py:105-119 | one row per term |
| TidyEffects.TidyRowFallbacks | mixedlm_helpers.py:71-119 | term and β in order; SE from `bse`, `bse_fe` or NaN; stat from t, z, or β/SE with stat·SE = β; NaN stat when SE is missing; p from `pvalues` or the normal p of the stat; CI from `conf_int()` or NaN |
| TidyEffects.TidyAgreesWithExport | mixedlm_helpers.py:73-93 | the tidy table and the export agree on SE and statistic; the export formats and stars the tidy p |
| TidyEffects.FixedEffectsToDf | mixedlm_helpers.py:65-129 | fails iff the result has no `params`; otherwise the columns are the base columns with the requested annotations inserted and the rows are the tidy rows, one per term |
| TidyEffects.FixedEffectsToDfAsWritten | mixedlm_helpers.py:90-110 | raises iff `params` or `pvalues` is missing; otherwise the corrected table |
| TidyEffects.PValuesFallbackRaises | mixedlm_helpers.py:90-110 | even a fit with no terms and no p-values raises as written, where the corrected table is empty |
| Brackets.LabelMap | rainclouds_plotting_helpers.py:6-8 | a label is a key iff it occurs among the zipped labels |
| Brackets.LastOccurrenceWins | rainclouds_plotting_helpers.py:8 | a label maps to the tick of its last occurrence |
| Brackets.XposFromTicks | rainclouds_plotting_helpers.py:1-11 | KeyError iff the category is not among the labels that have a tick |
| Brackets.XposIsLastTick | rainclouds_plotting_helpers.py:6-11 | the position found is the tick of the category's last occurrence |
| Brackets.DuplicateLabelExample | rainclouds_plotting_helpers.py:6-11 | labels a, b, a at ticks 0, 1, 2 put a at 2 and b at 1 |
| Brackets.Xpos | rainclouds_plotting_helpers.py:40-45 | with a mapping only the mapping is consulted, and a missing key raises; otherwise the tick labels are used |
| Brackets.Count | rainclouds_plotting_helpers.py:47 | the number of brackets is the length of the shortest of the three lists |
| Brackets.Shape | rainclouds_plotting_helpers.py:50-57 | legs at the smaller then the larger x; polyline y = [y, y+h, y+h, y]; label at the midpoint, y + h + offset |
| Brackets.ShapeSymmetric | rainclouds_plotting_helpers.py:50-57 | swapping the categories gives the same bracket; the label lies between the legs |
| Brackets.BracketGeometry | rainclouds_plotting_helpers.py:35-58 | x = [x1, x1, x2, x2] with x1 ≤ x2 the two positions; h = bracket_height·(y1 − y0); label at ((x1+x2)/2, y + h + text_offset·(y1 − y0)) |
| Brackets.BracketFails | rainclouds_plotting_helpers.py:48-49 | a comparison fails iff a category cannot be placed, and the error names the first one |
| Brackets.Drawn | rainclouds_plotting_helpers.py:47-58 | without an error, one bracket per step |
| Brackets.DrawnIsPrefix | rainclouds_plotting_helpers.py:47-58 | the drawn brackets are those of the comparisons before the first failing one, and the error is that comparison's |
| Brackets.Axes.Plot | rainclouds_plotting_helpers.py:53-55 | appends one polyline and nothing else |
| Brackets.Axes.Text | rainclouds_plotting_helpers.py:57-58 | appends one text and nothing else |
| Brackets.AddStatBrackets | rainclouds_plotting_helpers.py:14-58 | the axes gain exactly the specified brackets and labels in order; an error keeps the earlier ones and is returned |

## Left out

- fooof_bridge.py is not part of this model: it only passes data to the FOOOF library.
- Model fitting (`fit_mixedlm`, `_mixedlm_fit`) is not modelled. It is statsmodels optimisation. The contrast functions start from the fitted estimates and covariance.
- Writing the Word document (export_model_table.py:163-212) is I/O and is not modelled.
- The numerics of the square root, the exponential, the normal and chi-squared CDFs and the Benjamini–Hochberg procedure (`multipletests`) are not modelled. They are parameters, and only their ranges are assumed.
- PValues.PFmt: models which rendering is chosen, not the `.2e`/`.3f` digits.
- Rounding (`safe_round`, `np.round`) is not modelled. Table cells hold unrounded values.
- Attribute probing and pandas mechanics are not modelled: `getattr`, broad `except`, and alignment by index label. Attributes are optional record fields. Series are maps from term name to value. Positional arrays are left out: a `bse_fe` array aligned through `exog_names`, or a `conf_int()` that is not a DataFrame. So are duplicate index labels.
- ModelTable.Title: a non-list `exog_names` rendered with `str(X)` is not modelled. A model attribute that raises is treated like a missing model.
- ModelTable.ReRows: exceptions inside the `cov_re` block (which the code swallows) are not modelled. The model takes the covariance diagonal as given.
- FixedEffects estimates, covariance entries and random-effect variances are finite reals. NaN coefficients are not modelled.
- GroupContrasts.PredictedMeans: assumes distinct levels, as pandas categories are.
- Outliers.MaskSeries: does not model the non-finite-IQR guard, because data cells hold finite reals. Infinite data values are left out.
- OutlierFilter.IqrOutlierFilter: grouping keys are computed once from the frame being filtered. A variable listed twice reads the column as masked by its first pass.
- PValues.PToSignif: `p_to_signif(None)` raises a TypeError in the code, and that case is not modelled. A missing p is NaN here.
- Brackets.AddStatBrackets: line width, colour, font size, alignment and clipping are styling and are not modelled. The tick positions, tick labels and y-limits are read once and are assumed unchanged by drawing.
- OutlierFilter.ToFloats: a `Text` cell stands for text that does not parse as a number. `to_numpy(dtype=float)` also converts numeric strings such as "3.5", and those are not modelled.
- ModelTable.ExportTables: models the corrected export. As written, a one-term fit raises (see Findings); only ModelTable.FixedTableAsWritten models that.
- ModelTable.FixedTableAsWritten: `params` is taken to be a Series named by terms. A positional array would be re-indexed by 0, 1, … and raise at `prettify_terms` for any number of terms, which is not modelled.
- `lr_effect_sizes` takes `df_diff` and never uses it, so the model has no such parameter.

## Findings

| source | as written | input that shows it | evidently intended | confidence | as-written member | corrected member |
|---|---|---|---|---|---|---|
| export_model_table.py:109-120 | when `pvalues` is missing but a statistic exists, the fallback p-values come out of the normal CDF as a plain numpy array. The row loop then asks for that array's `.index`, which raises AttributeError as soon as there is one term | a fit with two terms "x" and "z", t-values t and u, and no `pvalues` | each term's p is the two-sided normal p of its statistic | not executed | ModelTable.FixedTableAsWritten, ModelTable.PFallbackRaises | ModelTable.FixedTable, ModelTable.FixedRowFallbacks |
| export_model_table.py:81-83 | a one-element `params` Series is squeezed to a scalar, and `pd.Series` of that scalar is indexed by 0. `prettify_terms(0)` at line 116 then raises AttributeError, since an int has no `.replace` | a fit with the one term "x", its estimate b and p-value p | a one-term fit gets one row named by its term | not executed | ModelTable.FixedTableAsWritten, ModelTable.SqueezeRaises | ModelTable.FixedTable, ModelTable.FixedRowFallbacks |
| mixedlm_helpers.py:90-110 | the same fallback builds a numpy array, and `.reindex` on it raises AttributeError whenever `pvalues` is missing, even with no terms | a fit with no terms and no t, z or p-values | each term's p is the two-sided normal p of its statistic | not executed | TidyEffects.FixedEffectsToDfAsWritten, TidyEffects.PValuesFallbackRaises | TidyEffects.FixedEffectsToDf, TidyEffects.TidyRowFallbacks |
