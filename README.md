# Healthcare ETL pipeline, modelled in Dafny

This project models `HealthcareETL`, the extract–transform–analyse pipeline
for New York State health records. The pipeline does four things:

- it takes raw admission records;
- it derives the `processed_data` columns from them: title-cased text, age
  bands, date parts, cost per day, high-cost and long-stay flags, and a risk
  score;
- it summarises the processed data in a metrics dictionary;
- it builds three group-by tables for Tableau: an overview by month, one
  table by condition and one by county.

The project is written as these modules:

- `Wrappers`: `Option` and `Result`.
- `Records`: the raw record and its fields. An admission type and a gender
  are enumerations. A record date is given already split into year, month
  and weekday.
- `TextCase`: `str.title()` on ASCII text. The module proves the pointwise
  rule, that the result is title-cased, which strings are fixed points, and
  that title-casing is idempotent.
- `AgeBands`: `pd.cut` with edges 0, 18, 35, 50, 65, 100. The bins are
  closed on the right, and an age outside (0, 100] gets no band.
- `Risk`: the weighted risk score (2, 3 and 4 over 9) and the 0.7 high-risk
  cut-off.
- `Quantile`: `Series.quantile(0.75)` with linear interpolation, computed by
  an insertion sort. The module bounds how many values lie above the
  quantile.
- `Transform`: the derived row and `transform_data` as a whole.
- `Reductions`: the column sums and pandas' `mean()`.
- `Grouping`: `groupby`. Rows are folded into groups kept in ascending key
  order. A reference tally gives the totals over exactly the rows with a
  given key.
- `Extracts`: the three Tableau tables and what each row means.
- `Analytics`: the metrics dictionary.
- `Pipeline`: the class `HealthcareETL`. Its fields `rawData` and
  `processedData` are updated by the stages. A stage that runs before the
  stage it depends on returns a `Failure`, where the source raises
  `ValueError`.

Behaviour of the code that is easy to misread:

- The age bands include their upper edge (`right=True`), so age 18 is in
  `<18` and 65 is in `51-65`.
- A single cost is its own 0.75 quantile, so a lone record is never
  high-cost.
- Nothing validates the input. `transform_data` keeps every row, and
  `generate_analytics` fails on an empty data set because it divides by the
  row count (line 150).

## Model

| member | source | states |
|---|---|---|
| TextCase.TitleCase | src/etl_pipeline.py:77-78 | `str.title()` keeps the length and the characters. Letters may change case, but nothing else changes. |
| TextCase.TitleCaseAt | src/etl_pipeline.py:77-78 | Title-casing keeps the length and changes only the case of letters. A letter is lowered exactly when the original character before it is a letter, and is uppered otherwise. |
| TextCase.TitleCaseIsTitled | src/etl_pipeline.py:77-78 | The standardised county and condition are title-cased: no word starts lower case and no letter inside a word is upper case. |
| TextCase.TitleCaseFixedPoints | src/etl_pipeline.py:77-78 | `title()` leaves a string unchanged if and only if the string is already title-cased. |
| TextCase.TitleCaseIdempotent | src/etl_pipeline.py:77-78 | Standardising a standardised name changes nothing. |
| TextCase.HeartDiseaseUnchanged | src/etl_pipeline.py:35-36 | A generated condition name that is already title-cased ("Heart Disease") passes through unchanged. |
| TextCase.AcronymIsLowered | src/etl_pipeline.py:36 | The generated condition "COPD" is standardised to "Copd". |
| AgeBands.AgeGroup | src/etl_pipeline.py:81-83 | Band i is given exactly when EDGES[i] < age <= EDGES[i+1]. No band is given exactly when the age is outside (0, 100]. |
| AgeBands.BoundaryAges | src/etl_pipeline.py:81-83 | Under the labels passed to `pd.cut`: 1 and 18 are `<18`, 19 and 35 are `18-35`, 36 and 50 are `36-50`, 51 and 65 are `51-65`, 66 and 100 are `65+`, and 0 and 101 get no band. |
| AgeBands.AgeGroupMonotone | src/etl_pipeline.py:81-83 | An older age never gets an earlier band. |
| Risk.RiskNumerator | src/etl_pipeline.py:97-101 | The weighted indicator sum is at most 9. It is 9 exactly when the patient is over 65, admitted as an emergency and readmitted, and 0 exactly when none of these holds. |
| Risk.RiskScore | src/etl_pipeline.py:97-101 | The risk score lies in [0, 1]. It is 1 exactly when all three risk factors hold, and 0 exactly when none does. |
| Risk.HighRiskIffEmergencyReadmission | src/etl_pipeline.py:97-101 | A score above 0.7, the high-risk count's cut-off, happens exactly for emergency admissions that are readmissions, whatever the age. |
| Risk.ElderlyBandMatchesElderlyWeight | src/etl_pipeline.py:81-98 | For a banded age, the `65+` band is exactly the ages that carry the elderly risk weight. |
| Risk.WorstCaseScoresOne | src/etl_pipeline.py:97-101 | An elderly emergency readmission scores 1. |
| Quantile.Insert | src/etl_pipeline.py:93 | Inserting into a sorted column gives a sorted column with the same values plus the inserted one. |
| Quantile.Sort | src/etl_pipeline.py:93 | The sorted costs are sorted, have the same length and are a permutation of the costs. |
| Quantile.CountAboveSort | src/etl_pipeline.py:93 | Sorting does not change how many costs exceed a threshold. |
| Quantile.SortSorted | src/etl_pipeline.py:93 | Sorting a sorted column leaves it unchanged. |
| Quantile.Interpolate75 | src/etl_pipeline.py:93 | The interpolated value of a sorted column lies between the lower order statistic at floor(3(n-1)/4) and the maximum. There is none exactly when the column is empty. |
| Quantile.Quantile75 | src/etl_pipeline.py:93 | `quantile(0.75)` has no value exactly when there are no costs. Otherwise it lies between two of the costs. |
| Quantile.SortedAboveBound | src/etl_pipeline.py:93 | In a sorted column, if the value at index k is at most t, at most n-1-k values lie above t. |
| Quantile.AboveQuantileBound | src/etl_pipeline.py:93 | At most n-1-floor(3(n-1)/4) of n costs lie strictly above their 0.75 quantile. |
| Quantile.SingleValueNeverAbove | src/etl_pipeline.py:93 | The quantile of a single cost is that cost, so the cost is not above it. |
| Quantile.FourCostsExample | src/etl_pipeline.py:93 | The costs 100, 200, 300 and 1000 have the quantile 475. |
| Transform.QuarterOf | src/etl_pipeline.py:88 | The quarter q of month m satisfies 3(q-1) < m <= 3q. |
| Transform.CostPerDay | src/etl_pipeline.py:92 | Cost per day exists exactly when the stay is non-zero. Multiplied by the stay, it gives back the total cost. |
| Transform.Derive | src/etl_pipeline.py:71-101 | A derived row is defined as follows. The raw columns are carried over, except that county and condition are title-cased. The age band and the date parts are those of the record. Cost per day times the stay gives back the total cost. The long-stay flag is set exactly when the stay exceeds 7 days. The high-cost flag is set exactly when a threshold exists and the cost exceeds it. The risk score is the weighted score of the record's age, admission type and readmission. It lies in [0, 1] and is above 0.7 exactly for emergency readmissions. |
| Transform.Costs | src/etl_pipeline.py:93 | The `total_cost` column, row for row. |
| Transform.DeriveAll | src/etl_pipeline.py:71-101 | Row i is derived from raw row i against one common threshold. |
| Transform.Transform | src/etl_pipeline.py:71-108 | `transform_data` neither drops nor reorders rows. Row i is raw row i derived against the 0.75 quantile of all the costs. |
| Transform.CountHighCost | src/etl_pipeline.py:93 | The number of rows flagged `is_high_cost` is at most the number of rows. HighCostBound bounds it further. |
| Transform.CountHighCostDeriveAll | src/etl_pipeline.py:93 | The number of high-cost rows is the number of costs strictly above the threshold. |
| Transform.HighCostBound | src/etl_pipeline.py:93 | Of n records, at most n-1-floor(3(n-1)/4) are flagged high-cost. |
| Transform.SingleRecordNotHighCost | src/etl_pipeline.py:93 | A single record is never flagged high-cost. |
| Transform.FourCostsFlags | src/etl_pipeline.py:93 | With costs 100, 200, 300 and 1000, only the 1000 row is flagged high-cost. |
| Reductions.SumReadmissions | src/etl_pipeline.py:157 | There are never more readmissions than rows. |
| Reductions.Mean | src/etl_pipeline.py:155-157 | A mean exists exactly when there is at least one value, as pandas gives NaN on an empty column. |
| Reductions.MeanTimesCount | src/etl_pipeline.py:155-157 | A mean times the number of values gives back their sum. |
| Reductions.ReadmissionRate | src/etl_pipeline.py:157 | The mean of the readmission column exists exactly when there are rows and lies in [0, 1]. |
| Reductions.SumCostNonNegative | src/etl_pipeline.py:156 | The total of the cost column is not negative when no cost is. |
| Reductions.SumLengthOfStayNonNegative | src/etl_pipeline.py:155 | The total of the length-of-stay column is not negative when no stay is. |
| Grouping.TextLessTransitive | src/etl_pipeline.py:179 | The string order of the group keys is transitive. |
| Grouping.TextLessTotal | src/etl_pipeline.py:179 | The string order of the group keys is total on distinct strings. |
| Grouping.TextLessIrreflexive | src/etl_pipeline.py:179 | The string order of the group keys is irreflexive. |
| Grouping.KeyLessTransitive | src/etl_pipeline.py:170 | The group-key order is transitive. |
| Grouping.KeyLessTotal | src/etl_pipeline.py:170 | The group-key order is total on distinct keys. |
| Grouping.KeyLessIrreflexive | src/etl_pipeline.py:170 | The group-key order is irreflexive. |
| Grouping.Tally | src/etl_pipeline.py:170-175 | The reference group of a key has that key, and no more readmissions than rows. |
| Grouping.KeysPresent | src/etl_pipeline.py:170 | Every row's key is among the keys present. |
| Grouping.KeysPresentFit | src/etl_pipeline.py:170 | Each key present has the form its grouping column gives: a (year, month) pair or a text. |
| Grouping.TallyAbsent | src/etl_pipeline.py:170-175 | A key that no row carries has an empty tally. |
| Grouping.TallyPresent | src/etl_pipeline.py:170-175 | A key that some row carries has a tally of at least one row. |
| Grouping.AddRow | src/etl_pipeline.py:170-175 | Folding one row into key-sorted, non-empty groups keeps them key-sorted and non-empty, and adds its key to the keys. The row count grows by one and the cost sum by the row's cost. |
| Grouping.LookupAddRow | src/etl_pipeline.py:170-175 | Folding a row changes only the group of the row's key, and changes it by exactly that row. |
| Grouping.LookupAt | src/etl_pipeline.py:170-175 | In groups with distinct keys, looking up a group's key finds that group. |
| Grouping.GroupAll | src/etl_pipeline.py:170-175 | The groups are in strictly ascending key order and none is empty. Their keys are exactly the keys present in the rows. Their counts add up to the number of rows, and their cost sums to the total cost. |
| Grouping.GroupAllLookup | src/etl_pipeline.py:170-175 | The group of every key is that key's reference tally over the rows. |
| Grouping.GroupAllSpec | src/etl_pipeline.py:170-193 | Each group equals the tally of exactly the rows with its key, holds at least one row, and has a key of the right form. |
| Extracts.RateFacts | src/etl_pipeline.py:174 | A group's readmission rate lies in [0, 1]. Multiplied by the group size, it gives back the readmission count. |
| Extracts.Overview | src/etl_pipeline.py:170-176 | Every overview row has at least one admission. The admissions add up to the number of records, and Total_Cost adds up to the overall cost. |
| Extracts.Conditions | src/etl_pipeline.py:179-185 | Every condition row counts at least one record, and the counts add up to the number of records. |
| Extracts.Regional | src/etl_pipeline.py:188-193 | Every regional row has at least one admission. The admissions add up to the number of records, and Total_Cost adds up to the overall cost. |
| Extracts.BuildExtracts | src/etl_pipeline.py:200-204 | The three tables account for the same records. Each counts every record once, and both cost columns add up to the same overall cost. |
| Extracts.OverviewRows | src/etl_pipeline.py:170-176 | Overview row i is the renamed aggregate of group i. |
| Extracts.ConditionRows | src/etl_pipeline.py:179-185 | Condition row i is the renamed aggregate of group i. |
| Extracts.RegionalRows | src/etl_pipeline.py:188-193 | Regional row i is the renamed aggregate of group i. |
| Extracts.OverviewSums | src/etl_pipeline.py:170-176 | The overview admissions and total costs add up to the group counts and cost sums. |
| Extracts.ConditionSums | src/etl_pipeline.py:179-185 | The condition counts add up to the group counts. |
| Extracts.RegionalSums | src/etl_pipeline.py:188-193 | The regional admissions and total costs add up to the group counts and cost sums. |
| Extracts.OverviewKeys | src/etl_pipeline.py:170-176 | The overview has one row per (year, month) present in the records and no other, in strictly ascending order. |
| Extracts.OverviewRowsAreTallies | src/etl_pipeline.py:170-176 | Each overview row has the figures of exactly the records of its month: Admissions is their number (at least 1), Total_Cost their cost sum, Avg_LOS their mean stay, and Readmission_Rate their share of readmissions, which lies in [0, 1]. |
| Extracts.ConditionsKeys | src/etl_pipeline.py:179-185 | The conditions extract has one row per condition present in the records and no other, in strictly ascending order. |
| Extracts.ConditionRowsAreTallies | src/etl_pipeline.py:179-185 | Each condition row has the count, mean cost, mean stay and readmission rate (in [0, 1]) of exactly the records with that condition. |
| Extracts.RegionalKeys | src/etl_pipeline.py:188-193 | The regional extract has one row per county present in the records and no other, in strictly ascending order. |
| Extracts.RegionalRowsAreTallies | src/etl_pipeline.py:188-193 | Each regional row has the admissions, total cost and readmission rate (in [0, 1]) of exactly the records of that county. |
| Analytics.PatientColumn | src/etl_pipeline.py:153 | The `patient_id` column, row for row. |
| Analytics.PatientIds | src/etl_pipeline.py:153 | There are no more distinct patients than rows, and at least one when there are rows. |
| Analytics.PatientIdsAreColumnValues | src/etl_pipeline.py:153 | The identifiers collected are exactly the values of the patient column, so their number is `nunique()`. |
| Analytics.CountHighRisk | src/etl_pipeline.py:149 | The number of rows with a risk score above 0.7 is at most the number of rows. |
| Analytics.CountEmergencyReadmissions | src/etl_pipeline.py:149 | The number of raw records that are emergency readmissions is at most the number of records. |
| Analytics.HighRiskCount | src/etl_pipeline.py:149 | Over any derivation of the records, the rows above 0.7 are exactly as many as the emergency readmissions. |
| Analytics.HighRiskCountOfTransform | src/etl_pipeline.py:149 | The high-risk patients counted in the report are the emergency readmissions of the raw data. |
| Analytics.Summarize | src/etl_pipeline.py:152-158 | total_admissions is the row count. total_patients is the number of distinct identifiers: between 1 and the row count, and 0 for no rows. Each average exists exactly when there are rows and is its column total divided by the row count. The readmission rate is therefore the share of readmitted rows, and it lies in [0, 1]. |
| Pipeline.HealthcareETL.constructor | src/etl_pipeline.py:20-22 | A new pipeline holds neither raw nor processed data. |
| Pipeline.HealthcareETL.ExtractData | src/etl_pipeline.py:25-60 | The raw data become the extracted records, which are also returned. |
| Pipeline.HealthcareETL.TransformData | src/etl_pipeline.py:62-108 | Without raw data the stage fails and changes nothing. Otherwise the processed data become the transform of the unchanged raw data, and that transform is returned. The invariant that processed data are the transform of some extracted records is kept. |
| Pipeline.HealthcareETL.GenerateAnalytics | src/etl_pipeline.py:110-158 | The stage fails without processed data, and also on zero rows, because line 150 divides by the row count. Otherwise it returns the metrics of the processed data, which count exactly the records last transformed. |
| Pipeline.HealthcareETL.CreateTableauExtracts | src/etl_pipeline.py:160-204 | The stage fails exactly when there is no processed data. Otherwise it returns the three tables of the processed data, which are the tables of the transform of the records last transformed. |
| Pipeline.HealthcareETL.RunFullPipeline | src/etl_pipeline.py:221-257 | From any state, the pipeline ends holding the records and their transform. It returns the metrics and tables of that transform, and fails only on an empty record set. |
| Pipeline.HealthcareETL.TransformTwice | src/etl_pipeline.py:68-107 | Transforming twice over the same raw data gives identical results and leaves the same processed data. |

## Left out

- extract_data's generator is not modelled: the seeded random records (fixed seed, 10 000 hourly records from 2024-01-01) are replaced by a `records` parameter, and the console lines it prints are dropped.
- Record dates are given already split into year, month and weekday. The calendar arithmetic behind `.dt.year`, `.dt.month` and `.dt.day_name()` is not modelled.
- `extraction_date` and the `datetime.now()` clock are left out, because nothing else reads them.
- simulate_s3_upload only prints would-be S3 paths built from the clock. It is left out, and RunFullPipeline's trace omits it.
- Most of the printed reports in generate_analytics are left out, because they do not reach the returned dictionary. These are the top-five conditions and counties, the average age, the gender split and the high-risk share. The high-risk count (line 149) is modelled as `Analytics.CountHighRisk`; only its printing is left out.
- Costs, stays and scores are exact reals, not IEEE doubles. Rounding in the quantile interpolation and in the means is not modelled.
- A NaN or infinite value (a mean over no rows, a quantile of no costs, cost per day at zero stay) is `None`.
- is_high_cost and is_long_stay are booleans rather than the 0/1 integers `astype(int)` produces.
- Readmission is 0 or 1, the only values the generator produces. The rate is the mean of that column.
- TextCase.TitleCase: only ASCII letters have a case. Other characters are left as they are and count as word breaks, whereas Python's `str.title()` also cases non-ASCII letters.
- Grouping.TextLess orders strings by code point, as Python compares `str`. pandas' sort of object keys is taken to agree with it.
- Quantile.Sort is an insertion sort used as a specification. The sorting algorithm pandas uses is not modelled, because only the sorted order matters to the quantile.
- The group-by and the extracts are pure functions over the processed rows. DataFrame copies, column renaming and `reset_index` have no counterpart beyond the row fields.
- `warnings.filterwarnings` and the imports have no behaviour to model.
