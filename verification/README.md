# NBA player clustering and weak-spot analysis, in Dafny

This project models the decision logic of an NBA player-analysis tool. The tool
reads a season of player statistics from a spreadsheet and keeps the usable
rows. It groups the players into clusters, gives each cluster a role label
(for example "Protector de Aro / Pívot Defensivo"), and then compares one
player with the mean of the player's cluster. From that comparison it finds
weak spots, projects an improved value for each, and suggests drills.

The clustering itself (K-means on standardised statistics) is an input here:
the model takes the cluster label of every row as given.

The project has five modules:

- `Common` (`common.dfy`): the optional value that stands for a pandas NaN,
  `Result`, Python's `min`/`max`, `str.lower()` and the `in` test on strings.
- `DataProcessor` (`data_processor.dfy`): loading and cleaning
  (`load_and_preprocess_data`), then the per-cluster and population-wide
  means (`analyze_clusters`).
  - `LoadAndPreprocess` keeps the source's column-by-column coercion loop
    over an array of columns.
  - It is proved equal to the value-level specification `Preprocess`.
- `RoleAssigner` (`role_assigner.dfy`): the role cascade of
  `assign_cluster_roles`.
  - The if/elif chain is written as an ordered table of rules.
  - The method keeps the source's loop and its "Indefinido" placeholder.
- `WeakSpots` (`weak_spots.dfy`): `analyze_player_weak_spots`, covering:
  - the player and role lookup and the comparison table;
  - the classification loop with its projection copy;
  - the drill-key search;
  - the statistic and drill tables.
- `Pipeline` (`pipeline.dfy`): how the stages meet. It puts the column names
  back on the position-indexed means, and shows that the resulting table
  meets what the role labelling and the analysis ask of their inputs.

Numbers are exact `real`s. A NaN is `None`.

## Model

| member | source | states |
|---|---|---|
| Common.Min | nba_player_analyzer.py:325 | `min` of two numbers is one of them and at most both |
| Common.Max | nba_player_analyzer.py:330 | `max` of two numbers is one of them and at least both |
| Common.Lower | nba_player_analyzer.py:350 | `str.lower()` keeps the length and lower-cases each character |
| Common.LowerConcat | nba_player_analyzer.py:350 | lower-casing distributes over concatenation |
| Common.Contains | nba_player_analyzer.py:320 | Python's substring test; with InfixContained, a string occurs in any text it is a middle part of |
| Common.InfixContained | nba_player_analyzer.py:350 | a needle occurs in any text of the form a + needle + b |
| DataProcessor.CoerceCell | nba_data_processor.py:41 | `to_numeric(errors='coerce')` never leaves text; numbers stay, blanks stay blank |
| DataProcessor.RetainedColumns | nba_data_processor.py:31 | a column is retained iff it is declared and present; never more columns than declared |
| DataProcessor.RetainedColumnsInOrder | nba_data_processor.py:31 | the filter keeps declared order (distributes over concatenation) |
| DataProcessor.AllPresentAllRetained | nba_data_processor.py:31 | with every declared column present, all are retained, in order |
| DataProcessor.KeptIndices | nba_data_processor.py:42 | a position is kept iff its row is complete after coercion; kept positions strictly increase |
| DataProcessor.RowValues | nba_data_processor.py:41-42 | a complete row's numbers are exactly its coerced cells, in column order |
| DataProcessor.NumericRowsAreComplete | nba_data_processor.py:40-42 | `dropna` on the coerced columns keeps exactly the complete rows |
| DataProcessor.KeptValuesAreRowValues | nba_data_processor.py:40-42 | the numbers read back from the coerced frame at the kept positions are the kept rows' coerced cells |
| DataProcessor.LoadAndPreprocess | nba_data_processor.py:24-52 | missing file gives the failure; otherwise the result equals `Preprocess` (column loop, `dropna`, `loc`, names) |
| DataProcessor.Preprocess | nba_data_processor.py:31-49 | fails only with the no-columns error; on success indices, statistics, records and names align, number at most the rows, and each statistics row has one number per retained column (the rest in FailsOnlyWithoutColumns, KeptRowsAreTheCompleteOnes) |
| DataProcessor.FailsOnlyWithoutColumns | nba_data_processor.py:31-35 | preparation fails iff no declared column is present; on success the columns are the retained ones |
| DataProcessor.KeptRowsAreTheCompleteOnes | nba_data_processor.py:40-49 | kept rows are the complete ones, in original order, with original rows, names and numeric statistics |
| DataProcessor.EmptyRowSetPasses | nba_data_processor.py:42-52 | no complete row still succeeds, with zero rows |
| DataProcessor.NoneKept | nba_data_processor.py:42 | without a complete row no position is kept |
| DataProcessor.Count | nba_data_processor.py:128 | a cluster's size is at most the number of rows |
| DataProcessor.CountPositiveIffPresent | nba_data_processor.py:128 | a cluster has members iff its label occurs |
| DataProcessor.ClusterMeans | nba_data_processor.py:128 | one entry per label that occurs, one mean per column |
| DataProcessor.ClusterMean | nba_data_processor.py:128 | arithmetic mean of one column over one cluster; its value is pinned by MeanWithinMembers and SizeTimesMean |
| DataProcessor.OverallMeans | nba_data_processor.py:139 | one mean per column, NaN exactly when there are no rows |
| DataProcessor.ClusterSumBounds | nba_data_processor.py:128 | bounds on a cluster's members bound their sum |
| DataProcessor.MeanWithinMembers | nba_data_processor.py:128 | each cluster mean lies within any bounds of its members' values |
| DataProcessor.SizeTimesMean | nba_data_processor.py:128 | a cluster's size times its mean is its total |
| DataProcessor.SizeWeightedIsSumBelow | nba_data_processor.py:128-139 | summing size times mean over clusters below k gives the total of rows labelled below k |
| DataProcessor.OverallIsWeightedAverage | nba_data_processor.py:128-139 | with ids in [0, k), cluster sizes sum to the row count and the population mean is the size-weighted average of cluster means |
| RoleAssigner.FirstMatch | nba_player_analyzer.py:733-790 | some label iff some rule of the cascade matches; the label is never the fallback or the placeholder |
| RoleAssigner.Stat | nba_player_analyzer.py:727 | a statistic with NaN read as 0; MissingReadsAsZero and FirstMatchReadsStats state its effect on the role |
| RoleAssigner.Matches | nba_player_analyzer.py:733-790 | the threshold test of each of the ten branches, strict comparisons as written; RoleIsFirstMatchingRule, LowEngagementAlwaysWins and LowEngagementExclusive state its role in the cascade |
| RoleAssigner.RuleLabel | nba_player_analyzer.py:733-790 | the label of a matching branch, with the two sub-choices; always a role label, never the fallback or the placeholder |
| RoleAssigner.LowEngagementExclusive | nba_player_analyzer.py:733-790 | a low-engagement cluster matches no other branch except the three-point one |
| RoleAssigner.RoleOf | nba_player_analyzer.py:724-795 | every cluster gets one of the 13 labels, never "Indefinido" |
| RoleAssigner.AssignClusterRoles | nba_player_analyzer.py:712-799 | the keys are exactly the table's cluster ids; each id gets its role; no value is "Indefinido" |
| RoleAssigner.FirstMatchAt | nba_player_analyzer.py:733-790 | a matching rule preceded only by non-matching rules decides the label |
| RoleAssigner.FirstMatchWitness | nba_player_analyzer.py:733-790 | a label comes from a matching rule with no earlier match |
| RoleAssigner.RuleLabelsDistinct | nba_player_analyzer.py:733-795 | different rules never share a label; the fallback is no rule's label |
| RoleAssigner.RoleIsFirstMatchingRule | nba_player_analyzer.py:733-790 | a cluster gets a label of rule i iff rule i matches and no earlier rule does |
| RoleAssigner.GeneralRoleIffNoRule | nba_player_analyzer.py:794-795 | "Jugador de Rol General" iff no rule matches |
| RoleAssigner.LowEngagementAlwaysWins | nba_player_analyzer.py:733-734 | MIN<200, GP<25 and PTS<100 give the roster-limit label whatever else |
| RoleAssigner.CreatorSubChoice | nba_player_analyzer.py:750-755 | under the creator rule: the scorer label iff PTS>800 and FG3M>80, else "Puro" |
| RoleAssigner.FacilitatorSubChoice | nba_player_analyzer.py:761-765 | under the facilitator rule: "(Tirador)" iff FG3M>70 and FG3_PCT>0.35, else the ball-handler label |
| RoleAssigner.FirstMatchReadsStats | nba_player_analyzer.py:727 | the cascade sees only the NaN-as-0 reading of each statistic |
| RoleAssigner.MissingReadsAsZero | nba_player_analyzer.py:727 | a NaN mean gives the same role as a mean of 0 |
| WeakSpots.FirstRow | nba_player_analyzer.py:263-270 | none iff no row has the name; otherwise the first row with that name |
| WeakSpots.RoleFor | nba_player_analyzer.py:276 | the cluster's role, or "Rol Desconocido" when it has none |
| WeakSpots.RoleIsLabelOrUnknown | nba_player_analyzer.py:276 | with assigned roles, the role is one of the 13 labels or the fallback |
| WeakSpots.Compare | nba_player_analyzer.py:280-285 | the row carries the player value and mean; a difference exists iff both are present |
| WeakSpots.Comparison | nba_player_analyzer.py:280-285 | one row per statistic column, in column order |
| WeakSpots.ComparisonMeaning | nba_player_analyzer.py:280-288 | mean + difference = player value; a finite percentage times the mean is 100 times the difference, negative iff below a positive mean; zero mean gives ±inf, or NaN for 0/0 |
| WeakSpots.Assess | nba_player_analyzer.py:299-334 | a flagged statistic is present on both sides, and its finding carries the player value and mean |
| WeakSpots.IsPercentage | nba_player_analyzer.py:320 | the name contains "_PCT"; FieldGoalPercentageIsPercentage and NoPercentageIn pin it on the statistics used |
| WeakSpots.IsInverse | nba_player_analyzer.py:326 | exactly TOV and PF; InverseRule and ReduceGetsDrills state its consequences |
| WeakSpots.Findings | nba_player_analyzer.py:296-334 | at most one finding per column; every finding is a flagged column's own |
| WeakSpots.FindWeakSpots | nba_player_analyzer.py:293-369 | the loop's findings and projection equal `Findings` and `FinalProjection` |
| WeakSpots.Projected | nba_player_analyzer.py:296-334 | the projection copy after the loop; ProjectedAt states its keys and per-column values |
| WeakSpots.FinalProjection | nba_player_analyzer.py:367-369 | the reported projection; NoFindingsNoChange and UnflaggedKeepsValue state it |
| WeakSpots.LoopStep | nba_player_analyzer.py:299-334 | one more column extends findings and projection by that column's verdict |
| WeakSpots.SkippedNeverFlagged | nba_player_analyzer.py:299-317 | a missing, NaN or zero-mean statistic is never flagged |
| WeakSpots.PercentageRule | nba_player_analyzer.py:320-325 | a `_PCT` stat is flagged iff GP>10 and mean−player>0.05; projection is player+0.03, strictly between player and mean |
| WeakSpots.InverseRule | nba_player_analyzer.py:326-330 | TOV/PF flagged iff player > 1.20·mean and mean > 0; projection in [0.95·mean, player) and at least 0.90·player |
| WeakSpots.NoPercentageIn | nba_player_analyzer.py:320-326 | "TOV" and "PF" are not percentage statistics |
| WeakSpots.StandardRule | nba_player_analyzer.py:331-334 | flagged iff player < mult·mean; with player ≥ 0, mean > 0, mult ≤ 0.95 the projection lies in [player, 0.95·mean] |
| WeakSpots.ZeroFloorUnreachable | nba_player_analyzer.py:307-317 | the 0.05 zero-percentage floor is never used; every finding is against a non-zero mean |
| WeakSpots.FindingsAppend | nba_player_analyzer.py:299 | findings of a concatenation are those of the first part, then the second (column order) |
| WeakSpots.FlaggedIsFound | nba_player_analyzer.py:299-334 | every flagged column has its finding in the list |
| WeakSpots.ProjectedAt | nba_player_analyzer.py:296-334 | the projection keeps the player's keys; a column holds its projected value iff flagged, else the player's value |
| WeakSpots.NoFindingsNoChange | nba_player_analyzer.py:367-369 | with no weak spot the projection equals the player's values |
| WeakSpots.UnflaggedKeepsValue | nba_player_analyzer.py:296-369 | an unflagged column keeps the player's value in the reported projection |
| WeakSpots.Area | nba_player_analyzer.py:355 | `split(':')[0]` is a colon-free prefix ending at the first colon |
| WeakSpots.Describe | nba_player_analyzer.py:312-332 | each weak-spot message starts with its statistic and a colon |
| WeakSpots.AreaIsStat | nba_player_analyzer.py:312-355 | the area of a finding's description is its statistic |
| WeakSpots.FirstKey | nba_player_analyzer.py:346-352 | a chosen key occurs in the text; none iff no key occurs |
| WeakSpots.FirstKeyIsEarliest | nba_player_analyzer.py:346-352 | the key at position i is chosen iff it occurs and no earlier key does |
| WeakSpots.Suggest | nba_player_analyzer.py:344-364 | drills iff some key occurs, and they are the first such key's drills |
| WeakSpots.LookupDrillKey | nba_player_analyzer.py:346-352 | the search with `break` returns the first occurring key |
| WeakSpots.SuggestDrills | nba_player_analyzer.py:344-364 | one suggestion per description, in order |
| WeakSpots.ShootingGetsShootingDrills | nba_player_analyzer.py:322-352 | a shooting finding always gets the "puntería/eficiencia" drills |
| WeakSpots.ReduceGetsDrills | nba_player_analyzer.py:328-352 | a TOV or PF finding always gets drills |
| WeakSpots.AnalyzePlayerWeakSpots | nba_player_analyzer.py:257-365 | none iff the player is absent; otherwise cluster, role, comparison, findings, projection, descriptions and suggestions of the first matching row |
| WeakSpots.FieldGoalPercentageIsPercentage | nba_player_analyzer.py:320 | "FG_PCT" contains "_PCT" |
| WeakSpots.WorkedCase | nba_player_analyzer.py:296-334 | FG_PCT 0.30 vs 0.45 with 50 games and TOV 180 vs 100 are flagged, projected to 0.33 and 162; BLK 0 vs 0 is skipped |
| WeakSpots.DrillTableShape | nba_player_analyzer.py:46-96 | eleven distinct keys, each with at least two drills |
| WeakSpots.TablesCoverColumns | nba_player_analyzer.py:805-809 | every clustering column has a display name, no clustering column is listed twice, and the role rules read only clustering columns |
| Pipeline.NamedRow | nba_player_analyzer.py:831 | a position-indexed row under its column names has exactly those names as keys |
| Pipeline.NamedRowValue | nba_player_analyzer.py:831 | each name reads the number of its last column |
| Pipeline.MeansTable | nba_player_analyzer.py:831-833 | the named means table has the same clusters, each keyed by the column names |
| Pipeline.ProgramMeansHaveRoleStats | nba_player_analyzer.py:831-833 | with every clustering column in the dataset, each cluster's named means row carries what the role rules read |
| Pipeline.ProgramMeansAreWellFormed | nba_player_analyzer.py:831-860 | players carrying the statistic columns, in occurring clusters, meet the analysis' input condition against the program's means table |

## Left out

- K-means, `StandardScaler` and the elbow method are sklearn numerics with randomness, square roots and floats. The cluster label of every row is an input.
- Spreadsheet reading and writing, plotting, radar charts, the PDF/HTML report, the interactive menus and the network fetchers are I/O. `nba_player_data.py` and `Data_NBA_API.py` are not part of this model. `nba_drills.py` is not imported by the analyzer, which keeps its own copy of the drill table (modelled).
- Floats are exact reals. Behaviour exactly at a threshold under IEEE rounding is not claimed; neither are overflow and NaN arithmetic beyond the percentage column.
- Number formatting (`:.3f`, `:.2f`, `str`) is the opaque `Render` parameter. The "N/A" / "x.xx%" text of the percentage column is left out; `Ratio` keeps the value it formats.
- `pd.to_numeric`'s text parser is the opaque `parse` parameter.
- `str.lower()` is modelled for ASCII and Latin-1 capitals only.
- Crashes of the source (`KeyError`) are preconditions, not modelled errors:
  - a missing `PLAYER_NAME` column;
  - a statistic column missing from the player's row or from the cluster means;
  - a player's cluster absent from the means;
  - a declared clustering column that the dataset lacks. Loading drops it silently, but the profiling then selects every declared column by name and raises. The profiling functions take the retained columns, so they return means where the source crashes. Pipeline.ProgramMeansHaveRoleStats states its role-stats property only for a dataset that has every clustering column.
- A missing `GP` column also raises `KeyError` in the source. The model takes the player's `GP` cell as an input, NaN failing `> 10`.
- DataProcessor.ClusterMeans: averages the coerced, cleaned statistics over the retained columns. The source averages the cleaned rows' original columns over the declared list. The two agree only when every declared column is present (otherwise the source raises `KeyError`, see above) and those columns are numeric.
- DataProcessor.OverallMeans: takes the retained columns as well, with the same `KeyError` gap as ClusterMeans. The mean over zero rows is NaN, as in pandas. The cluster-means table has no entry for a label that does not occur.
- RoleAssigner.AssignClusterRoles: takes the means table as rows with their cluster ids. For a repeated id it states the role of the last row only, which is what the dict keeps.
- WeakSpots.Describe: a statistic holding a colon, or number text holding a drill key, can change the area or the key found. AreaIsStat assumes a colon-free statistic.
- Pipeline.ProgramMeansAreWellFormed: connects the means side only. The player rows the analysis reads, and their `GP` cell, are inputs not derived from the cleaned records; nothing ties a row's `GP` cell to its `GP` statistic.
- Printing of the analysis and the HTML string of suggestions are left out; the suggestions are returned as data.

Three behaviours of the code a reader may not expect:

- An empty row set after cleaning is not rejected (EmptyRowSetPasses). Only a missing file and an empty column intersection fail.
- The percentage difference against a zero mean is ±inf, or NaN for 0/0, as float division gives it. No special case guards it.
- The 0.05 floor for a zero percentage against a zero mean is unreachable. The zero-player case is skipped first. The comment at nba_player_analyzer.py:312-313 intends the floor for that case. The branch is modelled as written and proved never taken (ZeroFloorUnreachable).
