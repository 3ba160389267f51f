# Duplicate consolidation for the MPCE database, modelled in Dafny

This project models the scripts that turn reviewed duplicate judgments into
a mapping from a canonical id to the ids merged into it:

- `deduplication_august/dedupe_agents.py` handles agents. Each confirmed row of the agents
  comparison sheet gives a pair (id_1, id_2) with no preference. The loop
  keeps `agent_mapping_dict` (canonical id to a set of duplicates) and
  `already_entered`. It has four branches, depending on which of the two ids
  were seen before. The map is then flattened into (canonical, duplicate) rows.
- `deduplication_august/dedupe_edition.py` and `deduplication_august/dedupe_works.py` handle
  editions and works. They share one algorithm: each confirmed row carries a
  one-based preference, and `ids[preferred]` survives while
  `ids[1 - preferred]` is merged into its group. The two scripts differ only
  in the sheet columns they read.
- `dedupe_helper_functions.py` holds `save_clusters`, which writes the cluster
  number and paired confidence of every record found by the matcher into the
  data frame. It also holds the control flow of `dedupe_initialise` and
  `run_deduper`: load a saved model, or sample, train and save a new one.

The scripts are modelled as written, gaps included. In agents, a pair whose
two ids were both seen is dropped even when they sit in different groups. In
editions and works, the merged id is never looked up, so it can be a key and
a member at once, or a member of two groups. Concrete lemmas exhibit both
behaviours.

Modules:

- `Sheet` covers cells, rows and the two Python exceptions a run can end with.
- `Groups` holds the map of sets. It has the `Attach` update shared by every
  loop, the inner `items()` loop (`AddToEachGroupHolding`) and the
  flattening (`Flatten`).
- `Agents` covers the agents script.
- `Preferred` covers the editions/works algorithm.
- `Editions` and `Works` hold the column layouts of the two sheets.
- `Clusters` covers `save_clusters` on a `Frame` class.
- `Pipeline` covers `dedupe_initialise` and `run_deduper` over `Disk` and
  `Deduper` classes.

Each script loop is a method proved against a fold function. The fold
applies a pure `Step` per judgment. The method's loop invariant ties its
variables to the fold of the prefix processed so far. The properties are
proved about the fold.

Three behaviours of the scripts are worth stating:

- A flagged row with a non-numeric preference, or a preference other than
  1 or 2, aborts the whole script with `TypeError` or `IndexError`. The row
  is not skipped.
- `run_deduper` asks for the threshold with recall weight 1, whatever
  weight it is given.
- The scripts merge with a map of sets, not a union-find.

## Model

| member | source | states |
|---|---|---|
| Agents.Read | deduplication_august/dedupe_agents.py:12 | one confirmed row of the agents sheet read as the pair (column 0, column 7); no contract of its own, stated through Agents.Pairs |
| Agents.Pairs | deduplication_august/dedupe_agents.py:12-13 | the pairs are exactly (column 0, column 7) of the rows marked 'Y' in column 16, at most one per row |
| Agents.PairsAppend | deduplication_august/dedupe_agents.py:12-13 | the filter works row by row: two stretches of the sheet give their pairs one after the other |
| Agents.Step | deduplication_august/dedupe_agents.py:17-37 | both ids seen: nothing changes; neither seen: id_1 becomes a key mapped to {id_2}; one seen: the other joins its group (its set, or every set holding it); both ids are added to already_entered; the map only grows, stays covered by already_entered, and (unless skipped) puts the two ids in one group |
| Agents.ProcessPair | deduplication_august/dedupe_agents.py:17-37 | the loop body with its four branches and `continue` computes exactly one Step |
| Agents.Consolidate | deduplication_august/dedupe_agents.py:15-37 | the loop leaves agent_mapping_dict and already_entered equal to the fold of Step over the pairs in sheet order |
| Agents.FoldSnoc | deduplication_august/dedupe_agents.py:17-37 | processing one more pair is one more Step |
| Agents.Fold | deduplication_august/dedupe_agents.py:15-37 | the state after the loop has run over a prefix of the pairs (one Step per pair, from the empty map and empty set); no contract of its own, its invariants are Agents.FoldValid, Agents.FoldGrows and Agents.FoldPartitioned |
| Agents.FoldValid | deduplication_august/dedupe_agents.py:15-37 | after every pair, already_entered is the set of ids of the processed pairs and equals the keys plus all members |
| Agents.FoldGrows | deduplication_august/dedupe_agents.py:21-35 | later pairs never remove a key or shrink a set |
| Agents.FoldPartitioned | deduplication_august/dedupe_agents.py:17-37 | with no self-pairs, no id is both a key and a member, and no id is a member of two keys |
| Agents.Replay | deduplication_august/dedupe_agents.py:18-20 | processing again a pair processed before changes nothing |
| Agents.FreshPairJoined | deduplication_august/dedupe_agents.py:21-35 | a pair naming an id not seen before ends with its two ids in one group, for good |
| Agents.FreshPairJoinedAtOnce | deduplication_august/dedupe_agents.py:21-35 | right after such a pair, its two ids share a group |
| Agents.CrossGroupPairDropped | deduplication_august/dedupe_agents.py:18-20 | after A~B and C~D, the pair B~D is dropped: the map stays {A:{B}, C:{D}} and B, D share no group |
| Agents.Run | deduplication_august/dedupe_agents.py:12-42 | the rows of final_agent_mapping are exactly the (key, member) pairs of the folded map, without repeats; with no self-pairs no duplicate id appears twice and no canonical id appears as a duplicate |
| Groups.Attach | deduplication_august/dedupe_agents.py:21-26 | the id joins the set of a key x, or else every set holding x; keys stay, sets only grow, no other set changes; the members gain exactly the new id and x and the new id share a group; an x the map does not mention leaves it unchanged |
| Groups.AddToGroupsHolding | deduplication_august/dedupe_agents.py:24-26 | the keys stay the same and every set only grows; each set gains at most the new id, and holds it afterwards exactly when it held it or held x before |
| Groups.AttachMembers | deduplication_august/dedupe_agents.py:21-26 | both branches of the update add exactly the new id to the members and put it in x's group |
| Groups.MembersOfExtended | deduplication_august/dedupe_agents.py:22 | adding to the set of a key adds exactly that id to the members |
| Groups.MembersOfNewKey | deduplication_august/dedupe_agents.py:35 | a new key with a singleton set adds exactly that id to the members |
| Groups.TogetherGrows | deduplication_august/dedupe_agents.py:21-35 | two ids that share a group keep sharing one while the map grows |
| Groups.AttachKeepsPartition | deduplication_august/dedupe_agents.py:21-33 | attaching an unseen id to a seen one keeps the map a partition |
| Groups.ExtendKeepsPartition | deduplication_august/dedupe_agents.py:22 | adding an unseen id to a key's set keeps the map a partition |
| Groups.SpreadKeepsPartition | deduplication_august/dedupe_agents.py:24-26 | adding an unseen id to the one set holding a member keeps the map a partition |
| Groups.AddToEachGroupHolding | deduplication_august/dedupe_agents.py:24-26 | the loop over items() adds the id to exactly the sets holding x, whatever order the keys are visited in |
| Groups.Flatten | deduplication_august/dedupe_agents.py:39-42 | the rows are exactly the (key, member) pairs of the map, each once |
| Groups.FlattenedPartition | deduplication_august/dedupe_agents.py:39-42 | the rows of a partitioned map name each duplicate once and never name a canonical id as a duplicate |
| Preferred.Read | deduplication_august/dedupe_edition.py:12 | one flagged row read as (first id, second id, preference - 1); no contract of its own, stated through Preferred.Judgments |
| Preferred.Collect | deduplication_august/dedupe_edition.py:12-13 | the comprehension fails only with TypeError and otherwise yields at most one judgment per row |
| Preferred.Judgment.Canonical | deduplication_august/dedupe_edition.py:20-24 | ids[preferred] for an index 0 or 1; no contract of its own, stated by Preferred.IndexedIds |
| Preferred.Judgment.Duplicate | deduplication_august/dedupe_edition.py:20-24 | ids[1 - preferred] for an index 0 or 1; no contract of its own, stated by Preferred.IndexedIds |
| Preferred.IndexedIds | deduplication_august/dedupe_edition.py:20-24 | for a preference of 0 or 1 the surviving id is ids[preferred], the merged one ids[1 - preferred], and together they are the row's two ids |
| Preferred.Judgments | deduplication_august/dedupe_edition.py:12-13 | TypeError exactly when a flagged row has no number in the preference column; otherwise the judgments are exactly (first id, second id, preference - 1) of the flagged rows, at most one per row |
| Preferred.CollectSound | deduplication_august/dedupe_edition.py:12-13 | the recursive comprehension raises TypeError exactly on a flagged row without a number, and otherwise yields exactly the flagged rows' judgments |
| Preferred.JudgmentsAppend | deduplication_august/dedupe_edition.py:12-13 | the judgments of two stretches of the sheet come one after the other, in sheet order, and TypeError when either stretch raises it |
| Preferred.CollectAppend | deduplication_august/dedupe_edition.py:12-13 | the comprehension works row by row: appending rows appends their judgments |
| Preferred.Step | deduplication_august/dedupe_edition.py:19-33 | an unseen canonical id becomes a key mapped to {duplicate}, whether or not the duplicate was seen; a seen one passes the duplicate to its group; both ids join already_entered; the map only grows, stays covered, and holds canonical and duplicate in one group |
| Preferred.ProcessJudgment | deduplication_august/dedupe_edition.py:19-33 | for a state whose already_entered covers the map, as every state of the loop does, the loop body computes one Step, and raises IndexError exactly when the preference is neither 0 nor 1 |
| Preferred.Consolidate | deduplication_august/dedupe_edition.py:17-33 | the loop ends normally exactly when every preference is 0 or 1, with the fold of Step over the judgments; otherwise it raises IndexError |
| Preferred.FoldSnoc | deduplication_august/dedupe_edition.py:19-33 | processing one more judgment is one more Step |
| Preferred.Fold | deduplication_august/dedupe_edition.py:17-33 | the state after the loop has run over a prefix of the judgments (one Step per judgment, from the empty map and empty set); no contract of its own, its invariants are Preferred.FoldValid and Preferred.FoldGrows |
| Preferred.FoldValid | deduplication_august/dedupe_edition.py:18-33 | after every judgment, already_entered is the set of ids processed and equals the keys plus all members |
| Preferred.FoldGrows | deduplication_august/dedupe_edition.py:22-30 | later judgments never remove a key or shrink a set |
| Preferred.JudgmentJoined | deduplication_august/dedupe_edition.py:22-30 | no judgment is lost: the two ids of every processed judgment end in one group |
| Preferred.JoinedAtOnce | deduplication_august/dedupe_edition.py:22-30 | right after a judgment, its two ids share a group |
| Preferred.StepTwice | deduplication_august/dedupe_edition.py:22-33 | processing the same judgment twice in a row changes nothing the second time |
| Preferred.AttachTwice | deduplication_august/dedupe_edition.py:26-28 | adding an id to every set holding x a second time changes nothing |
| Preferred.SpreadTwice | deduplication_august/dedupe_edition.py:26-28 | the update of every set holding the canonical id, run twice with the same ids, equals the update run once |
| Preferred.ReplayLaterChanges | deduplication_august/dedupe_edition.py:26-28 | replaying an earlier judgment is not a no-op: after X~A, A~B, Z~A, replaying A~B adds B to Z's group |
| Preferred.ReplayFirstTwo | deduplication_august/dedupe_edition.py:22-30 | X~A then A~B give the single group {X:{A, B}} |
| Preferred.OverlappingGroups | deduplication_august/dedupe_edition.py:22-30 | A~B then C~B puts B in two groups; A~B then C~A makes A a key and a member; neither map is a partition |
| Preferred.Run | deduplication_august/dedupe_edition.py:12-40 | TypeError from the sheet, else IndexError from the loop, else the rows are exactly the flattened (key, member) pairs of the fold, without repeats |
| Editions.Judgments | deduplication_august/dedupe_edition.py:12-13 | TypeError exactly when a row marked 'Y' in column 26 has no number in column 27; otherwise the judgments are (column 0, column 12, column 27 - 1) of those rows |
| Editions.JudgmentsAppend | deduplication_august/dedupe_edition.py:12-13 | the editions sheet's judgments come in sheet order, stretch after stretch |
| Editions.SingleRow | deduplication_august/dedupe_edition.py:12-30 | a flagged row with 1 keeps the column-0 id, with 2 the column-12 id; any other number cannot be indexed |
| Editions.Scenario | deduplication_august/dedupe_edition.py:17-40 | (A1,A2,0), (A2,A3,0), (B1,B2,1) yield the map {A1:{A2, A3}, B2:{B1}}, flattened to exactly (A1,A2), (A1,A3), (B2,B1) |
| Works.Judgments | deduplication_august/dedupe_works.py:12-13 | TypeError exactly when a row marked 'Y' in column 8 has no number in column 10; otherwise the judgments are (column 0, column 3, column 10 - 1) of those rows |
| Works.JudgmentsAppend | deduplication_august/dedupe_works.py:12-13 | the works sheet's judgments come in sheet order, stretch after stretch |
| Works.SingleRow | deduplication_august/dedupe_works.py:12-30 | a flagged row with 1 keeps the column-0 id, with 2 the column-3 id; any other number cannot be indexed |
| Works.UnconfirmedRowIgnored | deduplication_august/dedupe_works.py:12-13 | a row not marked 'Y' in column 8 contributes nothing, whatever its other cells hold |
| Clusters.LastIndex | dedupe_helper_functions.py:142 | the position of the last occurrence of a record in a cluster, and none exactly when it does not occur |
| Clusters.LastCluster | dedupe_helper_functions.py:140-141 | the number of the last cluster holding a record, and none exactly when no cluster holds it |
| Clusters.ConfidenceOf | dedupe_helper_functions.py:142 | a record has a confidence exactly when some cluster holds it, and it is paired with the record in the last such cluster |
| Clusters.SaveClusters | dedupe_helper_functions.py:115-151 | the same frame is returned, its other columns unchanged, every row having cluster = the last cluster holding it and confidence = the one paired there, and missing when no cluster holds it |
| Clusters.StampCluster | dedupe_helper_functions.py:140-142 | one pass of the enumerate loop takes the columns from what the first k clusters stamp to what the first k + 1 stamp |
| Clusters.LastClusterSnoc | dedupe_helper_functions.py:140-142 | the cluster numbered k restamps exactly its own records |
| Clusters.StampOfDisjoint | dedupe_helper_functions.py:140-142 | for disjoint clusters without repeats, the i-th record of the k-th cluster gets cluster k and the i-th confidence |
| Clusters.UnclusteredStaysMissing | dedupe_helper_functions.py:136-137 | a record in no cluster keeps missing cluster and confidence |
| Pipeline.InitialiseTrace | dedupe_helper_functions.py:26-47 | the calls dedupe_initialise makes, given which of its two files exist; no contract of its own, stated by Pipeline.InitialiseTraceShape |
| Pipeline.InitialiseTraceShape | dedupe_helper_functions.py:26-47 | the saved model is loaded exactly when the settings file exists; otherwise the data is sampled, and the training file is read after sampling exactly when it exists |
| Pipeline.Initialise | dedupe_helper_functions.py:8-49 | a new deduper, static exactly when the settings file exists, that has received the calls described above (sampleSize is an optional parameter defaulting to DefaultSampleSize, 15000, as sample_size does) |
| Pipeline.RunTrace | dedupe_helper_functions.py:79-109 | the calls run_deduper makes on a static or a trained deduper; no contract of its own, stated by Pipeline.RunTraceShape |
| Pipeline.RunTraceShape | dedupe_helper_functions.py:79-109 | training and both writes happen exactly for a non-static deduper; the run always ends with the threshold at recall weight 1, then the match |
| Pipeline.FilesAfterRun | dedupe_helper_functions.py:88-97 | a non-static run leaves both the training file and the settings file on disk and adds nothing else; a static one changes no file |
| Pipeline.RunDeduper | dedupe_helper_functions.py:51-113 | the same deduper and the matcher's result are returned; the deduper receives the run's calls and the disk gains the written files; recallWeight is an optional parameter defaulting to 1, as recall_weight does, and is ignored like it |
| Pipeline.Disk.Create | dedupe_helper_functions.py:90 | opening a path for writing makes the file exist |
| Pipeline.SessionTrains | dedupe_helper_functions.py:26-102 | an initialise-then-run session trains and samples exactly when no settings file was saved, and only ever uses recall weight 1 |
| Pipeline.TrainedModelReloaded | dedupe_helper_functions.py:26-31 | after a session that trained, the next initialise loads the saved model and neither samples nor reads training |

## Left out

- The database work of every script is not modelled: connecting, dropping and creating the mapping table, the inserts, the index and the commit. It is I/O against MariaDB.
- Workbook loading is not modelled. That covers `load_workbook`, the file path, the sheet name and the `min_row`/`max_row` bounds. The rows inside those bounds are a parameter, already cut to `max_col` cells.
- Cells are text, integers or empty. Floats, booleans and dates are not modelled. A preference cell holding `2.0` would make Python fail on the tuple index with a float.
- The order in which Python visits dict keys and set members is not modelled. The flattening is specified as a set of rows without repeats, not as a sequence.
- `print` output, the counts it reports, and timing through `time.perf_counter` are not modelled.
- Writing the CSV file in `save_clusters` is not modelled.
- Preferred.ProcessJudgment: requires that already_entered covers the keys and members of the map, which holds in every state of the loop (Preferred.FoldValid), and raises IndexError for any preference outside 0..1 in such a state. In Python, `ids[-1]` and `ids[-2]` are valid, so a preference of -1 or -2 gets past `ids[preferred]` and fails on `ids[2]` or `ids[3]` only when the id is unseen, is a key, or sits in some set. Those are all the cases in the script, because already_entered always equals the keys plus the members (Preferred.FoldValid).
- Clusters.SaveClusters: requires every clustered record to be a row label and every cluster to pair its ids with as many confidences. pandas' errors or frame enlargement for other inputs are not modelled.
- Clusters.SaveClusters: the `cluster` column is a whole number or missing. pandas' float column type that NaN forces is not modelled, and confidences are opaque values.
- Clusters.ConfidenceOf: a record repeated inside one cluster takes the confidence of its last position. pandas' handling of repeated labels in one `.loc` assignment is assumed, not modelled.
- The internals of the dedupe library are not modelled: sampling, active learning, `train`, `threshold`, `match`, and reading or writing training and settings. A deduper only records the calls made on it, and what `match` returns is a parameter.
- The `fields` argument of `dedupe_initialise` is not modelled.
- The data frame's conversion to record dicts (NaN to None, `to_dict`) is not modelled.
- Pipeline.RunDeduper: states which files exist after a run, not what is written into them.
- The scripts merge with a map of sets, not a union-find; no union-find is modelled.
- `deduplication_august/update_agents.py`, `illegal_work_codes.py` and `fixing_darnton.py` are not part of this model. They are one-off repair and SQL-generation scripts.
