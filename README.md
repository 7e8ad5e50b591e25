# Dataset ingestion into the graph store, modelled in Dafny

This project models the ingestion engine of the backend. The engine turns a
dataset request into a Kuzu graph database. It has two adapters that share
one shape: read the source records, sample the nodes if asked, work out the
table schemas, and issue the text of graph-store statements.

- The **DGL-KE adapter** (`Dglke`) handles knowledge-graph triples.
  - It creates one `Node` table and loads every entity into it, or only the
    sampled ones when sampling is requested.
  - It creates one relation table per relation label, named by a normalised
    identifier.
  - Under sampling, it keeps a training triple when its subject or its object
    survived.
  - It creates the edges in batches of 50, with one `MATCH ... CREATE ...`
    statement per batch.
- The **STIX 2 adapter** is split in two modules.
  - `StixRecords` covers the property-kind table, node-record and
    relation-record extraction, and relation-table naming.
  - `StixLoader` covers the run itself:
    - one statement declaring a node table per retained class, from the
      class's declared schema;
    - one `LOAD` per class;
    - one statement declaring a relation table per
      (label, source class, target class) key;
    - one `COPY` per key.
- The **dataset records** (`Models`) are the request, its specification and
  sampling variants, and the persisted row with its field bounds.
- The **create-dataset route** (`Routes`):
  - names the backing store after the current time and the dataset name;
  - derives the persisted row from the request;
  - commits the row;
  - then hands DGL-KE specifications to their adapter and refuses STIX ones.
  `Routes.CreateDatasetDispatching` is the route as its STIX test expects it,
  handing STIX specifications to the STIX loader.

The graph store connection is a class (`Store.Connection`) whose only
effect is to append each executed statement to a log. A statement also
carries the DataFrame it reads by variable name (`LOAD FROM typenodes`,
`COPY X FROM type_relations`).

Each adapter is stated twice:
- a pure `Plan` function gives the statements a run issues, in order, and how
  the run ends (`Store.Run`);
- an imperative `Instantiate` method carries the source's loops and is proved
  to leave exactly `Plan`'s statements on the log.

The properties are then proved about the `Plan` functions. The helpers the
adapters rely on are modelled in small modules of their own:
- `Frames`: DataFrames as ordered dicts;
- `Sampling`: `DataFrame.sample`;
- `Batching`: the `batch` generator;
- `Text`: string operations;
- `Seqs`: generic sequence facts.

In two places the code does not do what the repository itself evidently
intends. The model states the code as written and, beside it, the corrected
behaviour (see "## Findings"):
- **STIX endpoints dropped by sampling.** The comment at
  `backend/app/api/datasets/stix_datasets.py:63` says only relationships whose
  nodes were kept during sampling are added, and the relation records do
  filter them (lines 64-68). But `all_relation_types` (lines 149-159) looks up
  the endpoints of *every* relationship with `.iloc[0]`, so such a run raises
  `IndexError` after the node tables and loads were issued.
  `StixLoader.Plan` models that as `Aborted(EndpointNotRetained)`.
  `StixLoader.CorrectedPlan` builds the keys from the kept relationships only
  (`StixLoader.KeptRelationTypes`), and once the node frame exists it always
  completes.
- **STIX through the route.** The route's test
  (`backend/app/tests/api/routes/test_datasets.py:17-62`) posts a STIX
  specification and expects status 200, two nodes and one edge. The route
  (`backend/app/api/routes/datasets.py:76-80`) commits the row and then raises
  `ValueError` for every specification other than DGL-KE.
  `Routes.CreateDataset` models that. `Routes.CreateDatasetDispatching` hands
  STIX specifications to the corrected STIX loader.

## Model

| member | source | states |
|---|---|---|
| Store.Connection.constructor | backend/app/api/datasets/dglke_datasets.py:51-52 | a fresh connection has issued no statement |
| Store.Connection.Execute | backend/app/api/datasets/dglke_datasets.py:59-61 | executing a statement appends it, with the frame it reads, to the log and changes nothing else |
| Batching.Batches | backend/app/api/datasets/stix_datasets.py:23-26 | every item of every batch is an item of the input |
| Batching.Batch | backend/app/api/datasets/dglke_datasets.py:25-28 | the index-stepping generator yields exactly `Batches(xs, n)` for a positive step, nothing for a negative one, and refuses a zero step (`range` raises) |
| Batching.FlattenBatches | backend/app/api/datasets/dglke_datasets.py:25-28 | concatenating the batches gives back the input, in order |
| Batching.BatchShape | backend/app/api/datasets/dglke_datasets.py:25-28 | every batch is non-empty and holds at most n items, all but the last hold exactly n, and there are ceil(len/n) batches |
| Batching.BatchesTotal | backend/app/api/datasets/dglke_datasets.py:99-100 | the batches together hold as many items as the input |
| Models.ParseSplit | backend/app/models.py:119-122 | a split value is accepted iff it is one of `train`, `validation`, `test` |
| Models.SplitValueRoundTrip | backend/app/models.py:119-122 | reading back a split's value gives the split, and the only value read as a split is that split's value |
| Models.UniqueSplitsAtMostThree | backend/app/models.py:132-139 | a split list declared unique names at most three splits |
| Text.RemoveChar | backend/app/api/datasets/dglke_datasets.py:32 | removing a character drops exactly its occurrences; every other character is kept, in order, moved left by the number of removed characters before it |
| Text.IntToStringInjective | backend/app/api/datasets/dglke_datasets.py:105-119 | distinct entity ids print differently, so the `n_<id>` variables of a batch never clash |
| Text.ZeroPadFixedWidth | backend/app/api/routes/datasets.py:21-22 | a timestamp field below 10^width prints as exactly `width` digits, and distinct values print differently |
| Frames.Put | backend/app/api/datasets/stix_datasets.py:55 | assigning a key sets its value; an existing key keeps its position and a new key goes last |
| Frames.Restrict | backend/app/api/datasets/stix_datasets.py:49-54 | the filtered dict holds exactly the kept keys of the original, with their values, listed as a subsequence of the original keys (insertion order kept) |
| Frames.SubsequenceUnique | backend/app/api/datasets/stix_datasets.py:49-54 | over keys without repeats, an order-keeping selection is determined by the keys it holds, so the filtered dict and the dropped frame have one possible column order: the original one |
| Frames.FromRecords | backend/app/api/datasets/stix_datasets.py:57 | the frame's rows are the records and its columns are the distinct keys found in some record |
| Frames.Where | backend/app/api/datasets/stix_datasets.py:136 | a boolean selection keeps exactly the rows holding the value in the column |
| Frames.WhereConcat | backend/app/api/datasets/stix_datasets.py:136 | the selection keeps the order of the rows: selecting from two blocks selects from each in turn |
| Frames.DropColumn | backend/app/api/datasets/stix_datasets.py:137 | dropping a column removes exactly that column, keeps the order of the others and the row count |
| Frames.DropColumnCell | backend/app/api/datasets/stix_datasets.py:137 | after the drop every other column of a row reads as before |
| Frames.DropAllNull | backend/app/api/datasets/stix_datasets.py:138 | `dropna(axis=1, how="all")` keeps exactly the columns some row fills, in their original order, and the row count; every kept cell keeps its value, dropped columns read as missing, and so every column of the original frame reads as before |
| Sampling.SampleSize | backend/app/api/datasets/stix_datasets.py:110-114 | a count sample keeps `count` rows and is refused above the population; count and fraction together are refused; a sample never exceeds the population |
| Sampling.Sample | backend/app/api/datasets/dglke_datasets.py:68-72 | sampling succeeds iff its size is accepted, and then keeps that many rows |
| Sampling.PickSubBag | backend/app/api/datasets/dglke_datasets.py:69-72 | rows picked at distinct positions use each input row at most once (multiset inclusion) |
| Sampling.SampleIsSubBag | backend/app/api/datasets/stix_datasets.py:111-114 | a sample is a sub-multiset of the input rows |
| Sampling.SampleByCount | backend/app/api/datasets/dglke_datasets.py:69-72 | count sampling succeeds iff the count is at most the population, and then keeps exactly `count` rows |
| Dglke.TitleAt | backend/app/api/datasets/dglke_datasets.py:32 | `str.title` upper-cases a letter that starts a word and lower-cases one inside a word; any non-letter starts a word |
| Dglke.ClassOrRelationNameIsIdentifier | backend/app/api/datasets/dglke_datasets.py:31-32 | the normalised label holds no space and no `-`; from a slug it drops exactly the `-` separators, is made of letters and digits, and is the slug's words joined in PascalCase: each other character kept in order, upper case at the start of a word and lower case inside one (`fb-rel` gives `FbRel`) |
| Dglke.ClassOrRelationName | backend/app/api/datasets/dglke_datasets.py:31-32 | the identifier holds no space and is no longer than the slug (the rest is `ClassOrRelationNameIsIdentifier`) |
| Dglke.KeptMembership | backend/app/api/datasets/dglke_datasets.py:92-98 | a triple survives the sampling filter iff its subject or its object is retained |
| Dglke.KeptConcat | backend/app/api/datasets/dglke_datasets.py:92-98 | the filter distributes over concatenation, so survivors keep their relative order |
| Dglke.FilterTriples | backend/app/api/datasets/dglke_datasets.py:92-98 | the three arrays filtered in lockstep stay aligned and zip to exactly the kept triples |
| Dglke.Distinct | backend/app/api/datasets/dglke_datasets.py:101-104 | the entity ids of a batch are listed once each, and exactly the ids present |
| Dglke.Endpoints | backend/app/api/datasets/dglke_datasets.py:101-104 | the listed ids are exactly the subjects and objects of the batch |
| Dglke.PlanBatch | backend/app/api/datasets/dglke_datasets.py:100-122 | a batch's MATCH binds every subject and object id exactly once, its CREATE holds one edge per triple in order with the triple's relation name, and every edge endpoint is bound |
| Dglke.PlanBatches | backend/app/api/datasets/dglke_datasets.py:100-123 | there is one statement plan per batch, in batch order |
| Dglke.BatchesCreateEveryEdge | backend/app/api/datasets/dglke_datasets.py:99-123 | over all batches the statements create exactly one edge per triple, in the triples' order, whatever the batch boundaries |
| Dglke.Id2Relation | backend/app/api/datasets/dglke_datasets.py:84-87 | the id-to-relation map is defined on exactly the relation ids, and maps each id to the normalised label of the last item carrying it, as a dict comprehension keeps the last binding |
| Dglke.SamplingTestsAgree | backend/app/api/datasets/dglke_datasets.py:68-92 | on a valid row, the `is not None` test guarding node sampling and the truthiness test guarding the triple filter agree |
| Dglke.SampledNodesFacts | backend/app/api/datasets/dglke_datasets.py:64-72 | without sampling the node rows are all entities; a sample is a sub-multiset of them with the same columns; count sampling keeps `count` rows or is refused above the number of entities |
| Dglke.TriplesToCreateFacts | backend/app/api/datasets/dglke_datasets.py:88-98 | without a filter every training triple is created; with one, exactly those with a retained subject or object |
| Dglke.CreateRelTables | backend/app/api/datasets/dglke_datasets.py:77-81 | the loop issues one relation table `FROM Node TO Node` per relation label, in order |
| Dglke.CreateEdges | backend/app/api/datasets/dglke_datasets.py:100-123 | the loop issues one rendered MATCH ... CREATE statement per batch, in order |
| Dglke.CreateTripleEdges | backend/app/api/datasets/dglke_datasets.py:84-123 | filtering the arrays, batching them by 50 and issuing the batches issues exactly the planned edge statements |
| Dglke.LoadAndConnect | backend/app/api/datasets/dglke_datasets.py:73-123 | the node load, then the relation tables, then the edge statements are appended to the log |
| Dglke.InstantiateFB15k | backend/app/api/datasets/dglke_datasets.py:57-123 | the FB15k branch appends exactly the planned statements and ends with the planned status |
| Dglke.Instantiate | backend/app/api/datasets/dglke_datasets.py:40-123 | the adapter appends exactly `Plan`'s statements to the log and ends with `Plan`'s status |
| Dglke.Plan | backend/app/api/datasets/dglke_datasets.py:40-123 | a run issues no statement iff the path exists or the dataset is not FB15k, and completes only on a free path with FB15k (the rest is `Dglke.PlanOutcome`) |
| Dglke.NodeTableTextIsUnique | backend/app/api/datasets/dglke_datasets.py:57-81 | the node-table, relation-table, load and MATCH statements begin differently, so only one is a node table |
| Dglke.PlanOutcome | backend/app/api/datasets/dglke_datasets.py:48-72 | a run completes iff the path is free, the dataset is FB15k and the sampler accepts; an existing path issues nothing; an aborted run issued nothing or only the node table |
| Dglke.EdgeStatementsText | backend/app/api/datasets/dglke_datasets.py:99-123 | there is one MATCH statement per batch of the triples to create, and none of them is the node table |
| Dglke.RelTableStatementsText | backend/app/api/datasets/dglke_datasets.py:78-81 | no relation-table statement is the node table |
| Dglke.CompletedStatements | backend/app/api/datasets/dglke_datasets.py:57-123 | a completed run issues the node table, the node load, one relation table per label, then one statement per batch: 2 + labels + batches statements |
| Dglke.NodeTableCreatedOnce | backend/app/api/datasets/dglke_datasets.py:57-61 | a completed run creates the `Node` table first and never again |
| Dglke.CreatedEdges | backend/app/api/datasets/dglke_datasets.py:83-123 | a completed run's statements create one edge per triple to create, in order, carrying the normalised relation name |
| StixRecords.KuzuType | backend/app/api/datasets/stix_datasets.py:33-42 | exactly the six listed property kinds have a column type, and `STRING` is the type of exactly the ID and string kinds |
| StixRecords.NodeRecord | backend/app/api/datasets/stix_datasets.py:49-55 | a node record is a well-formed dict, each key once (its contents are `NodeRecordContents`) |
| StixRecords.NodeRecordContents | backend/app/api/datasets/stix_datasets.py:49-55 | a node record holds exactly `type`, set to the object's class, and the object's own values of its supported properties |
| StixRecords.NodeObjects | backend/app/api/datasets/stix_datasets.py:47-48 | the node objects are exactly the non-relationship objects, in order |
| StixRecords.NodeRecords | backend/app/api/datasets/stix_datasets.py:45-57 | every record is a node row whose `type` is a known class and whose `id` is a string |
| StixRecords.NodeRecordsPerObject | backend/app/api/datasets/stix_datasets.py:45-57 | there is exactly one record per non-relationship object, in input order, and it is that object's record |
| StixRecords.ObjectsToNodes | backend/app/api/datasets/stix_datasets.py:45-57 | the appending loop builds the frame of exactly those records |
| StixRecords.NodeType | backend/app/api/datasets/stix_datasets.py:72-73 | an endpoint's type exists iff some node row has that id, and is then the `type` of such a row, a class |
| StixRecords.PutPropertiesContents | backend/app/api/datasets/stix_datasets.py:75-83 | the update adds every supported declared property, with the object's value or `None`, and leaves every other key unchanged |
| StixRecords.Endpoints | backend/app/api/datasets/stix_datasets.py:69-74 | the four leading columns are exactly `f`, `t`, `source_type`, `target_type`, holding the refs and the given types |
| StixRecords.RelationRecordContents | backend/app/api/datasets/stix_datasets.py:69-83 | a relation record holds the refs in `f`/`t`, the types in `source_type`/`target_type`, and every supported Relationship property, and nothing else |
| StixRecords.KeptRelationships | backend/app/api/datasets/stix_datasets.py:64-68 | a relationship is kept iff both of its endpoints are among the node rows |
| StixRecords.RelationRecords | backend/app/api/datasets/stix_datasets.py:60-86 | every relation record is a well-formed dict |
| StixRecords.RelationRecordsPerRelationship | backend/app/api/datasets/stix_datasets.py:60-86 | there is exactly one record per relationship with both endpoints retained, in input order, typed by the nodes its refs name |
| StixRecords.KeptRecordContents | backend/app/api/datasets/stix_datasets.py:69-83 | a kept relationship's record holds its refs, the `type` of a node row with each ref's id, and its supported properties |
| StixRecords.ObjectsToRelations | backend/app/api/datasets/stix_datasets.py:60-86 | the appending loop builds the frame of exactly those records |
| StixRecords.RelationType | backend/app/api/datasets/stix_datasets.py:29-30 | every `-` becomes `_`, nothing else changes, and the length is kept |
| StixRecords.RelationTypeInjective | backend/app/api/datasets/stix_datasets.py:29-30 | on labels without `_` the normalisation loses nothing |
| StixRecords.RelationName | backend/app/api/datasets/stix_datasets.py:89-90 | the name starts with the source class and `_`, ends with `_` and the target class, and is as long as its parts plus two separators (the rest is `RelationNameInjective`) |
| StixRecords.RelationNameInjective | backend/app/api/datasets/stix_datasets.py:89-90 | relation-table names `source_label_target` tell keys apart when no part contains `_` |
| StixRecords.RelationNameCollision | backend/app/api/datasets/stix_datasets.py:89-90 | labels `a-b` and `a_b` between the same classes share one table name |
| StixLoader.TableColumns | backend/app/api/datasets/stix_datasets.py:118-123 | a class's columns are exactly its declared properties of a supported kind, with their column types |
| StixLoader.TableColumnNames | backend/app/api/datasets/stix_datasets.py:163-167 | the column names are exactly the supported declared names |
| StixLoader.NodeTableDefShape | backend/app/api/datasets/stix_datasets.py:116-130 | a node table definition depends only on the class's declared schema, not on the data, and ends with `PRIMARY KEY (id)` |
| StixLoader.NodeTypes | backend/app/api/datasets/stix_datasets.py:117 | the retained classes are listed once each, and exactly those in the `type` column |
| StixLoader.BuildNodeTables | backend/app/api/datasets/stix_datasets.py:128-130 | the `statement +=` loop builds the concatenated node-table definitions, one per retained class |
| StixLoader.TypeNodesColumns | backend/app/api/datasets/stix_datasets.py:136-146 | a class's load mentions exactly the frame's columns other than `type` that some row of the class fills |
| StixLoader.LoadNodeTables | backend/app/api/datasets/stix_datasets.py:133-147 | the loop issues one load per retained class, in order, each reading that class's rows |
| StixLoader.KeyOf | backend/app/api/datasets/stix_datasets.py:151-155 | a relationship with both endpoints retained has exactly one (label, source class, target class) key |
| StixLoader.RelationTypes | backend/app/api/datasets/stix_datasets.py:149-159 | the key list fails only with the `.iloc[0]` error on a dropped endpoint |
| StixLoader.RelationTypesSucceeds | backend/app/api/datasets/stix_datasets.py:149-159 | the key list exists iff every relationship's endpoints are retained |
| StixLoader.RelationTypesDistinct | backend/app/api/datasets/stix_datasets.py:149-159 | the key list holds each key once |
| StixLoader.RelationTypesKeys | backend/app/api/datasets/stix_datasets.py:149-159 | the key list holds exactly the keys of the bundle's relationships |
| StixLoader.BuildRelTables | backend/app/api/datasets/stix_datasets.py:168-175 | the `statement +=` loop builds one relation-table definition per key, `FROM` the source class `TO` the target class with the Relationship columns |
| StixLoader.Selected | backend/app/api/datasets/stix_datasets.py:181-185 | a key's selection holds exactly the relation rows with that label, source class and target class |
| StixLoader.SelectedConcat | backend/app/api/datasets/stix_datasets.py:181-185 | a key's selection keeps the order of the rows: selecting from two blocks selects from each in turn |
| StixLoader.CopyRelations | backend/app/api/datasets/stix_datasets.py:178-189 | the loop issues one `COPY` per key, in order, each reading that key's rows without the two type columns |
| StixLoader.SelectionsDisjoint | backend/app/api/datasets/stix_datasets.py:181-185 | two different keys select disjoint rows |
| StixLoader.RecordMatchesKey | backend/app/api/datasets/stix_datasets.py:181-185 | a kept relationship's record is selected by the relationship's own key |
| StixLoader.CopiesCoverRecords | backend/app/api/datasets/stix_datasets.py:149-189 | when every endpoint is retained, every relation record is selected by one of the keys |
| StixLoader.KeptRelationTypes | backend/app/api/datasets/stix_datasets.py:149-159 | the corrected key list, over the relationships whose endpoints were kept, never fails and holds each key once |
| StixLoader.KeptRelationTypesKeys | backend/app/api/datasets/stix_datasets.py:149-159 | the corrected key list holds exactly the keys of the relationships with both endpoints kept |
| StixLoader.KeptRelationTypesAgree | backend/app/api/datasets/stix_datasets.py:149-159 | when every endpoint is kept, the corrected key list is the one the code builds |
| StixLoader.KeyListed | backend/app/api/datasets/stix_datasets.py:181-185 | a kept relationship's record matches one of the corrected keys |
| StixLoader.KeptCopiesCoverRecords | backend/app/api/datasets/stix_datasets.py:177-189 | whatever sampling dropped, every relation record is selected by one of the corrected keys |
| StixLoader.SampledNodes | backend/app/api/datasets/stix_datasets.py:109-114 | without sampling the frame is the full node frame; a sample keeps the columns and is a sub-multiset of the rows; count sampling keeps exactly `count` rows and is refused above the number of rows; a refusal is the sampler's |
| StixLoader.CreateNodes | backend/app/api/datasets/stix_datasets.py:117-147 | the node-table statement and then one load per retained class are appended to the log |
| StixLoader.CreateRelations | backend/app/api/datasets/stix_datasets.py:163-189 | the relation-table statement and then one copy per key are appended to the log |
| StixLoader.InstantiateFromNodes | backend/app/api/datasets/stix_datasets.py:117-189 | node statements, then relation statements unless the key list fails, exactly as planned |
| StixLoader.Instantiate | backend/app/api/datasets/stix_datasets.py:93-189 | the adapter appends exactly `Plan`'s statements to the log and ends with `Plan`'s status |
| StixLoader.Plan | backend/app/api/datasets/stix_datasets.py:93-189 | an existing directory stops the run before any statement, and the only abort that leaves statements on the log is `EndpointNotRetained` (the rest is `StixLoader.PlanOutcome`) |
| StixLoader.PlanOutcome | backend/app/api/datasets/stix_datasets.py:109-189 | with a node frame, the node statements are always issued; the run completes iff every endpoint was retained, and otherwise stops with `EndpointNotRetained` before any relation statement; an existing directory stops it before any statement |
| StixLoader.StatementOrder | backend/app/api/datasets/stix_datasets.py:128-189 | a completed run issues the node tables, the loads, the relation tables, then the copies: 2 + classes + keys statements |
| StixLoader.CompletedPlan | backend/app/api/datasets/stix_datasets.py:101-117 | a completed run found the path free and a node frame with a `type` column |
| StixLoader.IdRetained | backend/app/api/datasets/stix_datasets.py:45-57 | the extracted node records, before sampling, hold the id of every non-relationship object of the bundle |
| StixLoader.UnsampledPlan | backend/app/api/datasets/stix_datasets.py:109-159 | without sampling, a bundle whose refs name its own objects loads completely, and one with no node objects stops before any statement |
| StixLoader.CorrectedPlan | backend/app/api/datasets/stix_datasets.py:93-189 | the corrected run makes the same checks before any statement; an existing directory stops it, and a run that issued statements has completed |
| StixLoader.InstantiateKeepingRetained | backend/app/api/datasets/stix_datasets.py:93-189 | the corrected loader appends exactly `CorrectedPlan`'s statements to the log and ends with its status |
| StixLoader.CorrectedPlanOutcome | backend/app/api/datasets/stix_datasets.py:109-189 | with a node frame holding `type`, the corrected run always completes: node statements, then one relation table and one copy per corrected key; with every endpoint kept it is the code's run |
| StixLoader.DroppedEndpointDiverges | backend/app/api/datasets/stix_datasets.py:149-159 | where sampling dropped an endpoint, the code's run stops with `EndpointNotRetained` after the node statements only, while the corrected run completes and starts with those same statements |
| StixLoader.UnsampledCorrectedPlan | backend/app/api/datasets/stix_datasets.py:109-159 | without sampling, the corrected run completes on any bundle with a node object, whatever its refs name, and stops before any statement on one without |
| Routes.TimestampStr | backend/app/api/routes/datasets.py:21-22 | the timestamp holds no space and is as long as `str(now)` (the rest is `TimestampShape` and `TimestampInjective`) |
| Routes.FieldWidths | backend/app/api/routes/datasets.py:21-22 | the date prints as 10 characters, the time as 8 or 15, neither with a space |
| Routes.TimestampShape | backend/app/api/routes/datasets.py:21-22 | the timestamp holds no space; only the date/time separator is replaced; it is 19 or 26 characters |
| Routes.TimestampInjective | backend/app/api/routes/datasets.py:21-22 | distinct instants give distinct timestamps |
| Routes.KuzuPath | backend/app/api/routes/datasets.py:44 | the path is the timestamp, then `_`, then the dataset name (the rest is `KuzuPathInjective`) |
| Routes.PathSeparator | backend/app/api/routes/datasets.py:44 | character 19 of the path is the `_` before the name, or the `.` of the microseconds |
| Routes.KuzuPathInjective | backend/app/api/routes/datasets.py:44 | two requests get the same store path only with the same name at the same microsecond |
| Routes.SpecificationsClass | backend/app/api/routes/datasets.py:47 | the recorded class is `<class 'app.models.` followed by `D` for DGL-KE and `S` for STIX (the rest is `SpecificationsClassNamesVariant`) |
| Routes.SpecificationsClassNamesVariant | backend/app/api/routes/datasets.py:47 | the recorded class name tells the two specification variants apart |
| Routes.DerivedSampling | backend/app/api/routes/datasets.py:58-69 | `sampling_ratio` is set iff the request samples by ratio and then holds it, likewise `sampling_count`; at most one is set, neither without sampling |
| Routes.DeriveDataset | backend/app/api/routes/datasets.py:51-71 | the row keeps the request's name, the owner and the timestamped path; a valid request gives a valid row; the sampling policy reads back from the row |
| Routes.DerivedRoundTrip | backend/app/api/routes/datasets.py:51-71 | the row keeps the name, a valid request gives a valid row, and the sampling policy reads back from the row |
| Routes.Session.constructor | backend/app/api/routes/datasets.py:28 | a fresh session has committed nothing |
| Routes.Session.Commit | backend/app/api/routes/datasets.py:72-74 | committing appends the row to the committed rows |
| Routes.CreateDataset | backend/app/api/routes/datasets.py:44-82 | the row is committed first; a DGL-KE specification then runs the DGL-KE adapter's plan; a STIX specification fails with `NotSupported` and issues nothing |
| Routes.CreateDatasetDispatching | backend/app/api/routes/datasets.py:44-82 | the corrected route commits the row first, then runs the DGL-KE plan for a DGL-KE specification and the corrected STIX plan for a STIX one, answering with the row iff the run completed |
| Routes.StixRequestAccepted | backend/app/tests/api/routes/test_datasets.py:17-33 | a STIX request without sampling, on a free path, whose bundle has a node object: the corrected route's STIX run completes, so it answers with the row |

## Left out

- Kuzu's execution semantics are not modelled: what a MATCH binds, how LOAD and COPY map columns, and transactions. Statements are only recorded on the connection's log, so no claim is made about the store's contents.
- The filesystem is not modelled. The "path is already a directory" check is a boolean input (`pathIsDir`), and creating the database directory is not modelled.
- `stix2.parse` and the stix2 class hierarchy are not modelled. A parsed object is a class name plus a property dict, and each class's declared properties come from a catalog (`StixRecords.Catalog`).
- `StixRecords.ValidCatalog` states what the stix2 classes guarantee and the loader relies on: one string `id` per class, a string `relationship_type`, and no Relationship property named `f`, `t`, `source_type` or `target_type`.
- The DGL-KE on-disk loader is not modelled. The entity and relation dictionaries and the training arrays are inputs (`Dglke.KgData`); `Dglke.WellFormed` asks of the two dictionaries only what a dict guarantees, that no label appears twice.
- Dglke.Plan: requires every training triple's relation id to be a known relation (`Dglke.WellFormed`). The `KeyError` a foreign id would raise in `id2relation` is not modelled.
- `slugify` is third-party: it is a function parameter. Its output alphabet is an assumption of `Dglke.ClassOrRelationNameIsIdentifier` (`Dglke.IsSlug`).
- Dglke.TitleAt: models `str.title` on ASCII letters only. Python also changes the case of non-ASCII letters.
- Sampling.Sample: the random draw is a permutation parameter.
- Sampling.SampleSize: the fraction size `round(ratio * n)` is computed in floating point, so it is a parameter (`fracSize`).
- `DataFrame` internals are not modelled: numpy dtypes, NaN, and the numpy half of the property-type table. Floats, timestamps and lists are opaque values (`Frames.Value`).
- StixLoader.RelationTypes: the keys come from a Python `set`, whose iteration order is unspecified. The model lists them in order of first appearance.
- Dglke.Distinct: the entity ids of a batch come from a Python `set`, whose iteration order is unspecified. The model lists them in order of first appearance.
- The `.iloc[0]` endpoint lookups in `_stix_objects_to_relations_df` are modelled by `StixRecords.NodeType`. They run only after `(nodes.id == ref).any()`, so they cannot fail there.
- An empty node frame has no `type` column. `nodes.type` then raises `AttributeError`, which is modelled as `MissingColumn("type")`.
- `DataFrame.sample` with neither a count nor a fraction is modelled, but the adapters never call it that way.
- The clock is an input (`Routes.DateTime`).
- `model_dump_json` is a function parameter (`dumpJson`).
- The following are not modelled: logging, FastAPI routing and response models, authentication, the SQLModel session beyond the order of commit and dispatch, and `get_create_options` (JSON-schema generation).
- Routes.CreateDataset: an adapter failure becomes a `Failure` result. In the source it is an exception that propagates out of the route.
- Routes.CreateDatasetDispatching: likewise, and the parse of the STIX file content is an input (`catalog`, `objs`).
- The `batch` helper in the STIX module is never called there. It is identical to the DGL-KE one, and both are modelled by `Batching.Batch`.
- The graph-store demo script is not part of this model. The node and edge counts the route test reads back from the store depend on store semantics, which are not modelled.

## Findings

| source | as written | input that shows it | evidently intended | confidence | as-written member | corrected member |
|---|---|---|---|---|---|---|
| backend/app/api/datasets/stix_datasets.py:149-159 | `all_relation_types` looks up the endpoint classes of every relationship with `.iloc[0]`, also those whose endpoint sampling dropped | a bundle with two node objects and one relationship between them, sampled with `sampling_count = 1`: one endpoint is dropped, the lookup finds no row and raises `IndexError` after the node tables were created and loaded (`StixLoader.DroppedEndpointDiverges`) | keys only from the relationships whose nodes were kept, as the comment at line 63 and the filter at lines 64-68 say; the run then always completes (`StixLoader.CorrectedPlanOutcome`) | not executed | StixLoader.Plan | StixLoader.CorrectedPlan |
| backend/app/api/routes/datasets.py:76-80 | only DGL-KE specifications reach an adapter; any other raises `ValueError("Specifications not supported")` after the row was committed | the request of `backend/app/tests/api/routes/test_datasets.py:23-33`: a STIX specification without sampling, for which the test expects status 200 | STIX specifications handed to the STIX loader, so the test's request is answered with the row (`Routes.StixRequestAccepted`) | not executed | Routes.CreateDataset | Routes.CreateDatasetDispatching |
