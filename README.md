# dynamic_pricing, modelled in Dafny

This project models the data path of the dynamic_pricing platform, a restaurant back office fed by a delivery platform:

- **The upsert engine.** `db/db_utils.py`'s `upsert` writes one dict into a PostgreSQL table. It stages the dict in `tmp_<table>`, adds a temporary unique constraint on the key columns, and runs `INSERT .. SELECT .. ON CONFLICT .. DO UPDATE`. It then removes the constraint and drops the staging table. `core/db_utils.py` issues the same statements but executes the merge only when `returning_col` names a column. Without one it stages, constrains, cleans up and returns `None`, having merged nothing.
- **The order normaliser.** `core/order_manager.py` and its near-copy `db/order_manager.py` turn one nested order payload into upserts into six tables: customers, orders, items, modifiers, order_items and order_item_modifiers. Each runs over its own revision of `upsert`. The two link tables, order_items and order_item_modifiers, are upserted without a returned column. Over core's engine, the one `webhook/app.py` uses, they are therefore never written.
- **The loader.** `load_order_data` reads a partner's orders back through a chain of FULL JOINs.
- **The legacy get-or-create path.** `database/database_manager.py` does the same job with a `DatabaseManager` class over one psycopg2 connection.
- **The order webhook.** `webhook/app.py` acknowledges, refuses, synchronises and stores notifications.
- **The order metrics.** `analysis/metrics.py` and its older copy `analysis/utils.py` compute revenue per order, sums per day period, order counts, profits over 21-day windows and the menu-matrix categories.

How the modules relate:

- The relational store is a value (`Relational.Db`). Each SQL statement the engine issues is a function from a store to the store afterwards plus a result or the `ConnectionError` the engine raises. `Stores.Store` is a class whose methods update such a store in place. Each method is proved to do what the statement's function says, so every law about the functions holds of the methods.
- The normaliser is specified by `Ingestion.IngestOrder`. It returns the store after the run, the log of upserts that went through, and the outcome. It takes the engine it calls as a parameter.
- The two revisions differ only in that engine. `Ingestion.Upserter` is db/db_utils.py's, which always merges; `Ingestion.CoreUpserter` is core/db_utils.py's. The laws of `UpsertLaws`, `IngestionStore`, `IngestionRefs` and `Replay` are proved of the merging engine. `CoreRevision` proves what core's engine does instead. `Stores.Store` has a `core` flag that picks the revision.
- The legacy manager is the class `LegacyManager.DatabaseManager`. It is proved against the functions of `Legacy`.
- The metrics work on the DataFrame `load_order_data` returns. `Frames.Frame` is that DataFrame as a class whose methods add helper columns and sort in place. They are proved against the functions of `Analytics`.
- Money stays in integer minor units. A missing value (NULL, NaN, NaT) is `None`. A timestamp is a count of seconds.

Two behaviours of the code are worth stating up front:

- `parse_datetime` (core/order_manager.py:13-15) calls `datetime.strptime` with `%Y-%m-%dT%H:%M:%SZ`, which also accepts one-digit fields and a lower-case `t`. The model accepts what it accepts (`DateTimes.ShortFieldsAccepted`).
- Revenue and profit per day period group with `observed=True` (metrics.py:320 and 347), so a period no row falls in gets no entry (`Analytics.DayPeriodComplete`, `Analytics.DayPeriodEntries`). The test at `tests/test_analysis.py:157-176` expects a trailing `0.0` for the empty evening bin; the code as written does not produce it.

## Model

| member | source | states |
|---|---|---|
| Relational.Columns | src/dynamic_pricing/core/db_utils.py:34 | the column list of the dict is one column per entry, in the dict's order |
| Relational.ToRow | src/dynamic_pricing/core/db_utils.py:34-35 | the dict bound as the INSERT's named parameters has exactly the dict's columns |
| Relational.ToRowAt | src/dynamic_pricing/core/db_utils.py:34-35 | entry `i` of a dict with distinct columns is what its column holds in the staged row |
| Relational.FieldsNamed | src/dynamic_pricing/core/order_manager.py:25-29 | a dict built from a list of distinct names has no repeated column, its keys are exactly those names, and each name maps to its own value |
| Relational.DropTmp | src/dynamic_pricing/core/db_utils.py:43-50 | `DROP TABLE IF EXISTS` never fails and removes only the named staging table, leaving tables, counter and constraint alone |
| Relational.ConflictColumns | src/dynamic_pricing/core/db_utils.py:91-95 | a column is in the `SET` list iff it is a dict column and not a key column |
| Relational.BuildMerge | src/dynamic_pricing/core/db_utils.py:97-101 | the merge statement targets the table, reads the staging table, conflicts on `pk_cols`, updates the non-key columns and returns `returning_col` |
| Relational.Proposed | src/dynamic_pricing/core/db_utils.py:97-98 | the row the INSERT proposes has exactly the table's columns |
| Relational.ConstrainWellFormed | src/dynamic_pricing/core/db_utils.py:53-66 | `ALTER TABLE .. ADD CONSTRAINT temp_constraint UNIQUE` keeps the store well formed, whether it goes through or is refused |
| Relational.Upsert | src/dynamic_pricing/db/db_utils.py:105-124 | the five statements of `upsert`: no statement adds or drops a table, and a successful call leaves no temporary constraint behind |
| Relational.CoreUpsert | src/dynamic_pricing/core/db_utils.py:89-108 | core's statements: the five of `upsert` when a column is asked for; otherwise staging, the constraint, its removal and the drop, with the merge never executed |
| UpsertLaws.ProposedAgrees | src/dynamic_pricing/db/db_utils.py:113-114 | the proposed row has the table's columns and carries every dict value under its column |
| UpsertLaws.ProposedKey | src/dynamic_pricing/db/db_utils.py:113-115 | when the dict holds every key column, the proposed row conflicts with a stored row iff the dict does |
| UpsertLaws.UpdateKeepsUnique | src/dynamic_pricing/db/db_utils.py:115 | rewriting a row without touching its key columns keeps the table unique on the key |
| UpsertLaws.InsertKeepsUnique | src/dynamic_pricing/db/db_utils.py:113-114 | inserting a row that conflicts with none keeps the table unique on the key |
| UpsertLaws.BuiltMergeFails | src/dynamic_pricing/db/db_utils.py:107-119 | once staged and constrained, the merge is refused iff the `SET` list is empty or the `RETURNING` column does not exist |
| UpsertLaws.MergeRowWellFormed | src/dynamic_pricing/db/db_utils.py:113-119 | the merge of a proposed row keeps the store well formed |
| UpsertLaws.MergeInsertWellFormed | src/dynamic_pricing/db/db_utils.py:113-114 | the insert branch of the merge keeps the store well formed |
| UpsertLaws.MergeUpdateWellFormed | src/dynamic_pricing/db/db_utils.py:115 | the `DO UPDATE` branch of the merge keeps the store well formed |
| UpsertLaws.MergeWellFormed | src/dynamic_pricing/db/db_utils.py:113-122 | the merge statement keeps the store well formed, whether it goes through or is refused |
| UpsertLaws.UpsertWellFormed | src/dynamic_pricing/db/db_utils.py:95-129 | `upsert` keeps the store well formed on every path, failing ones included |
| UpsertLaws.UpsertOkIff | src/dynamic_pricing/db/db_utils.py:95-129 | `upsert` returns iff every one of its statements is accepted (`Accepts`), and raises `ConnectionError` otherwise |
| UpsertLaws.UpsertFailure | src/dynamic_pricing/db/db_utils.py:105-128 | a failed `upsert` has written no row and drawn no id; it names the table and the statement that failed; the staging table and the constraint it left behind stay, since the except path cleans nothing up |
| UpsertLaws.ConstrainedFailure | src/dynamic_pricing/db/db_utils.py:112-128 | after staging, `upsert` can only raise at the constraint or at the merge; the clean-up after an accepted merge never fails |
| UpsertLaws.MergeRowEffect | src/dynamic_pricing/db/db_utils.py:113-122 | the merge always goes through and touches one table: with a conflicting row, that row gets the `SET` columns and no id is drawn; otherwise the proposed row is added under the next id; the returned scalar is the written row's `RETURNING` column |
| UpsertLaws.UpsertIsMerge | src/dynamic_pricing/db/db_utils.py:105-124 | with every statement accepted, `upsert` is staging, the constraint, the merge of the proposed row, then the clean-up |
| UpsertLaws.ConstrainedIsMerge | src/dynamic_pricing/db/db_utils.py:112-124 | once the row is staged, an accepted constraint and merge make the rest of `upsert` the merge followed by the clean-up |
| UpsertLaws.CleanUpAfterMerge | src/dynamic_pricing/db/db_utils.py:123-124 | the merge leaves the constraint in place, so `remove_constraints` and `drop_tmp_table` after it go through |
| UpsertLaws.Returned | src/dynamic_pricing/db/db_utils.py:117-122 | a value is returned iff `returning_col` is given and is a column of the written row, and then it is that column's value |
| UpsertLaws.Written | src/dynamic_pricing/db/db_utils.py:95-129 | a successful `upsert`, stated on the dict: the result is Ok, no other table changes, the staging table is gone and the constraint is as before, and the returned id is a row of the table whose `RETURNING` column is the returned value |
| UpsertLaws.UpsertWrites | src/dynamic_pricing/db/db_utils.py:95-129 | with every statement accepted, the five statements of `upsert` write exactly what `Written` says |
| UpsertLaws.CreateTmpFrame | src/dynamic_pricing/db/db_utils.py:29-48 | `create_tmp_table` touches only its own staging table: tables, counter and constraint are unchanged |
| UpsertLaws.MergeIsWritten | src/dynamic_pricing/db/db_utils.py:113-124 | the merge of the proposed row, then the clean-up, writes what `Written` says |
| UpsertLaws.MergeUpdateIsWritten | src/dynamic_pricing/db/db_utils.py:115-124 | the same for the update branch |
| UpsertLaws.MergeUpdateParts | src/dynamic_pricing/db/db_utils.py:115 | in the update branch, the row the merge rewrites and the value it returns are the ones `Written` picks |
| UpsertLaws.MergeInsertIsWritten | src/dynamic_pricing/db/db_utils.py:113-124 | the same for the insert branch |
| UpsertLaws.MergeMatchesDict | src/dynamic_pricing/db/db_utils.py:113-115 | the proposed row conflicts with a stored row exactly where the dict's key does |
| UpsertLaws.UpdateAgrees | src/dynamic_pricing/db/db_utils.py:107-115 | `SET col=EXCLUDED.col` over the non-key columns lays the dict's non-key values over the stored row |
| UpsertLaws.OneMatch | src/dynamic_pricing/db/db_utils.py:63-74 | in a table unique on the key, at most one row conflicts with a given key |
| UpsertLaws.Refused | src/dynamic_pricing/db/db_utils.py:105-128 | a refused `upsert` raises about its table and leaves every table and the counter unchanged |
| UpsertLaws.UpsertSpec | src/dynamic_pricing/db/db_utils.py:95-129 | `upsert` by outcome: it succeeds iff every statement is accepted, and then writes `Written`, otherwise `Refused` |
| UpsertLaws.UpsertIsSpec | src/dynamic_pricing/db/db_utils.py:95-129 | the five statements of `upsert` equal `UpsertSpec` for every dict that holds its key columns |
| UpsertLaws.UpsertRefused | src/dynamic_pricing/db/db_utils.py:125-128 | when some statement is refused, `upsert` leaves the store `Refused` describes |
| UpsertLaws.KeyedUpdate | src/dynamic_pricing/db/db_utils.py:107-115 | updating only the non-key columns of a row whose key already matches the dict is writing the whole dict onto it |
| UpsertLaws.ProposedRow | src/dynamic_pricing/db/db_utils.py:113-114 | an inserted row holds the dict, the new id in the serial column when the dict leaves it out, and NULL everywhere else |
| UpsertLaws.WrittenUpdates | src/dynamic_pricing/db/db_utils.py:115 | when a row carries the dict's key, the write goes to that row: it keeps its id and every column outside the dict, and no id is drawn |
| UpsertLaws.WrittenInserts | src/dynamic_pricing/db/db_utils.py:113-114 | when no row carries the dict's key, exactly one row is added, under the next id, which was free |
| UpsertLaws.WrittenKeepsUnique | src/dynamic_pricing/db/db_utils.py:112-115 | after the write the table is still unique on the key columns |
| UpsertLaws.WrittenExactlyOne | src/dynamic_pricing/db/db_utils.py:95-129 | with a key free of NULLs, the written row holds the dict and is the one row of the table carrying that key |
| UpsertLaws.WrittenHeldIsNoOp | src/dynamic_pricing/db/db_utils.py:115 | writing a dict the matching row already holds changes no table and draws no id |
| UpsertLaws.UpsertSpecWellFormed | src/dynamic_pricing/db/db_utils.py:95-129 | `UpsertSpec` keeps the store well formed |
| UpsertLaws.WrittenWellFormed | src/dynamic_pricing/db/db_utils.py:95-129 | `Written` keeps the store well formed |
| UpsertLaws.CoreSpec | src/dynamic_pricing/core/db_utils.py:81-113 | core's `upsert` by outcome: asked for a column, it succeeds iff `Accepts` holds and returns the merged row; asked for none, it succeeds iff the staging and the constraint go through (`Staged`), returns `None`, and leaves every table and the id counter unchanged |
| UpsertLaws.CoreUpsertIsSpec | src/dynamic_pricing/core/db_utils.py:89-113 | the statements core's `upsert` runs equal `CoreSpec` for every dict that holds its key columns |
| DateTimes.ParseDateTime | src/dynamic_pricing/core/order_manager.py:13-15 | `strptime(s, "%Y-%m-%dT%H:%M:%SZ")` with `None` for `ValueError`: a result is a valid calendar date and time |
| DateTimes.Format | src/dynamic_pricing/core/order_manager.py:15 | the fixed-width `YYYY-MM-DDTHH:MM:SSZ` rendering of a valid timestamp is 20 characters |
| DateTimes.ParseFormat | src/dynamic_pricing/core/order_manager.py:13-15 | round trip: the fixed-width rendering of every valid timestamp parses back to itself |
| DateTimes.TruncateSubseconds | src/dynamic_pricing/core/order_manager.py:52 | `at.split(".")[0] + "Z"`: everything before the first '.', then 'Z' |
| DateTimes.TruncatedUpdateParses | src/dynamic_pricing/core/order_manager.py:51-53 | a status-log time with a fractional part parses, after truncation, to the same whole second |
| DateTimes.WholeSecondUpdateRejected | src/dynamic_pricing/core/order_manager.py:51-53 | a status-log time without a fractional part gets a second 'Z' and is refused |
| DateTimes.ParseOf | src/dynamic_pricing/core/order_manager.py:13-15 | what the parser makes of a string with every separator in place: fields in range give that date and time, others give `None` |
| DateTimes.ShortFieldsAccepted | src/dynamic_pricing/core/order_manager.py:13-15 | one-digit fields and a lower-case 't' are accepted ("2024-1-5t7:3:9Z") |
| DateTimes.NonexistentDayRejected | src/dynamic_pricing/core/order_manager.py:13-15 | a well-formed string naming a day that does not exist ("2023-02-29T10:00:00Z") is refused |
| Ingestion.KeyOf | src/dynamic_pricing/core/order_manager.py:26-31 | every one of the six ingestion tables is upserted with a non-empty key |
| Ingestion.CustomerRef | src/dynamic_pricing/core/order_manager.py:60 | -1 is stored as NULL; any other customer id is stored as given |
| Ingestion.Timestamp | src/dynamic_pricing/core/order_manager.py:13-15 | parses iff `ParseDateTime` does, to that value; otherwise the error names the string |
| Ingestion.NamedIds | src/dynamic_pricing/core/order_manager.py:137-140 | the partner rows the query matches are exactly those whose `partner_name` equals the name |
| Ingestion.PartnerId | src/dynamic_pricing/core/order_manager.py:133-141 | `get_partner_id` is -1 when no partner has the name; otherwise it is a matching row's `partner_id`, or -1 when that id is falsy |
| Ingestion.OrderFields | src/dynamic_pricing/core/order_manager.py:44-62 | `insert_order` builds its dict only when the status log has two entries and both preparation times are present; its errors are missing keys, a short status log or an unparsable time, never a storage error or an unknown partner |
| Ingestion.Upserter | src/dynamic_pricing/db/db_utils.py:95-129 | the engine of db/order_manager.py: `UpsertSpec` with each table's key and returned column |
| Ingestion.CoreUpserter | src/dynamic_pricing/core/db_utils.py:101-106 | the engine of core/order_manager.py: `CoreSpec` with each table's key and returned column; a call whose merge is skipped logs no row and no returned value |
| Ingestion.IngestModifiers | src/dynamic_pricing/core/order_manager.py:167-171 | the modifier loop: for each modifier, its upsert then its link's, stopping at the first that raises |
| Ingestion.IngestItems | src/dynamic_pricing/core/order_manager.py:164-171 | the item loop: for each item, its upsert, its order item's, then its modifiers', stopping at the first that raises |
| Ingestion.IngestFromOrder | src/dynamic_pricing/core/order_manager.py:162-171 | `insert_order`, then the item loop with the order's id |
| Ingestion.IngestOrder | src/dynamic_pricing/core/order_manager.py:144-171 | `insert_order_data`: the customer and `location_id` on the webhook path, the partner lookup and its `ValueError` on the historical one, then the order and its items |
| IngestionLaws.CustomerDictOk | src/dynamic_pricing/core/order_manager.py:25-31 | the customer dict has distinct columns of the customers table and holds its key `contact_number` |
| IngestionLaws.ItemDictOk | src/dynamic_pricing/core/order_manager.py:72-77 | the item dict has distinct columns of the items table and holds its key `item_name` |
| IngestionLaws.ModifierDictOk | src/dynamic_pricing/core/order_manager.py:87-93 | the modifier dict has distinct columns of the modifiers table and holds its key `modifier_name` |
| IngestionLaws.OrderItemDictOk | src/dynamic_pricing/core/order_manager.py:102-108 | the order-item dict is well formed, keyed on (order_id, item_id), and carries the ids it was given |
| IngestionLaws.OrderItemModifierDictOk | src/dynamic_pricing/core/order_manager.py:118-130 | the order-item-modifier dict is well formed, keyed on (order_id, item_id, modifier_id), and carries the ids it was given |
| IngestionLaws.OrderColumnsDistinct | src/dynamic_pricing/core/order_manager.py:44-62 | the eight order columns are distinct, and `order_id` is not one of them |
| IngestionLaws.OrderDictColumns | src/dynamic_pricing/core/order_manager.py:44-62 | the order dict lists the order columns in that order |
| IngestionLaws.OrderDictOk | src/dynamic_pricing/core/order_manager.py:44-64 | the order dict is keyed on `platform_order_id` and carries the given values |
| IngestionLaws.OrderFieldsOk | src/dynamic_pricing/core/order_manager.py:44-62 | `insert_order` builds its dict exactly when the order parses; -1 becomes a NULL `customer_id`, the partner is stored as given, and the placed time and the truncated update time are stored parsed |
| IngestionLaws.OrderFieldsErrors | src/dynamic_pricing/core/order_manager.py:44-59 | entries are evaluated in order, so the first missing or malformed entry decides the error: a status log shorter than two entries is an `IndexError` once its first time parses, and a missing `prepare_for` is a `KeyError` once both status-log times parse |
| IngestionLaws.UpsertFacts | src/dynamic_pricing/db/db_utils.py:95-129 | for any key, `upsert` keeps the store well formed and the table unique on its key; it touches no other table and keeps every row under its id with its key; it changes no table when it raises; on success its row holds the dict |
| IngestionLaws.WrittenFacts | src/dynamic_pricing/db/db_utils.py:113-122 | a successful write changes only its own table and keeps the table unique |
| IngestionLaws.WrittenKept | src/dynamic_pricing/db/db_utils.py:113-115 | a successful write removes no row and changes no row's key |
| IngestionLaws.WrittenHolds | src/dynamic_pricing/db/db_utils.py:113-122 | the row a successful write names holds the dict |
| IngestionLaws.UpdateKept | src/dynamic_pricing/db/db_utils.py:115 | laying a dict that carries a row's key over that row keeps every key |
| IngestionRuns.ModifiersFollowPlan | src/dynamic_pricing/core/order_manager.py:167-171 | the modifier loop writes a modifier, then its link, for each modifier in order; a run that succeeds makes every write, one that raises makes a strict prefix |
| IngestionRuns.ItemsFollowPlan | src/dynamic_pricing/core/order_manager.py:164-171 | the item loop's writes are a prefix of the plan: each item, its order item, then its modifiers' writes |
| IngestionRuns.ItemsCompletePlan | src/dynamic_pricing/core/order_manager.py:164-171 | a successful item loop makes every write of the plan |
| IngestionRuns.ItemsStopEarly | src/dynamic_pricing/core/order_manager.py:164-171 | an item loop that raises has made a strict prefix of the plan |
| IngestionRuns.ItemTurnStopsEarly | src/dynamic_pricing/core/order_manager.py:164-171 | a turn whose item and order item go through, and whose rest raises, has made a strict prefix of the plan |
| IngestionRuns.OrderFollowsPlan | src/dynamic_pricing/core/order_manager.py:162-171 | after the order write, the writes follow the payload; all of them on success, a strict prefix on failure |
| IngestionRuns.WebhookFollowsPlan | src/dynamic_pricing/core/order_manager.py:151-171 | on the webhook path the writes are the customer, the order, then per item the item, its order item and each modifier with its link, in payload order: all of them on success, a strict prefix on failure |
| IngestionRuns.HistoricalFollowsPlan | src/dynamic_pricing/core/order_manager.py:156-171 | the same on the historical path, which writes no customer |
| IngestionStore.UpserterSafe | src/dynamic_pricing/db/db_utils.py:95-129 | the `upsert` engine, called with each table's key, keeps the store well formed and every ingestion table unique, never loses a row or changes a key, and touches only the table it names |
| IngestionStore.ModifiersEvolve | src/dynamic_pricing/db/order_manager.py:172-177 | the modifier loop keeps those invariants and changes only the tables it logs |
| IngestionStore.ItemsEvolve | src/dynamic_pricing/db/order_manager.py:168-177 | the item loop keeps those invariants and changes only the tables it logs |
| IngestionStore.OrderEvolves | src/dynamic_pricing/db/order_manager.py:166-177 | the order write and the item loop keep those invariants |
| IngestionStore.IngestEvolves | src/dynamic_pricing/db/order_manager.py:149-177 | a whole run keeps the store well formed and every ingestion table unique on its key; it never loses a row or changes a row's key, and changes only the tables it logs |
| IngestionStore.WebhookEvolves | src/dynamic_pricing/db/order_manager.py:155-177 | the same for the webhook path, whose first write is the customer |
| IngestionStore.OrderErrorsBeforeWrites | src/dynamic_pricing/core/order_manager.py:44-65 | for payloads that carry every key the item loop reads: once the order row is being written, only a storage error can stop the run |
| IngestionStore.HistoricalErrorsBeforeWrites | src/dynamic_pricing/core/order_manager.py:156-162 | for payloads that carry every key the item loop reads: on the historical path, every error but a storage error (unknown partner, a missing order key, malformed timestamp) leaves the store exactly as it was |
| IngestionStore.WebhookErrorsBeforeWrites | src/dynamic_pricing/db/order_manager.py:155-159 | on the webhook path, such an error leaves at most the customer written: orders and every other table are as they were |
| IngestionRefs.OtherWriteKeepsRefs | src/dynamic_pricing/db/order_manager.py:168-174 | a write to any ingestion table but order_item_modifiers keeps every order_item_modifiers row linked to an order_items row |
| IngestionRefs.LinkWriteKeepsRefs | src/dynamic_pricing/db/order_manager.py:175-177 | an order_item_modifiers write whose (order_id, item_id) is already an order_items row keeps every link |
| IngestionRefs.ModifiersKeepRefs | src/dynamic_pricing/db/order_manager.py:172-177 | the modifier loop of an item whose order_items row exists keeps the store referentially complete |
| IngestionRefs.OrderItemWriteLinks | src/dynamic_pricing/db/order_manager.py:170 | the order_items write of an item creates the (order_id, item_id) its modifiers link to |
| IngestionRefs.ItemsKeepRefs | src/dynamic_pricing/db/order_manager.py:168-177 | the item loop keeps the store referentially complete |
| IngestionRefs.IngestKeepsRefs | src/dynamic_pricing/db/order_manager.py:149-177 | a run from a referentially complete store leaves it so, whether it succeeds or stops early |
| IngestionRefs.OrderKeepsRefs | src/dynamic_pricing/db/order_manager.py:166-177 | the order write and the item loop keep the store referentially complete |
| Replay.UpsertExact | src/dynamic_pricing/db/db_utils.py:113-122 | an upsert with a key free of NULLs lays the dict onto the one row carrying that key, or inserts it, and returns that row's id |
| Replay.WrittenExact | src/dynamic_pricing/db/db_utils.py:113-122 | `Written` is exact in that sense |
| Replay.UpserterExact | src/dynamic_pricing/db/db_utils.py:95-129 | `upsert`, called with each table's key, is exact in that sense |
| Replay.OverlayCovered | src/dynamic_pricing/db/db_utils.py:115 | laying dicts a store already holds changes nothing |
| Replay.ExactUpdate | src/dynamic_pricing/db/db_utils.py:115 | an exact upsert whose dict matches row `j` updates that row and returns its id |
| Replay.ExactInsert | src/dynamic_pricing/db/db_utils.py:113-114 | an exact upsert whose dict matches no row inserts a new row holding the dict |
| Replay.ReplayStep | src/dynamic_pricing/db/db_utils.py:113-122 | replaying a write of the first run finds the same row by its key, lays the same dict over it and returns the same id |
| Replay.SettledKept | src/dynamic_pricing/db/db_utils.py:113-115 | a later write leaves an earlier write's row with its id, its key and its returned column |
| Replay.CoveredKept | src/dynamic_pricing/db/db_utils.py:113-115 | after a write, every dict written so far is still held by its row |
| Replay.ReplayModifiers | src/dynamic_pricing/db/order_manager.py:172-177 | the modifier loop, replayed, makes the same writes and leaves the same store |
| Replay.ReplayItems | src/dynamic_pricing/db/order_manager.py:168-177 | the item loop, replayed, makes the same writes and leaves the same store |
| Replay.ReplayFromOrder | src/dynamic_pricing/db/order_manager.py:166-177 | the order and its items, replayed, make the same writes and leave the same store |
| Replay.Run1Order | src/dynamic_pricing/db/order_manager.py:166-177 | a first run that goes through leaves each write it made with its row and every dict it wrote held |
| Replay.Run1Historical | src/dynamic_pricing/db/order_manager.py:160-177 | the same for the historical path |
| Replay.Run1Webhook | src/dynamic_pricing/db/order_manager.py:155-177 | the same for the webhook path |
| Replay.PlanTables | src/dynamic_pricing/db/order_manager.py:155-177 | a run writes only ingestion tables, never partners |
| Replay.PartnerIdFrame | src/dynamic_pricing/db/order_manager.py:139-146 | the partner lookup reads the partners table alone |
| Replay.PartnerKept | src/dynamic_pricing/db/order_manager.py:160-166 | a historical run that goes through leaves the partner lookup as it found it |
| Replay.ReplayHistorical | src/dynamic_pricing/db/order_manager.py:160-177 | a successful historical run, run again on the store it left, makes the same writes with the same ids and leaves the store unchanged |
| Replay.ReplayCustomer | src/dynamic_pricing/db/order_manager.py:156 | the customer write of the webhook path, replayed, returns the same id and changes nothing |
| Replay.ReplayWebhook | src/dynamic_pricing/db/order_manager.py:155-177 | the same for the webhook path |
| Replay.ReplayIsNoOp | src/dynamic_pricing/db/order_manager.py:149-177 | idempotence: running `insert_order_data` again on the store a successful run left makes the same writes in the same order, gets the same ids, and leaves the store unchanged, provided no key column it wrote was NULL |
| Stores.Requested | src/dynamic_pricing/core/db_utils.py:101-106 | `returning_col` asks for a column iff it is given and is not the empty name |
| Stores.RevisionsDiffer | src/dynamic_pricing/core/db_utils.py:101-106 | on the same store and dict: with a column asked for, both revisions leave the same store and return the same value; without one, db/db_utils.py merges the dict into a row that holds it and reports a rowcount of 1, while core/db_utils.py returns `None` with every table unchanged |
| Stores.ScalarIsColumn | src/dynamic_pricing/db/db_utils.py:117-122 | the scalar a successful merge returns is the `RETURNING` column of the row it wrote |
| Stores.ArbiterUnique | src/dynamic_pricing/db/db_utils.py:63-74 | under the temporary constraint, at most one row of the constrained table conflicts with a row |
| Stores.MergeRowAt | src/dynamic_pricing/db/db_utils.py:113-115 | in a table unique on the constraint, the update branch rewrites the one row that conflicts |
| Stores.Store.CreateTmpTable | src/dynamic_pricing/core/db_utils.py:25-40 | the store afterwards and the result are those of `CreateTmp` |
| Stores.Store.DropTmpTable | src/dynamic_pricing/core/db_utils.py:43-50 | the store afterwards is `DropTmp` of the store before |
| Stores.Store.AddConstraints | src/dynamic_pricing/core/db_utils.py:53-66 | the store and the result are those of `AddConstraint` |
| Stores.Store.RemoveConstraints | src/dynamic_pricing/core/db_utils.py:69-78 | the store and the result are those of `RemoveConstraint` |
| Stores.Store.Merge | src/dynamic_pricing/db/db_utils.py:113-122 | the store and the result are those of `ExecMerge` |
| Stores.Store.Upsert | src/dynamic_pricing/db/db_utils.py:95-129 | the store and the result are those of the specification `Upsert`, db/db_utils.py's five statements, so every law of `UpsertLaws` holds of the method |
| Stores.Store.CoreStatements | src/dynamic_pricing/core/db_utils.py:89-108 | the store and the result are those of `Relational.CoreUpsert` |
| Stores.Store.UpsertCore | src/dynamic_pricing/core/db_utils.py:81-113 | the store afterwards is `CoreUpsert` of the store before; the result is the merged row's returned column when one is asked for, `None` when none is |
| Stores.Store.UpsertCounting | src/dynamic_pricing/db/db_utils.py:95-129 | the same statements, reporting the row count when no column is asked for |
| Stores.Store.UpsertRow | src/dynamic_pricing/core/order_manager.py:63-64 | the normaliser's call of `upsert`, with the table's key and returned column, is the engine of the store's revision: `CoreUpserter` when `core` is set, the merging `Upserter` otherwise |
| Stores.Store.GetPartnerId | src/dynamic_pricing/core/order_manager.py:133-141 | returns `Ingestion.PartnerId` of the store and changes nothing |
| Stores.Store.InsertModifier | src/dynamic_pricing/core/order_manager.py:168-171 | `insert_modifier` then `insert_order_item_modifier` leave the store, log and outcome of one round of the modifier loop, over the engine of the store's revision |
| Stores.Store.InsertModifiers | src/dynamic_pricing/core/order_manager.py:167-171 | the loop leaves the store, log and outcome `Ingestion.IngestModifiers` specifies, over the engine of the store's revision |
| Stores.Store.InsertItem | src/dynamic_pricing/core/order_manager.py:165-171 | `insert_item`, `insert_order_item` and the modifier loop leave the store, log and outcome of one round of the item loop, over the engine of the store's revision |
| Stores.Store.InsertItems | src/dynamic_pricing/core/order_manager.py:164-171 | the loop leaves the store, log and outcome `Ingestion.IngestItems` specifies, over the engine of the store's revision |
| Stores.Store.InsertFromOrder | src/dynamic_pricing/core/order_manager.py:153-171 | `insert_order` and the item loop leave what `Ingestion.IngestFromOrder` specifies, over the engine of the store's revision |
| Stores.Store.InsertOrderData | src/dynamic_pricing/core/order_manager.py:144-171 | `insert_order_data` leaves the store, log and outcome `Ingestion.IngestOrder` specifies, so the run, store, reference and replay laws hold of it, over the engine of the store's revision |
| CoreRevision.CoreOtherTables | src/dynamic_pricing/core/db_utils.py:89-113 | core's `upsert` changes no table but its own, and none at all when no column is asked for |
| CoreRevision.CoreLeavesLinks | src/dynamic_pricing/core/order_manager.py:97-130 | core's engine never changes order_items or order_item_modifiers, which the normaliser upserts without a returned column |
| CoreRevision.ModifiersLeave | src/dynamic_pricing/core/order_manager.py:167-171 | the modifier loop over an engine that never changes a table leaves that table as it was |
| CoreRevision.ItemsLeave | src/dynamic_pricing/core/order_manager.py:164-171 | the same for the item loop |
| CoreRevision.FromOrderLeave | src/dynamic_pricing/core/order_manager.py:162-171 | the same for the order and its items |
| CoreRevision.IngestLeaves | src/dynamic_pricing/core/order_manager.py:144-171 | the same for a whole run, on either path |
| CoreRevision.LinksLeftAlone | src/dynamic_pricing/core/order_manager.py:144-171 | a run over an engine that leaves both link tables alone leaves them as they were, and a run that returns has still made every call of its plan |
| CoreRevision.CoreIngestSkipsLinks | src/dynamic_pricing/core/order_manager.py:144-171 | as written: core's `insert_order_data`, whatever the payload and whether it raises, leaves order_items and order_item_modifiers unchanged, although a run that returns has made one call to each per item and per modifier |
| CoreRevision.MergingWritesLinks | src/dynamic_pricing/db/db_utils.py:113-124 | the merging engine writes an accepted order_items or order_item_modifiers dict into a row that holds it, where core's engine returns from the same call with every table unchanged |
| CoreRevision.WebhookSkipsLinks | src/dynamic_pricing/webhook/app.py:134-147 | no notification the webhook serves, whatever its order, the sync outcome or the environment, changes order_items or order_item_modifiers |
| Loading.Outer | src/dynamic_pricing/core/db_utils.py:151-162 | a left outer join attaches every match, or one NULL row when there is none |
| Loading.JoinOn | src/dynamic_pricing/core/db_utils.py:151-162 | the rows a join attaches are exactly those whose column equals the key under SQL `=`, which NULL never satisfies |
| Loading.LoadOrderData | src/dynamic_pricing/core/db_utils.py:116-166 | a row handle is in the result iff it passes the chain of outer joins and the WHERE clause (`Joined`) |
| Loading.OnlyNamedPartner | src/dynamic_pricing/core/db_utils.py:163-164 | only the named partner's rows come back, and every row names it |
| Loading.EveryNamedPartner | src/dynamic_pricing/core/db_utils.py:149-164 | every partner row with the name yields at least one row, whether or not it has orders |
| Loading.RowPerLink | src/dynamic_pricing/core/db_utils.py:149-164 | each modifier link of an order item of an order of the partner yields a row carrying that order, order item and link |
| Loading.OneRowPerLink | src/dynamic_pricing/core/db_utils.py:149-164 | with `customer_id`, `item_id` and `modifier_id` unique, there is only one row per (partner, order, order item, modifier link) |
| Loading.AtMostOne | src/dynamic_pricing/core/db_utils.py:151-162 | a join on a unique column attaches at most one row |
| Loading.ItemWithoutModifiers | src/dynamic_pricing/core/db_utils.py:159-162 | an order item without modifier links yields one row per item match, with every modifier column NULL |
| Loading.ItemWithoutModifiersListed | src/dynamic_pricing/core/db_utils.py:149-164 | such a row is there for every order item of the partner's orders |
| Loading.PartnerWithoutOrders | src/dynamic_pricing/core/db_utils.py:149-164 | a partner without orders yields one row whose only non-NULL columns are its own |
| Legacy.Committed | src/dynamic_pricing/database/database_manager.py:21-23 | `commit` makes what the transaction sees the committed state and changes nothing else |
| Legacy.RolledBack | src/dynamic_pricing/database/database_manager.py:25-27 | `rollback` returns the transaction to the committed state; the serial counter is not wound back |
| Legacy.FirstMatch | src/dynamic_pricing/database/database_manager.py:51-58 | `fetchone` after `SELECT .. WHERE k = %s`: the first row whose key equals the value under SQL `=`, or none iff no row does |
| Legacy.CustomerIdByContact | src/dynamic_pricing/database/database_manager.py:51-58 | the first matching customer's id; `None` when no row matches or there is no connection |
| Legacy.ItemLookup | src/dynamic_pricing/database/database_manager.py:98-105 | as written, `item_exists` raises `TypeError` exactly when connected and no item has the id; the fixed lookup never raises |
| Legacy.ModifierLookup | src/dynamic_pricing/database/database_manager.py:135-142 | the same for `modifier_exists` |
| Legacy.CustomerStep | src/dynamic_pricing/database/database_manager.py:33-49 | `insert_customer` never raises and touches only customers, which it only grows; a customer without a contact number always gets a new row |
| Legacy.CustomerStepIdempotent | src/dynamic_pricing/database/database_manager.py:33-49 | for a customer with a contact number, a second call returns the same id and adds nothing |
| Legacy.AddressStep | src/dynamic_pricing/database/database_manager.py:60-71 | `insert_address` appends one address row with the new id and touches nothing else |
| Legacy.DeliveryStep | src/dynamic_pricing/database/database_manager.py:73-79 | `insert_delivery_address` appends one (customer, address) row and touches nothing else |
| Legacy.IsoTimestamp | src/dynamic_pricing/database/database_manager.py:84-91 | `fromisoformat` of a status-log time: a result is the two-digit `YYYY-MM-DDTHH:MM:SSZ` rendering of a valid timestamp, 20 characters long |
| Legacy.IsoTimestampFormat | src/dynamic_pricing/database/database_manager.py:84-91 | round trip: the rendering of every valid timestamp is read back as that timestamp |
| Legacy.IsoShortFieldsRefused | src/dynamic_pricing/database/database_manager.py:84-91 | one-digit fields ("2024-1-5T7:3:9Z"), which `strptime` accepts, are refused |
| Legacy.OrderStep | src/dynamic_pricing/database/database_manager.py:81-96 | `insert_order` touches only orders |
| Legacy.ItemStep | src/dynamic_pricing/database/database_manager.py:107-114 | `insert_item` never raises and touches only items |
| Legacy.ModifierStep | src/dynamic_pricing/database/database_manager.py:144-151 | `insert_modifier` never raises and touches only modifiers |
| Legacy.OrderItemRows | src/dynamic_pricing/database/database_manager.py:130-133 | one order_items row per payload item |
| Legacy.OrderItemRowAt | src/dynamic_pricing/database/database_manager.py:130-133 | row k carries the order id, the k-th item's id, quantity and price |
| Legacy.OrderItemStep | src/dynamic_pricing/database/database_manager.py:119-133 | one pass of the loop: on success it appends one order_items row with the item id it found; if it raises it changes nothing |
| Legacy.KnownFound | src/dynamic_pricing/database/database_manager.py:98-105 | the lookup finds a row iff some stored item has the payload's `pos_item_id` |
| Legacy.OrderItemStepItems | src/dynamic_pricing/database/database_manager.py:119-129 | as written, a pass raises exactly when no row has the item's `pos_item_id`, and adds no item row; with the fixed lookup it never raises and leaves a row for the item |
| Legacy.OrderItemsStep | src/dynamic_pricing/database/database_manager.py:116-133 | `with conn:` without a connection raises at once; with one, the block commits or rolls back, leaving nothing pending |
| Legacy.ItemsLoop | src/dynamic_pricing/database/database_manager.py:117-133 | on success the loop appends exactly `OrderItemRows`, one per item, and leaves orders and links alone |
| Legacy.ItemsLoopAsWritten | src/dynamic_pricing/database/database_manager.py:116-133 | as written, the loop succeeds iff every payload item is already stored, and it never adds an item row |
| Legacy.ItemsLoopFixed | src/dynamic_pricing/database/database_manager.py:116-133 | with the fixed lookup the loop always succeeds, keeps every stored item, and leaves a row for every payload item that has a `pos_item_id` |
| Legacy.LinkStep | src/dynamic_pricing/database/database_manager.py:156-171 | one pass adds only link rows for (order_id, item_id) and touches only modifiers and links; if it raises it changes nothing |
| Legacy.ModsLoop | src/dynamic_pricing/database/database_manager.py:154-171 | every link row the loop adds is for (order_id, item_id) |
| Legacy.LinksStep | src/dynamic_pricing/database/database_manager.py:153-171 | the `with` block commits or rolls back, and every link row it adds is for (order_id, item_id) |
| Legacy.LinkItemIds | src/dynamic_pricing/database/database_manager.py:209-212 | the item id passed for the k-th item's modifiers is its `pos_item_id` as written, and the id its order_items row got once fixed |
| Legacy.AllLinks | src/dynamic_pricing/database/database_manager.py:209-212 | every link row the loop adds pairs the order with one of those item ids |
| Legacy.Prelude | src/dynamic_pricing/database/database_manager.py:182-195 | the customer, then, when there is a delivery address, one address row and one delivery row pairing the customer with it |
| Legacy.Body | src/dynamic_pricing/database/database_manager.py:175-214 | a `try` block that finishes has committed everything it wrote |
| Legacy.Ingest | src/dynamic_pricing/database/database_manager.py:174-218 | an unreachable database is left as it was |
| Legacy.IngestOutcome | src/dynamic_pricing/database/database_manager.py:174-218 | `insert_order_data` either leaves the database as it was, or commits the order with all its order_items rows; a later modifier failure does not undo them |
| Legacy.IngestDropsUnseenItem | src/dynamic_pricing/database/database_manager.py:119-126 | as written, an order naming an item the items table does not hold is dropped whole: customer, address, order and order_items rows are rolled back |
| Legacy.IngestRecordsOrder | src/dynamic_pricing/database/database_manager.py:174-218 | a well-formed order is recorded with the fixed lookup whatever its items, and as written only when every item is already stored; afterwards every payload item has a row |
| Legacy.OrderReplayDuplicates | src/dynamic_pricing/database/database_manager.py:81-96 | ingesting the same order twice records it twice: nothing looks for an existing `deliveroo_order_id` |
| Legacy.IngestLinksMissItems | src/dynamic_pricing/database/database_manager.py:209-212 | as written, no link row added for the order shares an item id with any of the order's order_items rows |
| Legacy.IngestLinksMatchItems | src/dynamic_pricing/database/database_manager.py:209-212 | fixed, every link row added for the order pairs with one of the order's order_items rows |
| LegacyManager.Scan | src/dynamic_pricing/database/database_manager.py:51-58 | the scan loop returns the first row whose key matches, `FirstMatch` |
| LegacyManager.DatabaseManager.constructor | src/dynamic_pricing/database/database_manager.py:9-12 | a manager with no connection over the committed database |
| LegacyManager.DatabaseManager.Connect | src/dynamic_pricing/database/database_manager.py:14-19 | a reachable database gives a connection seeing what is committed; otherwise the manager is unchanged |
| LegacyManager.DatabaseManager.Commit | src/dynamic_pricing/database/database_manager.py:21-23 | the state afterwards is `Committed` of the state before |
| LegacyManager.DatabaseManager.Rollback | src/dynamic_pricing/database/database_manager.py:25-27 | the state afterwards is `RolledBack` of the state before |
| LegacyManager.DatabaseManager.CloseConnection | src/dynamic_pricing/database/database_manager.py:29-31 | the connection is gone and what was not committed is lost |
| LegacyManager.DatabaseManager.GetCustomerIdByContactNumber | src/dynamic_pricing/database/database_manager.py:51-58 | returns `CustomerIdByContact` and changes nothing |
| LegacyManager.DatabaseManager.InsertCustomer | src/dynamic_pricing/database/database_manager.py:33-49 | state and result are those of `CustomerStep` |
| LegacyManager.DatabaseManager.InsertAddress | src/dynamic_pricing/database/database_manager.py:60-71 | state and result are those of `AddressStep` |
| LegacyManager.DatabaseManager.InsertDeliveryAddress | src/dynamic_pricing/database/database_manager.py:73-79 | the state is `DeliveryStep` of the state before |
| LegacyManager.DatabaseManager.InsertOrder | src/dynamic_pricing/database/database_manager.py:81-96 | state and result are those of `OrderStep` |
| LegacyManager.DatabaseManager.ItemExists | src/dynamic_pricing/database/database_manager.py:98-105 | returns `ItemLookup` as written, raising on an unseen id, and changes nothing |
| LegacyManager.DatabaseManager.InsertItem | src/dynamic_pricing/database/database_manager.py:107-114 | state and result are those of `ItemStep` |
| LegacyManager.DatabaseManager.InsertOrderItem | src/dynamic_pricing/database/database_manager.py:120-133 | state and result are those of `OrderItemStep` |
| LegacyManager.DatabaseManager.InsertOrderItems | src/dynamic_pricing/database/database_manager.py:116-133 | state and result are those of `OrderItemsStep`, the `with` block over `ItemsLoop` |
| LegacyManager.DatabaseManager.ModifierExists | src/dynamic_pricing/database/database_manager.py:135-142 | returns `ModifierLookup` as written and changes nothing |
| LegacyManager.DatabaseManager.InsertModifier | src/dynamic_pricing/database/database_manager.py:144-151 | state and result are those of `ModifierStep` |
| LegacyManager.DatabaseManager.InsertOrderItemModifier | src/dynamic_pricing/database/database_manager.py:157-171 | state and result are those of `LinkStep` |
| LegacyManager.DatabaseManager.InsertOrderItemModifiers | src/dynamic_pricing/database/database_manager.py:153-171 | state and result are those of `LinksStep` |
| LegacyManager.InsertOrderData | src/dynamic_pricing/database/database_manager.py:174-218 | the database afterwards is what `Legacy.Ingest` says, so `IngestOutcome` and the findings hold of it |
| Analytics.SecondOfDay | src/dynamic_pricing/analysis/metrics.py:316 | the time of day of a timestamp is below 86400 seconds |
| Analytics.DayOfWeek | src/dynamic_pricing/analysis/metrics.py:20-21 | `dt.dayofweek` is between 0 and 6 |
| Analytics.MinuteOfDay | src/dynamic_pricing/analysis/metrics.py:53-54 | `hour * 60 + minute` is below 1440 |
| Analytics.Weekdays | src/dynamic_pricing/analysis/metrics.py:20 | every row kept has a timestamp on a day of the week below 5 |
| Analytics.Weekend | src/dynamic_pricing/analysis/metrics.py:21 | every row kept has a timestamp on a day of the week of 5 or more |
| Analytics.SplitWeekdaysAndWeekends | src/dynamic_pricing/analysis/metrics.py:18-22 | the pair of the two filters |
| Analytics.SplitPartition | src/dynamic_pricing/analysis/metrics.py:18-22 | every dated row lands in exactly one part, and a row without a timestamp in neither |
| Analytics.SplitKeepsOrder | src/dynamic_pricing/analysis/metrics.py:18-22 | boolean indexing keeps row order: each part of a concatenation of frames is the concatenation of the parts |
| Analytics.WeekdaysAppend | src/dynamic_pricing/analysis/metrics.py:20 | the weekday filter of `a + b` is the weekday rows of `a` followed by those of `b` |
| Analytics.WeekendAppend | src/dynamic_pricing/analysis/metrics.py:21 | the same for the weekend filter |
| Analytics.CalculateRevenue | src/dynamic_pricing/analysis/metrics.py:25-45 | one row per input row: the selected columns with NaN and NaT as 0 (a missing placement time becomes instant 0), the row's `order_value`, and as `revenue` the total of its whole order |
| Analytics.OrderTotalAppend | src/dynamic_pricing/analysis/metrics.py:42-44 | order totals add up over any split of the rows |
| Analytics.RevenueCoversRow | src/dynamic_pricing/analysis/metrics.py:38-44 | with no negative price or quantity, an order's revenue is at least each of its rows' value, and equals it when the row is the order's only one |
| Analytics.FloorDiv | src/dynamic_pricing/analysis/metrics.py:55 | Python's `//`: the floor of the quotient, for either sign of the divisor |
| Analytics.IntervalIndex | src/dynamic_pricing/analysis/metrics.py:52-55 | for a positive interval, the index is the interval holding the minute of the day, between 0 and 1439 // interval |
| Analytics.IndexBounds | src/dynamic_pricing/analysis/metrics.py:52-55 | the index for a positive interval lies between 0 and 1439 // interval |
| Analytics.FindBin | src/dynamic_pricing/analysis/metrics.py:315-319 | `pd.cut`: a bin it gives holds the time; when it gives none, no bin does |
| Analytics.BinUnique | src/dynamic_pricing/analysis/metrics.py:315-319 | bins of strictly increasing edges do not overlap |
| Analytics.RowBinExact | src/dynamic_pricing/analysis/metrics.py:315-319 | the bin a row is given is the one bin holding its time |
| Analytics.FindBinCovers | src/dynamic_pricing/analysis/metrics.py:315-319 | the bins together cover exactly `(b[0], b[n-1]]`, or `[b[0], b[n-1])` when left-closed with `include_lowest`, which also puts `b[0]` in the first bin when the two edges are equal |
| Analytics.TimeText | src/dynamic_pricing/analysis/metrics.py:311-314 | `str(time)` of a whole-second time is eight characters |
| Analytics.TimeTextRoundTrip | src/dynamic_pricing/analysis/metrics.py:311-314 | reading the `HH:MM:SS` text back gives the time of day |
| Analytics.IntervalLabels | src/dynamic_pricing/analysis/metrics.py:311-314 | `n` edges give `n - 1` labels, label k naming edges k and k+1 |
| Analytics.LabelsDistinct | src/dynamic_pricing/analysis/metrics.py:311-318 | increasing edges give distinct labels, which `pd.cut` needs of its `labels` |
| Analytics.RawValue | src/dynamic_pricing/analysis/metrics.py:307-310 | `order_value` before `fillna` is NaN iff one of its four columns is, and otherwise the row's value |
| Analytics.RawProfit | src/dynamic_pricing/analysis/metrics.py:335-337 | `profit` is NaN iff the value or the cost is, and otherwise the value less the cost, once per row |
| Analytics.ObservedFrom | src/dynamic_pricing/analysis/metrics.py:320 | `observed=True` keeps bins in increasing order |
| Analytics.ObservedExact | src/dynamic_pricing/analysis/metrics.py:320 | a bin is kept iff some row falls in it |
| Analytics.UnobservedSumsZero | src/dynamic_pricing/analysis/metrics.py:320 | a bin no row falls in sums to 0, so leaving it out loses no money |
| Analytics.BinsTotalIsBinnedTotal | src/dynamic_pricing/analysis/metrics.py:315-320 | the per-bin sums account for every binned row with a value exactly once |
| Analytics.UnmodifiedItemDropped | src/dynamic_pricing/analysis/metrics.py:307-320 | as written, a row with NULL modifier columns adds nothing to its day period's revenue |
| Analytics.FilledRevenueCountsEveryRow | src/dynamic_pricing/analysis/metrics.py:37-41 | with NULL read as 0, as `calculate_revenue` does, the per-bin revenue adds up to the value of every binned row |
| Analytics.FilledAgreesOnCompleteRows | src/dynamic_pricing/analysis/metrics.py:307-310 | where no column is NULL the two readings agree |
| Analytics.DayPeriodSums | src/dynamic_pricing/analysis/metrics.py:315-320 | `pd.cut` raises iff the edges are neither strictly increasing times of day nor exactly two equal ones |
| Analytics.DayPeriodEntries | src/dynamic_pricing/analysis/metrics.py:315-320 | each entry is the label and the sum of one bin some row falls in, in bin order |
| Analytics.DayPeriodComplete | src/dynamic_pricing/analysis/metrics.py:315-320 | every bin some row falls in has an entry |
| Analytics.EqualEdgesSums | src/dynamic_pricing/analysis/metrics.py:315-320 | two equal edges `[t, t]` are accepted, and revenue and profit by day period are then empty: the one bin `(t, t]` holds no time |
| Analytics.EqualEdgesCount | src/dynamic_pricing/analysis/metrics.py:371-375 | with `include_lowest`, the one bin of `[t, t]` holds exactly the rows placed at `t` |
| Analytics.EqualEdgesOrders | src/dynamic_pricing/analysis/metrics.py:350-378 | orders by day period over `[t, t]` give one entry, its label with the number of rows placed at `t` |
| Analytics.RevenueByDayPeriod | src/dynamic_pricing/analysis/metrics.py:299-320 | `calculate_revenue_by_day_period` raises iff `pd.cut` refuses the edges |
| Analytics.ProfitByDayPeriod | src/dynamic_pricing/analysis/metrics.py:323-347 | the same for `calculate_profit_by_day_period` |
| Analytics.UtilsRevenueByDayPeriod | src/dynamic_pricing/analysis/utils.py:357-377 | the older copy refuses a missing `time_intervals` with `ValueError`, and otherwise agrees with the metrics version |
| Analytics.UtilsProfitByDayPeriod | src/dynamic_pricing/analysis/utils.py:380-402 | the same for profit |
| Analytics.OrdersByDayPeriod | src/dynamic_pricing/analysis/metrics.py:350-378 | raises iff `pd.cut` refuses the edges; otherwise one entry per bin, empty bins included, each label with the number of rows in its left-closed bin |
| Analytics.Earliest | src/dynamic_pricing/analysis/metrics.py:387 | `min()`: a placement time no later than any other |
| Analytics.Latest | src/dynamic_pricing/analysis/metrics.py:388 | `max()`: a placement time no earlier than any other |
| Analytics.SpanOf | src/dynamic_pricing/analysis/metrics.py:387-391 | none iff no row has a placement time; otherwise start before end, and the window count is whole days // 21 |
| Analytics.SpanBounds | src/dynamic_pricing/analysis/metrics.py:387-388 | every placement time lies between the span's ends |
| Analytics.WindowRows | src/dynamic_pricing/analysis/metrics.py:397-400 | a row is in a window iff its placement time is in the window's range |
| Analytics.OrderDaysExact | src/dynamic_pricing/analysis/metrics.py:401 | a day is counted iff some row of the window was placed on it |
| Analytics.LastWindowReachesEnd | src/dynamic_pricing/analysis/metrics.py:392-396 | window p starts 21 days after window p - 1, and the last one ends at the latest placement time |
| Analytics.WindowsMissEnd | src/dynamic_pricing/analysis/metrics.py:395-400 | as written, a row placed before the latest time is in exactly its window, and a row placed at the latest time is in none |
| Analytics.WindowsCover | src/dynamic_pricing/analysis/metrics.py:395-400 | with the last window closed, every row with a placement time is in exactly one window |
| Analytics.PeriodProfit | src/dynamic_pricing/analysis/metrics.py:405-407 | fails iff the edges are missing or refused, with `TypeError` in metrics and `ValueError` in utils for missing edges |
| Analytics.Windows | src/dynamic_pricing/analysis/metrics.py:392-400 | there are `total_days // 21 + 1` windows |
| Analytics.WindowsAt | src/dynamic_pricing/analysis/metrics.py:395-401 | window p holds the rows placed in its span, and the number of days they were placed on |
| Analytics.QualifyingFrom | src/dynamic_pricing/analysis/metrics.py:401-404 | windows are listed in increasing order, and each has at least five order days |
| Analytics.QualifyingExact | src/dynamic_pricing/analysis/metrics.py:401-404 | a window is listed iff it has at least five order days |
| Analytics.PeriodsFromFails | src/dynamic_pricing/analysis/metrics.py:392-414 | the loop fails iff some window qualifies and the edges are missing or refused, with that error; with no qualifying window the result is empty |
| Analytics.PeriodsFromResults | src/dynamic_pricing/analysis/metrics.py:392-414 | with accepted edges the loop succeeds, and its results are those of the qualifying windows, in order |
| Analytics.ProfitsOverPeriodsOutcome | src/dynamic_pricing/analysis/metrics.py:381-423 | one result per window with at least five order days, in order, numbered from 1 and carrying its own profit per day period; an error iff such a window exists and the edges are missing or refused |
| Analytics.ProfitsOverPeriods | src/dynamic_pricing/analysis/metrics.py:381-423 | a frame without any placement time fails with `TypeError` |
| Analytics.Categorize | src/dynamic_pricing/analysis/metrics.py:441-460 | Star and Puzzle only when profitability reaches its threshold, Star and Cash Cow only when popularity does |
| Analytics.CategorizeQuadrants | src/dynamic_pricing/analysis/metrics.py:441-460 | with every number defined, Star, Puzzle, Cash Cow and Dud are the four quadrants of popularity and profitability against their thresholds |
| Analytics.CategorizeUndefined | src/dynamic_pricing/analysis/metrics.py:441-460 | a NaN anywhere makes every comparison false, so the item is a Dud |
| Frames.IntervalCells | src/dynamic_pricing/analysis/metrics.py:53-55 | the `interval_index` column: NaN for NaT or an interval of 0, otherwise `IntervalIndex` |
| Frames.ValueCells | src/dynamic_pricing/analysis/metrics.py:307-310 | the `order_value` column is `RawValue` of each row |
| Frames.ProfitCells | src/dynamic_pricing/analysis/metrics.py:335-337 | the `profit` column is `RawProfit` of each row |
| Frames.LabelCells | src/dynamic_pricing/analysis/metrics.py:315-319 | the `interval_label` column: a row's bin label, NaN outside every bin |
| Frames.LabelExact | src/dynamic_pricing/analysis/metrics.py:315-319 | with valid edges a row is labelled with bin k iff its time is in bin k |
| Frames.InsertByPlaced | src/dynamic_pricing/analysis/metrics.py:386 | one step of the sort: the result is sorted by placement time and is the input plus the row |
| Frames.WalkStep | src/dynamic_pricing/analysis/metrics.py:397-414 | what window p adds: nothing below five order days, else its error or its numbered sums |
| Frames.WalkPeriods | src/dynamic_pricing/analysis/metrics.py:392-418 | the `for period` loop over windows 0 to `total_days // 21` returns what `Analytics.PeriodsFrom` specifies from window 0 |
| Frames.Frame.AddIntervalIndex | src/dynamic_pricing/analysis/metrics.py:52-55 | adds the `interval_index` column in place and keeps every sale |
| Frames.Frame.RevenueByDayPeriod | src/dynamic_pricing/analysis/metrics.py:299-320 | returns `Analytics.RevenueByDayPeriod` of the frame; writes `order_value`, then `interval_label` when `pd.cut` takes the edges |
| Frames.Frame.ProfitByDayPeriod | src/dynamic_pricing/analysis/metrics.py:323-347 | returns `Analytics.ProfitByDayPeriod`; writes `order_value` and `profit`, then `interval_label` |
| Frames.Frame.UtilsRevenueByDayPeriod | src/dynamic_pricing/analysis/utils.py:357-377 | returns the utils result; a missing `time_intervals` is refused before anything is written |
| Frames.Frame.UtilsProfitByDayPeriod | src/dynamic_pricing/analysis/utils.py:380-402 | the same for profit |
| Frames.Frame.OrdersByDayPeriod | src/dynamic_pricing/analysis/metrics.py:350-378 | returns `Analytics.OrdersByDayPeriod` and writes the left-closed `interval_label` |
| Frames.Frame.SortByPlaced | src/dynamic_pricing/analysis/metrics.py:386 | the frame afterwards is sorted by placement time and is a permutation of the frame before |
| Frames.Frame.ProfitsOverPeriods | src/dynamic_pricing/analysis/metrics.py:381-423 | sorts the frame in place, then returns `Analytics.ProfitsOverPeriods` of its rows |
| Webhook.ApiUrl | src/dynamic_pricing/webhook/app.py:23-26 | the environment's base URL, a '/', then the order id, and nothing else |
| Webhook.SyncUrl | src/dynamic_pricing/webhook/app.py:58 | the API URL of the order followed by `/sync_status` |
| Webhook.AuthUrl | src/dynamic_pricing/webhook/app.py:29-32 | the production auth URL iff `prod`, the sandbox one iff not |
| Webhook.ApiUrlEnvironment | src/dynamic_pricing/webhook/app.py:23-26 | the URL's twelfth character is '.' in production and '-' in the sandbox |
| Webhook.ApiUrlInjective | src/dynamic_pricing/webhook/app.py:23-26 | two API URLs are equal iff their environments and their order ids are |
| Webhook.SyncUrlInjective | src/dynamic_pricing/webhook/app.py:58 | the same for the sync URL |
| Webhook.Decide | src/dynamic_pricing/webhook/app.py:104-147 | a rejected order gets 200 "Order rejected successfully"; an item without a POS id gets 400 with the failure body; otherwise 200 "Order canceled successfully" or "Order received successfully" |
| Webhook.DecideLogs | src/dynamic_pricing/webhook/app.py:107-110 | the notification is logged iff not in production, and as the first call |
| Webhook.DecideSyncs | src/dynamic_pricing/webhook/app.py:117-135 | the status is synced, as "succeeded" at the clock's reading, iff the order is not rejected, every item has a POS id and the event is a status update |
| Webhook.DecideInserts | src/dynamic_pricing/webhook/app.py:117-147 | the order is stored under the restaurant's name by the webhook path, as the last call, iff it is neither rejected, refused nor canceled |
| Webhook.HandleWebhook | src/dynamic_pricing/webhook/app.py:104-147 | the endpoint's checks and item loop reach the decision `Decide` states |
| Webhook.Perform | src/dynamic_pricing/webhook/app.py:134-147 | making the calls ends with the starting status or with 500 |
| Webhook.Serve | src/dynamic_pricing/webhook/app.py:104-147 | one request end to end: the client sees the status the decision chose, or 500 |
| Webhook.ServeLeavesStore | src/dynamic_pricing/webhook/app.py:117-138 | a rejected, refused or canceled order leaves the store as it was; the status is 500 iff a sync was made and failed |
| Webhook.ServeStores | src/dynamic_pricing/webhook/app.py:134-147 | an order that reaches the insert is stored exactly as the normaliser's webhook path stores it; the client sees 200 iff that insert returned, and a failed sync stops the request first with 500 |

## Left out

- SQL text, engine and connection setup (`get_db_connection`, `create_engine`, `DB_URL`), and the DDL of `db_init.py`/`init_database.py`. The schema is a parameter, reduced to column names and serial columns. Foreign keys, types and `NOT NULL` are not checked.
- Quoting and SQL injection through `f"... '{partner_name}'"` and the f-string table names are not modelled. Names are compared as values.
- Concurrency and transaction isolation are not modelled. The core engine's writes are visible at once; commit timing on the SQLAlchemy connection is not modelled.
- Row order of `fetchone()`/`.scalar()` without `ORDER BY` is not modelled. `Ingestion.PartnerId` only promises some matching row, and the replay proof fixes the lowest id.
- PostgreSQL sequences burn values on conflicts and on staging inserts. The model draws an id only for a row actually inserted.
- Use of a `DatabaseManager` after `close_connection` (psycopg2 raises `InterfaceError`) is not modelled. Closing is "no connection".
- The `print` calls and `app.logger` content are left out: the log line is an effect with no content checked.
- HTTP and OAuth are not modelled: `get_bearer_token`, `sync_status`, `update_order_status`, the Flask routing and `request.get_json()`. The sync outcome is a parameter. A `KeyError` on a notification that lacks a key is not modelled; notifications are well-typed values.
- Payloads are well-typed values on every path (webhook, historical and legacy), except for `prepare_for`, `start_preparing_at`, `customer` and `location_id`, which are `Option`s. In the source, the item loop reads `pos_item_id`, `name` and `operational_name` of each item and modifier (core/order_manager.py:73-75, 88-90), `quantity` and `total_price.fractional` (105-106, 122-123) and `modifiers` (167). A missing one raises `KeyError` after the order row, and any earlier items, have been written. The model has no such payload.
- OrderErrorsBeforeWrites: holds only for payloads whose items and modifiers carry every key the item loop reads; a `KeyError` inside the loop comes after writes and is not modelled.
- HistoricalErrorsBeforeWrites: the same restriction; on the historical path an item or modifier missing a key raises after the order row has been written, which the model does not capture.
- The clock (`datetime.now()` in the webhook) is a parameter.
- Webhook.ApiUrl: takes the order id as a string. `str()` of a non-string id inside the f-string is not modelled.
- Floating point is not modelled. Money stays in integer minor units, and the `/ 100` is left out.
- The mean, median, standard deviation and quantile statistics of `metrics.py` are left out, as is `plotting.py`. The menu-matrix thresholds (`quantile(0.5)`) are parameters of `Analytics.Categorize`.
- pandas error messages are left out: a refused `pd.cut` is one error, `BadBins`. Parsing of the interval edge strings is left out; edges are times of day.
- An `interval_index` of ±infinity or NaN is one missing value, `None`.
- The `Period` column appended to each window's result is carried as the window number, not as a column.
- The `__main__` blocks are left out.
- Frames.Frame.SortByPlaced: states sorted and a permutation, not the stability of pandas' sort (which the default quicksort does not promise either).
- `analysis/utils.py` calls `df[order_timestamp].dt.time` without the `pd.to_datetime` conversion of `metrics.py`. The model assumes the column already holds timestamps.
- `DateTimes.ParseDateTime` reads ASCII digits only, where CPython's `\d` accepts any Unicode digit.
- Legacy.IsoTimestamp: reads only the `YYYY-MM-DDTHH:MM:SSZ` form with two-digit fields, which is what the payload sends. The model refuses the other forms `fromisoformat` accepts: no seconds, fractional seconds, a numeric offset, a space as separator.
- Legacy.OrderItemRows, Legacy.ItemsLoop and Legacy.IngestRecordsOrder describe a database without key constraints on the link tables. `init_database.py` declares `order_items.order_id` and `order_item_modifiers.order_id` (lines 98-116), and `delivery_addresses.customer_id` (line 66), as `SERIAL UNIQUE PRIMARY KEY`. On that schema the second order_items row of an order raises a unique violation and the whole order rolls back; so does a second delivery address for a customer. The model has no such constraints.
- Replay.ReplayIsNoOp: proved for the merging engine of db/order_manager.py. Over core's engine the link tables are never written; idempotence of that revision is not proved.
- The store invariants of `IngestionStore` and the referential completeness of `IngestionRefs` are proved for every engine that writes what it is given (`SafeEngine`). Core's engine is not one, since its link calls write nothing; `CoreRevision` states what it does instead.
- Analytics.CalculateRevenue: a missing placement time is filled as instant 0 (1970-01-01 00:00). Depending on the pandas version and the column's dtype, pandas may instead store the integer 0 in an object column. The model does not tell the two apart.

## Findings

| source | as written | input that shows it | evidently intended | confidence | as-written member | corrected member |
|---|---|---|---|---|---|---|
| src/dynamic_pricing/database/database_manager.py:98-105 | `item_exists` returns `cur.fetchone()[0]`, which raises `TypeError` when no item has the id, so `insert_item` is never reached and the whole `with` block rolls back | an order whose item's `pos_item_id` is not yet in `items` | return `None` for no row, as `get_customer_id_by_contact_number` does, so the item is created | not executed | Legacy.IngestDropsUnseenItem | Legacy.IngestRecordsOrder |
| src/dynamic_pricing/database/database_manager.py:209-212 | the modifiers of each item are linked with `item["pos_item_id"]`, the platform's string id, not the serial `item_id` its order_items row got | any order with a modified item: no link row added for the order shares an item id with any of the order's order_items rows | pass the item id the order_items row was written with | not executed | Legacy.IngestLinksMissItems | Legacy.IngestLinksMatchItems |
| src/dynamic_pricing/analysis/metrics.py:307-320 | `order_value` is computed without `fillna`, so a row of an item ordered without modifiers (modifier columns NULL from the outer join) is NaN and `sum()` skips it | an order of one item with no modifiers, placed inside a day period: its period's revenue is 0 | read NULL as 0, as `calculate_revenue` does at lines 37-41 | not executed | Analytics.UnmodifiedItemDropped | Analytics.FilledRevenueCountsEveryRow |
| src/dynamic_pricing/analysis/metrics.py:395-400 | every window is right-open and the last one ends at `end_date`, so the rows placed at the latest timestamp are in no window | rows placed at exactly `df[ORDER_TIMESTAMP].max()` | close the last window so every placement time falls in exactly one window | not executed | Analytics.WindowsMissEnd | Analytics.WindowsCover |
| src/dynamic_pricing/core/db_utils.py:101-106 | the merge runs only when `returning_col` is given, and `insert_order_item` and `insert_order_item_modifier` (core/order_manager.py:97-130) give none, so their statement is built and never executed | any webhook order with an item: after `insert_order_data` returns, order_items and order_item_modifiers are as they were | always execute the merge, as db/db_utils.py:117-122 does | not executed | CoreRevision.CoreIngestSkipsLinks | CoreRevision.MergingWritesLinks |
