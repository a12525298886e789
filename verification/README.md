# A verified model of the pgsink replication protocol

A sink follows a SQLite database that the Apiary daemon keeps writing, and upserts what it
reads into PostgreSQL. It keeps one durable watermark per table. This project models the
pipeline that does so (`internal/pipeline`), the SQL it writes (`internal/source/sqlite`),
the watermark text, the follow loop, the injected columns and the plan, and proves what they
keep. For a table followed by a cursor, no interleaving of daemon writes, page reads, row
writes, watermark writes and stops loses a row, except in the cases named under "Where the code
and its comments part". A follow_parent or snapshot table has no cursor and is read whole: there
an accepted row that nobody writes during a pass has landed by its end, whatever else the daemon
writes meanwhile.

`dafny verify dfyconfig.toml` checks everything.

## How the model is laid out

- `Replication` is one table as a transition system. A state holds the source rows, the
  target rows, the quarantine, the watermark and the volatile pass; an event is a daemon
  write, a read of the maximum, of the open keys or of a page, the landing or refusal of one
  row, the end of a page, the end of a pass, or a stop. A cursor is an integer, or an instant
  in milliseconds, or absent when it is NULL or does not parse. `high` is history: the
  highest cursor any accepted row has carried.
- `Safety` has the invariants and the loss-freedom theorems, `Delivery` how often a row is
  delivered and, for tables of any class, that it lands; `Selection` which rows each class reads,
  and no others; `Quiet` and `Convergence` what a pass over a quiet source does; `Limits` where the protocol stops being safe, exactly, and
  `Witnesses` short runs in which it does. `Ordered` says what `ORDER BY rowid LIMIT n` and
  `MAX` mean.
- `Runner` is the pipeline in its own form: a class whose methods are the loops of
  `syncTable` and `backfillTable` over stores that the daemon writes between statements and
  faults interrupt. Every method keeps a log of events, and the class invariant says the log
  is a legal run of `Replication` that ends in the present state; `Journal` turns that into
  the invariants, and `Passes` is the loop over the tables of a plan. `Instances` puts several
  sinks on one target.
- `Sql` and `Grammar` are the fragment of SQL the read layer writes: words, precedence,
  positional parameters and three-valued truth (sections 8.2, 8.4, 8.6 and 8.12 of
  ISO/IEC 9075:1992). `Filters` gives a filter its intended meaning; `Read` compiles filters
  and selectors to text and proves that the text means it; `Bridge` proves that the text picks
  the rows the replication model reads. `Chunking` cuts the rescan's keys.
- `Timestamps` is the civil calendar, `Watermarks` the fixed-width UTC text (section 5.1 of
  RFC 3339) and the overlap window.
- `Follow` is the loop, its timer, its capacity-one channel and its backoff.
- `Templates` and `Enrich` are the injected columns; `Plan` is the catalog's obligations, the
  merge of defaults and settings, and the check against a live schema.

## What is assumed of the daemon

One predicate, `Replication.Permitted`, says what each class promises; nothing else is assumed.

- append_only: rows are not updated, and each new accepted cursor exceeds every accepted one
  before it. Rows may be deleted.
- mutable: every write that leaves a row accepted stamps a cursor no lower than the highest
  accepted cursor so far less the overlap window.
- open_row: a row keeps its key, is frozen once its state is terminal, keeps its cursor once
  it has one, and an update does not turn a rejected row into an accepted one unless the same
  write first stamps it. A row without a cursor may be stamped later, above every accepted
  cursor.
- every class: row identifiers are positive, row identifiers and keys are unique.
- the target answers as `internal/target` is written: upsert by instance and key, a batch in
  one transaction and otherwise row by row with refused rows filed, open keys and watermarks
  filtered by instance. The state column of an open_row table is among the columns written.

## Where the code and its comments part

The model follows the code. Where a promise is not kept in full, the condition under which it
is kept is proved exactly, both ways.

- An interrupted backfill (`internal/pipeline/backfill.go:129-134`) does not resume: the full
  maximum read before the scan is stored after the first page, and later passes do not go
  behind it. Over a quiet source it is safe just when it stored no watermark, or every
  followed row it had not delivered is accounted for at the maximum it stored
  (`Limits.InterruptedBackfillIsSafeIff`, `Limits.InterruptedUnderWritesIsSafeIff`, with a
  two-row witness). A completed backfill, or another one after an interrupted one, is safe.
- append_only and open_row advance with a strict comparison on cursors that are cut to the
  millisecond when they are times (`internal/source/sqlite/cursor.go:68-77`,
  `internal/pipeline/sync.go:190-193`), as the catalog has them for six tables
  (`internal/catalog/tables.yaml:91-233`). Of two rows in one millisecond, one on each side of
  the read of the maximum, the second can be lost, whether it is inserted or, like a step run,
  has its NULL cursor stamped. It is safe just when its cursor is past the stored watermark
  and, while a pass scans, also past the maximum the pass read, unless the scan has still to
  reach the row (`Limits.LateStampIsSafeIff`). In time it keeps the whole invariant
  (`Limits.InTimeKeepsInv`); too late for a pass with nothing left to read, a row new to the
  target never arrives (`Limits.LostWithThePass`, `Witnesses.TiedCursorLosesARow`,
  `Witnesses.TiedCursorMidPass`). Hence the strict stamps assumed above. mutable tables compare inclusively for this reason,
  and for them the bound is the lower end of the overlap window (`Limits.LowStampIsSafeIff`).
- Filtering the maximum (`internal/source/sqlite/cursor.go:37-42`) does not fully protect a
  row that a filter first rejects and later accepts: under the same condition it is safe, and
  otherwise no longer accounted for (`Limits.LateAcceptanceIsSafeIff`, `Witnesses.LateAcceptanceLosesARow`,
  `Witnesses.LateAcceptanceMidPass`). Hence the open_row assumption above.
- An open_row table with a composite key is not rescanned at all
  (`internal/pipeline/sync.go:158-160`, `Limits.CompositeKeysAreNotRescanned`,
  `Witnesses.CompositeKeyStaysOpen`).
- `NOT IN` over a list that holds a NULL selects only rows whose column is NULL, and
  validation lets such a list through (`Read.FilterMeansWhatItSaysIff`).
- The identifier check (`internal/config/config.go:288-307`) admits words SQLite reserves
  wherever an expression may begin (order, select, group, …), the three that read its clock,
  and `with`, which starts a query after the parenthesis of a filter that admits NULL. A filter
  on such a column does not read back as the filter; on any other, LIKE and the rest of
  SQLite's keywords included, it does (`Read.FilterReadsBackIff`).
- A second pass over a quiet source re-reads the whole table when the first found a watermark
  and, the source having lost every accepted row with a cursor, left none
  (`Convergence.SecondPassChangesNothing`, `Witnesses.SecondPassChangesTheTarget`).
- An unclosed placeholder is refused only when no placeholder comes before it
  (`Templates.UnclosedCaughtIff`); the rest of the text is then written to every row.
- `Check` does not compare row references with the projection, so a template it accepts can
  fail on every row (`Plan.CheckedExtrasEvaluateIff`).
- A table without a cursor never gets a watermark, so `followParent` always reads the whole
  table (`Safety.CursorlessHasNoMark`).
- `OpenKeys` is documented as most recent first, and a target with more open rows than the
  limit as converging over several passes, but the query has no ORDER BY
  (`internal/target/state.go:61-75`, `internal/target/state.go:90-96`,
  `internal/pipeline/sync.go:144-148`): an open key is sure to be listed just when there are
  no more of them than the limit (`Limits.OpenKeyIsListedIff`).
- With a minimum backoff above the maximum, the first retry waits the minimum and later ones
  the maximum; `Follow.Delay` states both.

## Model

| member | source | states |
|---|---|---|
| Safety.OpenRowLosesNothing | internal/pipeline/sync.go:78-136 | open_row, after any run of writes, pages, passes and stops of Sync: a followed row equals its target copy, or its cursor is past the watermark, or there is no watermark, or the target holds its key with a NULL or non-terminal state, or its key was quarantined |
| Safety.MutableLosesNothing | internal/pipeline/sync.go:195-199 | mutable, after any such run: the current version of a followed row is in the target or in quarantine, or its cursor is at or after the watermark less the overlap, or there is no watermark |
| Safety.AppendOnlyLosesNothing | internal/pipeline/sync.go:190-193 | append_only, after any such run, prunes included: a followed row is in the target or in quarantine, or its cursor is past the watermark, or there is no watermark |
| Safety.StepKeepsInv | internal/pipeline/sync.go:104-136 | every single step except a stop in mid-backfill keeps the phase-indexed invariant, including writes between the read of a page and its rows landing |
| Safety.InvOverRuns | internal/pipeline/sync.go:132-136 | the invariant holds at the end of every run in which each interrupted backfill is followed by another backfill |
| Safety.StepKeepsSound | internal/source/sqlite/cursor.go:43-54 | a watermark, stored or in flight, never exceeds the highest cursor an accepted row has carried, whatever interrupts what |
| Safety.BeginBackfillRestores | internal/pipeline/backfill.go:88-99 | starting a backfill restores the invariant from any state with an honestly read watermark, such as an interrupted backfill leaves |
| Safety.CompletedBackfillRestores | internal/pipeline/backfill.go:88-138 | a backfill completed under concurrent writes ends in a state where every followed row is accounted for, from any such state |
| Safety.CursorlessHasNoMark | internal/pipeline/sync.go:80-88 | a table without a cursor never acquires a watermark in any run, so a follow_parent pass selects the whole table |
| Safety.WriteKeepsInv | internal/pipeline/sync.go:78-80 | a daemon write its class permits keeps every row accounted for, at every point of a pass |
| Safety.ReadPageKeepsInv | internal/pipeline/sync.go:104-112 | reading a page keeps the invariant: what the page leaves out is still owed by the rest of the scan |
| Safety.DeliverKeepsInv | internal/target/write.go:257-292 | landing or filing one row of a page keeps the invariant although the row may be stale by then |
| Safety.FinishKeepsInv | internal/pipeline/sync.go:132-136 | advancing the watermark after the last selector leaves no followed row at or below it that has not landed |
| Delivery.DeliveredExactlyOnce | internal/source/sqlite/read.go:33-80 | a row nobody writes during a selector's scan is delivered exactly once when filters and selector take it, not at all otherwise, wherever other rows come and go around the page cursor |
| Delivery.DeliveredOncePerSelector | internal/pipeline/sync.go:104-136 | over a whole uninterrupted pass or backfill, from any boundary of two selectors, a row nobody writes is delivered once for every selector left that takes it, and a rejected row never |
| Delivery.UnwrittenRowLands | internal/pipeline/sync.go:78-136 | for all five classes: an accepted row that some selector of the pass or backfill takes, and that nobody writes, has landed in its current version by the end, whatever else is written, and stays so through the passes that follow |
| Delivery.CursorlessRowLands | internal/pipeline/sync.go:201-228 | on a follow_parent or snapshot table that is every accepted row nobody writes during the pass |
| Delivery.AppendOnlyDeliversAtMostTwice | internal/pipeline/sync.go:78-84 | over any number of uninterrupted passes an append_only row is delivered at most twice; at most once when it was there before the first; never once the watermark had reached it |
| Delivery.InsertedOutsideDeliversOnce | internal/pipeline/sync.go:78-84 | a row inserted between passes, or in a pass before its maximum is read, is delivered at most once in all, so a second delivery needs an insertion between that read and the end of the pass |
| Selection.PassReadsIff | internal/pipeline/sync.go:187-228 | over a quiet source a pass reads an accepted row if and only if there is no watermark or its class calls for it: append_only past the watermark, mutable at or after it less the overlap, open_row past it or with a listed key, follow_parent when its parent moved since, snapshot always |
| Selection.PassDelivers | internal/pipeline/sync.go:104-130 | whatever else is written during a pass, a row left alone is delivered once when its class calls for it and not at all otherwise; an open_row row both past the watermark and listed, twice |
| Selection.BelowTheWindowIsLeftAlone | internal/pipeline/sync.go:195-199 | a mutable row below the overlap window is not rewritten by a quiet pass |
| Selection.UnreadIsLeftAlone | internal/pipeline/sync.go:104-130 | a row of any class that a quiet pass does not read keeps its target row, or its absence |
| Replication.PageCovers | internal/source/sqlite/read.go:56-79 | a qualifying row is on the page, or the page is full and the row lies past its last row |
| Quiet.PagesAreTheListing | internal/pipeline/backfill.go:108-138 | for any positive batch size the pages, short last page or exact multiple, are exactly the selected rows, each once |
| Quiet.ListingHolds | internal/source/sqlite/read.go:66-79 | that listing is in ascending rowid order, without repeats, as long as the number of selected rows |
| Quiet.ScanDelivers | internal/pipeline/sync.go:104-130 | any stretch of scanning delivers exactly the work it removes, and changes the stores by those deliveries alone |
| Convergence.QuietPassConverges | internal/pipeline/sync.go:104-138 | after a pass with no source write and no more open keys than the limit, every accepted row in reach is in the target or in quarantine in its current version, for all five classes; for open_row apart from keys quarantined before |
| Convergence.QuietPassTouchesOnlySelected | internal/pipeline/sync.go:104-130 | a quiet pass leaves alone every target row whose key belongs to no row its selectors take, accepted rows already settled included |
| Convergence.SecondPassChangesNothing | internal/pipeline/sync.go:187-228 | a second quiet pass leaves the target as it was if and only if the first left a watermark, or found none, or the target already held every row it does not refuse |
| Convergence.BackfillEqualsFirstSync | internal/pipeline/backfill.go:67-142 | from an empty target on a quiet source, a backfill and a first pass deliver the same rows and end with the same target, quarantine and watermark |
| Convergence.SyncPassDelivers | internal/pipeline/sync.go:104-136 | a quiet pass delivers the pages of its selectors, selector after selector, and stores the maximum it read |
| Convergence.JudgedPassIs | internal/pipeline/sync.go:104-136 | a quiet pass whose rows land just when they are not refused leaves exactly those upserted, in order, and exactly the others filed |
| Convergence.JudgedPassHolds | internal/target/write.go:257-292 | after it an accepted row in reach that is not refused is held in its current version and not filed; for open_row apart from keys quarantined before |
| Convergence.FillPassDelivers | internal/pipeline/backfill.go:101-138 | a quiet backfill delivers the pages of the whole table and stores the maximum it read if any page was written |
| Convergence.OpenKeySelected | internal/pipeline/sync.go:163-183 | a row whose key is among the open keys is selected by the pass, whichever chunk the key falls in |
| Limits.InterruptedBackfillIsSafeIff | internal/pipeline/backfill.go:107-134 | a backfill stopped anywhere, inside a page included, over a quiet source and from any state with everything accounted for, leaves it so if and only if it stored no watermark, or every followed row it had not delivered is accounted for at the maximum it stored |
| Limits.InterruptedUnderWritesIsSafeIff | internal/pipeline/backfill.go:107-134 | the same under concurrent writes: it may stop anywhere before it stores a watermark, and afterwards if and only if what the rest of its scan owes is accounted for already |
| Limits.InterruptedBackfillLosesARow | internal/pipeline/backfill.go:129-134 | a two-row table and a batch of one: stopped after its first page, the backfill leaves a row that is not accounted for and that no later run of passes brings to the target |
| Limits.SyncNeverReturns | internal/pipeline/sync.go:266-272 | over any run of append_only or open_row passes and other writes, a followed row at or below the watermark whose key the target does not hold is never delivered, as long as it is not written and no backfill begins |
| Limits.UnseenWriteIsSafeIff | internal/pipeline/sync.go:78-136 | at any moment, and whatever its class promises, a write of a followed version the target has not settled leaves everything accounted for if and only if the stored watermark has not reached it and, while a pass scans, the maximum it read has not either or the scan still owes the row |
| Limits.InTimeKeepsInv | internal/pipeline/sync.go:78-136 | such a write, outside a backfill, when it comes in time and the page in hand has no other version of the row, keeps the whole invariant, and so is kept by every run that follows |
| Limits.LateStampIsSafeIff | internal/source/sqlite/cursor.go:68-77 | an append_only or open_row row inserted, or stamped after a NULL cursor, between passes or at any point of one: safe if and only if its cursor is past the watermark, and during a scan past the maximum read too unless the scan has still to reach it, so that a tie is late |
| Limits.LowStampIsSafeIff | internal/pipeline/sync.go:195-199 | a mutable row stamped too low: safe if and only if its cursor lies within the overlap window of the watermark, and during a scan of the maximum read too unless the scan has still to reach it |
| Limits.LostWithThePass | internal/pipeline/sync.go:132-136 | an append_only or open_row write of a key new to the target, past the watermark but at or below the maximum of a pass that has nothing left to read, is accounted for until the pass ends; then it is not, and no later run of passes delivers it |
| Limits.LateAcceptanceIsSafeIff | internal/source/sqlite/cursor.go:37-42 | an open row that turns from rejected to accepted, between passes or at any point of one: safe if and only if its cursor is past the watermark, and during a scan past the maximum read too unless the scan has still to reach it |
| Limits.OpenKeyIsListedIff | internal/target/state.go:90-96 | what the target lists it holds with a NULL or non-terminal state, and it is bound to list such a key if and only if there are no more open keys than the limit |
| Limits.CompositeKeysAreNotRescanned | internal/pipeline/sync.go:158-160 | with a key of several columns a followed open_row row is read if and only if there is no watermark or its cursor is past it, settled or not |
| Witnesses.LateAcceptanceLosesARow | internal/source/sqlite/cursor.go:37-42 | a run in which a rejected running row settles after a later row was read: it is not accounted for, and never delivered |
| Witnesses.LateAcceptanceMidPass | internal/source/sqlite/cursor.go:37-42 | the same update before the pass ends: accounted for while nothing is stored, lost when the watermark is, and never delivered |
| Witnesses.TiedCursorLosesARow | internal/source/sqlite/cursor.go:68-77 | a run in which a second row ties with the cursor of the watermark: it is not accounted for, and never delivered |
| Witnesses.TiedCursorMidPass | internal/source/sqlite/cursor.go:68-77 | a run in which the tied row is inserted after the page was read: accounted for until the pass ends, then lost, and never delivered |
| Witnesses.CompositeKeyStaysOpen | internal/pipeline/sync.go:158-160 | a run in which a row with a two-column key settles after it was read, and the next pass leaves the target with the running version |
| Witnesses.SecondPassChangesTheTarget | internal/pipeline/sync.go:132-136 | two passes over a quiet source after a prune: the first changes nothing, the second changes the target |
| Witnesses.PrunedIsReached | internal/pipeline/sync.go:132-136 | the state those passes start from is reached from an empty sink by a pass and writes append_only permits |
| Runner.TableRunner.SyncTable | internal/pipeline/sync.go:52-139 | whatever the daemon writes and whichever statement fails, the log stays a legal run; an error or a skip leaves the watermark alone; success means a finished pass whose scan was not interrupted since its selectors were read, with rows and quarantined rows counted; a quiet success is exactly one quiet pass; with no statement failing it succeeds and every row is landed or filed as the target judges it |
| Runner.TableRunner.ReadAndDrain | internal/pipeline/sync.go:78-130 | the maximum is read before the selectors are built, and those before any page; on success every selector has been drained |
| Runner.TableRunner.Drain | internal/pipeline/sync.go:104-130 | one selector's page loop ends under concurrent writes, with the selector drained and the rows delivered counted |
| Runner.TableRunner.SyncPage | internal/pipeline/sync.go:107-129 | a page is read after the last identifier seen, written, and ends the selector when empty or short |
| Runner.TableRunner.SetWatermark | internal/pipeline/sync.go:132-136 | the watermark becomes the maximum read before the pass, only once no selector is left, or stays as it was when the statement fails |
| Runner.TableRunner.MaxCursorValue | internal/source/sqlite/cursor.go:43-54 | what is read is the greatest cursor among the accepted rows at that moment, or nothing when there is none |
| Runner.TableRunner.Batch | internal/source/sqlite/read.go:40-80 | what is read is the first rows, up to the batch size, past the page cursor that filters and selector take at that moment |
| Runner.TableRunner.WriteBatch | internal/target/write.go:94-144 | all the rows of a batch are upserted in order, or none is: it succeeds exactly when its statement does and the target refuses none of the rows |
| Runner.TableRunner.WriteOne | internal/target/write.go:272-290 | a row on its own is upserted exactly when the target does not refuse it and its statement succeeds, and otherwise filed and the target left alone; a cancelled context or a failure to file changes nothing |
| Runner.TableRunner.WriteBatchIsolating | internal/target/write.go:257-292 | with no statement failing the rows of a page the target does not refuse are upserted in order, exactly those it refuses are filed, in order, and their number is returned; whatever fails, on success every row has been delivered, a refused row never lands, and a cancelled context stops it without filing |
| Runner.TableRunner.ListOpenKeys | internal/target/state.go:76-109 | the keys the target holds as unsettled, without repeats, all of them when they are fewer than the limit |
| Runner.TableRunner.RescanOpen | internal/pipeline/sync.go:156-185 | the open keys read now, in chunks, or nothing for a key of several columns |
| Runner.TableRunner.BuildSelectors | internal/pipeline/sync.go:187-252 | the selectors are those of the class, of which `Selection.PassReadsIff` says exactly what they take, given the watermark the pass began with and the open keys read now |
| Runner.TableRunner.BackfillTable | internal/pipeline/backfill.go:67-142 | whatever happens the log stays a legal run; success means a backfill that began after the call and was not interrupted, with its rows counted; a quiet success is exactly one quiet backfill; with no statement failing it succeeds and every row is landed or filed as the target judges it |
| Runner.TableRunner.BackfillPages | internal/pipeline/backfill.go:107-138 | the page loop ends under concurrent writes, having stored no watermark but the one read before the scan |
| Runner.TableRunner.StoreMark | internal/pipeline/backfill.go:129-134 | after a written page the watermark is the one read before the scan, or unchanged when the statement fails |
| Runner.TableRunner.MeasureBackfill | internal/pipeline/backfill.go:86-99 | the maximum is read before the scan begins, and nothing is stored |
| Runner.TableRunner.Statement | internal/pipeline/sync.go:90-100 | between two statements the daemon may write anything its class permits |
| Runner.TableRunner.constructor | internal/pipeline/backfill.go:19-36 | a sink that has replicated nothing yet, over a source and a script of permitted daemon writes |
| Runner.First | internal/source/sqlite/read.go:66-68 | the first n members of a set in ascending order |
| Runner.Greatest | internal/source/sqlite/cursor.go:49-53 | the greatest member, or nothing for no rows |
| Journal.SyncIsSafe | internal/pipeline/sync.go:132-136 | whatever a sync pass does and however it ends, the invariant survives it |
| Journal.BackfillIsSafe | internal/pipeline/backfill.go:55-66 | a log that ends in an uninterrupted backfill proves the invariant from any honest watermark |
| Journal.ScanLands | internal/pipeline/sync.go:78-136 | from the log of a sink over a table of any class: an accepted row that a selector takes when an uninterrupted scan begins, any row at all where there is no cursor, and that nobody writes after it, has landed once the scan is over |
| Journal.ObeyedVerdicts | internal/target/write.go:257-292 | from the point in a sink's log after which no row was filed but for being refused, what is delivered is what the target judges it to be: landed just when it is not refused |
| Journal.ObeyedFilesRightly | internal/target/write.go:270-290 | a sink none of whose rows was filed for another reason has filed only rows the target refuses |
| Passes.Sync | internal/pipeline/sync.go:29-50 | one pass over every table: a table with a cursor keeps its invariant; a table that did not finish keeps its watermark; the report sums the results; success means every table was taken; a finished table, of any class, has read its selectors and drained them without interruption, which is what `Journal.ScanLands` asks for; one nothing interfered with has had a quiet pass, judged throughout as the target judges when no statement failed; with no failing statement and no cancelled context the pass succeeds |
| Passes.TakeTurns | internal/pipeline/sync.go:36-47 | tables are taken in order until one fails or the context is cancelled, and those not finished keep their watermarks |
| Passes.Total | internal/pipeline/sync.go:44-46 | the report's counts are the sums of the table results |
| Passes.TurnConverges | internal/pipeline/sync.go:29-50 | when a table's turn succeeds and its source was quiet, every accepted row in reach has landed |
| Passes.TurnHolds | internal/pipeline/sync.go:29-50 | when moreover no statement failed, the target is what it was with the rows the selectors take and it does not refuse upserted in order, the quarantine what it was and the refused ones in order; a row in reach that is not refused is in the target in its current version and not in quarantine |
| Passes.Backfill | internal/pipeline/backfill.go:55-65 | every table before the failing one has its invariant established from an honest watermark, the failing one keeps an honest watermark, and the tables after it are untouched |
| Passes.BackfillLeaves | internal/pipeline/backfill.go:107-138 | a quiet backfill without a failing statement leaves every accepted row upserted in rowid order, but for the refused ones, which are filed |
| Instances.Isolation | internal/target/state.go:18-38 | in any interleaving of sinks with different instances, each one's rows, quarantine, watermark and pass are what its own events would have made alone, and those events are a run it could have had alone |
| Instances.OwnStep | internal/target/write.go:61-86 | a step of a sink on the shared stores is, in its own view, the step it would take alone |
| Instances.OtherStep | internal/target/state.go:40-63 | and no other sink sees it |
| Instances.SameMoves | internal/target/state.go:90-96 | a sink may take exactly the steps it may take alone, the open-key query included |
| Instances.SafeTogether | internal/pipeline/sync.go:90-92 | so each sink keeps its class's invariant whatever the others do |
| Read.BatchSelects | internal/source/sqlite/read.go:40-59 | the clause and arguments of a page query, parsed with SQL precedence and evaluated in three-valued logic, are true exactly for rows past the page cursor that every filter accepts and every selector takes |
| Read.Batch | internal/source/sqlite/read.go:40-59 | the loop that builds them yields the spelling and the arguments of that conjunction, empty selectors dropped |
| Read.Compile | internal/source/sqlite/read.go:89-118 | the loop over the filters yields the spelling of their conjunction and as many arguments as placeholders, in order |
| Read.CompileList | internal/source/sqlite/read.go:100-111 | one placeholder and one argument a list element |
| Read.FilterMeansWhatItSaysIff | internal/config/filter.go:57-88 | a valid filter whose column SQLite reads as a name is true exactly on the rows the filter means, negative operators and OrNull admitting NULL, if and only if it is not a NOT IN over a list with a NULL |
| Read.FilterReadsBackIff | internal/config/config.go:288-307 | a valid filter's text parses to the filter if and only if its column is not a word SQLite reserves in an expression, nor WITH where a parenthesis opens before it |
| Read.OrderDoesNotReadBack | internal/config/config.go:288-307 | columns called order and, in a filter that admits NULL, with are valid and do not read back; one called like does |
| Read.NotInNullSelectsNothing | internal/config/filter.go:69-78 | NOT IN over a list of one NULL is valid, and false on a row the filter means to keep |
| Read.AdvanceIsAClause | internal/source/sqlite/cursor.go:68-77 | the watermark selector is the spelling of a comparison with the normalised cursor, strict or inclusive |
| Read.WidenSpelling | internal/source/sqlite/read.go:120-138 | admitting NULL is spelled as a parenthesised disjunction, so AND beside it does not split it |
| Chunking.CutPartitions | internal/pipeline/sync.go:167-183 | the chunks are the keys in order, each non-empty and at most 500, all but the last exactly 500 |
| Chunking.CutUp | internal/pipeline/sync.go:163-168 | the loop over the keys yields those chunks, in order |
| Read.RescanOpen | internal/pipeline/sync.go:156-185 | each rescan selector has as many placeholders as arguments and lists exactly its chunk |
| Read.RescanSelectsListedKeys | internal/pipeline/sync.go:178-182 | the rescan selectors together are true exactly on the rows whose key is listed |
| Filters.TextMeansClauses | internal/source/sqlite/read.go:40-59 | a conjunction of clauses joined by AND, read back and evaluated with its parameters bound left to right, is true exactly where every clause holds |
| Filters.EvalFilter | internal/source/sqlite/read.go:89-138 | one filter's expression is true in three-valued logic exactly on the rows the filter means, operator by operator |
| Filters.CheckIdent | internal/config/config.go:290-307 | a name is valid when it has 1 to 63 letters, digits and underscores and does not begin with a digit |
| Bridge.PageQueryFindsCandidates | internal/source/sqlite/read.go:40-68 | on the stored form of a row the clause and arguments of a page query are true exactly when the replication model counts the row among the page's candidates, for the whole table, strict and inclusive watermarks, integer and timestamp, and rescans |
| Bridge.SelectorAgrees | internal/pipeline/sync.go:187-228 | a selector's clause holds on the stored form of a row exactly when the model's selector takes the row |
| Bridge.AdvanceIsWritten | internal/source/sqlite/cursor.go:68-77 | the watermark selector the code writes is the spelling of the model's |
| Bridge.NoMarkIsWritten | internal/source/sqlite/cursor.go:68-77 | an empty watermark, and only that, is written as no predicate, which is the model's whole table |
| Bridge.BackIsTheModels | internal/pipeline/sync.go:274-287 | stepping a watermark's text back is the model's step back, the window rounded up to whole milliseconds |
| Bridge.CutValues | internal/pipeline/sync.go:163-183 | the rescan selectors of the code are those of the model, one for one |
| Grammar.ConjunctionReads | internal/source/sqlite/read.go:113-117 | parts that each parse to a primary parse as a conjunction when joined by AND, parameters numbered left to right |
| Grammar.ConjunctionMeans | internal/source/sqlite/read.go:113-117 | and that conjunction is true exactly where each part is, each on its own arguments |
| Sql.LexSpell | internal/source/sqlite/read.go:89-118 | text whose words are kept apart reads back as the words it was written from |
| Timestamps.DaysFollowDates | internal/source/sqlite/read.go:20-22 | the civil calendar numbers days in order, without gaps or repeats |
| Timestamps.DaysAreCivil | internal/pipeline/sync.go:276-286 | the count of days, month by month, is the closed form of the civil calendar, in years that begin on 1 March |
| Timestamps.ValidDateIff | internal/pipeline/sync.go:280-286 | the valid dates are those whose day is within the month's length by that closed form |
| Timestamps.CivilAnchors | internal/source/sqlite/read.go:20-22 | 400 years are 146097 days, and 1 January 1970 is day 719528 of the count from year 0 |
| Timestamps.DayBeforeFirst | internal/pipeline/sync.go:276-286 | the day before the first of a month is the civil last day of the month before |
| Timestamps.StampOf | internal/source/sqlite/read.go:20-22 | every instant in milliseconds has a valid calendar stamp that denotes it |
| Timestamps.InstantsFollowStamps | internal/source/sqlite/read.go:20-22 | stamps compare field by field as their instants do |
| Watermarks.TextFollowsInstants | internal/source/sqlite/read.go:20-22 | the fixed-width text of two stamps of years 0000 to 9999 compares as their instants do, equality included |
| Watermarks.ParseIff | internal/pipeline/sync.go:280-286 | reading a watermark inverts writing it, and nothing else is read |
| Watermarks.FormatIs | internal/source/sqlite/read.go:20-22 | the layout: four digits of year, two of month and day, two each of hour, minute and second, three of milliseconds, and what stands between them |
| Watermarks.MonthIsReadToItsEnd | internal/pipeline/sync.go:280-286 | every day up to the civil last of its month is read back from its text, and no text is read as a later one |
| Watermarks.NormalisedOrder | internal/source/sqlite/cursor.go:12-29 | normalised cursors compare as the instants they denote, whatever offsets they were written with |
| Watermarks.RawOrdersIff | internal/source/sqlite/cursor.go:14-23 | un-normalised text of two offsets compares as instants if and only if the offsets are the same |
| Watermarks.BackWidens | internal/pipeline/sync.go:274-287 | a well-formed watermark stepped back by a positive window moves strictly down, to the millisecond at or below the exact instant, and then selects exactly the rows at or after that millisecond |
| Watermarks.BackMovesIff | internal/pipeline/sync.go:276-286 | only a readable timestamp watermark moves; an empty, integer or unreadable one is returned unchanged |
| Watermarks.BackOverMonthEnd | internal/pipeline/sync.go:274-287 | a watermark at the first midnight of a month, stepped back by up to a day, is the civil last day of the month before, that much before midnight |
| Watermarks.TextSelectsAsInstants | internal/pipeline/sync.go:195-199 | the text comparison of a mutable pass selects a row if and only if the replication model's comparison of instants does |
| Follow.NoLostWakeup | internal/wake/wake.go:69-82 | in every reachable state of sender and loop an event posted since the last pass began has a token pending or a pass about to start, and a waiting loop can take it |
| Follow.BurstWakesOnce | internal/pipeline/loop.go:59-63 | however many events were posted, with no further one at most one more pass is woken |
| Follow.SeenBeforeSecondRearm | internal/pipeline/loop.go:55-66 | after an event the loop finishes at most the pass it is in before a pass begins that sees it |
| Follow.Follower.Loop | internal/pipeline/loop.go:38-91 | the loop goes on after a success without once and after a failure the handler accepts, and stops exactly at the first wait that ends with the context done or after the first pass that is interrupted, fails and is declined, or succeeds with once; every pass is reported as its outcome calls for, the k-th consecutive failure with its capped delay and the timer set to it; an error is returned just when the handler declines; no wakeup is lost |
| Follow.Follower.After | internal/pipeline/loop.go:67-84 | success resets the backoff, failure reports it and doubles it up to the cap, whatever woke the pass |
| Follow.NextDelay | internal/pipeline/loop.go:77-82 | doubling and capping the delay of the k-th failure gives that of the next, within 64 bits |
| Follow.DelaysGrow | internal/pipeline/loop.go:77-82 | delays never fall and stay at the cap; with the minimum at or below the maximum the k-th is min(min * 2^(k-1), max) |
| Follow.DefaultDelays | internal/pipeline/loop.go:39-46 | with nothing configured the delays are 1, 2, 4, 8, 16, 32 and 64 seconds, then 2 minutes |
| Follow.Follower.Drain | internal/pipeline/loop.go:93-101 | the drain ends with the channel empty and a pass about to start, although sends go on |
| Follow.Follower.Send | internal/wake/wake.go:78-81 | any number of sends leaves one token and never blocks |
| Follow.Follower.Select | internal/pipeline/loop.go:56-66 | the wait ends with the loop stopped just when the context is done, and otherwise with a pass about to start |
| Enrich.PreparedIsDirect | internal/enrich/enrich.go:40-70 | a prepared field gives on every row what expanding and coercing on that row gives, value or error |
| Enrich.EarlyErrorIsDirect | internal/enrich/enrich.go:49-54 | an error met in preparing is the one direct evaluation meets on every row |
| Enrich.PrepareAll | internal/enrich/enrich.go:40-58 | fields are prepared in order, up to the first that cannot be |
| Enrich.ExpandInPlace | internal/enrich/enrich.go:72-103 | a placeholder is replaced where it stands, the text before it kept and the rest expanded alike; expansion fails when either does |
| Enrich.WordsMean | internal/enrich/enrich.go:74-99 | with white space around it or not, each word stands for what it names: the instant of the pass, the table, the instance, an environment variable, empty when unset, or the row's first column of the name, an error when there is none |
| Enrich.OneWordColumn | internal/enrich/enrich.go:118-129 | literal text around a placeholder is held as the whole text; a declared timestamptz holds its instant, or that of the pass when the text has none |
| Enrich.InferredTypeIff | internal/config/extra.go:105-113 | a column without a declared type is a timestamptz if and only if its template is the bare placeholder for now, white space aside, and otherwise text |
| Enrich.NowIsThePass | internal/enrich/enrich.go:118-129 | a timestamptz column whose template is the placeholder for now holds the instant of the pass on every row |
| Enrich.ValidatedFailsIff | internal/enrich/enrich.go:72-103 | a validated template fails on a row if and only if it references a column the row lacks |
| Enrich.TailIsVerbatim | internal/enrich/enrich.go:72-103 | what follows the last placeholder is written to every row as it stands |
| Enrich.BuildExtras | internal/pipeline/backfill.go:144-161 | the injected values of a page are, row by row and field by field, those of direct evaluation, or the error of one that fails |
| Templates.SegmentsKeepText | internal/enrich/enrich.go:15 | splitting a template into literals and placeholders loses no character |
| Templates.Leftmost | internal/config/extra.go:29-31 | a placeholder is the first opening, if it is closed later, its body free of closing braces |
| Templates.LeftmostIs | internal/config/extra.go:29-31 | a text without an opening, a placeholder and anything after split at that placeholder |
| Templates.TrimPadded | internal/enrich/enrich.go:75 | trimming takes the white space off both ends of a text and nothing else |
| Templates.Validate | internal/config/extra.go:34-80 | no error means the declared type is known or absent, the first opening is closed and every placeholder is a known one, well formed |
| Templates.CheckEnvName | internal/config/extra.go:82-101 | a variable name is capitals, digits and underscores, at least one, the first not a digit |
| Templates.UnclosedCaughtIff | internal/config/extra.go:40-47 | a template that leaves an opening unclosed is refused if and only if no placeholder comes before it |
| Templates.UnclosedSlipsThrough | internal/config/extra.go:40-47 | a template with a valid placeholder and then an unclosed one is accepted |
| Templates.References | internal/config/extra.go:117-125 | the row columns a template reads, in order |
| Plan.Validate | internal/catalog/catalog.go:155-242 | no error means every obligation of the catalog holds: unique names, keys, the fields each class requires, parents that resolve |
| Plan.CheckEntry | internal/catalog/catalog.go:180-222 | an entry passes exactly when it has what its class requires |
| Plan.ClassObligations | internal/catalog/catalog.go:184-208 | in a valid catalog the class alone says whether a table has a cursor, an open_row table has a state that can settle, and a parent is another catalogued table |
| Plan.FiltersNarrow | internal/config/resolve.go:178-205 | a row passes the combined filters exactly when it passes the table's own and, unless the table opts out, every global and window filter; a row without a time passes any window |
| Plan.WindowIsHalfOpen | internal/config/resolve.go:187-205 | a row with a time passes the window exactly when it is at or after since and before until, in text order |
| Plan.Resolve | internal/config/resolve.go:75-136 | every enabled table is planned once, in the order of the names, with the filters, exclusions and injected fields its settings and the defaults combine to; an unknown configured table stops the plan; no error means every planned table reads its key and cursor |
| Plan.ResolveTable | internal/config/resolve.go:94-124 | exclusions are the union of both sets, injected fields are merged, and no error means that no exclusion or projection drops a key or cursor column |
| Plan.MergeExtras | internal/config/resolve.go:158-176 | one injected field for every name either side configures, in the order of the names, the table's own setting before the default |
| Plan.SortByNameHolds | internal/config/resolve.go:134 | sorting by name orders the names and keeps every table as often as it was there |
| Plan.PlannedIff | internal/config/resolve.go:138-145 | a catalogued table is planned when its own setting says so, or, when it has none, unless the defaults say otherwise |
| Plan.ColumnsHold | internal/config/resolve.go:232-250 | a column is read exactly when the source has it, nothing excludes it and the projection, if any, lists it |
| Plan.ProjectColumns | internal/config/resolve.go:234-250 | the loop over the projection or the live columns keeps exactly those, in order |
| Plan.ColumnsInOrder | internal/config/resolve.go:232-250 | a projection is read in its own order, and without one the table in the source's |
| Plan.UnionColumns | internal/config/resolve.go:147-156 | a column is excluded when either side excludes it |
| Plan.Check | internal/config/resolve.go:254-292 | no error means every filter and projection column exists, and no extra shadows a column or reads a missing or excluded one |
| Plan.CheckedExtrasEvaluateIff | internal/config/resolve.go:280-287 | a validated extra that passes the check evaluates on every row if and only if there is no projection or it lists every column the extra reads |
| Plan.CheckedExtraFails | internal/config/resolve.go:280-287 | a projection without the column an extra reads passes the check, and evaluating the extra fails on every row |

## Left out

- Connections, drivers, DDL, reflection, YAML, commands, metrics, health checks, drift reports and environment expansion in the configuration: they carry no row and no watermark.
- `SELECT` text outside the WHERE clause, and LIKE matching, which is an abstract predicate.
- `strftime` reading a column's text: the engine is a parameter that yields the instant or NULL; what it does with malformed or local times is not modelled.
- Which words SQLite reserves is its own grammar's list, for the expressions the sink writes; what the engine makes of the three clock words is a parameter.
- An integer watermark is stored and bound as text and compared through SQLite's column affinity; the model compares the number.
- Window filters as instants: the code compares the column's own text, so the model keeps text order.
- Watermarks.ParseIff: reads only the layout the sink itself writes, because `time.Parse` is lenient about the width of some fields and the fraction's separator, and no such text is ever stored.
- Follow.NextDelay: says nothing once doubling overflows a 64-bit duration, because the code then waits a negative time; the wrap is in the model, and a maximum beyond 146 years is needed to reach it.
- Follow.Follower.Loop: takes how each wait and pass ends as a script, because timer and scheduler are not part of this model; a timer may fire whenever it is armed.
- The event stream's transport and framing, and the reconnect loop around it: one post stands for one line of data received.
- Convergence.QuietPassConverges: an open_row table is taken to have a key of one column and no more open keys than the limit, the exact conditions of `Limits.CompositeKeysAreNotRescanned` and `Limits.OpenKeyIsListedIff`; a row with a NULL cursor that arrives after the first pass is in reach only once it is stamped.
- Delivery.AppendOnlyDeliversAtMostTwice: speaks, as does Delivery.InsertedOutsideDeliversOnce, of runs without stops or backfills, because a stop may repeat any delivery.
- The tables of one plan are modelled as separate stores, as the target keeps them. Failures are a script, one outcome a statement. Upserts on a table whose every column is its key do nothing, which leaves the same row.
- Conversion of values for PostgreSQL, the text of errors and of quarantined rows, and elapsed times.
- Enrich.PrepareAll: takes how instants are written and read as parameters.
- The child query of `followParent` is the abstract `movedSince`; no state reaches it (`Safety.CursorlessHasNoMark`).
- `OpenRows` in `cursor.go`, which the pipeline does not use; `Lag`; `CountRows`.
- `mergeJSON` and the list of tables the window could not apply to.
- White space trimmed from names and placeholders is the ASCII kind with U+0085 and U+00A0; other Unicode spaces are not modelled.
