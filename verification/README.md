# A verified model of the finance tracker's core logic

This project models, in Dafny, the parts of the repository that decide what a user's numbers are:

- **Duplicate resolution** (`Store`, `PointerForest`, `DuplicateMerge`, `DuplicateLinks`, `DuplicateChains`,
  `ShownCategory`, `DuplicateColumns`, `AccountMerge`, `StoreWrites`, `StoreRuns`, `RepositoryService`). The tables are the
  fields of the class `Repository`, each SQL statement is one method, and all sub-queries of a statement read the state the
  statement started from. Where the SQL leaves an order open (ties of `DISTINCT ON`, the order of `ON CONFLICT DO NOTHING`
  inserts) the specification is a relation and the method one way to meet it.
- **The Sankey flow graph** (`CategoryNames`, `TransactionAmounts`, `OrderedTally`, `SankeyFlows`, `SankeyMeaning`,
  `SankeyGraph`, `Sankey`).
- **Charge prediction and chart dots** (`Calendar`, `Sorting`, `ChargeCadence`, `ChargePrediction`, `ChargeBasis`,
  `NetWorthDots`).
- **Rollover budgets** (`RolloverBudget`, `BudgetSpending`).
- **Net worth over time and the spending analytics** (`NetWorth`, `NetWorthAccounts`, `Analytics`, `AnalyticsSpending`).
- **The sync protocol** of bank connections and the rows it brings in (`SyncProtocol`, `SyncImport`).
- **Category rules** and their glob patterns (`Glob`, `CategoryRules`).
- **Optimistic updates** of a shared list (`OptimisticList`).

`Prelude` and `Text` hold the shared vocabulary. Loops and mutable state of the source are methods and classes proved
against specification functions or relations; what is promised is proved about those. Every lemma switches automatic
induction off, so that each proof stands on what its body says.

`DuplicateColumns`, `SankeyMeaning`, `ChargeBasis`, `BudgetSpending`, `NetWorthAccounts` and `AnalyticsSpending` say what the
operations decide in terms of the columns and fields they read, each by a reading of its own: what one row, transaction,
charge or account does to the result.

Conventions. Money is in whole cents, so the steps that round to two decimals are the identity. Dates are day numbers or
valid (year, month, day) triples; for `YYYY-MM-DD` strings with four-digit years `Calendar.OrderIsDayOrder` shows that
string order is day order. Text is ASCII. The category tables behind `resolveMajorCategory`, `isSpendingExcludedCategory`,
`resolve_major_category` and `normalize_category_key`, and `normalizeMerchant`, are arbitrary total functions: what is
proved holds for all of them. JavaScript and Rust maps whose iteration order can show are lists with distinct keys.

## Where the code departs from what one expects

Each of these is a theorem with the exact condition, with a concrete case beside it:

- Two copies of one charge with equal keys and equal `created_at` are each other's duplicate, and the merge deletes both.
  A deleted row has a surviving representative if and only if every such tie lies below some strictly better row
  (`DuplicateMerge.RepresentedIffTiesResolved`, `DuplicateMerge.SimultaneousCopiesVanish`).
- A merge that carries an override to the surviving row drops its subcategory, so the override arrives intact if and only if
  it had none (`DuplicateMerge.MovedOverrideLosesSubcategory`, `DuplicateMerge.HotelsLost`).
- A merge can undo a mark: a row hidden behind another stays hidden if and only if nothing outranks that other row
  (`DuplicateMerge.MarkSurvivesMergeIff`, `StoreRuns.MarkUndoneByMerge`).
- Duplicate pointers form chains although each statement only links visible rows: a run keeps them one step long if and only
  if it never hides a row that already hides another (`DuplicateChains.RunStaysFlatIff`, `DuplicateChains.ChainByReimport`,
  `DuplicateChains.ChainByMark`). On a chain a chosen category can be out of reach of the read query, which looks one step
  back.
- Of the choices a listed row stands for the read query shows one, and it fills in category and subcategory separately
  (`ShownCategory.CategoryComesFromIff`, `ShownCategory.ShownPairIsOneChoiceIff`). All are shown if and only if they agree and
  one of them is in reach (`ShownCategory.RowShownIff`), so hiding a row can replace a choice or make up a pair nobody chose,
  even where pointers stay one step long (`ShownCategory.GroceriesAtHotels`). Exactly when a mark, or some outcome of
  auto-resolve, does so is in `ShownCategory.MarkKeepsChoicesIff` and `ShownCategory.AutoResolveKeepsChoicesIff`.
- Removing the category of a row is documented to restore that of the provider. It does if and only if no choice is left on a
  row hidden directly behind it, hence never where auto-resolve carried the choice over (`ShownCategory.RemovalClearsIff`,
  `ShownCategory.CarriedChoiceStays`, `ShownCategory.TravelComesBack`).
- Stored amounts are positive when money leaves an account (backend/src/models/transaction.rs:241-242), but the net-worth
  series takes them for deposits, so it rolls back in the wrong direction, and it counts the flows of its first day twice. A
  point shows what the accounts held if and only if what left on the first day is twice what left after that of the point; a
  series up to today does so throughout if and only if nothing moves, in sum, on any of its days
  (`NetWorth.PointShowsLedgerIff`, `NetWorth.SeriesShowsLedgerIff`, `NetWorth.SeriesToTodayShowsLedgerIff`,
  `NetWorth.ExpenseRolledBackwards`, `NetWorth.DepositOnFirstDay`).
- Rolling back panics on an inverted range exactly when there is a cash flow and nothing is known from before today, or the
  request starts today (`NetWorth.NetWorthOverTime`, `NetWorth.InvertedWhenNothingEarlier`, `NetWorth.StartingTodayPanics`).
- The carryover of a rollover budget is a closed form that, within one year, disagrees with the month-by-month recurrence
  exactly when an earlier balance was below both zero and the present balance (`RolloverBudget.ClosedFormVersusRecurrence`,
  `RolloverBudget.OverspentJanuary`). At New Year it starts over: January carries what December left if and only if December
  left nothing, and over all years the two agree if and only if no balance was ever below both that of New Year and the
  present one (`RolloverBudget.NewYearReset`, `RolloverBudget.CarryoverVersusAllYears`,
  `RolloverBudget.SavingsEndInDecember`).
- Money that leaves an account counts as income in the Sankey graph exactly when its category is named like income, as
  "income tax" is (`SankeyMeaning.SpendingTakenForIncomeIff`, `SankeyMeaning.TaxTakenForIncome`).
- A budget asks for the category of the provider alone: filing a transaction elsewhere changes no budget, unless it is filed
  under an excluded category, while the Sankey graph moves it (`BudgetSpending.FilingElsewhereChangesNothing`,
  `SankeyMeaning.UsersCategoryWins`, `BudgetSpending.TripSpentOnFood`).
- Stepping month by month forgets the day of the month: after a short month, a charge on the 31st stays on the 28th
  (`ChargeCadence.MonthlyDrift`, `ChargeCadence.JanuaryDriftsToMarch28`).
- With exactly one date bound the category grouping counts the spending beyond it and the monthly cells do not; they agree if
  and only if that spending sums to zero (`Analytics.HalfOpenRangesDiffer`, `Analytics.JanuaryShownFromFebruary`).
- On Teller accounts of type "credit card" the dashboard and the analytics service disagree about the sign of every amount
  other than zero (`Analytics.SignsAgreeUnlessCreditCard`, `Analytics.TellerCardSignsDiffer`).
- A Teller sync whose last save fails moves `last_sync_at` of the connection in memory although it reports an error; a Plaid
  sync in the same situation reports success although nothing is stored (`SyncProtocol.FailureKeepsLastSync`,
  `SyncProtocol.SuccessIsStored`, `SyncProtocol.SuccessesMayStoreNothing`, `SyncProtocol.UnsavedFetch`). Likewise a Plaid sync
  reports rows as synced whose write failed, a Teller sync does not (`SyncImport.ImportTxns`).
- Which of two equally ranked rules wins is up to the database; it shows exactly when two rules that may both come first set
  different categories (`CategoryRules.FetchesAgreeIff`, `CategoryRules.ShortRulesTie`).
- A failed optimistic update or delete undoes everything done to the list since it began, whoever did it; that is right if and
  only if nothing the others did lasts (`OptimisticList.RollbackExactIff`, `OptimisticList.RollbackLosesCreate`).

## Model

| member | source | states |
|---|---|---|
| `PointerForest.OneVisibleRepresentative` | backend/migrations/027_transaction_duplicate_reviews.sql:4-5 | In a forest of duplicate pointers with one owner per chain, every row reaches exactly one visible row, of the same user and account |
| `PointerForest.Acyclic` | backend/src/services/repository_service.rs:671-680 | Following duplicate pointers one or more steps never returns to the row it started from |
| `PointerForest.LinkKeepsForest` | backend/src/services/repository_service.rs:782-791 | Linking visible rows to other visible rows that are not linked themselves keeps the pointers a forest |
| `PointerForest.WithoutKeepsForest` | backend/migrations/027_transaction_duplicate_reviews.sql:5 | Deleting any set of rows, with pointers to them set to null, keeps the forest and the owners along it |
| `PointerForest.WithoutShowsAgain` | backend/migrations/027_transaction_duplicate_reviews.sql:5 | After a deletion the visible rows are the visible ones that are kept and the kept ones that were hidden behind a deleted row |
| `DuplicateLinks.LinkMovesRepresentative` | backend/src/services/repository_service.rs:782-791 | After a link statement each row is represented by the target of its old representative if that was linked, and by the old one otherwise |
| `DuplicateLinks.HiddenRowPointsAtNearest` | backend/src/services/repository_service.rs:734-791 | A row changes exactly when it was pending with a match, and then points at a posted row of its account and amount, at most seven days away, that no matching posted row is nearer than |
| `DuplicateLinks.AutoResolveHidesCount` | backend/src/services/repository_service.rs:782-824 | The count reported is the drop in the number of visible rows |
| `DuplicateLinks.NoMatchLeft` | backend/src/services/repository_service.rs:734-791 | No visible pending row in scope keeps a visible posted match in scope |
| `DuplicateLinks.AutoResolveIsIdempotent` | backend/src/services/repository_service.rs:719-824 | Run again at once, it changes nothing and returns 0 |
| `DuplicateLinks.OverridesSurviveAutoResolve` | backend/src/services/repository_service.rs:792-806 | No override changes, and the posted row of a linked row with an override has one afterwards, however many rows share it |
| `DuplicateLinks.NewOverrideIsCopied` | backend/src/services/repository_service.rs:792-806 | An override that appears is a copy of one of a row hidden by this call |
| `DuplicateLinks.CanonicalIsDetermined` | backend/src/services/repository_service.rs:642-670 | The manual choice is unique: its ORDER BY, ending with the id, is total |
| `DuplicateLinks.MarkHidesOnlySelected` | backend/src/services/repository_service.rs:616-718 | A successful mark hides exactly the selected row behind a row that stays visible; a second mark of it fails and changes nothing |
| `StoreRuns.StepKeepsConsistent` | backend/src/services/repository_service.rs:419-824 | Each modelled statement keeps foreign keys, unique constraints, the pointer forest and the owner along every pointer |
| `StoreRuns.RunKeepsConsistent` | backend/src/services/repository_service.rs:419-1055 | The same at every point of every run of statements, deletions and account merges included |
| `StoreRuns.EveryRowRepresented` | backend/src/services/repository_service.rs:493-824 | At every point of every run each row reaches exactly one visible row, of its own user and account, and no pointer chain cycles |
| `StoreRuns.EmptyStoreConsistent` | backend/migrations/027_transaction_duplicate_reviews.sql:4-5 | Runs may start from an empty store: it is consistent |
| `StoreRuns.CleanupIsIdempotent` | backend/src/services/connection_service.rs:855-905 | The merge and the auto-resolve that end a Teller sync reach a fixed point: running both again changes nothing and reports zero |
| `StoreRuns.MarkUndoneByMerge` | backend/src/services/repository_service.rs:532-718 | A concrete run: the user marks a row as a duplicate, the next merge deletes the row it is hidden behind, and the charge is listed twice |
| `StoreWrites.TxnUpsertKeepsStore` | backend/src/services/repository_service.rs:1013-1055 | An import, whether it inserts, refreshes or fails on a key, keeps the store consistent |
| `StoreWrites.AccountUpsertKeepsStore` | backend/src/services/repository_service.rs:419-457 | So does the import of an account |
| `StoreWrites.ReimportKeepsTheRest` | backend/src/services/repository_service.rs:1023-1036 | A re-import changes amount, merchant and pending flag of the one row and nothing else, its pointer included |
| `StoreWrites.ChoiceReplacesChoice` | backend/src/services/repository_service.rs:2042-2070 | A choice replaces the one there was, keeps the time of the first, fails only for a missing row, and changes no other |
| `StoreWrites.AccountReimportKeepsOwner` | backend/src/services/repository_service.rs:434-448 | A re-import of an account renews everything but its owner, and its balance only when one is given |
| `DuplicateMerge.RepresentedIffTiesResolved` | backend/src/services/repository_service.rs:532-604 | Every deleted row has a surviving row of the same account, amount and date whose key contains its key, through any chain of canonicals, if and only if each tie (equal key, equal created_at) lies below a strictly better row |
| `DuplicateMerge.FindRepresentative` | backend/src/services/repository_service.rs:547-580 | Under resolved ties, the survivor that outranks a given deleted row |
| `DuplicateMerge.SurvivorsNeverMatch` | backend/src/services/repository_service.rs:567-580 | Two surviving candidates never satisfy the join condition, whatever the ties |
| `DuplicateMerge.MergeIsIdempotent` | backend/src/services/repository_service.rs:519-614 | A second merge deletes nothing, changes nothing and reports zero |
| `DuplicateMerge.UnresolvedTieLosesRow` | backend/src/services/repository_service.rs:547-603 | On a tie nothing outranks strictly, no row that could stand for the two survives |
| `DuplicateMerge.SimultaneousCopiesVanish` | backend/src/services/repository_service.rs:547-604 | A store of two rows that agree on everything but the provider id loses both |
| `DuplicateMerge.DeletedRowStaysVisible` | backend/src/services/repository_service.rs:581-604 | Under resolved ties a deleted row leaves a survivor that has an override whenever it had one and whose visible representative has the same user and account |
| `DuplicateMerge.MovedOverrideLosesSubcategory` | backend/src/services/repository_service.rs:581-596 | An override that appears comes from a row the new holder outranks, keeps category and creation time, and equals it if and only if it had no subcategory |
| `DuplicateMerge.MergeKeepsStore` | backend/src/services/repository_service.rs:519-614 | The merge keeps constraints, forest and owners |
| `DuplicateMerge.HotelsLost` | backend/src/services/repository_service.rs:581-596 | A concrete merge after which a row under Travel, Hotels is under Travel alone |
| `DuplicateMerge.MarkSurvivesMergeIff` | backend/src/services/repository_service.rs:532-603 | Through a merge a kept row stays hidden behind its target if and only if no row outranks the target, and is visible again otherwise |
| `DuplicateChains.LinkStaysFlatIff` | backend/src/services/repository_service.rs:782-791 | From a store where every hidden row points at a visible one, a link statement keeps it so if and only if it hides no row that hides another |
| `DuplicateChains.StatementStaysFlatIff` | backend/src/services/repository_service.rs:493-824 | The same for every modelled statement, with the rows it is going to hide known before it starts |
| `DuplicateChains.RunStaysFlatIff` | backend/src/services/repository_service.rs:419-1055 | A run that starts flat is flat throughout if and only if no statement of it hides a row that hides another |
| `DuplicateChains.ChainByReimport` | backend/src/services/repository_service.rs:1023-1036 | A concrete run from a consistent flat store to a chain of two: the target is imported again as pending and then hidden; a category chosen on the first row is shown on none afterwards |
| `DuplicateChains.ChainByMark` | backend/src/services/repository_service.rs:642-680 | A second concrete run: a pending row is marked behind a pending row, which auto-resolve then hides |
| `ShownCategory.CategoryComesFromIff` | backend/src/services/repository_service.rs:1456-1477 | Of the choices a row represents, the category shown is that of a given row if and only if it is the row itself, or the row itself has none and the given one is directly behind it with no newer one beside it, strictly newer than the others when ties must not matter |
| `ShownCategory.ShownPairIsOneChoiceIff` | backend/src/services/repository_service.rs:1456-1457 | Category and subcategory shown are those of one choice unless the row chose a category without subcategory and the row found behind it another category with one |
| `ShownCategory.RowShownIff` | backend/src/services/repository_service.rs:1456-1477 | A row shows every choice it stands for, as a pair, if and only if these agree and, if there are any, one is on the row or one step behind it |
| `ShownCategory.FlatShowsChoicesIff` | backend/src/services/repository_service.rs:1456-1477 | While pointers are one step long, all choices of a user are shown if and only if those represented by the same row agree |
| `ShownCategory.LinkKeepsChoicesIff` | backend/src/services/repository_service.rs:681-693 | Hiding rows keeps every choice shown if and only if, for each row others are hidden behind, the rows of that group which show something show the same pair, and the target shows something or is offered something whenever one of them does |
| `ShownCategory.MarkKeepsChoicesIff` | backend/src/services/repository_service.rs:616-718 | A manual mark keeps every choice shown if and only if the marked row shows nothing, or the pair the canonical row shows, or a choice of its own while the canonical row shows nothing |
| `ShownCategory.AutoResolveKeepsChoicesIff` | backend/src/services/repository_service.rs:719-824 | Every outcome of auto-resolve keeps every choice shown if and only if, before it, rows that may end behind one posted row show what it shows and each other, and wherever one of them shows something, so does the posted row, or the row shows its own choice, or some row with a choice has that posted row as its only best match |
| `ShownCategory.FlatRunShowsChoicesIff` | backend/src/services/repository_service.rs:1456-1477 | At any point of a run that never hides a row hiding another, all choices of a user are shown if and only if those represented by the same row agree there |
| `ShownCategory.RemovalClearsIff` | backend/src/services/repository_service.rs:2072-2094 | Removing the choice of a listed row leaves nothing shown for it if and only if no choice is left on a row directly behind it |
| `ShownCategory.CarriedChoiceStays` | backend/src/main.rs:4225-4265 | A category that auto-resolve carried over to a posted row is still shown after its removal, where the documentation promises the category of the provider |
| `ShownCategory.GroceriesAtHotels` | backend/src/services/repository_service.rs:1456-1477 | A concrete auto-resolve from a store that shows both choices: pointers stay one step long, Travel with Hotels and Groceries become Groceries with Hotels |
| `ShownCategory.TravelComesBack` | backend/src/services/repository_service.rs:2072-2094 | Removing Groceries there brings back Travel and Hotels, which no further removal clears |
| `ShownCategory.OnlyOwnChoicesShown` | backend/src/services/repository_service.rs:1456-1477 | What is shown to a user depends on the rows and that user's own choices alone, and a row is listed for one user |
| `DuplicateColumns.MergeDeletesIff` | backend/src/services/repository_service.rs:532-604 | The merge deletes a row exactly when it and another row, whose key contains its own and is longer or not older, record one charge and were both imported for the user on accounts of the connection |
| `DuplicateColumns.MergeLeavesOthers` | backend/src/services/repository_service.rs:532-604 | Kept rows keep everything but a pointer to a deleted row; rows of other users, other connections or without provider id are kept, with their overrides |
| `DuplicateColumns.MergeMovesOverrideIff` | backend/src/services/repository_service.rs:581-596 | A kept row gains an override exactly when it supersedes a row that had one, and gains that less its subcategory |
| `DuplicateColumns.OtherConnectionStays` | backend/src/services/repository_service.rs:541-545 | Two copies of a charge on another connection survive a merge, which reports zero |
| `DuplicateColumns.ResolveHidesIff` | backend/src/services/repository_service.rs:734-791 | Auto-resolve hides a row exactly when it is pending and a posted row of its account and amount, at most a week away, shares a name with it; it is hidden behind the nearest such row, of equally near ones the earlier |
| `DuplicateColumns.StrangersAreNotLinked` | backend/src/services/repository_service.rs:768-778 | No link is made between rows when neither key occurs in the other, one is shorter than six characters or neither prefix occurs, and they share neither brand |
| `DuplicateColumns.RelativesAreLinked` | backend/src/services/repository_service.rs:768-778 | A pending row is hidden when a posted one of its account and amount within a week has a key that contains or is contained in its own, starts with the same six characters, or names the same brand |
| `DuplicateColumns.TwoMerchantsStay` | backend/src/services/repository_service.rs:768-778 | A pending and a posted charge of two merchants stay as they are, with count 0 |
| `DuplicateColumns.MarkFailsIff` | backend/src/services/repository_service.rs:642-660 | A mark fails and changes nothing exactly when no listed row of the same account and amount within a week may stand for the selected one |
| `DuplicateColumns.MarkChooses` | backend/src/services/repository_service.rs:659-670 | It hides the selected row alone, behind a row of its own merchant if there is one, then a posted, then the oldest, then the smallest id |
| `DuplicateColumns.AccountDeletedIff` | backend/src/services/repository_service.rs:472-510 | A successful account merge deletes an account exactly when a twin of the same name, mask and type has a balance where it has none, was updated later, or has the larger id |
| `DuplicateColumns.RowMovesIff` | backend/src/services/repository_service.rs:497-503 | A row moves exactly when its account is deleted, to a kept twin that none is preferred to, and changes in nothing else |
| `DuplicateColumns.AccountMergeFailsIff` | backend/src/services/repository_service.rs:497-510 | The account merge fails and changes nothing exactly when a row of somebody else sits on an account to delete |
| `Text.KeyOfConcat` | backend/src/services/repository_service.rs:539 | The merchant key of a text is that of its parts |
| `Text.KeyOfCharacter` | backend/src/services/repository_service.rs:539 | A letter counts in lower case, a digit as it is, and anything else not at all |
| `AccountMerge.CanonicalAccount` | backend/src/services/repository_service.rs:472-492 | The canonical account is of the same partition and user, is not deleted, and has a balance whenever the deleted one had |
| `AccountMerge.AccountMergeKeepsStore` | backend/src/services/repository_service.rs:459-517 | The account merge keeps every constraint and the forest, and no transaction appears or disappears |
| `AccountMerge.AccountMergeIsIdempotent` | backend/src/services/repository_service.rs:459-517 | After a successful merge no partition holds two accounts, and a second merge changes nothing |
| `RepositoryService.Repository.UpsertTransaction` | backend/src/services/repository_service.rs:1013-1055 | Insert, refresh of amount, merchant and pending by provider id, or the key violation, and nothing else |
| `RepositoryService.Repository.UpsertAccount` | backend/src/services/repository_service.rs:419-457 | Insert, or refresh by provider account id that keeps the owner and, when the new balance is missing, the old balance |
| `RepositoryService.Repository.SetCategoryOverride` | backend/src/services/repository_service.rs:2042-2070 | One override per row and user; a repeated choice keeps its first creation time |
| `RepositoryService.Repository.RemoveCategoryOverride` | backend/src/services/repository_service.rs:2072-2094 | Exactly that override is gone |
| `RepositoryService.Repository.MarkTransactionDuplicate` | backend/src/services/repository_service.rs:616-718 | The state is the one the manual statement specifies for its unique candidate, or unchanged with an error when there is none |
| `RepositoryService.Repository.AutoResolvePendingDuplicates` | backend/src/services/repository_service.rs:719-824 | The state meets the auto-resolve specification, and the count is the number of rows hidden |
| `RepositoryService.Repository.MergeDuplicateProviderAccounts` | backend/src/services/repository_service.rs:459-517 | Transactions move to the canonical accounts and the others are deleted, or nothing happens when a row of another user still references one |
| `RepositoryService.Repository.MergeDuplicateProviderTransactions` | backend/src/services/repository_service.rs:519-614 | The state meets the merge specification, cascades included |
| `RepositoryService.NearestPosted` | backend/src/services/repository_service.rs:758-781 | The row DISTINCT ON keeps: a best match, or none when there is no match |
| `RepositoryService.FindDuplicateAccounts` | backend/src/services/repository_service.rs:472-492 | FIRST_VALUE over each partition, for every account that is not first |
| `CategoryNames.FormattedNameIsReserved` | frontend/src/utils/categories.ts:1-24 | A formatted name has no underscore and is never "Other" |
| `CategoryNames.WordEnds` | frontend/src/utils/categories.ts:14-19 | Underscores and white space separate words |
| `CategoryNames.CapitalizedKeepsLetters` | frontend/src/utils/categories.ts:18 | A word is shown with its own letters, the first large and the others small |
| `CategoryNames.JoinedByOneSpace` | frontend/src/utils/categories.ts:14-19 | Words are joined one space apart |
| `TransactionAmounts.NetSpendingByFields` | frontend/src/utils/transactionAmounts.ts:9-66 | Net spending is what left the account, never negative except on a card, and nothing under an excluded name |
| `SankeyFlows.OutflowIsGrossSpending` | frontend/src/domain/SankeyCalculator.ts:172-244 | Apart from transfers and income, a settled transaction flows out with its net spending, refunds left out |
| `SankeyFlows.AccumulateFlows` | frontend/src/domain/SankeyCalculator.ts:155-245 | Every map entry and running total is the plain sum of the classified transactions it stands for; entries are positive and categories own exactly their subcategories |
| `SankeyFlows.GroupMinorSubcategories` | frontend/src/domain/SankeyCalculator.ts:111-145 | The loop computes the grouped list |
| `SankeyFlows.GroupedIsFaithful` | frontend/src/domain/SankeyCalculator.ts:111-145 | Folding minor subcategories keeps their total, never lengthens the list, and keeps amounts positive and names distinct |
| `SankeyFlows.MajorEntriesStay` | frontend/src/domain/SankeyCalculator.ts:117-139 | A subcategory that is not minor keeps its entry |
| `SankeyFlows.GroupedEntries` | frontend/src/domain/SankeyCalculator.ts:117-143 | Every entry but "Other" is an entry of the original list |
| `SankeyFlows.FoldedAwayIff` | frontend/src/domain/SankeyCalculator.ts:111-145 | A subcategory loses its own entry exactly when it is under 30.00 and under 5% of the category, another one is too, and there are more than three |
| `SankeyGraph.IdInjective` | frontend/src/domain/SankeyCalculator.ts:339-445 | Two different things never share a node id |
| `SankeyGraph.Graph.AddNode` | frontend/src/domain/SankeyCalculator.ts:289-312 | Ids stay unique and agree with the index map; a known id keeps its node |
| `SankeyGraph.Graph.AddLink` | frontend/src/domain/SankeyCalculator.ts:314-329 | Only positive values become links, with matching ids and names; into and out of each node grow by exactly the value |
| `SankeyGraph.Graph.AddSubcategories` | frontend/src/domain/SankeyCalculator.ts:381-397 | Each new node is a leaf below its category showing one entry and receiving it; the category sends out the total; all other flow is unchanged |
| `SankeyGraph.Graph.AddCategory` | frontend/src/domain/SankeyCalculator.ts:367-399 | A category receives its amount from the hub and, with subcategories shown, sends out the same |
| `Sankey.AddSources` | frontend/src/domain/SankeyCalculator.ts:349-355 | One node per income source; the hub receives their total |
| `Sankey.TopExpense` | frontend/src/domain/SankeyCalculator.ts:254-264 | The first category with the largest total |
| `Sankey.BuildCashFlow` | frontend/src/domain/SankeyCalculator.ts:339-405 | With income: hub-in and hub-out both equal the larger of inflow and outflow, deficit or savings closing the gap; every node is balanced |
| `Sankey.BuildSpending` | frontend/src/domain/SankeyCalculator.ts:406-445 | Without income: hub-out equals the outflow and nothing flows in |
| `Sankey.ComputeSankeyData` | frontend/src/domain/SankeyCalculator.ts:149-455 | The finished graph is conserved at every node, has unique ids and positive, layered, in-range links, and each node shows the sum of the transactions it stands for; the totals and the top category are sums too |
| `Sankey.GroupedSubcategoriesNamed` | frontend/src/domain/SankeyCalculator.ts:381-397 | What a category shows below it are the sums of its subcategories, besides "Other" |
| `SankeyMeaning.FlowIsAsFiled` | frontend/src/domain/SankeyCalculator.ts:159-244 | The flow a transaction is, from its fields: nothing, income with its absolute amount, or spending with what left |
| `SankeyMeaning.OneTransactionAdds` | frontend/src/domain/SankeyCalculator.ts:159-244 | Wherever it stands in the list, a transaction adds its flow to every sum |
| `SankeyMeaning.UsersCategoryWins` | frontend/src/domain/SankeyCalculator.ts:162-163 | Settled spending under a custom category counts under its major category and no other, whatever rule and provider say |
| `SankeyMeaning.RulesCategoryIsNext` | frontend/src/domain/SankeyCalculator.ts:162-163 | Without a custom category the same holds for that of the rule |
| `SankeyMeaning.ProvidersCategoryIsLast` | frontend/src/domain/SankeyCalculator.ts:162-163 | Without either it holds for that of the provider |
| `SankeyMeaning.SpendingCountsUnderDetail` | frontend/src/domain/SankeyCalculator.ts:217-236 | Within its category spending counts under its detail, the user's before the rule's before the provider's, unless that says nothing |
| `SankeyMeaning.IncomeCountsUnderSource` | frontend/src/domain/SankeyCalculator.ts:199-212 | Income counts under its detail, or its category where the detail is missing or "other" |
| `SankeyMeaning.AddsNothingIff` | frontend/src/domain/SankeyCalculator.ts:159-222 | Exactly which transactions add nothing |
| `SankeyMeaning.SpendingTakenForIncomeIff` | frontend/src/domain/SankeyCalculator.ts:180-202 | Money that leaves counts as income exactly when its category is named like income |
| `SankeyMeaning.FoodFiledAsTrip` | frontend/src/domain/SankeyCalculator.ts:162-163 | A concrete expense of primary Food under the custom category Trip |
| `SankeyMeaning.TaxTakenForIncome` | frontend/src/domain/SankeyCalculator.ts:185-202 | A concrete payment of income tax that counts as income |
| `Calendar.OrderIsDayOrder` | frontend/src/domain/DashboardCalculator.ts:126-141 | Comparing date strings is comparing days |
| `Calendar.AddDaysNumber` | frontend/src/domain/DashboardCalculator.ts:288-292 | Adding days moves the day number by exactly that many |
| `Calendar.MonthStep` | frontend/src/domain/DashboardCalculator.ts:294-302 | A clamped monthly step lands on a valid day of the next month, 28 to 31 days later |
| `Calendar.LengthsOfMonths` | frontend/src/domain/DashboardCalculator.ts:294-302 | The lengths of the twelve months, leap years included |
| `ChargeCadence.MedianSplits` | frontend/src/domain/DashboardCalculator.ts:251-259 | At most half of the values lie strictly on either side of the median |
| `ChargeCadence.CadenceIsDetermined` | frontend/src/domain/DashboardCalculator.ts:231-249 | A cadence is found exactly when the median lies in its band, because the bands are disjoint |
| `ChargeCadence.NextCharge` | frontend/src/domain/DashboardCalculator.ts:126-136 | The loop ends with the first iterate after today |
| `ChargeCadence.FirstIsEarliest` | frontend/src/domain/DashboardCalculator.ts:126-136 | That iterate is the earliest date strictly after today in the sequence |
| `ChargeCadence.MonthlyDrift` | frontend/src/domain/DashboardCalculator.ts:294-302 | k monthly steps equal one jump of k months if and only if no month on the way is too short for the day the jump lands on |
| `ChargeCadence.JanuaryDriftsToMarch28` | frontend/src/domain/DashboardCalculator.ts:294-302 | From 31 January 2023 two monthly steps lead to 28 March, one jump of two months to 31 March |
| `ChargePrediction.GroupChargeTransactions` | frontend/src/domain/DashboardCalculator.ts:171-198 | Every charge with a merchant lands in exactly one group, in order |
| `ChargePrediction.BasisStartsAtLatest` | frontend/src/domain/DashboardCalculator.ts:97-125 | A prediction starts from a latest charge of its group |
| `ChargePrediction.PredictGroup` | frontend/src/domain/DashboardCalculator.ts:97-166 | The one prediction the rules allow for a group, or proof that there is none |
| `ChargePrediction.AnnouncedWithinHorizon` | frontend/src/domain/DashboardCalculator.ts:138-141 | An announced date is 1 to horizonDays days ahead and reached by whole cadence steps |
| `ChargePrediction.PredictUpcomingCharges` | frontend/src/domain/DashboardCalculator.ts:87-169 | At most eight predictions, soonest first, every one justified and none left out that ranks before one shown |
| `ChargeBasis.MedianByCounting` | frontend/src/domain/DashboardCalculator.ts:251-259 | The median is half the sum of the two values in the middle by count |
| `ChargeBasis.AmountOfLatest` | frontend/src/domain/DashboardCalculator.ts:120-124 | With distinct dates, the amount announced is the median of the charges that at most three others are later than |
| `ChargeBasis.AmountIsInTheMiddle` | frontend/src/domain/DashboardCalculator.ts:120-124 | At most half of those charges are lower than the amount announced, and at most half are higher |
| `ChargeBasis.OlderChargesDoNotMatter` | frontend/src/domain/DashboardCalculator.ts:120-124 | Two groups with the same latest charges announce the same amount |
| `ChargeBasis.BasisOfGaps` | frontend/src/domain/DashboardCalculator.ts:97-157 | Which cadence is found, when nothing is announced, and when with confidence, from gaps and amounts of the charges in order |
| `ChargeBasis.RegularChargesAnnounced` | frontend/src/domain/DashboardCalculator.ts:97-157 | Charges exactly one cadence apart are announced at the price of the last four, with confidence from the third on |
| `ChargeBasis.NewPriceAnnounced` | frontend/src/domain/DashboardCalculator.ts:120-124 | Eight weekly charges, four of 10.00 and four of 15.00: 15.00 is announced |
| `ChargeBasis.SharedGroupIff` | frontend/src/domain/DashboardCalculator.ts:171-198 | Two charges are in one group exactly when both left one account for one merchant, account ids having no colon |
| `NetWorthDots.CalculateNetDotIndices` | frontend/src/domain/DashboardCalculator.ts:63-85 | At most 31 dots, all on changes, first and last change included, all changes while there are at most 30, none exactly when nothing changed |
| `RolloverBudget.SpentIsAdditive` | frontend/src/domain/BudgetCalculator.ts:119-123 | Spending is additive over adjacent windows |
| `RolloverBudget.WindowIsMonths` | frontend/src/domain/BudgetCalculator.ts:162-178 | A window of whole months spends the sum of its months |
| `RolloverBudget.PriorMonths` | frontend/src/domain/BudgetCalculator.ts:195-236 | The months that count before this one, and their spending |
| `RolloverBudget.ComputeRolloverBudget` | frontend/src/domain/BudgetCalculator.ts:126-267 | The card of a month or a year in terms of the twelve monthly spends; year to date is prior plus current when the prior window starts in January |
| `RolloverBudget.NextCarryover` | frontend/src/domain/BudgetCalculator.ts:238-249 | The next carryover is at most what remains of this month, with equality if and only if earlier months were not overspent or this month uses up its own allocation |
| `RolloverBudget.ClosedFormVersusRecurrence` | frontend/src/domain/BudgetCalculator.ts:238-249 | Within one year the closed form never exceeds the month-by-month recurrence and equals it if and only if no earlier balance was below both zero and the present one |
| `RolloverBudget.RolledIsBalanceAboveLowest` | frontend/src/domain/BudgetCalculator.ts:238-249 | The recurrence is the height of the balance above its lowest point so far |
| `RolloverBudget.LaterYearsCountFromJanuary` | frontend/src/domain/BudgetCalculator.ts:181-214 | In every year after it began to roll over, a budget counts from January of that year |
| `RolloverBudget.NewYearReset` | frontend/src/domain/BudgetCalculator.ts:181-249 | The January card carries nothing over; that is what December left, if anything, if and only if December left nothing |
| `RolloverBudget.CarryoverVersusAllYears` | frontend/src/domain/BudgetCalculator.ts:202-249 | Against the recurrence over all months since the budget began, the card of a later year never carries more, and carries the same if and only if no balance ever was below both that of New Year and the present one |
| `RolloverBudget.OverspentJanuary` | frontend/src/domain/BudgetCalculator.ts:238-249 | Three months on which the closed form carries 50 and the recurrence 100 |
| `RolloverBudget.SavingsEndInDecember` | frontend/src/domain/BudgetCalculator.ts:202-249 | 100 a month and nothing spent in 2023: December shows 1200 left and January 100 available |
| `BudgetSpending.OneTransactionCounts` | frontend/src/domain/BudgetCalculator.ts:67-123 | Wherever it stands, a transaction adds its net spending to a budget if its day is in the window and it belongs to the category or subcategory, and nothing otherwise |
| `BudgetSpending.FilingElsewhereChangesNothing` | frontend/src/domain/BudgetCalculator.ts:71-118 | What the user or a rule filed a transaction under changes no budget, unless it is an excluded category |
| `BudgetSpending.TripSpentOnFood` | frontend/src/domain/BudgetCalculator.ts:71-118 | An expense moved from Food to Trip is spent on Food by the budget and on Trip by the Sankey graph |
| `BudgetSpending.PeriodAmounts` | frontend/src/domain/BudgetCalculator.ts:136-151 | What the amount of a budget is multiplied by for a year and for a month |
| `NetWorth.GroupFlows` | backend/src/main.rs:3721-3745 | Flows per account and day are the sums of the transactions; the dates collected are theirs |
| `NetWorth.Baselines` | backend/src/main.rs:3754-3770 | Each baseline is the current balance minus the flows after the effective start; the range panics exactly when it is inverted and some account has flows |
| `NetWorth.SumFlowsIsCashFlow` | backend/src/main.rs:3725-3770 | Summing by account or by transaction gives the same |
| `NetWorth.PassesMeet` | backend/src/main.rs:3754-3800 | Rolling back to the start and forward to a day equals the closed form |
| `NetWorth.OffByFirstDayAndTwiceTheRest` | backend/src/main.rs:3757-3785 | With stored amounts positive when money leaves, the closed form misses what the accounts held at the end of a day by what left on the first day less twice what left after that day |
| `NetWorth.PointShowsLedgerIff` | backend/src/main.rs:3757-3814 | A point of the series shows what the accounts held if and only if what left on the first day is twice what left after the day of the point |
| `NetWorth.SeriesShowsLedgerIff` | backend/src/main.rs:3757-3814 | The whole series does if and only if nothing moves on any day after its first, and what left on the first is twice what left after the end date |
| `NetWorth.SeriesToTodayShowsLedgerIff` | backend/src/main.rs:3757-3814 | A series up to today or beyond does if and only if nothing moves, in sum, on any day from its first to today |
| `NetWorth.InvertedWhenNothingEarlier` | backend/src/main.rs:3747-3766 | When the range (start, today] is inverted, in terms of the request and the known dates |
| `NetWorth.StaticValue` | backend/src/main.rs:3789-3799 | A static account counts at its last recorded value, at nothing before its first record, and at its current value without any |
| `NetWorth.BuildSeries` | backend/src/main.rs:3772-3814 | One point per day from the effective start to the end date, cash in closed form and constant after the anchor |
| `NetWorth.NetWorthOverTime` | backend/src/main.rs:3579-3814 | The whole request: bad request, empty, panic, or the series; no cash flow predates the effective start |
| `NetWorth.ExpenseRolledBackwards` | backend/src/main.rs:3757-3785 | An expense of 100 on day 15: on day 12 the account held 1100 and the series shows 900, though nothing moved on its first day |
| `NetWorth.DepositOnFirstDay` | backend/src/main.rs:3757-3785 | A deposit of 100, stored as -100, on the first day: five days later the series shows 900 where the account held 1000 |
| `NetWorth.StartingTodayPanics` | backend/src/main.rs:3761-3766 | A request from today on with one transaction today panics |
| `NetWorthAccounts.PointsAreSumsOverAccounts` | backend/src/main.rs:3640-3814 | Every point is the sum of what the accounts in the request are worth on its day: deposits with their flows, records of manual accounts, debts counting against it |
| `NetWorthAccounts.OneAccountMore` | backend/src/main.rs:3640-3814 | Next to the same request without it, an account changes each point by its own share and nothing else |
| `NetWorthAccounts.DebtLowersNetWorth` | backend/src/main.rs:3662-3671 | A credit or loan account without records lowers each point by the absolute value of its balance |
| `NetWorthAccounts.AssetRaisesNetWorth` | backend/src/main.rs:3652-3661 | An account that is neither debt nor deposit and has no records raises each point by its balance |
| `NetWorthAccounts.CardAlone` | backend/src/main.rs:3662-3671 | A card with 500 alone: the series is -500 |
| `NetWorthAccounts.LoanAlone` | backend/src/main.rs:3662-3671 | A loan likewise |
| `NetWorthAccounts.HouseAlone` | backend/src/main.rs:3652-3661 | A property alone: the series is 500 |
| `Analytics.SignsAgreeUnlessCreditCard` | backend/src/services/analytics_service.rs:308-342 | Backend and dashboard agree on an amount that nothing excludes, except the sign on Teller accounts of type "credit card" |
| `Analytics.SumSpendingIsSum` | backend/src/services/analytics_service.rs:344-361 | The zero-spend filter does not change the total |
| `Analytics.GroupByEffectiveCategory` | backend/src/services/analytics_service.rs:392-420 | Category values are the sums of their transactions, and add up to the total |
| `Analytics.MonthlyCategoryTotals` | backend/src/services/analytics_service.rs:493-535 | Each (month, category) cell is the sum of its transactions; a category is the sum of its cells |
| `Analytics.AggregatesAgree` | backend/src/services/analytics_service.rs:344-535 | With both bounds or none, total, categories, merchants and cells agree, and each category is the sum of its cells across months |
| `Analytics.DailyTotals` | backend/src/services/analytics_service.rs:721-741 | One slot per day, every access in range |
| `Analytics.Accumulate` | backend/src/services/analytics_service.rs:741-755 | Running totals: each cumulative value is the spending of the month up to that day |
| `Analytics.DailySpendings` | backend/src/services/analytics_service.rs:721-755 | Each cumulative value is the prefix sum of the daily spends |
| `Analytics.LastCumulativeIsMonthTotal` | backend/src/services/analytics_service.rs:757-771 | For every month the last cumulative value is the spending over the month range, leap years and December included |
| `Analytics.TopMerchants` | backend/src/services/analytics_service.rs:606-665 | The total over all merchants and the largest of them, each with what was spent there and how often |
| `Analytics.HalfOpenRangesDiffer` | backend/src/services/analytics_service.rs:399-520 | With one bound a category, or the whole, agrees between the two views if and only if the spending dated beyond the bound sums to zero; otherwise they differ by that sum |
| `Analytics.JanuaryShownFromFebruary` | backend/src/services/analytics_service.rs:399-520 | One January spend asked for from February on: 100 in the grouping, nothing in the cells |
| `Analytics.TellerCardSignsDiffer` | backend/src/services/analytics_service.rs:323-341 | A purchase on a Teller account of type "credit card" that the two sides count with opposite signs |
| `AnalyticsSpending.OneTransactionAdds` | backend/src/services/analytics_service.rs:285-361 | Wherever it stands, a transaction adds its amount to the total, to one category and to one merchant, in the windows its day lies in |
| `AnalyticsSpending.UsersCategoryWins` | backend/src/services/analytics_service.rs:285-302 | A custom category that is not empty takes all of it, whatever rule and provider say |
| `AnalyticsSpending.EmptyChoiceHidesRule` | backend/src/services/analytics_service.rs:285-302 | An empty custom category hides the rule and brings back the provider's |
| `AnalyticsSpending.WindowsByDay` | backend/src/services/analytics_service.rs:344-520 | The date filters as ranges of days |
| `SyncProtocol.DateRange` | backend/src/services/sync_service.rs:135-151 | A window ends today, is never inverted or longer than 1825 days, and reaches back to the last sync unless that is further away |
| `SyncProtocol.ConnectionService.RecordConnectionError` | backend/src/services/connection_service.rs:94-109 | Status and error are recorded, the rest of the connection stays, and a failed save is swallowed |
| `SyncProtocol.ConnectionService.SyncProviderConnection` | backend/src/services/connection_service.rs:464-675 | New connection, stored connection, window asked for, result and cursor of a Plaid attempt, for every way it can go |
| `SyncProtocol.ConnectionService.SyncTellerConnection` | backend/src/services/connection_service.rs:681-960 | The same for a Teller attempt, where a failed last save is an error |
| `SyncProtocol.FailureKeepsLastSync` | backend/src/services/connection_service.rs:921-932 | A failed attempt never moves the stored last_sync_at, and moves the one in memory exactly when a Teller save fails at the end |
| `SyncProtocol.StatusTellsError` | backend/src/services/connection_service.rs:94-101 | Over every run the status says connected exactly while no error is recorded |
| `SyncProtocol.LastSyncIsLastSaved` | backend/src/services/connection_service.rs:621-625 | Over every run the stored last_sync_at is the stamp of the last attempt that fetched and was saved |
| `SyncProtocol.WindowByDays` | backend/src/services/sync_service.rs:135-151 | The window in days: two days behind the last sync, at most 1825, 730 without one |
| `SyncProtocol.NextWindowOverlaps` | backend/src/services/sync_service.rs:135-151 | After a fetch that was saved the next window overlaps by two days or more, or is 1825 days long |
| `SyncProtocol.SignInAskedFor` | backend/src/services/connection_service.rs:94-109 | Which provider messages ask the user to sign in again |
| `SyncProtocol.SuccessIsStored` | backend/src/services/connection_service.rs:626-638 | A reported success is stored if and only if the last save worked or there was nothing new to store; Teller only reports one when it worked |
| `SyncProtocol.UnsavedFetch` | backend/src/services/connection_service.rs:621-638 | A first fetch whose save fails, on which Plaid reports success with nothing stored and Teller an error with the connection moved on |
| `SyncProtocol.SuccessesMayStoreNothing` | backend/src/services/connection_service.rs:626-638 | A run of reported successes leaves nothing stored if and only if no save worked, which only Plaid allows |
| `SyncProtocol.RunsCover` | backend/src/services/sync_service.rs:135-151 | Over every run with a clock that never runs backwards, the fetched days form one unbroken range from 730 days before the first fetch to the latest if and only if a later window takes up what an earlier one leaves off, as they do when no pause exceeds the reach of the next window; unless an attempt took two years that is the only way, and no other day is fetched |
| `SyncImport.RowIsWrittenTo` | backend/src/services/connection_service.rs:559-853 | A fetched row is written to the user's account the provider names, for Teller one of the connection; without one Plaid keeps the account the row names and Teller skips it |
| `SyncImport.NothingArrivesUnlessDelivered` | backend/src/services/connection_service.rs:464-520 | The tables stay as they are unless credentials, provider and accounts were all there |
| `SyncImport.ImportTxns` | backend/src/services/connection_service.rs:812-853 | The statements run for the fetched rows are exactly those of rows with an account whose write works; every row Teller reports is stored, Plaid reports also those that are not |
| `SyncImport.CleanUp` | backend/src/services/connection_service.rs:855-905 | After a cleanup that got through no pair is left to merge and no pending row has a posted match |
| `SyncImport.Sync` | backend/src/services/connection_service.rs:464-960 | A whole attempt on connection and tables: the store stays consistent whatever fails, its tables are where exactly the statements that got through lead, and the connection moves by its own rules |
| `Glob.ConcatenationLaw` | backend/src/utils/glob.rs:9-22 | p + q matches t if and only if t splits into a part for p and a part for q |
| `Glob.MatchesIffFits` | backend/src/utils/glob.rs:9-22 | A pattern matches exactly the texts that can be cut into one fitting part per pattern character |
| `Glob.StarsCollapse` | backend/src/utils/glob.rs:13-17 | A run of stars means one star, anywhere in a pattern |
| `Glob.PlainMatchesOnlyItself` | backend/src/utils/glob.rs:18-21 | A pattern without wildcards matches itself only |
| `Glob.PlainGlobIgnoresCase` | backend/src/utils/glob.rs:3-7 | Matching ignores case and nothing else |
| `Glob.StarredMatchesContaining` | backend/src/utils/glob.rs:9-22 | *x* matches exactly the texts that contain x |
| `CategoryRules.ApplyCategoryRules` | backend/src/main.rs:2740-2753 | In place, each transaction gets the category of its first matching rule and is otherwise untouched |
| `CategoryRules.LongestPatternWins` | backend/src/services/repository_service.rs:2104-2108 | With rules in stored order the category is that of a longest matching pattern, the latest updated among those |
| `CategoryRules.UntouchedUnlessApplicable` | backend/src/main.rs:2741-2743 | A custom category, or no matching rule, leaves the transaction as it is |
| `CategoryRules.ApplyingTwiceIsOnce` | backend/src/main.rs:2740-2753 | Applying the rules twice equals applying them once |
| `CategoryRules.ShortRulesTie` | backend/src/services/repository_service.rs:2104-2108 | Two concrete rules between which the database is free to choose |
| `CategoryRules.TopCanWin` | backend/src/services/repository_service.rs:2104-2108 | Every rule the order lets come first among those that apply does come first in some fetch |
| `CategoryRules.FetchesAgreeIff` | backend/src/services/repository_service.rs:2104-2108 | Two fetches can categorise a transaction differently if and only if two rules that may both come first disagree |
| `OptimisticList.SharedList.Play` | frontend/src/utils/optimistic.ts:4-60 | The helpers, cut at their await and interleaved in any way, with the snapshots they captured, leave what the surviving steps replay to: a failure undoes everything since its call began |
| `OptimisticList.EventIsFaithful` | frontend/src/utils/optimistic.ts:4-60 | Each step of a call moves the shared list exactly as intended, whatever other calls are in flight |
| `OptimisticList.InterleavingIsFaithful` | frontend/src/utils/optimistic.ts:4-60 | After any interleaving, failures of every kind included, the list is the base list followed, in start order, by the temporary item of each create in flight and what became of each finished one, as the surviving steps intend it |
| `OptimisticList.FailureRemovesOnlyOwn` | frontend/src/utils/optimistic.ts:15-19 | A failed create removes its own item only if and only if no other item has its temporary id |
| `OptimisticList.RollbackExactIff` | frontend/src/utils/optimistic.ts:29-60 | The list a failed update or delete leaves is right, given what other creates, updates and deletes did meanwhile, if and only if nothing they did lasts |
| `OptimisticList.RollbackLosesCreate` | frontend/src/utils/optimistic.ts:37-40 | A create that starts and succeeds while an update waits is lost when the update fails |

## Left out

- Rounding of floating-point and decimal numbers: amounts are whole cents, so rounding to two decimals is the identity.
- Text beyond ASCII, and the regular expressions of `normalizeMerchant`, which is a parameter of the grouping.
- HTTP handlers, JSON, providers, caches, encryption, tokens, telemetry and all React components: their answers are inputs.
- The `LIMIT 1000` of list reads, row-level security, and the columns `duplicate_reviewed_at` and `duplicate_reviewed_by`.
- Sankey colours, percentages, savings rate, counters and display names, and the rounding of amounts inside it.
- `computeCompositeMajorBudget` and `computeStats`: they add up results that are modelled here.
- `percentageUsed` of a budget card and the percentages of the analytics, which round.
- Order of the rows the analytics return, other than the merchants by amount.
- Null `created_at` columns: every import sets one.
- Invalid, missing or unparsable dates, and daylight saving: dates are valid days; a transaction without one is not modelled.
- Truncation of monthly totals to a number of months, and the comparison of a month with the one before.
- Amazon receipts, the re-pointing of their matches, and manual accounts' own editing.
- Disconnecting a bank, which deletes its transactions: runs of syncs are those between connecting and disconnecting.
- The queueing of React state updates: each update of the shared list takes effect at once, in call order.
- The largest date of the calendar library, beyond which a day has no successor.
