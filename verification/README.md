# Statement ledger: a verified model

The repository turns bank statements into a ledger of transactions, lets the user allocate
each transaction to categories or mark it as a transfer, and shows balances, reports and
budget alerts. The same quantity is often computed in several places by different routes.
This project models those routes in Dafny and proves when they agree, what every step keeps,
and, where a promise does not hold of the code, exactly when it does.

Run `dafny verify dfyconfig.toml` in this directory.

## The components

| files | what they model |
|---|---|
| `ParserBase`, `BalanceDeltas`, `EquityBank`, `NcbaBank`, `MentorSacco` | parsers that read only running balances and rebuild amounts and directions, the running-balance check, the opening balance recovered from the oldest row |
| `Ordering`, `Permutations`, `Mpesa` | the stable sort by completion time and the search over all orders of the leading tie |
| `ImportWorker`, `ImportOutcomes`, `ImportRuns`, `SubLedgerRuns` | the job that stores a parsed statement, which outcome it has, its deduplication, retries, sub-ledger sections, histories of jobs |
| `Statement`, `BookBalance`, `OpeningsInForce`, `Agreement`, `EndToEnd`, `BankHistories` | the running balance of the transaction statement, the book balance, the exact gap between the two, the way from the printed file to both, and whole histories against the bank's own ledger |
| `AllocationLedger`, `AllocationFiling`, `AllocationEndpoints`, `LedgerStatement` | create-allocations and bulk-allocate as steps of a state machine, what each writes for what was asked, the endpoints as they run, and how the statement shows it |
| `BudgetState`, `BudgetAlerts` | budget states from exact ratios, and the alerts over whole runs |
| `Reports`, `Dashboard` | the aggregations over joined rows, conservation of money, agreement of report and dashboard |
| `Basics` (with `Sums`) | options, sums over sequences, sets and maps |

Code that changes things step by step is a method with loops, or a class whose methods update
its fields; each is proved equal to a specification function, and the properties are lemmas
about those functions. Queries, which are single declarative expressions, are functions. Every
lemma turns automatic induction off, so its body is the whole of its proof.

## Conventions

- Money is an integer number of cents and a date an integer day, so rounding to two places
  is the identity and the comparison against 0.01 reads "differ by at most one cent".
- SHA-256 and the text it hashes are a parameter (`Fingerprint`): nothing is assumed about
  it, so distinct rows may share a key.
- Requests and jobs run one at a time, over one user's tables. A transaction's id is unique;
  in `Tables` it is the row's position, so tables stand in order of creation.
- An allocation keeps both its original and its converted amount; the endpoints always store
  the two equal, and the invariant says so.
- Python exceptions are outcomes: a parser's own refusal, or `Crashed` for anything else.

## Where the code and its documentation differ

The model follows the code in each case.

- `derive_opening_balance` is documented as always safe because the check "guarantees" the
  opening; the check tolerates a cent per row. `DeriveOpeningOfAccepted` gives the exact
  condition and `DeriveOpeningCanBeOff` an accepted list whose recovered opening is a cent
  out. No parser of today hands the check such a list: those that call it rebuild their
  amounts from the balances (`RebuiltChainsExactly`), and the M-Pesa parser does not call it.
- `_self_consistent_order` tests for a missing balance, but a row without one is first in
  some candidate and its balance is subtracted from before that test. The whole parse then
  fails; `WhenParsingFails` says precisely when, and `BlankTieFails` is such an input.
- `generate_budget_alerts` promises exactly one alert when a state rises. That holds for
  create-allocations. For a bulk request it holds if and only if exactly one of its groups is
  larger than what the whole request overshoots the new state's floor by
  (`BatchAlertsExactly`, `StoreKeepsStoryExactly`); `BulkCanAlertTwice` and `BulkCanMissAlert`
  are two requests for which it fails.
- The book balance of an account with any sub-ledger leaves out everything filed under none,
  statements included (`SubLedgersHideFlatImports`, `SubLedgerHidesTheImport`).
- A failed import is meant to have written nothing. `FailedImportHoldsARow` is one that holds
  its transaction: an exception raised between two writes leaves the first in place.
  `LeavesRowsExactly` and `LeavesOpeningsExactly` say when nothing was written. A full retry
  puts the tables right (`RetryCompletes`), with the old error text left beside the status
  `parsed`.
- Rows are deduplicated by a key that does not tell every two bookings apart. NCBA's is made of
  description and amount, so of two equal charges in one statement the second is skipped and
  the account does not show the statement's closing balance (`TwoEqualChargesAreOff`);
  `LastPrintedBalanceIsShown` gives the exact condition.
- The statement of an empty filter range opens and closes at the account's very first
  balance. `EmptyWindowShowsTheStart` says exactly when that is the balance at the range, and
  `EmptyWindowIsOff` is a range for which it is not.
- The statement report's documentation says the account balance is read from the newest
  stored balance; `accounts.py` replays from the newest opening balance instead, so a row that
  stores no balance still counts (`TypedRowMovesTheBalance`).
- When two sections merge into one sub-ledger only the first one's opening survives
  (`FirstSectionOpens`), and rows of a later section dated before the first one's first row are
  not replayed. `MergedSectionsAgree` is the exact condition under which the balance is right
  all the same; `TwoLoansAreOff` and `EarlierLoanIsLost` are inputs for which it is not.
- The provider runbook dedupes Equity Bank rows by reference and amount and says a fragment of
  description attached to the wrong row does no harm to that; the code also hashes the
  description, so the same booking can be stored twice (`TextDecidesDuplicates`).

## Model

| member | source | states |
|---|---|---|
| ParserBase.ValidateRunningBalance | app/parsers/base.py:68-90 | accepts exactly the lists whose every row is within a cent of the stated balance before it; otherwise names the first row that is not, and tells a mismatch from a missing balance |
| ParserBase.DriftBounded | app/parsers/base.py:79-90 | after n accepted rows the stated balance is within n cents of opening plus net movement |
| ParserBase.DriftIsReached | app/parsers/base.py:79-90 | that bound is the best possible, for every n and every opening |
| ParserBase.ExactChainAccepts | app/parsers/base.py:68-90 | a list that chains without tolerance is accepted |
| ParserBase.StatementPeriod | app/parsers/base.py:93-101 | the two dates bound every row and both are reached |
| ParserBase.DeriveOpeningOfAccepted | app/parsers/base.py:104-123 | over an accepted list the recovered opening is within a cent of the true one, and equal to it exactly when the first row chains exactly |
| ParserBase.DeriveOpeningCanBeOff | app/parsers/base.py:104-123 | an accepted list whose recovered opening is not the opening it was checked against |
| BalanceDeltas.BuildTransactions | app/parsers/ncba_bank.py:127-146 | the loop rebuilds each row from its balance and the one before |
| BalanceDeltas.RebuiltRows | app/parsers/ncba_bank.py:127-146 | each rebuilt row keeps its printed row's date, text and balance, and its key is taken of that row and the rebuilt amount |
| BalanceDeltas.RebuiltChainsExactly | app/parsers/equity_bank.py:109-143 | whatever was read, the rebuilt rows chain exactly, pass the check, and give the opening back |
| BalanceDeltas.RebuildInvertsPrinting | app/parsers/ncba_bank.py:127-149 | feeding only the printed balances returns the original dates, texts, amounts and directions if and only if every movement is positive or a zero credit |
| BalanceDeltas.WrongOpeningHitsFirstRowOnly | app/parsers/equity_bank.py:109-142 | a wrong opening is absorbed by the first row, by its whole error, and is not noticed by the check |
| EquityBank.DedoubleInvertsDoubling | app/parsers/equity_bank.py:37-48 | undoing faux bold gives back the word that was doubled |
| EquityBank.DedoubleTouchesOnlyDoubled | app/parsers/equity_bank.py:37-48 | a word that is changed was a doubled word, of the result |
| EquityBank.FirstTotalIsFirst | app/parsers/equity_bank.py:100-107 | the first Total row decides, and only a statement without any has none |
| EquityBank.ParseStatementText | app/parsers/equity_bank.py:70-144 | refuses a statement without a Total row; any other parses, as the rows its lines spell rebuilt from the Total row's opening |
| EquityBank.ScanSkipsNoise | app/parsers/equity_bank.py:78-87 | Total rows and blank lines never affect the rows read, wherever they stand |
| EquityBank.ScanOfLayout | app/parsers/equity_bank.py:78-98 | text wrapped over earlier lines ends up, in order, in the description of its own row |
| EquityBank.DescribedSpells | app/parsers/equity_bank.py:89-97 | a description is the waiting text and the data line's own, one space between any two pieces, nothing where one is missing |
| EquityBank.ParsingInvertsLayout | app/parsers/equity_bank.py:70-144 | round trip: any movements laid out over wrapped lines, with noise anywhere and a true first Total row, come back exactly if and only if all are visible in the balances, with the true opening |
| NcbaBank.BandsPartition | app/parsers/ncba_bank.py:86-92 | a height lies in a band if and only if it is between the first date less 2 and the bottom less 2, and then in exactly the one `band_for` names |
| NcbaBank.BandMonotone | app/parsers/ncba_bank.py:88-92 | lower words never fall into earlier bands |
| NcbaBank.CellWords | app/parsers/ncba_bank.py:60-62 | a cell's words are exactly those that start within its width, one unit of slack on either side, between the block's top and bottom |
| NcbaBank.CollectDescriptions | app/parsers/ncba_bank.py:94-98 | each slot ends up with the texts of the words in its band, in order |
| NcbaBank.CollectBalances | app/parsers/ncba_bank.py:100-104 | each slot ends up with the last balance word in its band |
| NcbaBank.WordsAreConserved | app/parsers/ncba_bank.py:94-98 | the bands read top to bottom give every in-range word once, in sorted order |
| NcbaBank.PageWordsAreConserved | app/parsers/ncba_bank.py:65-98 | the same on every page, from the raw words: none lost, repeated or moved |
| NcbaBank.BalanceOfBand | app/parsers/ncba_bank.py:100-109 | a row is kept exactly when a balance word lies in its band, and carries the lowest one |
| NcbaBank.ParsePage | app/parsers/ncba_bank.py:65-117 | the page's rows, one per date whose band has a balance |
| NcbaBank.PageRowsAreTheBands | app/parsers/ncba_bank.py:65-117 | the rows of a page are, top to bottom, exactly the bands with a balance word in them: each with its heading date, all its description words in reading order and its lowest balance |
| NcbaBank.PagesInOrder | app/parsers/ncba_bank.py:120-125 | the statement's rows are the pages' rows, page after page |
| NcbaBank.ParseStatement | app/parsers/ncba_bank.py:120-150 | refuses only a statement without an opening balance; otherwise the rows of all pages, rebuilt |
| MentorSacco.BuildSection | app/parsers/mentor_sacco.py:67-101 | the loop's rows are the section's rows rebuilt from the opening it reports; `OpeningOfSection` says which opening that is |
| MentorSacco.OpeningOfSection | app/parsers/mentor_sacco.py:67-88 | where opening lines stand, the balance on the last one is the section's opening and the first row moves from there; where none does, the opening is the first row's balance less its printed amount |
| MentorSacco.Flush | app/parsers/mentor_sacco.py:114-136 | closing a section yields exactly what its lines say; the check inside never fails |
| MentorSacco.ParseStatement | app/parsers/mentor_sacco.py:104-170 | the loop and its flushes give one section per header with the lines under it; there is no refusal |
| MentorSacco.OneSectionPerHeader | app/parsers/mentor_sacco.py:140-150 | one section per header occurrence, in file order, not merged by name |
| MentorSacco.SectionsPartitionLines | app/parsers/mentor_sacco.py:139-170 | the sections' data lines end to end are the file's data lines after its first header |
| MentorSacco.RowsAreTheRowLines | app/parsers/mentor_sacco.py:158-167 | a section's rows are its data lines other than opening lines, one for one |
| MentorSacco.SectionIsSound | app/parsers/mentor_sacco.py:67-137 | a section's transactions carry its row lines, chain exactly from its opening, give that opening back, and without a stated opening book the first row at its printed amount |
| MentorSacco.BlocksInvertTheFile | app/parsers/mentor_sacco.py:139-170 | each data line stands under the header it followed: written out again, the sections are the file from its first header on, without the noise |
| MentorSacco.SectionInvertsPrinting | app/parsers/mentor_sacco.py:67-101 | round trip: movements printed under a true opening line come back with that opening, exactly if and only if all are visible |
| MentorSacco.ParsingInvertsStatement | app/parsers/mentor_sacco.py:104-170 | round trip of a whole file: sub-ledgers printed one after another, with noise anywhere, come back one for one with name and opening, each exactly if and only if its movements are visible |
| MentorSacco.SectionKeys | app/parsers/mentor_sacco.py:52-64 | every key is taken under the name of its own section |
| Permutations.PermsAreReorderings | app/parsers/mpesa.py:124 | the candidate list holds exactly the reorderings |
| Permutations.PermsDistinct | app/parsers/mpesa.py:124 | each of them once |
| Permutations.SameRowsRearranged | app/parsers/mpesa.py:204-208 | lists of the same rows are each other's rearrangement by positions |
| Mpesa.IsConsistent | app/parsers/mpesa.py:126-140 | one candidate passes exactly when it chains from the opening its first row implies |
| Mpesa.SelfConsistentOrder | app/parsers/mpesa.py:102-144 | returns an order exactly when one and only one order of positions chains; fails when a balance is blank |
| Mpesa.ResolvedIsRearranged | app/parsers/mpesa.py:102-144 | the order returned has the cluster's rows and chains |
| Mpesa.EqualRowsNeverResolve | app/parsers/mpesa.py:144 | a cluster with two equal rows is never resolved |
| Mpesa.FileOrderIsIrrelevant | app/parsers/mpesa.py:102-144 | shuffling the cluster does not change the answer |
| Mpesa.ResolveLeadingTie | app/parsers/mpesa.py:147-171 | finds the run sharing the first timestamp and replaces only it, only by the one order found |
| Mpesa.SettlingKeepsTheStatement | app/parsers/mpesa.py:147-171 | the result is sorted, has the same rows and times, and is untouched after the leading run |
| Mpesa.WhenParsingFails | app/parsers/mpesa.py:124-137 | a sorted statement fails if and only if two or more rows share its first timestamp and one of them shows no balance |
| Mpesa.BlankTieFails | app/parsers/mpesa.py:126-137 | two completed rows of one second, one without a balance: the parse fails |
| Mpesa.ParseStatement | app/parsers/mpesa.py:174-210 | the transactions are one for one the rows whose status is blank or completed, by completion time, each with its row's day, details, balance, key and movement; the parse fails if and only if two such rows share the earliest second and one of that second shows no balance |
| Mpesa.ReadingIsTheTable | app/parsers/mpesa.py:177-202 | exactly the blank and completed rows are read, one for one and in file order |
| Mpesa.ParsingInvertsPrinting | app/parsers/mpesa.py:174-210 | round trip: the rows of true movements, no two of one second, listed in any order, parse to the movements in the order they happened, if and only if no outgoing one is negative |
| Mpesa.ParseOutputShape | app/parsers/mpesa.py:174-210 | the output holds exactly the rows read, in time order |
| Mpesa.LaterTiesKeepFileOrder | app/parsers/mpesa.py:204-209 | rows of any later timestamp stay in file order |
| ImportWorker.Worker.InsertTransactions | app/repositories/transactions.py:18-65 | the table afterwards, and inserted plus skipped equals parsed |
| ImportWorker.InsertIsUnion | app/repositories/transactions.py:37-65 | the account's keys become the union of old and new, other accounts' keys and stored rows stay, no key is stored twice |
| ImportWorker.FirstWriterIsKept | app/repositories/transactions.py:40-53 | every new row is the first of the batch with its key, field by field as parsed, filed under the import's account and sub-ledger, and its key was not there |
| ImportWorker.InsertedPlusSkipped | app/worker.py:51-54 | rows inserted and rows skipped add up to rows parsed |
| ImportWorker.InsertedMovements | app/repositories/transactions.py:37-65 | a balance gains the movements parsed less those skipped, and only the balance the rows belong to |
| ImportWorker.Worker.WriteSingleAccountImport | app/worker.py:48-70 | rows stored, then the import marked parsed with period, count and opening; what is left when either write raises |
| ImportWorker.Worker.WriteSubLedgerImport | app/worker.py:73-144 | every selection is resolved before anything is written, and an unresolved one leaves the tables alone |
| ImportWorker.Worker.WriteResolved | app/worker.py:105-144 | one insert per sub-ledger, then the openings, then the record; what is left when any of them raises |
| ImportWorker.Worker.ProcessJob | app/worker.py:147-219 | the tables each job leaves: refusals, parser crashes, and a database that raises after any number of writes, with the mark as failed going through or not; `JobOutcome` says which jobs end how |
| ImportOutcomes.JobOutcome | app/worker.py:147-219 | an import ends parsed, its error text kept, if and only if the file parsed and, when it has sections, one sub-ledger at least was picked and every picked one has a section; otherwise it ends failed for the reason that applies, period, count and opening as they were |
| ImportOutcomes.SelectedInOrder | app/repositories/statement_imports.py:82-95 | the sub-ledgers a job works through are those picked for its import, in the order picked |
| ImportOutcomes.NamedTogether | app/worker.py:98-103 | a sub-ledger gets the rows of every section of its name, in file order |
| ImportOutcomes.FlatRecord | app/worker.py:60-70 | a parsed single-account import counts every row, spans exactly their days and records the first row's balance less its movement, or no opening when that row has no balance |
| ImportOutcomes.SectionedRecord | app/worker.py:105-144 | a parsed sub-ledger import counts and spans the rows of all its groups and records no opening of its own |
| ImportWorker.FailureWritesNothing | app/worker.py:85-103 | a job whose writes all go through ends parsed or failed; if failed, by a refusal, a parser crash or an unresolved selection, it has written no transaction and no opening, and no other import is touched |
| ImportWorker.InterruptedJob | app/worker.py:209-219 | what a job broken off by the database can leave: a beginning of the rows a clean run would add, the openings as before or as after, and a record that is unchanged or marked failed |
| ImportRuns.LeavesRowsExactly | app/worker.py:183-219 | however a job ends, failed ones included, it has left the transactions alone if and only if the account already had every key delivered before it ended |
| ImportRuns.LeavesOpeningsExactly | app/worker.py:122-134 | it has left the openings alone if and only if it did not get to recording them, or each was recorded already |
| ImportRuns.FailedImportHoldsARow | app/worker.py:51-70 | a concrete import that is marked failed and whose transaction is stored |
| ImportWorker.SubLedgerImportIsComplete | app/worker.py:85-144 | every selected sub-ledger's rows are stored, each new row stands under its own sub-ledger, the count is their total, the period bounds them all |
| ImportWorker.NewRowsComeFromTheirGroup | app/worker.py:108-116 | a row added by a sub-ledger import came from the section it is filed under |
| ImportRuns.RunsStoreTheUnion | app/repositories/transactions.py:40-53 | after any history of jobs, refused and interrupted ones included, an account holds exactly the keys it had and those some job delivered, each once, with stored rows never rewritten |
| ImportRuns.RetryChangesNothing | app/worker.py:147-219 | running a job again, at once or after any jobs of other imports, changes neither rows, records nor openings |
| ImportRuns.RetryCompletes | app/worker.py:209-219 | wherever a job was broken off, a full run afterwards leaves the tables as one clean run would, but for the old error text |
| ImportRuns.RetriesCatchUp | app/worker.py:209-219 | the same after any number of broken attempts |
| ImportRuns.ImportOffersItsOpening | app/worker.py:59-70 | an import of any list whose first row has a balance offers its recovered opening as an anchor |
| ImportRuns.ImportedBalance | app/repositories/accounts.py:35-83 | with that anchor in force and no sub-ledgers, the book balance is the opening plus the file's movements from its day on, plus those already there, less those skipped, for any list, chained or not |
| ImportRuns.FreshImportShows | app/repositories/accounts.py:35-83 | into a fresh account without sub-ledgers, the book balance is the recovered opening plus what the file books from that day on, less the rows skipped as duplicates of each other |
| ImportRuns.FreshImportShowsClosing | app/worker.py:48-70 | it differs from the printed closing balance by exactly the breaks in the stated balances, the rows dated outside the days, and the rows skipped |
| ImportRuns.FreshChainShowsClosing | app/worker.py:48-70 | so for a chained statement they are equal if and only if the rows outside the days and the rows skipped cancel out |
| ImportRuns.SubLedgersHideFlatImports | app/repositories/accounts.py:53-83 | a statement filed under no sub-ledger never changes the book balance of an account that has any, on any day |
| ImportRuns.SubLedgerHidesTheImport | app/repositories/accounts.py:83 | an account with one empty sub-ledger shows nothing after importing a statement that closes at 100.00 |
| SubLedgerRuns.OpeningOfMerged | app/worker.py:92-124 | rows merged under one name yield the opening of the first section that has rows |
| SubLedgerRuns.FirstSectionOpens | app/worker.py:119-135 | each picked sub-ledger records the opening its first filled section reported, or keeps what it had |
| SubLedgerRuns.ParsedOpeningsHold | app/parsers/mentor_sacco.py:67-137 | the parser's sections give their own openings back, as the results below ask |
| SubLedgerRuns.SubLedgerShowsItsSections | app/repositories/accounts.py:53-78 | after any upload whose opening is in force, first or later, with or without duplicates, a sub-ledger shows that opening plus all that stands on it from its day on: what was there and what the upload gained it |
| SubLedgerRuns.NewSubLedgerShowsItsSections | app/repositories/accounts.py:53-78 | a new one, nothing being repeated, shows the opening plus what every section of its name books from that day on |
| SubLedgerRuns.MergedSectionsGap | app/worker.py:92-124 | after any upload, its distance from the sections' combined closing balance: the later openings, and what stands on it beside or short of the sections' rows |
| SubLedgerRuns.MergedSectionsAgree | app/worker.py:92-124 | on a new sub-ledger that distance is zero if and only if the later openings, and the rows dated before the first section's first row or after the day, cancel out |
| SubLedgerRuns.TwoLoansAreOff | app/worker.py:92-124 | two concrete loans under one name: the account shows 1.10 where the two closing balances come to 1.60, the second opening being lost |
| SubLedgerRuns.EarlierLoanIsLost | app/repositories/accounts.py:74 | two more, both opened at zero, the second dated earlier: the account shows 1.00 where the closing balances come to 1.50 |
| SubLedgerRuns.SubLedgerShowsItsLastBalance | app/repositories/accounts.py:53-78 | after any upload with one section under its name, it shows the last balance printed in it but for what else stands on it and what of the section does not |
| SubLedgerRuns.NewSubLedgerMisses | app/repositories/accounts.py:53-78 | on a new one, nothing being repeated, that is only the rows dated outside the days |
| SubLedgerRuns.AccountShowsLastBalances | app/repositories/accounts.py:53-83 | after any upload, each sub-ledger picked having one section whose opening is in force, the book balance is the signed sum of the last balances printed for those picked, each with what it misses, and of the others as they were |
| Statement.ComputeLines | app/repositories/reports.py:699-707 | the forward pass gives row j the start plus all movements up to it |
| Statement.BuildTransactionStatement | app/repositories/reports.py:632-759 | opening and closing are the true balances just before the first and after the last displayed row, totals ignore paging, the page is the slice asked for |
| Statement.AnchorIsHit | app/repositories/reports.py:689-702 | the forward pass arrives at the anchor's own stated balance |
| Statement.KnownBalanceIsHit | app/repositories/reports.py:689-702 | any later known balance is reproduced if and only if it differs from the anchor's by the movements between them |
| Statement.InsertBeforeAnchor | app/repositories/reports.py:689-702 | a manual row before the anchor leaves balances from its own row on alone and moves earlier ones by minus its amount |
| Statement.InsertAfterAnchor | app/repositories/reports.py:689-702 | one after the anchor moves only the balances that follow |
| Statement.DisplayedExactly | app/repositories/reports.py:709-720 | the displayed rows are exactly the matching ones, in order |
| Statement.FlowIdentity | app/repositories/reports.py:720-731 | for any filters, closing less opening is credits less debits plus the movements hidden between the first and last displayed row |
| Statement.TotalsAreSums | app/repositories/reports.py:729-730 | total credit and total debit are each the sum of the displayed rows of that direction |
| LedgerStatement.DisplayedByLedger | app/repositories/reports.py:704-720 | on a sound ledger exactly the transactions the date, status and category filters ask for are displayed, reconciled meaning that the allocations come to the amount and a category meaning that some allocation is under it |
| LedgerStatement.BulkShows | app/api/transactions.py:496-526 | after a bulk request every transaction named is shown as reconciled, and those it filled are found under the category asked for |
| LedgerStatement.SplitsShow | app/api/transactions.py:349-362 | after accepted splits the transaction is found under every category they name, and is reconciled exactly when they take all that was left |
| Statement.DateWindowBalances | app/repositories/reports.py:709-731 | with only dates filtered nothing is hidden in between |
| Statement.AdjacentWindowsMeet | app/repositories/reports.py:709-731 | adjacent non-empty windows meet exactly |
| Statement.EmptyWindowShowsTheStart | app/repositories/reports.py:722-731 | an empty window opens and closes at the balance before the account's first row, which is the balance at the window's start if and only if everything booked before it cancels out |
| Statement.EmptyWindowMeets | app/repositories/reports.py:722-731 | a non-empty window and an empty one after it meet if and only if everything booked up to the cut cancels out |
| Statement.EmptyWindowIsOff | app/repositories/reports.py:722-731 | a concrete history and window that open at zero although the account holds 1.00 |
| Statement.PagesConcatenate | app/repositories/reports.py:733-736 | the pages in order give every displayed line once |
| BookBalance.NewestApplies | app/repositories/accounts.py:37-45 | the anchor chosen is one dated up to the day asked about, and there is none only if no anchor is |
| BookBalance.NewestIsNewest | app/repositories/accounts.py:43-44 | it has the latest such date, and on equal dates it is the one created last |
| OpeningsInForce.AccountStartsFrom | app/repositories/accounts.py:37-45 | the balance starts from the latest-dated opening the account's imports state, whatever their status, the last created among equals, and from nothing only if none is dated up to the day |
| OpeningsInForce.SubLedgerStartsFrom | app/repositories/accounts.py:61-69 | and a sub-ledger's from the latest one recorded with a selection of it |
| BookBalance.NoSubLedgers | app/repositories/accounts.py:53-83 | without sub-ledgers the balance is the direct one |
| BookBalance.SubLedgersAddUp | app/repositories/accounts.py:53-83 | with any sub-ledger the balance is the sub-ledgers' own, added or subtracted as marked, and the account's direct rows do not count |
| BookBalance.SupersedingIsInvisible | app/repositories/accounts.py:37-52 | a newer anchor changes no later balance if and only if it states what the older one and the movements before its day imply |
| BookBalance.LateImportIsIgnored | app/repositories/accounts.py:43 | an older statement imported later changes nothing |
| BookBalance.BalanceMovesByMovements | app/repositories/accounts.py:46-52 | between anchors the balance moves by the movements in between |
| BookBalance.ConsistentAnchorsAgree | app/repositories/accounts.py:37-52 | over consistent anchors, however many, the balance is the base plus all movements |
| Agreement.DirectGap | app/repositories/accounts.py:37-52 | direct balance less statement closing, for every ledger, anchor and day: what the opening misses of the statement's balance at the start of its day, less the rows filed under sub-ledgers |
| Agreement.Discrepancy | app/repositories/reports.py:689-731 | without sub-ledgers, book balance less statement closing is exactly that miss; they agree if and only if the opening is the statement's own balance at the start of its day |
| Agreement.ClosingFromDay | app/repositories/reports.py:699-731 | without sub-ledgers, the statement closes at its balance at the start of any day plus what the account moved from then on |
| Agreement.SubLedgersDecide | app/repositories/accounts.py:53-83 | with any sub-ledger, book balance less statement closing is what the sub-ledgers' openings say was there at first, signed, less where the statement starts, less all direct movements, less twice all movements on subtracted sub-ledgers |
| Agreement.FirstImportAgrees | app/repositories/accounts.py:35-83 | when the import's first row is the statement's anchor, book balance and statement agree if and only if the rows listed before it on its day cancel out |
| Agreement.LaterImportAgrees | app/repositories/accounts.py:35-83 | with several imports, if and only if the newest import's first balance continues the oldest known one, but for the rows listed before it on its day |
| Agreement.SameDayManualRowSplitsThem | app/repositories/accounts.py:50 | a manual row listed before the import on its first day is counted by the book balance only |
| EndToEnd.LastPrintedBalanceIsShown | app/worker.py:48-70 | whatever balances a statement prints, its import into a fresh account makes the book balance the last one printed if and only if: without sub-ledgers, the rows outside the days and the rows skipped for sharing a key cancel out; with some, they already showed that figure |
| EndToEnd.TwoEqualChargesAreOff | app/parsers/ncba_bank.py:36-42 | two equal charges in one statement, whatever the hash: the account shows 0.50 where the statement ends at 1.00 |
| EndToEnd.EnginesAgreeAfterImport | app/repositories/reports.py:689-731 | after importing any list whose first row has a balance and typing in any rows by hand, book balance and statement agree on a later day if and only if the statement's balance at the start of the import's first day is the recovered opening |
| EndToEnd.EnginesAgreeFromTheFirstRow | app/repositories/reports.py:689-731 | where the import's first row is the first known balance listed, if and only if the rows listed before it on its day cancel out |
| EndToEnd.EnginesAgreeOverHistory | app/repositories/accounts.py:35-83 | after any history of imports, repeated, overlapping, refused or interrupted, and manual rows, they agree if and only if the rows on record between the statement's start and the newest opening's day come to what the bank booked in that time |
| BankHistories.StatementIsTrue | app/parsers/base.py:104-123 | a statement cut from the bank's ledger at the start of a day recovers the bank's own figure for the day before |
| BankHistories.RecordedAsBooked | app/repositories/transactions.py:40-53 | after any history of such statements that together deliver every booking of some days, nothing being typed in for them, the account moved in those days as the bank says |
| BankHistories.AccountShowsTheBank | app/repositories/accounts.py:35-83 | and with the newest opening in force among those days, the book balance is what the bank held |
| BankHistories.StatementShowsTheBank | app/repositories/reports.py:689-731 | and so is the statement's closing balance, if the statement starts those days with the bank's figure |
| EndToEnd.TypedRowMovesTheBalance | app/repositories/accounts.py:46-52 | a row typed in moves the book balance by its signed amount from its day on, while the newest stored balance stays what it was |
| EndToEnd.TextDecidesDuplicates | app/parsers/equity_bank.py:59-61 | a booking read twice with different descriptions is stored twice if and only if the hash tells them apart |
| EndToEnd.StatementStartsTrue | app/repositories/reports.py:691-695 | the statement starts the anchor's day with the bank's figure if and only if the rows listed before the anchor on that day cancel out |
| EndToEnd.DriftFromFirstRow | app/parsers/base.py:79-90 | in an accepted list the stated balance of row i is within i cents of the first stated one plus the movements since |
| EndToEnd.ReportStaysWithinCents | app/repositories/reports.py:691-707 | over such a list the report's balance for row i is within i cents of the printed one |
| AllocationLedger.AcceptedExactlyWhen | app/api/transactions.py:232-347 | a create request passes the checks if and only if every split is positive, well shaped, known and of the right type and the total fits |
| AllocationFiling.RejectedForATrueReason | app/api/transactions.py:232-347 | a refused request has the fault it is refused for, at the split named, no earlier split has it and no earlier kind of fault is present |
| AllocationFiling.CreateFilesEverySplit | app/api/transactions.py:349-362 | an accepted request adds one allocation per split, in order, with the split's own category, reason, source, amount and note; every budget whose window and currency fit grows by what the splits put under its category, every other stays |
| AllocationFiling.BulkAcceptedExactlyWhen | app/api/transactions.py:445-494 | a bulk request is accepted if and only if it has one shape, names some and only known transactions, and asks for known categories of the right type, the last mapping of an id deciding |
| AllocationFiling.BulkRejectedForATrueReason | app/api/transactions.py:445-494 | a refused bulk request has the fault it is refused for |
| AllocationFiling.BulkFilesAsAsked | app/api/transactions.py:496-526 | an accepted one adds one allocation per named transaction with money left, in the order first named: all that is left, under the category asked for, and nothing else |
| AllocationFiling.BulkSpending | app/api/transactions.py:496-526 | every budget grows by what was left of the fitting transactions put under its category, each once however often named |
| AllocationLedger.CreateKeepsInv | app/api/transactions.py:332-362 | create-allocations keeps the ledger's invariant |
| AllocationLedger.BulkSplitsAndFills | app/api/transactions.py:496-526 | a bulk request splits the distinct ids into updated, then allocated to exactly their amounts, and skipped, already full; nothing else changes |
| AllocationLedger.BulkTwiceIsBulkOnce | app/api/transactions.py:496-526 | the same bulk request again is accepted, updates nothing and changes nothing |
| AllocationLedger.RunsKeepInv | app/api/transactions.py:232-362 | on every reachable ledger allocations are positive, sum to at most the amount, never have both category and reason, and fit the direction |
| AllocationLedger.RejectedChangesNothing | app/api/transactions.py:232-347 | a rejected request leaves the ledger as it was |
| AllocationLedger.StatusNeverMovesBack | app/repositories/transactions.py:125-129 | along any run a transaction's status only advances |
| AllocationLedger.StatusMeans | app/repositories/transactions.py:125-129 | reconciled means nothing is left, unreconciled that nothing was allocated, partial anything between |
| AllocationEndpoints.Endpoints.RecordTransaction | app/repositories/transactions.py:84-106 | a new transaction enters under an id nothing else has, as the state machine's step |
| AllocationEndpoints.Endpoints.CheckItems | app/api/transactions.py:237-272 | the two loops report the first split at fault, amounts before shapes |
| AllocationEndpoints.Endpoints.CheckTypes | app/api/transactions.py:319-330 | the first split whose category does not fit the direction |
| AllocationEndpoints.Endpoints.CreateAllocations | app/api/transactions.py:232-387 | the endpoint takes the state machine's create step and reports its verdict |
| AllocationEndpoints.Endpoints.BulkAllocate | app/api/transactions.py:445-574 | the endpoint takes the bulk step and returns the updated and skipped ids |
| AllocationEndpoints.Endpoints.StoreAllocations | app/api/transactions.py:349-387 | insert first, then add up per category, date and currency, then alert |
| AllocationEndpoints.Endpoints.ConsiderBudget | app/repositories/notifications.py:95-150 | one budget: an alert exactly when subtraction says the group raised its state to near, at or over |
| AllocationEndpoints.Endpoints.GenerateBudgetAlerts | app/repositories/notifications.py:36-150 | appends the alerts the group calls for, budget by budget, judged after the insert |
| BudgetState.StateMeansMoney | app/services/budget_state.py:34-56 | over means past the limit, at on it, near from the given share of it on, good that the target is met; a zero limit is passed by the first cent; what remains is the limit less the consumption |
| BudgetState.StateHasFloor | app/services/budget_state.py:41-56 | every state an alert can name is reached exactly from a floor of consumption on |
| BudgetState.RankMonotone | app/services/budget_state.py:37-56 | more consumption never lowers the state, for any limit and threshold |
| BudgetAlerts.StoryBegins | app/repositories/notifications.py:69-71 | with nothing spent and nothing announced the alert history is right, given a positive threshold |
| BudgetAlerts.SpendingByGroups | app/repositories/notifications.py:99-115 | taking all groups that reach a budget away from the new figure gives the true earlier one |
| BudgetAlerts.CreateReachesOnce | app/api/transactions.py:371-387 | in a create request at most one group reaches a budget |
| BudgetAlerts.StoreRaisesOnce | app/repositories/notifications.py:115-136 | with one group reaching the budget, one alert is raised if its state rose and none otherwise |
| BudgetAlerts.AnnouncedByTheSetting | app/repositories/notifications.py:69-71 | in money and by the user's own near threshold, 0.8 when it is unset or zero: such a batch announces near, at or over exactly when it takes consumption past that share of the limit and short of it, onto it, or past it |
| BudgetAlerts.SettingDecides | app/repositories/notifications.py:69-71 | the same split of 60.00 under a limit of 100.00 announces near at a setting of 0.5 and nothing at the default |
| BudgetAlerts.OthersAreNeverAlerted | app/repositories/notifications.py:63-97 | budgets without a limit, and those of other than expense categories, are never alerted on |
| BudgetAlerts.StoreKeepsStoryExactly | app/repositories/notifications.py:115-136 | after a right alert history a batch keeps it right if and only if the state stays, or exactly one group is larger than the batch's overshoot of the new state's floor |
| BudgetAlerts.StepKeepsStoryExactly | app/api/transactions.py:371-387 | the same for any request; creates and new transactions always keep it right |
| BudgetAlerts.OneDateIsRight | app/api/transactions.py:537-557 | a bulk request that touches one date per budget keeps it right |
| BudgetAlerts.AlertsTellTheStory | app/repositories/notifications.py:36-150 | over any run, the alerts climb strictly and end at the current state after every request if and only if each bulk request meets that condition, and then there are at most three |
| BudgetAlerts.BatchAlertsExactly | app/repositories/notifications.py:115-136 | over any dates: the state the money says is announced once for each group larger than the overshoot, judged from the ledger before and the batch; so none means a missed rise, several mean repeats, and an unchanged state is never announced |
| BudgetAlerts.BulkCanAlertTwice | app/api/transactions.py:538-557 | one bulk request that raises the same alert twice |
| BudgetAlerts.BulkCanMissAlert | app/api/transactions.py:538-557 | one bulk request that raises a state and no alert |
| BudgetAlerts.ListingAgreesWithAlerts | app/repositories/budget_plans.py:254-262 | the plan listing's consumption is the alerts' on every reachable ledger, although it does not look at transfer reasons |
| Reports.GroupByTransaction | app/repositories/reports.py:101-110 | each transaction's rows together, in order of first appearance |
| Reports.AllGroupSums | app/repositories/reports.py:142-178 | adding up group by group is adding up row by row, in whatever order the rows came |
| Reports.BuildReport | app/repositories/reports.py:113-188 | every figure as a sum over rows or over transactions |
| Reports.JoinSum | app/repositories/reports.py:60-88 | summing the joined rows, in any order, is summing the matching allocations |
| Reports.CategoryTotals | app/repositories/reports.py:164-178 | a category's total is what its matching, non-transfer allocations add up to |
| Reports.CategoryTotalIsConsumption | app/repositories/notifications.py:99-114 | over a plan's window and currency it is the figure the alerts compare with the limit |
| Reports.FlowTotals | app/repositories/reports.py:147-158 | money in and out are the matching transactions without a transfer, at full amount |
| Reports.FiltersSplit | app/repositories/reports.py:83-87 | a report is split in two by direction, or by a day, and a report on one direction has no money of the other |
| Reports.AccountsSplit | app/repositories/reports.py:83-87 | every matching transaction is in the report on its own account and in no other's |
| Reports.SplitReportsAddUp | app/repositories/reports.py:142-178 | figures summed per transaction over the two parts add up to the whole |
| Reports.UnreconciledTotal | app/repositories/reports.py:160-162 | on a sound ledger the unreconciled total is exactly what is left, so the floor at zero never bites |
| Reports.MoneyIsConserved | app/repositories/reports.py:142-178 | for any filters and row order: matching amounts equal categorised plus uncategorised plus transferred plus unreconciled |
| Reports.MoneyIsConservedOnRuns | app/repositories/reports.py:142-178 | the same on every ledger a run can reach |
| Reports.ReportConserves | app/repositories/reports.py:113-188 | the figures of the report itself, with the matching transfers, come to the money of the matching transactions |
| Dashboard.BuildDashboard | app/repositories/dashboard.py:70-112 | the totals, every account's share, and the shares adding up to the totals |
| Dashboard.DashboardAgainstReport | app/repositories/dashboard.py:52-112 | dashboard less report is what flowed in other currencies on accounts of this one less what flowed in this currency on accounts of others |
| Dashboard.DashboardMatchesReport | app/repositories/dashboard.py:70-112 | so they agree when each transaction has its account's currency |

## Left out

- BudgetAlerts.BatchAlertsExactly: asks for a positive near threshold, as the settings endpoint and the users table do.
- ImportWorker.Worker.ProcessJob: does not model a process that is killed outright; a job whose exception is caught is modelled at every write.
- Binary floating point: amounts are exact cents; float noise in the comparisons against 0.01 and in sums of splits is not modelled, nor is Decimal's 28-digit precision in budget ratios.
- Real concurrency: the check and the insert of an allocation are separate queries, so the invariants are claims about requests that run one after the other.
- Extraction from PDF (pdfplumber, pikepdf), table detection and regular expressions: the parsers start from lines, words or table rows already classified; number and date formats and the errors they raise are inputs.
- Order of rows the database leaves open: ties in created_at are covered by quantifying over every order in `Agreement`; ties between anchors of one sub-ledger follow the order of the sequence.
- Text of alerts, labels and error messages, the fallback description, category names and the sort of buckets by name.
- Percentages of budget states: a rounded display value.
- The account summary, category summary, transfers list, CSV and PDF exports: further sums over the same joined rows.
- Budget plan, category, sub-ledger and account CRUD, the overlap test of budget plans, money flows and money plans: easy members.
- The endpoint for manual transactions: its result is the `Record` step; its own field checks are left out.
- Editing a category's type, or deleting rows: no step of the model does so, as the allocation endpoints do not.
- Authentication, routing, storage, queues, notification listing and reading: plumbing.
