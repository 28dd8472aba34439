# Verification of the deployment, billing and provisioning protocols

A Dafny model of the parts of the repository that must not go wrong once: the Supabase migration deployer, the
customer billing trigger, the one-off onboarding saga, the two owner bootstraps, and the release build. Run
`dafny verify dfyconfig.toml` in this directory.

| file | what it models |
|---|---|
| Text | characters and strings, for ASCII: white space, case folding, stripping |
| SqlLexer, LexerLaws | the SQL splitter as an index-jumping method and as a one-character automaton, and the laws of the automaton |
| SqlLiteral, SqlPieces, SqlRegions | string literals; texts put together from words, strings, escape strings, quoted names, dollar quotes and comments, and what the splitter makes of them |
| TransactionStatus, Transaction | what statements do to the server's transaction; the wrapper of a migration and what it refuses |
| DeploymentText, SqlItems, RequestReading, AtomicRequest | the text of a deployment request; reading a text back without the splitter; the lock, guard and receipt that the database reads in a request, and when it is one atomic transaction |
| Versions, MigrationFiles, History | versions and their order, loading a checkout, the history table, its guard and its validation |
| Deployment, Progress, LeftCommits | any number of deployers and database sessions, as a state machine over their steps; that deployments come to their end; which migrations land once, twice or never |
| AcceptedFiles | files of statements from the constructs of SQL, which are accepted and deployed |
| ManagementClient, DeployLoop | one request with its retries, and the `deploy` loop against an adversarial API |
| CatalogProjection | the cursor parser for the one answer projection that private grading may contain |
| Sets, Billing | a fresh number; concurrent transactions under the PostgreSQL trigger, against the SQLite trigger |
| AdoptionReason, AdoptionSnapshot, Provenance, AdoptionEffects, AdoptionSaga | the onboarding saga: audit reason, snapshot and phases, what the provisioning commands record, effects of the actions, the run |
| JsonValues, OwnerBootstrap, CloudBootstrap | provisioning the first owner, in Supabase and in the service's own tables |
| ReleasePaths, AssetGraph, ReleaseContents, ReleaseBuild | resolving references, the walk over the module graph, the checks of contents and the hashes, the file effects of a build |

Remote systems are adversaries: before and after every call others may change what they share with the caller, a
request may be lost or take effect without an answer, and a process may stop at any call. Database and provider choices
(keys, times, identifiers) are parameters.

## What was found

**When a migration is one transaction.** The deployer accepts a file, cuts its BEGIN and COMMIT off with a greedy
pattern and wraps the rest in a guarded transaction. The request is atomic exactly when the COMMIT that the pattern
finds is not in a line comment (`AtomicRequest.AtomicExactlyWhenCommitted`). Its receipt writes the migration's own row
unless something besides comments stands between the last statement and that COMMIT
(`AtomicRequest.ReceiptExactlyWhenNoFragment`). A migration is deployed exactly once if and only if both are in order
(`LeftCommits.ExactlyOnceExactlyWhenWhole`), and from every reachable state a deployer started anew can finish
(`Progress.AlwaysDeploys`). Every file of statements put together from the constructs of SQL that leave the transaction
alone is of this kind (`AcceptedFiles.HarmlessFileIsDeployable`). There are three ways to fail:

- `begin;a;commit;--commit;` is accepted and leaves its COMMIT in the body as a statement
  (`AtomicRequest.CommentedCommitIsAccepted`). The body is then committed, and the lock given up, before the receipt is
  written, so it can land again (`LeftCommits.SomeCheckoutLandsTwice`). However deployers of a checkout run, a body of it
  never lands twice if and only if its own file is not of this kind, whatever the other files are
  (`LeftCommits.LandsOnceExactlyWhenNotLeft`); and no body of it does if and only if no file is
  (`LeftCommits.AtMostOnceExactlyWhenClean`).
- `begin;a;commit--commit<newline>;` is accepted too, although nothing at all follows its last top-level semicolon
  (`AtomicRequest.SwallowedCommitIsAccepted`). Its COMMIT is no statement of the body but swallows the receipt, which is
  then no statement that the server knows, so the transaction fails: such a migration never lands, and no request for it
  is ever answered (`LeftCommits.SwallowingNeverLands`, `LeftCommits.SomeCheckoutNeverLands`).
- `begin;a;1 commit;` is accepted, because a number leaves no token (`AtomicRequest.FragmentIsAccepted`). It stands before
  the receipt in one statement with it, which the server cannot parse: such a migration never lands
  (`LeftCommits.SomeFragmentNeverLands`).

Whatever the files leave in their bodies, the history of a shared checkout stays a prefix of it
(`Deployment.HistoryStaysPrefix`): a receipt needs the guard's count and a version that is not there yet, and that is
enough even without the lock.

**When an invoice cannot be overapplied.** The PostgreSQL trigger locks the invoice row but does not look whether it
found one. A credit that runs before the invoice is visible takes no lock; its sum, a later statement under READ
COMMITTED, may still see the invoice charged, and the foreign key then finds the invoice too. Two such credits are both
accepted (`Billing.UnseenInvoiceOverapplies`). An invoice that every trigger on it found refines the SQLite trigger and
is never overapplied, whatever happens to other invoices (`Billing.CommitOrderIsSerial`, `Billing.NeverOverapplied`).
The service reads the invoice for update before a credit or payment and stops if there is none, which suffices
(`Billing.ReadersNeverOverapply`); it takes a writer that does not do so for a trigger to go blind.

The locks of the foreign key count: an inserted entry keeps the invoice in share mode, so an insert waits for the lock of
another transaction, and the lock waits for entries of others. With them, an invoice of a reachable state is safe however
the transactions go on, later locks on it finding it, if and only if it is settled
(`Billing.SafeExactlyWhenSettled`): it is not overapplied yet; no trigger that found no row to lock is before its sum or
has summed enough to insert; and what is outstanding covers the sum of what each open transaction has already decided to
take. Where the invoice is safe, a locking statement leaves it so if and only if the invoice is visible to it
(`Billing.LockSafeExactlyWhenVisible`).

**When an invited member cannot be adopted.** The provisioning command cuts the key of the event that it records to 180
characters, and the receipt's not. The adoption asks for the receipt's key with `system-invite:` before it, so it refuses
every invitation whose own key has more than 166 characters, of the 180 that the command accepts
(`Provenance.InvitedIsClassified`).

**A key that is not removed.** Before its email the owner bootstrap leaves the mark of a completed password change out of
the metadata that it sends. Where Auth merges metadata, the mark stays (`OwnerBootstrap.PromptedMustChange`).

**A branch that cannot be taken.** The last membership conflict of the cloud bootstrap is unreachable
(`CloudBootstrap.FoundMembershipFits`).

## Model

| member | source | states |
|---|---|---|
| Text.StripUnique | scripts/deploy_supabase_management_api.py:350 | a text between blanks that has none at its ends is what stripping gives, however it is cut |
| Text.WordCharacters | scripts/deploy_supabase_management_api.py:280-288 | which characters begin a word and which go on with one |
| SqlLexer.TopLevelStatements | scripts/deploy_supabase_management_api.py:180-307 | the index-jumping splitter returns for every text the statements, tokens and rejections of the one-character automaton, and terminates |
| SqlLexer.Find | scripts/deploy_supabase_management_api.py:194 | the first occurrence at or after an index, or none |
| SqlLexer.SkipLineComment | scripts/deploy_supabase_management_api.py:193-196 | the jump over a line comment leaves the automaton in normal mode with nothing split and no token |
| SqlLexer.SkipBlockComment | scripts/deploy_supabase_management_api.py:197-211 | the nesting loop ends where the automaton leaves depth one, and reports an open comment exactly when the automaton does |
| SqlLexer.SkipQuoted | scripts/deploy_supabase_management_api.py:224-251 | the string loop agrees with the automaton on doubled quotes, escapes, the ambiguous backslash and open strings |
| SqlLexer.SkipIdentifier | scripts/deploy_supabase_management_api.py:252-267 | the quoted-identifier loop agrees with the automaton |
| SqlLexer.MatchDollarQuote | scripts/deploy_supabase_management_api.py:268-271 | a dollar sign opens a quote exactly when the automaton reads a whole tag; otherwise what follows is lexed as if it were not there |
| SqlLexer.SkipDollarBody | scripts/deploy_supabase_management_api.py:272-279 | searching the delimiter ends where the automaton first sees it complete |
| SqlLexer.ScanWord | scripts/deploy_supabase_management_api.py:280-288 | the word goes to the first character that cannot continue it |
| SqlLexer.LookBack | scripts/deploy_supabase_management_api.py:213-223 | looking back two characters in the whole text decides an escape string as looking back in the statement does |
| SqlLexer.RunConcat | scripts/deploy_supabase_management_api.py:188-301 | the automaton reads one text after another as it reads their concatenation |
| LexerLaws.SplitsExactlyInCode | scripts/deploy_supabase_management_api.py:289-300 | a semicolon ends a statement exactly where code is read, and nothing else ends one |
| LexerLaws.LexConcat | scripts/deploy_supabase_management_api.py:212-223 | after a top-level semicolon and blanks the splitter starts afresh: the results of the two texts are concatenated |
| LexerLaws.LexStrip | scripts/deploy_supabase_management_api.py:289-306 | stripping an accepted text does not change what it splits into |
| LexerLaws.Relex | scripts/deploy_supabase_management_api.py:289-306 | the raw text of every returned statement splits into that one statement with the same tokens |
| SqlLiteral.LiteralRoundTrip | scripts/deploy_supabase_management_api.py:94-95 | for every value, the literal pattern consumes exactly the written literal and un-doubling returns the value |
| SqlLiteral.LiteralInjective | scripts/deploy_supabase_management_api.py:94-95 | different values are written as different literals |
| SqlLiteral.LiteralMasked | scripts/deploy_supabase_management_api.py:734-741 | a written literal gets the exam mask exactly when its value is the exam module's name, and the rest is masked as before |
| SqlLiteral.LiteralIsOneString | scripts/deploy_supabase_management_api.py:224-251 | a literal without a backslash before a quote is read as one string that leaves no token |
| SqlLiteral.AmbiguousRefused | scripts/deploy_supabase_management_api.py:233-241 | any other literal makes the splitter refuse the text |
| SqlRegions.EscapeRoundTrip | scripts/deploy_supabase_management_api.py:212-236 | every value written as an escape string, with backslash and quote escaped, is read back up to its closing quote |
| SqlRegions.EscapeIsOneString | scripts/deploy_supabase_management_api.py:212-236 | after `e` or `E`, where no word goes on before it, the splitter reads an escape string of any units as one region and adds no token but the letter's own |
| SqlRegions.StringAfterWord | scripts/deploy_supabase_management_api.py:213-223 | after any other word, or an `e` that goes on with one, a quote opens a plain string |
| SqlRegions.EscapeUnterminated | scripts/deploy_supabase_management_api.py:226-251 | a text that ends in an escape string is refused, and a backslash at its end gives the other reason |
| SqlRegions.RunBlock | scripts/deploy_supabase_management_api.py:197-211 | a block comment is passed over with all the comments nested in it |
| SqlRegions.SplitsIntoStatements | scripts/deploy_supabase_management_api.py:180-307 | a text of statements, each put together from words, numbers, strings, escape strings, quoted names, dollar quotes and comments, splits into exactly those statements with the tokens of their words, names and dollar quotes |
| SqlItems.ItemsOfPieces | scripts/deploy_supabase_management_api.py:1152-1213 | reading a text of words, numbers, literals and signs back gives them in their order |
| SqlItems.QuietItems | scripts/deploy_supabase_management_api.py:289-300 | an open statement without tokens is blank and comments, or starts with something that is no word |
| SqlPieces.RunDollarQuote | scripts/deploy_supabase_management_api.py:268-279 | a dollar quote is one token whatever its dollar-free body holds |
| SqlPieces.RunStatement | scripts/deploy_supabase_management_api.py:1182-1189 | words and literals with inert text between them and a semicolon are one statement with those words as tokens, after any left-over tokens |
| Transaction.ControlExactlyWhenEffect | scripts/deploy_supabase_management_api.py:310-329 | the statements that are refused inside a file are exactly those that open, end or undo a transaction, move a savepoint, prepare a transaction or set the session |
| Transaction.EffectRefused | scripts/deploy_supabase_management_api.py:332-341 | a file with any such statement inside its wrapper is refused |
| Transaction.ControlWordRefused | scripts/deploy_supabase_management_api.py:310-341 | whatever stands around it, a statement that starts with one of the nine words, in any case, gets the file refused for transaction control |
| Transaction.EscapesHaveEffect | tests/test_supabase_management_deploy.py:752-759 | each escape that the deployer's tests name leaves the one transaction |
| AcceptedFiles.HarmlessFileIsAccepted | scripts/deploy_supabase_management_api.py:332-353 | a file of any statements put together from the constructs of SQL, none of which has an effect on the transaction, is accepted with those statements as its body, its COMMIT in no comment and no fragment before it; with a byte order mark or none, BEGIN and COMMIT in any case, and any blanks around |
| AcceptedFiles.HarmlessFileIsDeployable | scripts/deploy_supabase_management_api.py:332-353 | so its migration can be deployed |
| Transaction.OpeningParts | scripts/deploy_supabase_management_api.py:43-46 | what the pattern's opening matches is a mark, blanks, BEGIN in any case, blanks and a semicolon |
| Transaction.ClosingParts | scripts/deploy_supabase_management_api.py:43-46 | what the greedy pattern's closing matches is COMMIT in any case, blanks, a semicolon and blanks to the end |
| Transaction.RunOpening | scripts/deploy_supabase_management_api.py:334-341 | the matched opening is one statement with the token BEGIN and nothing left over |
| Transaction.ClosingInCode | scripts/deploy_supabase_management_api.py:334-341 | in code, the closing COMMIT completes one statement of the pending tokens and a last word |
| Transaction.ClosingInComment | scripts/deploy_supabase_management_api.py:334-350 | in a line comment it completes only what was pending before the comment, and the text is still accepted |
| Transaction.EnclosedRefused | scripts/deploy_supabase_management_api.py:207-210 | inside a block comment, string, identifier or dollar quote it never gets out, and the file is refused |
| DeploymentText.RunPreamble | scripts/deploy_supabase_management_api.py:1193-1209 | lock and guard are read as three statements with fixed tokens, whatever rows are expected |
| AtomicRequest.AcceptedBefore | scripts/deploy_supabase_management_api.py:332-353 | in every accepted file the text before the closing COMMIT ends in a line comment, or in code with nothing pending |
| AtomicRequest.RequestKeepsStatements | scripts/deploy_supabase_management_api.py:1182-1212 | the composed text splits into BEGIN, lock, guard, the file's own inner statements unchanged and in order, the receipt and COMMIT, also when the body ends in a comment or a fragment without tokens; read back, the receipt writes the migration's version and checksum, each in its column, unless a fragment stands before it |
| AtomicRequest.CommittedIsAtomic | scripts/deploy_supabase_management_api.py:1152-1213 | if the file's COMMIT is not commented out, the server's transaction is open and whole after every statement from BEGIN on, and the last statement ends it |
| AtomicRequest.CommentedIsNotAtomic | scripts/deploy_supabase_management_api.py:1152-1213 | if it is, a COMMIT of the body ends the transaction inside the request, or swallows the receipt and fails |
| AtomicRequest.AtomicExactlyWhenCommitted | scripts/deploy_supabase_management_api.py:332-353 | for every accepted file: one request is one atomic transaction if and only if the closing COMMIT is not in a line comment |
| AtomicRequest.RequestStarts | scripts/deploy_supabase_management_api.py:1193-1209 | whatever an accepted file does with its COMMIT, its request first takes the deployment lock, and its guard then compares the table with the number of the expected rows and with those rows, as they are read back from its text |
| AtomicRequest.ReceiptExactlyWhenNoFragment | scripts/deploy_supabase_management_api.py:1175-1191 | for every accepted file that does not swallow its receipt: read back, the receipt writes the version and the checksum of the migration, each in its column, if and only if the file leaves nothing but comments after its last statement |
| RequestReading.GuardSays | scripts/deploy_supabase_management_api.py:1163-1204 | reading the guard back gives the number of the expected rows and the rows themselves, for any rows |
| RequestReading.ReceiptSays | scripts/deploy_supabase_management_api.py:1182-1189 | reading the receipt back gives the row |
| RequestReading.LockSays | scripts/deploy_supabase_management_api.py:1207 | the lock is the one transaction-level advisory lock of all deployments |
| AtomicRequest.EarlyExactlyWhenLeft | scripts/deploy_supabase_management_api.py:332-353 | for every accepted file: the server commits the body before the receipt if and only if the file leaves its own COMMIT in the body as a statement |
| AtomicRequest.PlainCommitIsAccepted | scripts/deploy_supabase_management_api.py:332-353 | an accepted file whose COMMIT is not commented out |
| AtomicRequest.CommentedCommitIsAccepted | scripts/deploy_supabase_management_api.py:333-350 | an accepted file that leaves its COMMIT in the body as a statement |
| AtomicRequest.SwallowedCommitIsAccepted | scripts/deploy_supabase_management_api.py:333-350 | another one, in which nothing follows the last top-level semicolon and the COMMIT left in the body is no statement by itself |
| AtomicRequest.FragmentIsAccepted | scripts/deploy_supabase_management_api.py:332-353 | an accepted file that leaves a fragment before its COMMIT |
| Versions.LessTotal | scripts/deploy_supabase_management_api.py:389-393 | the order of versions is total |
| MigrationFiles.LoadMigrations | scripts/deploy_supabase_management_api.py:356-393 | accepts exactly the nonempty listings in which every name and text is well formed and the versions ascend strictly, and loads every file in order |
| MigrationFiles.SortedDistinctAscends | scripts/deploy_supabase_management_api.py:372-393 | sorted and without repetition is strictly ascending |
| MigrationFiles.VersionHasFormat | scripts/deploy_supabase_management_api.py:40-42 | the version of a well-formed name fits the history table's constraint |
| MigrationFiles.BuiltNameIsAccepted | scripts/deploy_supabase_management_api.py:40-42 | every file name put together from a version and a slug is accepted and gives its version |
| MigrationFiles.AcceptedNameIsBuilt | scripts/deploy_supabase_management_api.py:40-42 | no other file name is accepted |
| History.GuardCovers | scripts/deploy_supabase_management_api.py:1163-1204 | a table that passes count and left join holds nothing but the expected rows |
| History.GuardIsEquality | scripts/deploy_supabase_management_api.py:1163-1204 | the guard passes exactly when the live table equals the expected one, the empty expectation included |
| History.PlaceOf | scripts/deploy_supabase_management_api.py:1116 | the lookup by version finds the first migration with it, or none |
| History.ValidExactlyForPrefix | scripts/deploy_supabase_management_api.py:1110-1149 | the validation accepts exactly the prefixes of the checkout, each under its own or a compatible checksum, when the manifest matches |
| History.ChangedIsAccepted | scripts/deploy_supabase_management_api.py:1116-1142 | when a file gets another checksum and an entry for the old one, every history that was accepted and holds the old one still is |
| History.OtherChecksumRefused | scripts/deploy_supabase_management_api.py:1127-1142 | without an entry, a history with another checksum for a file is refused |
| Deployment.SentIsSound | scripts/deploy_supabase_management_api.py:1250-1261 | every request that a deployer of a clean checkout composes takes the lock, checks its guard, does not commit early and names a version after everything it expects |
| Deployment.SentShape | scripts/deploy_supabase_management_api.py:1182-1212 | whether a request is whole, commits early or neither, and whether its receipt writes a row, depends on the file of its migration alone; the row is that of the migration |
| Deployment.OneHolder | scripts/deploy_supabase_management_api.py:1207 | the advisory lock has at most one holder after every step |
| Deployment.SessionsKept | scripts/deploy_supabase_management_api.py:1193-1212 | every session past the lock holds it, and what a session found past the guard stays true until it commits, because only the holder commits |
| Deployment.BodyAndReceiptTogether | scripts/deploy_supabase_management_api.py:1182-1212 | in every run over clean checkouts, each step leaves bodies and rows alone or adds one body and its row together |
| Deployment.SoundKept | scripts/deploy_supabase_management_api.py:1152-1284 | every step of any deployer, of the network or of a database session keeps the invariant, as long as checkouts are clean |
| Deployment.ExactlyOnce | scripts/deploy_supabase_management_api.py:1152-1284 | in every run over clean checkouts, with sessions interleaved statement by statement, crashes, losses, delays and duplicates, the applied bodies ascend strictly in version without repetition, and together with the initial rows their versions are exactly the history's keys |
| Progress.NextLands | scripts/deploy_supabase_management_api.py:1248-1270 | in every reachable state with a deployer whose copy of the history is the history and nobody else at the lock: if its next migration is deployable, the run goes on until that body has landed once with its row and the deployer has its reply |
| Progress.AlwaysDeploys | scripts/deploy_supabase_management_api.py:1216-1284 | from every reachable state whose history is a prefix of a checkout with deployable files: some continuation brings a new deployer to its end with every missing migration landed once and in order, and history, copy and report complete |
| Progress.FreshProjectDeploys | scripts/deploy_supabase_management_api.py:1225-1284 | in particular from a project without history objects and without rows |
| LeftCommits.AtMostOnceExactlyWhenClean | scripts/deploy_supabase_management_api.py:332-353 | however the deployers of a checkout run, no body lands twice, if and only if no file of the checkout leaves its COMMIT in the body as a statement |
| LeftCommits.LandsTwice | scripts/deploy_supabase_management_api.py:1152-1284 | for every such file, a run in which its body lands twice |
| LeftCommits.SwallowingNeverLands | scripts/deploy_supabase_management_api.py:1152-1284 | a migration whose COMMIT swallows the receipt never lands in any run, and no request for it is ever answered |
| LeftCommits.StuckNeverLands | scripts/deploy_supabase_management_api.py:1182-1212 | a migration that neither leaves its COMMIT nor has a whole file without a fragment lands in no run |
| LeftCommits.LandsExactlyWhenNotStuck | scripts/deploy_supabase_management_api.py:332-353 | for every migration of every checkout: some run lands it if and only if its file leaves its COMMIT in the body, or keeps its COMMIT out of comments and leaves no fragment |
| LeftCommits.ExactlyOnceExactlyWhenWhole | scripts/deploy_supabase_management_api.py:332-353 | for every migration of every checkout: some run lands it and none lands it twice, if and only if its file keeps its COMMIT out of comments and leaves no fragment |
| LeftCommits.SomeCheckoutDeploys | scripts/deploy_supabase_management_api.py:332-353 | an accepted checkout of one file that is deployed exactly once, from nothing |
| LeftCommits.SomeFragmentNeverLands | scripts/deploy_supabase_management_api.py:332-353 | an accepted checkout of one file that leaves a fragment and lands in no run |
| LeftCommits.LandsAtMostOnce | scripts/deploy_supabase_management_api.py:1182-1212 | in every run over any accepted checkouts: a body whose own file does not leave its COMMIT lands at most once, and no two such bodies of one version land |
| LeftCommits.LandsOnceExactlyWhenNotLeft | scripts/deploy_supabase_management_api.py:332-353 | for every migration of every checkout: no run lands its body twice if and only if its own file does not leave its COMMIT in the body |
| LeftCommits.SomeCheckoutLandsTwice | scripts/deploy_supabase_management_api.py:332-353 | an accepted checkout of one file whose body a run lands twice |
| LeftCommits.SomeCheckoutNeverLands | scripts/deploy_supabase_management_api.py:332-353 | an accepted checkout of one file whose body lands in no run |
| Deployment.RowsAreImmutable | scripts/deploy_supabase_management_api.py:1036-1053 | no row of the history is ever changed or removed |
| Deployment.FinishedIsComplete | scripts/deploy_supabase_management_api.py:1248-1284 | in every run, over any accepted checkouts: a deployer that finished reports exactly the versions missing from the history it read, in order, and the history holds its checkout from then on |
| Deployment.HistoryStaysPrefix | scripts/deploy_supabase_management_api.py:1110-1149 | when all deployers share a checkout, whatever its files leave in their bodies, the history is at every moment a prefix of it, up to compatible checksums, if it was one at the start |
| ManagementClient.Client.Execute | scripts/deploy_supabase_management_api.py:957-1033 | every attempt but the last failed in passing, the answer is the last one's, the waits are those between; a request not safe to repeat is sent exactly once |
| ManagementClient.PassingExactly | scripts/deploy_supabase_management_api.py:45-60 | the failures after which a request may be sent again |
| DeployLoop.InsertedOrdered | scripts/deploy_supabase_management_api.py:1055-1058 | a new row keeps the listing ordered by version |
| DeployLoop.PassesIsGuard | scripts/deploy_supabase_management_api.py:1163-1204 | the guard on the listed rows is the guard on the table |
| DeployLoop.ManagementApi.ReadHistory | scripts/deploy_supabase_management_api.py:1091-1107 | what is read was there and stays there, whatever lands around the read |
| DeployLoop.ManagementApi.Execute | scripts/deploy_supabase_management_api.py:1262-1267 | a guarded request is sent once, and success means that its row is in the table |
| DeployLoop.Deploy | scripts/deploy_supabase_management_api.py:1216-1284 | the requests sent are a first part of the plan for the validated history; success returns exactly the missing versions in order with the whole plan sent and the checkout in the table; undisturbed and answered, an acceptable history makes it succeed, and the history is then that one with the missing rows after it |
| DeployLoop.PlanIsSound | scripts/deploy_supabase_management_api.py:1248-1270 | every request of that plan, from a clean checkout, satisfies the state machine's invariant for requests |
| CatalogProjection.IsApprovedCatalogCaseSelect | scripts/deploy_supabase_management_api.py:668-709 | accepts exactly prefix, twelve branches of at least one option, suffix |
| CatalogProjection.SkipOptions | scripts/deploy_supabase_management_api.py:701-704 | passes over all options in front of the cursor and counts them |
| CatalogProjection.StopsBeforeSuffix | scripts/deploy_supabase_management_api.py:692-709 | the cursor never enters the suffix |
| CatalogProjection.CountsUnique | scripts/deploy_supabase_management_api.py:692-709 | the twelve option counts are determined by the tokens |
| Billing.LocksKept | app/postgres_integrity.py:87-93 | an invoice row is locked by one transaction at a time |
| Billing.OthersCommit | app/postgres_integrity.py:95-113 | rows that others commit on an invoice that a transaction has locked are charges, so what was accepted and summed stays accepted |
| Billing.RegularKept | app/postgres_integrity.py:81-117 | every step keeps, whether triggers find their invoices or not: locks are exclusive, also of other transactions' entries; the foreign key holds; and nobody waits for a trigger that began earlier, so triggers do not wait in a circle |
| Billing.SoundKept | app/postgres_integrity.py:81-117 | every step keeps the invariant of an invoice, as long as the trigger that locks this invoice finds it |
| Billing.CommitOrderIsSerial | app/database.py:375-385 | the committed entries of an invoice that every trigger on it found, replayed in commit order, are accepted one by one by the serial trigger, whatever happens to other invoices |
| Billing.NeverOverapplied | app/postgres_integrity.py:110-113 | in every state reached by steps in which the triggers on an invoice found it, its charges minus credits and payments are at least 0, whatever happens to other invoices |
| Billing.ReadersNeverOverapply | app/customer_billing/service.py:532-537 | an invoice that is read for update before every credit or payment on it is never overapplied |
| Billing.InvoicesAfter | app/models.py:3967-3975 | the foreign key holds in every reachable state, for committed and uncommitted entries |
| Billing.UnseenInvoiceOverapplies | app/postgres_integrity.py:87-93 | from any state in which the foreign key holds, for any invoice not yet visible: steps, possible with all row locks, after which it is credited twice what was charged |
| Billing.SettledKept | app/postgres_integrity.py:81-117 | a settled invoice stays settled under every step, as long as the trigger that locks it finds it |
| Billing.SafeExactlyWhenSettled | app/postgres_integrity.py:81-117 | in every reachable state, with the row locks of trigger, readers and foreign key: an invoice is not overapplied in any continuation whose locks on it find it, if and only if it is not overapplied now, no trigger that found nothing may still insert, and what is outstanding covers the sum of what open transactions have decided to take |
| Billing.LockSafeExactlyWhenVisible | app/postgres_integrity.py:87-93 | in every reachable state in which the invoice is safe, it is safe after the locking statement of a credit or payment if and only if its row was visible to it |
| AdoptionReason.ReasonInjective | scripts/adopt_klimov_partial_onboarding.py:1200-1210 | classification, run, attempt, actor and commit can be read back from the printed reason |
| AdoptionReason.PrintedIsMatched | scripts/adopt_klimov_partial_onboarding.py:994-1011 | a reason printed in an accepted context is matched for its classification and for no other |
| AdoptionReason.MatchingIsReading | scripts/adopt_klimov_partial_onboarding.py:994-1011 | reading the parts off by their separators decides the pattern |
| AdoptionReason.SourceRunNeverMatched | scripts/adopt_klimov_partial_onboarding.py:1007-1011 | a reason that names the creating run is never matched |
| AdoptionReason.PatternPartsExactly | scripts/adopt_klimov_partial_onboarding.py:994-1011 | the parts that the pattern matches, character class by character class |
| Provenance.LimitedIsClassified | supabase/migrations/202607140001_limited_member_provisioning.sql:224-296 | for every key and identifier, who was provisioned as a limited member is classified so, and one who was a member already is refused |
| Provenance.InvitedIsClassified | supabase/migrations/202607130004_creator_rpcs.sql:1408-1504 | who was provisioned by an invitation is classified so exactly when its key has at most 166 characters; one who was a member already is refused |
| Provenance.ClassifiedExactlyAsRecorded | scripts/adopt_klimov_partial_onboarding.py:866-991 | a snapshot has a classification if and only if its records say all that the matching command records, or there are none |
| AdoptionSnapshot.BoundaryExactly | scripts/adopt_klimov_partial_onboarding.py:1050-1101 | an account is within the boundary exactly when every field that the boundary fixes is as it has to be, it was created in the window, is marked by the provisioning and is not the owner's own |
| AdoptionEffects.PhaseMeans | scripts/adopt_klimov_partial_onboarding.py:1116-1158 | the phase of an accepted account tells whether it is confirmed, whether its names are in place and whether it is the operator's with a granted waiver |
| AdoptionEffects.WaiverExactlyAsGranted | scripts/adopt_klimov_partial_onboarding.py:1135-1153 | the waivers of an operator's account are exactly those that a grant writes |
| AdoptionEffects.SameAccountSameBoundary | scripts/adopt_klimov_partial_onboarding.py:866-993 | provenance and boundary depend on none of the fields that an adoption may change, apart from the role |
| AdoptionEffects.NameEffect | scripts/adopt_klimov_partial_onboarding.py:1014-1047 | a name write that reaches Auth keeps the state accepted even if the profile is not synchronised, and completes the repair if it is |
| AdoptionEffects.ConfirmEffect | scripts/adopt_klimov_partial_onboarding.py:1234-1251 | a confirmation takes an unconfirmed trainee to the confirmed one |
| AdoptionEffects.GrantEffect | scripts/adopt_klimov_partial_onboarding.py:1132-1155 | a waiver with this run's reason takes a confirmed trainee to the operator phase |
| AdoptionEffects.ActionKeeps | scripts/adopt_klimov_partial_onboarding.py:1340-1511 | whatever becomes of the request that a phase calls for, the state stays accepted with its classification and no lower phase |
| AdoptionSaga.Remote.Act | scripts/adopt_klimov_partial_onboarding.py:1234-1273 | one request, with its effect on whatever the account is by then |
| AdoptionSaga.Advance | scripts/adopt_klimov_partial_onboarding.py:1345-1463 | one request and one re-read; the run goes on only from exactly the expected next state |
| AdoptionSaga.Finish | scripts/adopt_klimov_partial_onboarding.py:1513-1552 | the recovery is requested only after a re-read equal to the verified operator snapshot |
| AdoptionSaga.VerifiedExactly | scripts/adopt_klimov_partial_onboarding.py:1513-1529 | the waiver check accepts exactly an account with the verified operator's membership, up to its times, and waiver, up to identifiers |
| AdoptionSaga.Adopt | scripts/adopt_klimov_partial_onboarding.py:1276-1559 | in any environment: requests are a first part of what the first read calls for, recovery only when due, the final read differs from the first only where it may; undisturbed: the account is kept and at most one waiver granted, however the run ends; with effective requests an accepted account reaches the operator; the classification that is reported is that of the command whose records the first read shows |
| AdoptionSaga.RecoveryTarget | scripts/adopt_klimov_partial_onboarding.py:1530-1552 | the recovery reaches only the one confirmed account without password or sign-in, whose only membership is the operator's and whose only waiver the owner granted for this adoption |
| AdoptionSaga.ResumableThroughout | scripts/adopt_klimov_partial_onboarding.py:1276-1559 | over any sequence of runs that each keep what `Adopt` ensures: still accepted, same classification, phase rank never drops |
| AdoptionSaga.WaiverAtMostOnce | scripts/adopt_klimov_partial_onboarding.py:1464-1511 | over any such sequence at most one waiver is granted, and nothing changes once the account is the operator's |
| AdoptionSaga.AdoptRepeatedly | scripts/adopt_klimov_partial_onboarding.py:1276-1559 | calling `Adopt` any number of times on the same systems, each with its own context and stopping anywhere: undisturbed, the account can be taken up again after every run, and at most one waiver is granted in all |
| OwnerBootstrap.RequireIdentity | scripts/bootstrap_supabase_owner.py:480-507 | the identity goes on only if its mailbox is proved; an existing one is never written to |
| OwnerBootstrap.RequireMembership | scripts/bootstrap_supabase_owner.py:509-515 | memberships are initialised only for identities whose mailbox is proved, and not again |
| OwnerBootstrap.RequireRecovery | scripts/bootstrap_supabase_owner.py:517-527 | at most one email, the marker only after it, and neither where the owner signed in or the marker is set |
| OwnerBootstrap.PromptedMustChange | scripts/bootstrap_supabase_owner.py:517-523 | whoever gets the email has to change the password; the mark of an earlier change is gone exactly when Auth replaces metadata or it was not there; all other metadata stay |
| OwnerBootstrap.CreatedIsUnprompted | scripts/bootstrap_supabase_owner.py:294-313 | a new identity is marked as the bootstrap's, has to change the password, and counts as not yet emailed |
| OwnerBootstrap.BootstrapOwner | scripts/bootstrap_supabase_owner.py:472-533 | a run that ends leaves nothing to do, and where nothing is to do a run writes nothing; emails are accounted for by the marker or a failure; undisturbed, a run succeeds unless the identity was there unconfirmed, reports what it found and did, and emails only who has to change the password |
| OwnerBootstrap.EmailsBounded | scripts/bootstrap_supabase_owner.py:517-527 | over any sequence of runs that each keep what `BootstrapOwner` ensures, from an unmarked start: the marker means an email was sent, and emails are at most one plus the failed runs |
| OwnerBootstrap.BootstrapRepeatedly | scripts/bootstrap_supabase_owner.py:472-533 | calling `BootstrapOwner` any number of times on the same systems keeps these bounds after every run, and initialises memberships only for proved mailboxes |
| CloudBootstrap.BootstrapCloudOwner | scripts/bootstrap_cloud_owner.py:49-200 | commits, for a provider identity that fits, exactly the missing rows over the tables of the second preflight; every failure leaves them as they were; and succeeds exactly when both preflights pass and the provider answers with a proper user that is the profile's, or new where there is none |
| CloudBootstrap.EmptySucceeds | scripts/bootstrap_cloud_owner.py:49-200 | on an empty database any proper user of the provider's succeeds |
| CloudBootstrap.FoundMembershipFits | scripts/bootstrap_cloud_owner.py:181-187 | a membership that passes the preflight cannot conflict later |
| CloudBootstrap.IncompleteIsAlone | scripts/bootstrap_cloud_owner.py:311-325 | what the preflight lets pass incomplete is alone in its tables |
| CloudBootstrap.IncompleteLeavesOne | scripts/bootstrap_cloud_owner.py:142-193 | from an incomplete start a committed run leaves exactly one organization, profile and owner membership, reported as created exactly when the tables were empty |
| CloudBootstrap.SecondRunUnchanged | scripts/bootstrap_cloud_owner.py:77-200 | a run over the tables that a run committed, with the same arguments and provider identity, reports the same rows unchanged and changes nothing; another identity is refused |
| CloudBootstrap.BootstrapRepeatedly | scripts/bootstrap_cloud_owner.py:77-200 | any number of runs in the order in which they get the lock: refused runs change nothing, and from the first success on the tables stay and every success reports the same rows unchanged |
| ReleasePaths.RequireAsset | scripts/build_pages_release.py:54-68 | what is found is a file below the root, and escaping is refused exactly when the path leaves the root |
| ReleasePaths.ReferenceResolves | scripts/build_pages_release.py:50-61 | a reference names what its components say from the directory of its file, up and down, whatever query follows it |
| ReleasePaths.ScriptsAreNamed | scripts/build_pages_release.py:107-108 | imports are followed into files named `.js` after at least one character |
| ReleasePaths.NoClimbNoEscape | scripts/build_pages_release.py:54-61 | a reference that never climbs above its file's directory is never refused as escaping |
| ReleasePaths.SafeExactlyWhenDisjoint | scripts/build_pages_release.py:203-214 | the output check accepts exactly the directories that share no path with the source |
| AssetGraph.PushImports | scripts/build_pages_release.py:99-108 | all imports of a module are checked and its scripts pushed, or one that does not resolve is returned |
| AssetGraph.WalkModules | scripts/build_pages_release.py:93-109 | terminates on cycles, succeeds exactly when every import of every reachable module resolves, and then has visited exactly the reachable modules |
| AssetGraph.ValidateAssetGraph | scripts/build_pages_release.py:78-109 | accepts exactly the sites whose page, stylesheets and reachable modules refer to files that are there |
| AssetGraph.StylesheetsAreNamed | scripts/build_pages_release.py:90 | the stylesheets that are checked are the files named `.css` beside the page |
| ReleaseBuild.FileSystem.CopyTree | scripts/build_pages_release.py:240 | below the target is what was below the source, elsewhere nothing changes |
| ReleaseBuild.Prepare | scripts/build_pages_release.py:237-272 | the output holds the source without the example configuration, with the real one and the marker file; no other file changes |
| ReleaseContents.ValidatePublic | scripts/build_pages_release.py:174-190 | accepts exactly the artifacts without a server credential in any file and without a local address but in the vendored bundle |
| ReleaseContents.LeaksAreRefused | scripts/build_pages_release.py:174-190 | a file with a credential is refused wherever it is put, and one with a local address anywhere but in the place of the vendored bundle |
| ReleaseContents.ArtifactHashes | scripts/build_pages_release.py:193-200 | the digest of every file of the artifact but the manifest, and of nothing else |
| ReleaseContents.ManifestKeepsDescription | scripts/build_pages_release.py:274-290 | the hashes still describe the artifact after the manifest is written into it |
| ReleaseContents.ValidateContents | scripts/build_pages_release.py:112-190 | accepts exactly when vendored runtime, learning gates and public contents all fit |
| ReleaseContents.TamperingIsRefused | scripts/build_pages_release.py:112-171 | whatever text is put in the place of a vendored file or of a script that loads it is refused, unless it has the digest, says what the notice must say, hands on client and lock, or loads the vendored runtime and no remote one |
| ReleaseBuild.BuildRelease | scripts/build_pages_release.py:217-290 | only files below the output ever change, none when the build is refused at first; a release loads nothing but itself, passes every check of contents, and its manifest gives its script, its gate and the digests of all its files; every refusal has its reason |

## Left out

- Unicode: text is ASCII (and the byte order mark); other letters, digits and blanks, and full case folding, are not part of the model.
- Regular expressions are stated as the predicates they denote; JSON, base64 and HTTP are not modelled, and a response body is what parsing it gives.
- The meaning of SQL on the server: the statements of a request are those into which the splitter divides it; their effect on the transaction is told by their first words, and after an early COMMIT the receipt is a transaction of its own. Of other statements only lock, guard and receipt are read, by their words, signs, numbers and literals; the statements of a body may always fail.
- Private grading data: the decoding of the payloads and the transaction that carries them; of it the model has the literal masking and the projection parser.
- Several migrations in one transaction: `_deployment_transaction` accepts a list, but `deploy` passes one migration at a time.
- The checksum compatibility manifest is a given set; reading and validating its file is not part of the model. SHA-256 is a given value per file.
- Deployment.ExactlyOnce: checkouts with a file that leaves its COMMIT in the body are excluded, because for them it is false, as LeftCommits shows. Checkouts whose checksum manifest does not match write nothing and are excluded from the if-and-only-ifs of LeftCommits.
- DeployLoop.Deploy: the rows that the read returns are given in the order of their versions; Python compares a dictionary in the order of the response.
- MigrationFiles.LoadMigrations: the listing is given in the order of the names, as the sort delivers it.
- Billing: isolation is READ COMMITTED, as the trigger needs. Row locks of the trigger, of readers for update and of the foreign key's entries are modelled; where transactions wait for each other in a circle, one of them aborts, as any may at any time. Savepoints, BIGINT overflow, foreign keys of other tables to the invoice, unique constraints of the ledger and the columns besides invoice, kind and amount are not part of the model. An invoice is issued with its charges in one step, since the service commits both in one transaction (app/customer_billing/service.py:419-473).
- AdoptionSaga.Adopt: the owner authority is given, not read; the waiver helper is one action with its check, whose own reads and whitespace normalisation of the reason are not modelled; identifiers are compared as the canonical texts that the database prints.
- Provenance.InvitedIsClassified: what the provisioning commands check before they record, and what they answer when repeated, are not part of the model.
- AdoptionSnapshot.Validate: which field was refused is not reported; `created_at` is a number of microseconds.
- OwnerBootstrap.BootstrapOwner: others never set or remove the recovery marker, delete the identity or revoke its confirmation, sign-in or membership; a request that is answered took effect.
- CloudBootstrap.BootstrapCloudOwner: waiting for the advisory lock, the Alembic check and the validators of the arguments; others who do not take the lock may change the tables up to the second preflight, not after it.
- AssetGraph.ValidateAssetGraph: the references and the module script of a file are given, in place of the patterns that find them; symbolic links and undecodable files are not part of the model.
- ReleaseContents.ValidateContents: the texts under the keys of the notice, the declared gate, and what the patterns for credentials and local addresses find are functions of the texts; JSON and those patterns are not part of the model.
- ReleaseBuild.BuildRelease: the checks of project reference and key; the digest and what the patterns find in a text are functions of the text, and so is the layout of the manifest.
- Row-level security, roles, secrets, SMTP, browser probes and the thin command-line wrappers.
