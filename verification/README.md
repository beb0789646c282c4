# mcp-postgres: a verified model

A Dafny 4.11 model of the parts of mcp-postgres where being nearly right is not enough. Each loop or
stateful object of the source is an imperative method or a class, proved equal to a function on plain
values; what the source promises is then proved about those functions, for every input and every run.

| Files | What they model |
|---|---|
| `Text`, `Toml`, `ConfigLines`, `ConfigSchema`, `Migration`, `TomlLaws`, `MigrationEdits`, `MigrationAdding`, `MigrationLaws`, `MigrationTidy`, `MigrationChanges`, `MigrationFile`, `MigrationOpening`, `MigrationStray` | the in-place rewrite of a deployed `config.toml`, the drift report behind it, and the loader that reads the result |
| `ConfEdit`, `ConfValueLaws`, `ConfEditLaws`, `ConfSetLaws`, `ConfFileLaws` | the `postgresql.conf` editor |
| `LikePrefix` | the literal-prefix LIKE pattern |
| `Batch` | a transactional batch under savepoints of one name |
| `OAuthStore`, `OAuthRows`, `OAuthProvider`, `OAuthRuns`, `OAuthLaws`, `OAuthSplit`, `OAuthUse` | the authorization server: tables, parked requests, grants, rotation, revocation, login |
| `Capabilities`, `CapabilityLaws` | the privilege-tier cache, the guard, the report, the change notices |
| `Manager`, `ManagerLaws` | the registry of database targets and its current pointer |

`dafny verify dfyconfig.toml` checks everything.

## What a reader should know first

**Configuration migration.** Files are read as TOML v1.0.0 restricted to one-line scalars (basic strings with
the short escapes, literal strings, decimal integers, Booleans), bare keys, one-part table headers and no key
above the first header. A line ends at `\n` or `\r\n`; any other `\r` is a decoding error. `Load` gives `None`
for a decoding error and for a file outside that subset, so the theorems say nothing about the latter: with
multi-line strings the line patterns can hit a line inside a string, and a second run can then change the
file again. `\w`, `\d` and letters are ASCII. Python's `splitlines` and `strip` keep
their full set of breaks and blanks. The schema is any one with identifier field names, one model per section,
defaults on one line without control characters, and a deprecated registry disjoint from the fields; versions and
reasons stay on one line.

Two things make the code differ from what its documentation says, and the exact conditions are about them.

*Stray breaks.* `splitlines` (`configmigrate.py:89`, `config.py:188`) also cuts at U+0085, U+2028 and U+2029, which TOML
takes for ordinary characters of a comment or string, and a rewritten file is joined with `\n`. So what
was the tail of a comment becomes a line of its own: `StrayBreakSets` shows it for every section, field and
such break. `Reread` is what TOML reads once the file has been cut so and the reported retired lines are
commented out. For every text, migration is neutral if and only if there is nothing to do, or the
re-reading parses, no missing key is hidden in it, and it gives every field its old value
(`MigrationNeutral`); one pass is enough if and only if there was nothing to do, or the result does not parse, or the
re-reading loses no field and uncovers no retired key (`MigrationSettles`, `MigrationIdempotent`). A *tidy* file
has no break but line ends (`LfBreaks`), which a caller can check; for it the re-reading is the file itself, and the `Tidy` theorems
have no such condition.

*Headers with a trailing comment* (`[server]  # note`) are legal TOML that the line patterns do not see
(`configmigrate.py:22`):

- a *hidden* section has only such a header. If a missing key belongs to a hidden section, a second header is
  appended and the file no longer parses. A tidy file is migrated neutrally if and only if no missing key does
  (`TidyNeutral`, `NotedHeaderBreaks`);
- a retired key under a hidden header is reported but not commented out (`TidySettles`), so "nothing deprecated is
  left" is true up to those;
- when the header *after* a section is such a one, comments added for the section land under that next
  header (`InsertionLands`). Opening an added comment gives the schema default only if this is not so
  (`OpeningGivesDefault`, `TidyOpening`).

A tidy file is migrated idempotently in all of these cases (`TidyIdempotent`).

**Authorization server.** Minted strings are arguments, new when they are minted (`FreshRun`) and not the static
token. Passphrases and tokens are ASCII: `hmac.compare_digest` raises on other text, where the model answers
with a mismatch. Each store call
reads the clock once; the two provider calls of a login POST read it apart. The checks the MCP SDK makes are
guards of the routes: the client of a code or token is the caller, requested scopes are among the token's,
and the remaining checks on a code are one Boolean. In `OAuthRuns` loading and exchanging in one token request is one
step. That matters: `exchange_refresh_token` does not check that its delete removed a row
(`provider.py:153`), and `InterleavedRotationForks` shows the fork. `OAuthSplit` takes the two halves apart
and shows that the check would be enough. Within one process the provider's coroutines never suspend between a load and
an exchange, since neither awaits anything; whether the SDK's handler suspends between its two calls is not part of this model, and two
server processes on one database can interleave. `take_auth_code` is one step here,
although its SELECT and DELETE are two statements. The properties are those of RFC 6749 sections 4.1.2 and 6,
RFC 9700 section 4.14.2 and RFC 7009 section 2. A ghost history of approvals, issues and spent names carries the proofs.
Those laws say what cannot happen; `OAuthUse` says what a request, a code and a token are good for and until when, along any run,
and `OAuthRows` what each read of the store answers, told from the calls before it.
Revoking or rotating a refresh token leaves earlier access tokens alive
(`AccessOutlivesRevocation`, `AccessOutlivesRotation`); RFC 7009 section 2.1 asks for more than that.

**Batch.** The session is committed state, working state and a stack of named savepoints, as PostgreSQL
documents them (ROLLBACK TO keeps its savepoint; older savepoints of the same name stay, shadowed). A
statement is any function on the state that succeeds or fails, and contains no transaction control. COMMIT
may fail; then the call raises. The docstring promises per-statement row counts; the code reads the cursor
after `RELEASE SAVEPOINT` (`db.py:185-186`), and `EntryRecordsRelease` says exactly when that is right.

**Editor.** Setting names are over `[A-Za-z0-9_.]`, letter case is ASCII, and a setting line has its `=`. PostgreSQL ends a line
at a line feed; the editor cuts at every break of `splitlines`. `ConfEditLaws` and `ConfSetLaws` speak of the lines as the
editor cuts them, `ConfFileLaws` of the file as PostgreSQL reads it, before and after, for every file and value. A comment
that holds another break and then a setting comes alive with any edit (`StrayBreakLive`), and a value with a line feed spills its tail as
lines of their own (`FileSpills`).

**Capabilities.** What the clock shows and what the environment would answer at that moment is an argument
of every reading. The report and guard promises hold for any sequence of answers.

**Registry.** Pools are numbered as they are opened. `use("")` resolves to the current target yet counts as new
(`manager.py:56` and `manager.py:73`), so the laws state exactly what an empty name breaks. A probe that fails with an empty message
counts as a success (`SilentFailureSwitches`).

## Model

| member | source | states |
|---|---|---|
| ConfigLines.SectionNameIsPattern | src/mcp_postgres/config.py:176 | the hand-written header matcher accepts exactly the strings of the regular expression, with the stripped group |
| ConfigLines.CommentedKeyIsPattern | src/mcp_postgres/config.py:177 | the comment matcher gives a key iff the line is white space, `#`, white space, that identifier, white space and `=`, with anything behind |
| ConfigLines.ActiveKeyIsPattern | src/mcp_postgres/configmigrate.py:37 | a line is active for a key iff it is white space, the key, white space and `=`, with anything behind |
| ConfigLines.LineAgrees | src/mcp_postgres/configmigrate.py:22-46 | on every line TOML can read, the three patterns see what TOML sees, except a header with a trailing comment |
| ConfigSchema.FileKnownKeys | src/mcp_postgres/config.py:110-120 | the fields of every section, minus the secret ones |
| ConfigSchema.CommentedKeys | src/mcp_postgres/config.py:180-198 | the map holds (section, key) iff some line matches the pattern `# key =`, with the section's header above it and no header between |
| ConfigSchema.CommentedMeaning | src/mcp_postgres/config.py:180-198 | the scan over all lines finds exactly the mentions that the two patterns describe |
| ConfigSchema.DiffConfig | src/mcp_postgres/config.py:201-240 | the loops compute the drift report `Diff`; an unreadable file has no drift |
| ConfigSchema.MissingMeaning | src/mcp_postgres/config.py:217-224 | a key is reported missing iff it is a non-secret field, the file does not set it, and no line matches `# key =` under the section's header |
| ConfigSchema.UnknownMeaning | src/mcp_postgres/config.py:209-239 | an unknown section is one without a model, an unknown key one that a known section sets though it is no field, no secret and not registered; an unreadable file reports nothing |
| MigrationTidy.EffectiveAt | src/mcp_postgres/config.py:276-279 | every field of the schema runs with the file's value, or else its default |
| ConfigSchema.EffectiveSame | src/mcp_postgres/config.py:26-29 | files that agree on the schema's fields yield the same configuration, whatever unknown keys they hold |
| MigrationLaws.ReportRetirable | src/mcp_postgres/config.py:226-239 | the deprecated list is exactly the active registered keys of known sections, each once, with its reason |
| Migration.FindActiveKeyLine | src/mcp_postgres/configmigrate.py:35-46 | the index of the first active line for the key under the scanned section |
| MigrationEdits.RetireFinds | src/mcp_postgres/configmigrate.py:35-46 | for a key TOML reads under a plain header the scan finds the line that sets it, and a comment there removes that item from the document and no other |
| Migration.InsertIntoSection | src/mcp_postgres/configmigrate.py:49-75 | the three loops compute `Insert` |
| MigrationEdits.InsertionPlace | src/mcp_postgres/configmigrate.py:49-75 | new lines go to the end of the section, in front of the blank lines that close it, or behind a header of their own at the end of the file, set off by one blank line |
| MigrationEdits.InsertLoads | src/mcp_postgres/configmigrate.py:49-75 | inserting comments leaves the document as it is, one empty table longer, or unreadable, by the section's header |
| MigrationEdits.InsertScan | src/mcp_postgres/configmigrate.py:49-75 | the comment scanner sees every inserted key under the section, and every comment it saw before |
| MigrationOpening.InsertionLands | src/mcp_postgres/configmigrate.py:66-75 | an insertion lands inside its own section, as TOML reads it, iff the header after the section carries no comment |
| Migration.ApplyMigration | src/mcp_postgres/configmigrate.py:78-117 | the loops compute `Migrate`, text and changes |
| MigrationLaws.MigrationExact | src/mcp_postgres/configmigrate.py:78-117 | for every text that is changed: the new text parses iff the re-reading does and hides no missing key's section, and every lookup, known key or not, is that of the re-reading |
| MigrationTidy.TidyExact | src/mcp_postgres/configmigrate.py:78-117 | for a tidy file every lookup is as before, except that the retired keys acted on are gone; the new text parses iff no missing key belongs to a hidden section |
| MigrationLaws.MigrationNeutral | src/mcp_postgres/configmigrate.py:78-117 | for every text the effective configuration is unchanged iff there is nothing to do, or the re-reading parses, hides no missing key's section and gives every field its old value |
| MigrationTidy.TidyNeutral | src/mcp_postgres/configmigrate.py:78-117 | for a tidy file: iff no missing key belongs to a hidden section |
| MigrationTidy.StrayBreakSets | src/mcp_postgres/configmigrate.py:89-117 | for any section, field, stray break and setting line behind it in a comment, the migration switches the setting on, and changes the configuration unless the value is the default |
| MigrationLaws.MigrationSettles | src/mcp_postgres/configmigrate.py:85-117 | for every text nothing is left to do after one pass iff there was nothing to do, or the result does not parse, or the re-reading loses no field and uncovers no retired key |
| MigrationTidy.TidySettles | src/mcp_postgres/configmigrate.py:85-117 | after one pass over a tidy file nothing is missing, and the deprecated keys left are exactly the reported ones under hidden headers |
| MigrationLaws.MigrationIdempotent | src/mcp_postgres/configmigrate.py:82-83 | migrating the result again, under any version, returns it unchanged with no changes, iff one pass was enough in the sense above |
| MigrationTidy.TidyIdempotent | src/mcp_postgres/configmigrate.py:82-83 | for a tidy file it always does |
| MigrationLaws.ChangesTell | src/mcp_postgres/configmigrate.py:81-82 | `changes` is empty iff the text is returned unchanged, iff the report holds nothing to act on |
| MigrationChanges.ChangesListed | src/mcp_postgres/configmigrate.py:92-117 | `changes` names, with section and key, each reported retired key that had an active line, once, and then each missing key, each section's in the report's order |
| MigrationTidy.NotedHeaderBreaks | src/mcp_postgres/configmigrate.py:58-64 | for any section with a file key, the file holding only its header with a comment parses, and its migration does not |
| MigrationFile.LiteralEscapes | src/mcp_postgres/configmigrate.py:31 | the two chained replacements are one escaping pass over backslash and quote |
| MigrationFile.StringLiteralReads | src/mcp_postgres/configmigrate.py:25-32 | a string literal reads back as the string iff it holds no control character |
| MigrationFile.LiteralReads | src/mcp_postgres/configmigrate.py:25-32 | every plain default, string, integer or Boolean, reads back as itself |
| MigrationFile.OpenLineReads | src/mcp_postgres/configmigrate.py:108-111 | an added line without its comment mark sets its key to the schema default |
| MigrationFile.OperatorLinesKept | src/mcp_postgres/configmigrate.py:89-113 | for every text the input lines appear in order, each as it was, or whole behind `# ` with the reason after it because it is active for a reported key; only headers, blanks and the comments for missing keys, whose text is given, are woven in |
| MigrationStray.OpeningGivesDefault | src/mcp_postgres/configmigrate.py:98-113 | the added comment stands in its own section, and opening it sets exactly the default there, iff the new text parses, the header after the section carries no comment, and the re-reading does not set the key |
| MigrationStray.TidyOpening | src/mcp_postgres/configmigrate.py:98-113 | for a tidy file: iff no missing key is hidden and the header after the section carries no comment |
| ConfEdit.SetConfValue | src/mcp_postgres/confedit.py:52-125 | the scan and the three passes compute `SetConf` |
| ConfEdit.ReplaceEffective | src/mcp_postgres/confedit.py:85-93 | the last active line is rewritten, each earlier one commented out, every other line kept |
| ConfEditLaws.ClassifyIsPattern | src/mcp_postgres/confedit.py:70 | a line is active iff it is white space, the name in any letter case, white space and `=`, and commented iff one or more `#` stand before the name |
| ConfEditLaws.ClassifyIsKey | src/mcp_postgres/confedit.py:70-80 | the pattern of a name sees exactly the lines whose own key is that name ignoring case, active or commented |
| ConfEditLaws.EditActive | src/mcp_postgres/confedit.py:82-125 | after the edit exactly one line is active for the name, the one written |
| ConfEditLaws.SetTakesEffect | src/mcp_postgres/confedit.py:52-125 | in the lines as the editor cuts them, the last active one then reads as the formatted value iff the stripped value has no line break |
| ConfFileLaws.FileTakesEffect | src/mcp_postgres/confedit.py:52-125 | in the file, for every content and value, iff the stripped value has no line feed |
| ConfFileLaws.FileReadsBack | src/mcp_postgres/confedit.py:52-125 | for every content and value, the reader of the edited file gets the caller's stripped value iff it is not already quoted and holds no backslash and no line feed |
| ConfEditLaws.SetTouchesOnly | src/mcp_postgres/confedit.py:68-125 | in the lines as the editor cuts them: one active line for the name; every other name keeps its active lines, its commented lines and its value |
| ConfFileLaws.FileSpills | src/mcp_postgres/confedit.py:68-125 | in the file, for every content and value: any other setting has its value from the lines behind the one written, else from what the value spills, else from those before |
| ConfFileLaws.FileTouchesOnly | src/mcp_postgres/confedit.py:68-125 | another setting that no spilled line sets is unchanged in the file iff the editor's cut shows the same value; in a file without stray breaks the exact condition on spilled lines |
| ConfFileLaws.StrayBreakLive | src/mcp_postgres/confedit.py:72-91 | for any break but a line feed and any active line behind it in a comment, editing another setting makes that line live |
| ConfEditLaws.ReportTells | src/mcp_postgres/confedit.py:32-49 | old value, occurrence counts and each of the four actions describe what the file held; `changed` iff the text is not the old one with its last line ended |
| ConfFileLaws.KeptTakesEffect | src/mcp_postgres/tools/config_files.py:123-126 | with the file written only when `changed` is true, the value on disk is in effect iff it holds no line feed |
| ConfEditLaws.EditKeepsText | src/mcp_postgres/confedit.py:86-91 | beside the written line every line stays, and another active one keeps indent and text behind a comment mark, with the marker |
| ConfSetLaws.SetTwice | src/mcp_postgres/confedit.py:75-125 | setting v1 and then v2 gives the text that v2 alone gives iff v1 has no inner line break |
| ConfSetLaws.SetIsSettled | src/mcp_postgres/confedit.py:68-100 | a repeated edit is a textual fixed point (unchanged, "replaced", one active line, none shadowed, old value as written) iff the value has no inner line break |
| ConfEditLaws.EditsCommute | src/mcp_postgres/confedit.py:82-125 | edits of two names give the same lines in either order iff not both append |
| ConfEditLaws.SetsCommute | src/mcp_postgres/confedit.py:82-125 | the same on whole texts, for values without an inner break |
| ConfFileLaws.FilesCommute | src/mcp_postgres/confedit.py:82-125 | for such values, every setting has the same value in the file in either order |
| ConfValueLaws.QuoteReadsBack | src/mcp_postgres/confedit.py:29 | doubling quotes reads back iff the text holds no backslash and no line feed |
| ConfValueLaws.FormatReadsBack | src/mcp_postgres/confedit.py:20-29 | a formatted value reads back as the stripped input iff that holds no backslash and no line feed and is not already quoted |
| ConfValueLaws.FormatMeaning | src/mcp_postgres/confedit.py:12-29 | a value is written bare iff it comes in quotes, is a sign, digits and optional fraction, or is one of six words in any case; the rest is quoted |
| ConfValueLaws.FormatIdempotent | src/mcp_postgres/confedit.py:20-29 | formatting is idempotent on every input |
| ConfValueLaws.LoneQuote | src/mcp_postgres/confedit.py:25-26 | a lone quote passes through unterminated |
| LikePrefix.PrefixEscapes | src/mcp_postgres/tools/observability.py:40 | the three chained replacements are one escaping pass |
| LikePrefix.LikePrefixIsPrefix | src/mcp_postgres/tools/observability.py:32-41 | the pattern matches a text iff the value is a prefix of it |
| LikePrefix.BackslashFirst | src/mcp_postgres/tools/observability.py:40 | with the backslash replaced last, a value starting with a wildcard does not match itself |
| Batch.RunUnderSavepoint | src/mcp_postgres/db.py:173-186 | one statement moves the working state on, or leaves it and one more stale savepoint |
| Batch.RunStatements | src/mcp_postgres/db.py:168-186 | unreleased savepoints equal failures so far, all of one name; state, entries and first failure are those of the folds |
| Batch.ExecuteBatch | src/mcp_postgres/db.py:150-193 | the committed state is the fold of the statements, skipping failures or all or nothing; a failing COMMIT raises and changes nothing |
| Batch.SurvivorsTogether | src/mcp_postgres/db.py:161-163 | a best-effort batch leads where an atomic batch of just its successful statements leads |
| Batch.AtomicAgrees | src/mcp_postgres/db.py:158-160 | an atomic batch goes through iff no statement fails, and then agrees with best effort |
| Batch.FirstFailureIsLeast | src/mcp_postgres/db.py:171-180 | the reported index is the least failing one, with its error |
| Batch.EntriesMatchRun | src/mcp_postgres/db.py:178-186 | one entry per statement run, up to the first failure if that stops the batch; each is an error iff its statement failed, and then that statement's own |
| Batch.EntryRecordsRelease | src/mcp_postgres/db.py:185-186 | a success entry shows the statement's own row count and status iff the statement answers just like RELEASE |
| OAuthStore.Store.TakeAuthCode | src/mcp_postgres/oauth/store.py:102-113 | the code is gone whatever happens, and returned iff stored and not expired |
| OAuthStore.Store.GetAccessToken | src/mcp_postgres/oauth/store.py:125-135 | returned iff stored and not expired; an expired row is removed |
| OAuthStore.Store.GetRefreshToken | src/mcp_postgres/oauth/store.py:152-162 | the same for refresh tokens |
| OAuthStore.Store.PruneExpired | src/mcp_postgres/oauth/store.py:171-188 | exactly the expired rows of three tables go, and are counted |
| OAuthStore.StoreRefinesIdeal | src/mcp_postgres/oauth/store.py:75-188 | with a clock that never goes back, every call of every run is answered as by a store that never sweeps |
| OAuthRows.AnswersAreTrue | src/mcp_postgres/oauth/store.py:75-188 | with such a clock, every read of every run of a new store shows a row iff some earlier call put it, no later one put over, took or deleted it, and it has not expired |
| OAuthRows.PruneSweeps | src/mcp_postgres/oauth/store.py:171-188 | maintenance leaves exactly the rows not expired, unchanged, and reports how many went |
| OAuthStore.SweepingIsInvisible | src/mcp_postgres/oauth/store.py:131-188 | maintenance or an expired read at any moment changes no later answer |
| OAuthStore.BackwardClockShows | src/mcp_postgres/oauth/store.py:131-134 | with a clock that goes back, a swept token is missed |
| OAuthProvider.Provider.PrunePending | src/mcp_postgres/oauth/provider.py:122-125 | exactly the overdue requests are dropped |
| OAuthProvider.Provider.Authorize | src/mcp_postgres/oauth/provider.py:78-87 | the request is parked beside those not overdue |
| OAuthProvider.Provider.CompleteAuthorization | src/mcp_postgres/oauth/provider.py:96-120 | a pending request is consumed and its code stored with the request's fields; otherwise nothing is minted |
| OAuthProvider.Provider.IssueTokens | src/mcp_postgres/oauth/provider.py:156-186 | one access and one refresh token with the same client, scopes and subject |
| OAuthProvider.Provider.ExchangeRefreshToken | src/mcp_postgres/oauth/provider.py:146-154 | the presented token goes before the new pair is stored |
| OAuthProvider.Provider.LoadAccessToken | src/mcp_postgres/oauth/provider.py:190-201 | the static token, or what the store shows |
| OAuthProvider.Provider.Revoke | src/mcp_postgres/oauth/provider.py:203-208 | the name leaves both token tables |
| OAuthProvider.Provider.Login | src/mcp_postgres/oauth/login.py:101-115 | pending first, then a set and matching passphrase, then the code |
| OAuthUse.RequestApprovable | src/mcp_postgres/oauth/login.py:96-115 | through any run that does not approve it, a parked request is answered for 600 seconds with the login page, and a login POST with a redirect to its own URI and state iff the passphrase is set and matches; after that it is expired |
| OAuthUse.ApprovedCodeUsable | src/mcp_postgres/oauth/provider.py:105-120 | after that redirect, through any run that does not try the code, loading it gives the code for 300 seconds, with the request's client, challenge, URI, flag and resource and the requested scopes or else the server's, and nothing later |
| OAuthUse.CodeGrantAnswers | src/mcp_postgres/oauth/provider.py:129-186 | a code grant succeeds iff the code is live, the client's own, and passes the SDK's checks; the pair stored has its scopes and subject and the access and refresh lifetimes |
| OAuthUse.RefreshGrantAnswers | src/mcp_postgres/oauth/provider.py:141-186 | a refresh grant succeeds iff the token is live, the client's own, and has every scope asked for; the pair stored carries exactly those scopes, or all the token's if none is asked for |
| OAuthUse.KeptRun | src/mcp_postgres/oauth/provider.py:78-208 | along any run, a request, code or token stays as it was made until its time, unless approved, tried, rotated or revoked by its own client |
| OAuthUse.GrantedTokensUsable | src/mcp_postgres/oauth/provider.py:156-201 | through any run, a granted bearer is accepted until it expires unless its own client revokes it, and a granted refresh token is found unless its own client rotates or revokes it |
| OAuthUse.StaticBearer | src/mcp_postgres/oauth/provider.py:193-200 | a set static token is accepted in every state with all the server's scopes and no expiry; an unstored other string is not |
| OAuthUse.RegisteredKnown | src/mcp_postgres/oauth/provider.py:70-74 | a client stays known as it registered along any run that does not register its id again |
| OAuthUse.MaintainSweeps | src/mcp_postgres/oauth/store.py:171-188 | a round of maintenance leaves exactly the codes and tokens not expired, and nothing else changes |
| OAuthRuns.ApplyKeeps | src/mcp_postgres/oauth/provider.py:78-208 | every request with fresh strings keeps the invariant: every stored code and token is rooted in one approval and unspent, at most one exchangeable name per approval |
| OAuthLaws.ApplyApproves | src/mcp_postgres/oauth/login.py:101-115 | a request becomes approved iff a login POST for it, still pending, came with the set passphrase; no event takes history back |
| OAuthLaws.EveryTokenDescends | src/mcp_postgres/oauth/provider.py:96-186 | in every run, each stored access or refresh token descends from a request some login POST of the run approved, for its client and no more than its scopes |
| OAuthLaws.OneRefreshPerApproval | src/mcp_postgres/oauth/provider.py:146-154 | in every run, at most one code or refresh token per approval is stored |
| OAuthLaws.WhatSpends | src/mcp_postgres/oauth/provider.py:129-208 | loading a code, rotating and revoking spend the name; a grant's parent was stored and is spent |
| OAuthLaws.SpentIsGone | src/mcp_postgres/oauth/store.py:102-113 | a spent name is shown by no later load of any run |
| OAuthLaws.GrantedOnce | src/mcp_postgres/oauth/provider.py:129-154 | no run grants twice on one code or one refresh token |
| OAuthLaws.ApprovedOnce | src/mcp_postgres/oauth/provider.py:101-120 | a request id yields at most one code along any run |
| OAuthLaws.RotationShrinksScopes | src/mcp_postgres/oauth/provider.py:136-186 | in every run, a stored token carries no scope that any code or refresh token up its chain of exchanges did not carry |
| OAuthLaws.AccessOutlivesRotation | src/mcp_postgres/oauth/provider.py:152-154 | rotation leaves every access token as acceptable as before |
| OAuthLaws.AccessOutlivesRevocation | src/mcp_postgres/oauth/provider.py:203-208 | so does revoking a refresh token |
| OAuthLaws.InterleavedRotationForks | src/mcp_postgres/oauth/provider.py:146-154 | two loads of one refresh token before either exchange lead to two stored refresh tokens of one approval |
| OAuthSplit.OneRefreshWhenFound | src/mcp_postgres/oauth/provider.py:141-154 | with load and exchange apart, in every run where each exchange finds its token stored, at most one unspent code or refresh token per approval is stored |
| OAuthSplit.NoSpentExchange | src/mcp_postgres/oauth/provider.py:146-154 | in such a run no exchange uses a rotated or revoked token |
| OAuthSplit.ForkNotFound | src/mcp_postgres/oauth/provider.py:153 | the second exchange of the fork is one that does not find its token |
| Capabilities.CapabilityManager.ProbeDb | src/mcp_postgres/capabilities.py:154-202 | the record as far as the first query that raises |
| Capabilities.Probed | src/mcp_postgres/capabilities.py:154-202 | admin iff a superuser row and an answered privilege query, read-write iff another role's query says it may create; each power iff the row has it or superuser; role, attributes and paths are those of the queries that answered before the first that raised, whose message is the error |
| Capabilities.CapabilityManager.CurrentOs | src/mcp_postgres/capabilities.py:126-132 | the cached tier while it lives and is not forced, else a new probe, cached |
| Capabilities.CapabilityManager.CurrentDb | src/mcp_postgres/capabilities.py:136-142 | the same for the database |
| Capabilities.CapabilityManager.Guard | src/mcp_postgres/capabilities.py:219-258 | detection, then the three checks in order, each with its own reading |
| Capabilities.CapabilityManager.FullReport | src/mcp_postgres/capabilities.py:262-280 | both probes forced, and the tools for what they showed |
| CapabilityLaws.BoundedStaleness | src/mcp_postgres/capabilities.py:126-258 | in every session, whatever the guard decides on, the role name of a refusal included, was shown less than a time-to-live before, and its verdict, the first of three checks to fail, follows from that |
| CapabilityLaws.EnabledIsEntitled | src/mcp_postgres/capabilities.py:57-111 | the list offers a tool iff the demand its own module passes to the guard is met |
| CapabilityLaws.ReportShows | src/mcp_postgres/capabilities.py:262-280 | the report shows the environment at its own two looks, whatever was cached, and lists a tool iff its demand is met there |
| CapabilityLaws.ReportAgrees | src/mcp_postgres/capabilities.py:219-280 | while what a report cached lives, a tool acts iff that report lists it, whatever the environment does |
| CapabilityLaws.ExpiryAsksAgain | src/mcp_postgres/capabilities.py:126-142 | once both caches are out, the verdict is that of the environment at the guard |
| CapabilityLaws.ReloadRefusal | src/mcp_postgres/tools/config_files.py:229-238 | a reload does not act iff its own two readings fall short; it then hands back notices instead of a refusal iff the cached tier ran out by detection or check and the last look that asked shows sudo |
| CapabilityLaws.NoticesTelescope | src/mcp_postgres/capabilities.py:206-217 | the notices on each tier lead without gap or idle step from what the first guard observed to what the last one did |
| CapabilityLaws.OsVerdictOutruns | src/mcp_postgres/capabilities.py:206-238 | the OS tier a guard refuses on is unannounced iff the cache ran out between detection and check and the environment moved; the next guard then announces it |
| CapabilityLaws.DbVerdictOutruns | src/mcp_postgres/capabilities.py:213-246 | the same for the database tier |
| Manager.DatabaseManager.Get | src/mcp_postgres/manager.py:53-61 | the cached target of the resolved name, or a new pool cached under it |
| Manager.DatabaseManager.UseDatabase | src/mcp_postgres/manager.py:66-82 | switch on an accepted probe; on a failed one drop the target if it was new |
| Manager.DatabaseManager.Close | src/mcp_postgres/manager.py:84-87 | every cached pool is closed once more, and the map is empty |
| ManagerLaws.UseKeeps | src/mcp_postgres/manager.py:66-82 | a switch keeps the registry in order iff the name is not empty |
| ManagerLaws.EmptyNameStrands | src/mcp_postgres/manager.py:56-80 | a failed switch to the empty name closes the current pool, leaves it cached, and closing closes it again |
| ManagerLaws.PoolsConserved | src/mcp_postgres/manager.py:53-87 | in every session of named switches, a pool is cached under its own name or was closed once, never both |
| ManagerLaws.GotNamed | src/mcp_postgres/manager.py:53-61 | in any state, asking for a non-empty name hands back that name with the pool cached under it, unchanged if it was cached, else new and the only change |
| ManagerLaws.HandsBackItsOwn | src/mcp_postgres/manager.py:53-64 | in every session of named switches, what is handed back is an open pool of the database asked for, or of the current one |
| ManagerLaws.SwitchHandsBack | src/mcp_postgres/manager.py:66-82 | in every such session, an accepted switch answers with an open pool of the named database, the cached one if any, and asking for the current target then gives the same |
| ManagerLaws.FailedUseChangesNothing | src/mcp_postgres/manager.py:69-80 | a failed switch leaves the current name and the cached targets as they were |
| ManagerLaws.CurrentIsVouched | src/mcp_postgres/manager.py:66-82 | the current name is the default or one whose probe reported no error |
| ManagerLaws.SilentFailureSwitches | src/mcp_postgres/manager.py:76-81 | a probe that failed with an empty message switches |
| ManagerLaws.CurrentSurvives | src/mcp_postgres/manager.py:53-82 | after a switch the same pool stays current until another switch succeeds or the registry closes |

## Left out

- TOML beyond the stated subset: multi-line strings, arrays, inline tables, dotted or quoted keys, floats, dates, `\u` escapes, other integer forms.
- OAuthProvider.Provider.Login: a passphrase or token outside ASCII, on which `hmac.compare_digest` raises, reads as a mismatch.
- Non-ASCII letters and digits in patterns, and non-ASCII letter case in setting names.
- MigrationFile.LiteralReads: covers defaults that are strings, integers and Booleans; the schema has no float or path among its file keys.
- ConfigSchema.EffectiveSame: the configuration is a map of the schema's fields; secrets, environment variables and the upper-casing of the log level in `load_config` are not modelled.
- ConfEditLaws.SetTouchesOnly: is stated for values without an inner line break; ConfFileLaws.FileSpills covers every value.
- ConfEditLaws.SetsCommute: is stated for values without an inner line break, since a second edit cuts the first value there.
- ConfFileLaws.FilesCommute: likewise.
- ConfValueLaws.FormatReadsBack: the reader takes a backslash and an octal digit as an error, where PostgreSQL reads up to three digits; the condition excludes backslashes either way.
- `include` directives and settings without `=` in `postgresql.conf`, `append_hba_rule` and `is_shadowed_source`: the last two are settled by one branch.
- OAuthStore.StoreRefinesIdeal: the number of rows a `prune` removed is not compared, since it depends on what reads swept before.
- OAuthStore.Store.TakeAuthCode: is one step, so two processes interleaving its SELECT and DELETE are not modelled.
- Rows of the store are values: JSON text, schema creation and file modes of the SQLite file are not modelled.
- `OAuthToken` as returned to the client (`expires_in`, `scope` text), PKCE, HTTP, hashing, cookies and the HTML of the login page.
- Batch.ExecuteBatch: the server session is the stated state machine; a broken connection, and an error raised by SAVEPOINT, ROLLBACK TO or RELEASE themselves, are not modelled.
- Capabilities.CapabilityManager.FullReport: service name, version, database name, environment details and the time of the check are not in the report; the list of tools is not sorted.
- Capabilities.CapabilityManager.Guard: a refusal carries its reason and notices, not the wording of its message; capability names are the two that occur.
- Threads: calls on one capability manager, registry or store are taken one after another.
- Installer, updater, admin toggle, privileged helper, introspection queries, prompts and server wiring.
