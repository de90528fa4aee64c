# Verified model of the MCP adapter's algorithms and step machines

The adapter merges MCP server definitions from many files, shows what a config write changes, keeps connections
alive, and hands tool calls to servers. This project models the parts of it where many functions or many
interleaved steps have to agree, and proves what their comments and documentation promise.

How the parts are modelled:

- **Code that changes things step by step** is a method, or a class with the original's fields, proved against a
  function of its inputs or of its old state. What is promised is then proved about that function.
- **Concurrent code** (`BearerResolver`, `Lifecycle`, `PromptDeadline`, `HostRefresh`, `HostDispatch`) is a state and a
  set of events. One event is what runs between two awaits. Any sequence of enabled events is a run, so awaited
  calls may answer in any order, with any result, or never. The clock only moves forward. Fields that the comments
  call history are there for the theorems and decide nothing. Each class method is proved to be the step of its name.
- **Independent definitions** carry the theorems: subsequences for the diff table, a strict reader of patches for the
  printed hunks, values that carry their own files for the notices, walks for the directory search, names that no
  order decides for the allocator. Each machine is compared over whole runs with a log or ledger kept from the events
  alone (`TokensAreTheCommands`, `ChecksFollowTheLedger`, `TimerMeasuresUnpausedTime`, `RefreshFollowsTheEvents`,
  `CallFollowsTheEvents`), and the rules of merges, names, pages and files are stated again field by field, with the
  constants written out.

The hunk format is "Diff -u or -U Output Format" in IEEE Std 1003.1, and the strings of tool expressions are those of
section 7 of RFC 8259.

What was found false, with the exact condition or an input:

- `HostDispatch`: a host may throw a `not_sent` error that is not its own dispatch's. While no result has come it is
  reported as `not_sent`. Whether that is true is decided by what the host sees of its own dispatch, and while that is
  pending by whether the request was sent, which it cannot see (`ForeignNotSentIsTrueIff`, `ForeignNotSentCanBeTrue`,
  `ForeignNotSentCanBeFalse`).
- `Lifecycle`: a rejecting health callback or close ends its pass for `ensureConverged` while the pass's other checks go
  on, and shutdown forgets a pass that was started after it began. These two steps, and no others, let two passes work
  at once (`OnePassIff`), and runs from the start lead to both (`OverlapAfterRejection`, `OverlapAfterRestart`). After
  the reconnect callback the code clears the retry state and the publication mark without comparing definitions again,
  so a check of a replaced definition can erase those of its replacement; that is the only way it can
  (`StaleTasksRecordNothing`), and a run leads to it (`ErasureHappens`). It takes overlapping passes: while one pass
  works, no check of the replacement has recorded anything yet (`OnePassErasesNothing`).
- `Lifecycle`: only the start of a check has a gate for the backoff. The reconnect after a failed refresh has none, and
  where passes overlap it can come in the very instant of a failure (`ReconnectTooSoon`). All attempts of a server
  wait long enough if and only if none of its checks fails while another is past its gate, so always while one pass
  works (`AttemptsBackOff`).
- `DisabledOverride`: switching a server on does not look at discovered host configs, plugins and packages, so it has no
  effect on a server that only these disable (`SwitchWorksIff`, `HostServerStaysDisabled`).
- `ExecutorCatalog`: an honest server is refused when it needs more pages than the cap. A catalog is safe from that, on
  every honest server, if and only if it has at most as many items as the cap, or its first items up to the cap are
  app tools of distinct paths (`ReadFromAllIff`, with the server that is refused in `ForeignToolsCanRefuseACatalog`).
- `CanonicalPath`: the member expression takes raw control characters in a quoted member and `JSON.parse` refuses them,
  so the function throws on exactly those expressions (`ThrowsExactlyOnRawControls`, `RawControlDoesThrow`).
- `MergeTrees`: the credential rule reads a `url` only when it is text. A url-bound credential keeps its url if and only
  if no entry merged over it sets another `url` that is not (`CredentialsKeepTheirUrlIff`, `UrlThatIsNoText`).
- `MergeTrees`: the rule for `literalEnv` looks at plugin marks only. The `literalEnv` of a config file stays when a later
  file sets another `env`, and then speaks of that (`LiteralEnvIsAboutItsEnvIff`, `UnmarkedLiteralEnv`).

`dafny verify dfyconfig.toml` checks the whole project.

## Model

| member | source | states |
|---|---|---|
| LongestCommonSubsequence.FillTable | config.ts:1813-1824 | every entry of the table filled backwards is the length of a longest common subsequence of two suffixes, by the definition over all subsequences |
| LongestCommonSubsequence.LcsIsLongest | config.ts:1820-1822 | the recurrence of the table gives a length that some common subsequence has and none exceeds |
| LongestCommonSubsequence.LcsIsUpperBound | config.ts:1820-1822 | no common subsequence is longer than the recurrence says |
| LongestCommonSubsequence.LcsIsAttained | config.ts:1820-1822 | a common subsequence of that length exists |
| LongestCommonSubsequence.LcsLengthIsUnique | config.ts:1820-1822 | a table of true lengths has the values of the recurrence, so the walk is right on any such table |
| EditScript.Walk | config.ts:1826-1845 | the walk ends, its lines stand for exactly the two texts, it keeps exactly as many lines as the table's first entry, and of all lists with as few changes it gives the one that comes first |
| EditScript.GreedyComesFirst | config.ts:1829-1845 | wherever any other list with as few changes parts from the walk's, the walk keeps a line, or adds one where the other removes one |
| EditScript.NoScriptIsShorter | config.ts:1826-1845 | a list of kept, added and removed lines that keeps that many lines has the fewest changes of all that turn one text into the other |
| EditScript.KeptTextsAreCommon | config.ts:1826-1845 | the kept lines of any such list are a common subsequence of both texts |
| DiffLines.OrderRuns | config.ts:1855-1866 | the loops compute the list with each run's removals moved before its additions |
| DiffLines.OrderedKeepsSides | config.ts:1853-1866 | that reordering keeps the before text, the after text, the place of every unchanged line, and leaves no addition before a removal |
| DiffLines.MarksAre | config.ts:1831-1842 | a line of a diff is marked with two spaces, a minus or a plus and a space, and is on both sides, the old one or the new one accordingly |
| Hunks.HunksAreNeighbourhoods | config.ts:1867-1887 | a line is in a hunk if and only if a changed line is within the context of it, and hunks neither overlap nor touch |
| Hunks.SteadyGaps | config.ts:1873-1876 | no line between the first and last change of a group is further than the context from all of its changes |
| Hunks.HunksApply | config.ts:1872-1887 | a strict reader, which checks every line number, count and line of context, turns the before lines into the after lines with the hunks |
| Hunks.ReadPrintedHunks | config.ts:1881-1885 | reading the printed lines of any hunks, with the body's end taken from the header's counts, gives the same hunks |
| Hunks.ReadPrintedHeader | config.ts:1884 | the four numbers of a printed header are read back |
| Hunks.HeaderLooks | config.ts:1884 | the printed header, character by character |
| UnifiedDiff.BuildUnifiedDiff | config.ts:1801-1851 | "(no changes)" exactly for equal texts; without a context the lines after the two headers join to the two texts on their two sides and are the first shortest list; with one, for any way to cut the texts into lines as `diff -u` does, the printed diff turns the before lines into the after lines and shows the neighbourhoods of the changes of such a list |
| UnifiedDiff.LinesAreUnique | config.ts:1804-1808 | a text has exactly one list of lines each of which ends with a newline, but for the last at most, and a diff with context is made of that |
| UnifiedDiff.ContextHunks | config.ts:1854-1888 | the loop prints exactly the hunks that the neighbourhoods ask for, with right running line numbers |
| UnifiedDiff.MoveCursor | config.ts:1877-1880 | the counters are always one more than the lines of each text before the cursor |
| UnifiedDiff.HunkBodyApplies | config.ts:1847-1850 | any script printed with any context is read back and applied to its own result |
| UnifiedDiff.OnlyFinalNewlineIsTrue | config.ts:1849-1850 | two texts with the same lines differ by at most a final newline, so the message about it is true |
| ServerEntries.MergeEntry | config.ts:1102-1153 | the branches that delete fields one by one, and the spread, give the merge of two entries |
| ServerEntries.InheritedFields | config.ts:1114-1151 | what is left of the existing entry is exactly what neither the transport, nor the url rule, nor the plugin env rule cuts |
| ServerEntries.MergeIsUnique | agent-plugin-provenance.ts:27-36 | the field-by-field description of a merge, values and plugin marks, has one solution, which is the computed one |
| MergeTrees.RepointingInheritsNoCredential | config.ts:1083-1095 | where a definition sets another url as text, each of the six credential fields is in the merged entry if and only if the definition sets it, an inherited `auth` is no object and an inherited `oauth` is `false` |
| MergeTrees.MergeKeepsTheRest | config.ts:1102-1153 | what a definition sets wins, what it does not set is inherited with its mark unless it is one of the fields, listed for each transport, the url and a plugin's env, that it makes the entry forget, and nothing else is there |
| MergeTrees.CredentialsStayWithTheirUrl | config.ts:1078-1153 | in any nesting of merges whose final url is text or left out, on its way to the result a url-bound credential was never in an entry with another url than the result's |
| MergeTrees.CredentialsKeepTheirUrlIff | config.ts:1078-1153 | with any values of `url`: the same holds if and only if nothing merged over the credential sets another `url` that is not text |
| MergeTrees.NoLaterSourceChangedTheUrl | config.ts:1078-1153 | for sources merged in order, since the source that supplied a credential no source changed the url or set the credential |
| MergeTrees.EveryFieldHasOneSupplier | agent-plugin-provenance.ts:27-36 | a field is in the result if and only if exactly one given entry supplies it, with that value, and it is marked plugin-literal exactly when that entry marked it |
| MergeTrees.InheritedCredential | config.ts:1087-1095 | one merge that lets a credential through leaves the url and the credential as they were |
| MergeTrees.InheritedCredentialKeepsUrlIff | config.ts:1087-1095 | one merge that lets a credential through keeps its url if and only if the definition sets no other `url` that is not text |
| MergeTrees.TextUrlsStayText | config.ts:1114-1152 | when every given `url` is text, so is every merged one |
| MergeTrees.UrlThatIsNoText | config.ts:1088 | two entries by which a credential outlives its url, because the later url is not text and so fails the condition |
| MergeTrees.MergesKeepOneTransport | config.ts:1114-1139 | if every given entry names at most one of command, url and socket, so does every merged one |
| MergeTrees.LiteralEnvStaysWithItsEnv | config.ts:1148-1152 | a plugin's `literalEnv` in the result is supplied by the entry that supplies `env`, which is still marked, whatever other entries say of `literalEnv` |
| MergeTrees.LiteralEnvIsAboutItsEnvIff | config.ts:1148-1152 | for any entry: its `literalEnv` in the result comes with its own `env` if and only if it has one and nothing merged over it sets one |
| MergeTrees.UnmarkedLiteralEnv | config.ts:1148-1152 | two config file entries by which a `literalEnv` comes to speak of another `env` |
| MergeTrees.MergeIsNotAssociative | config.ts:1140-1147 | three entries for which merging in order drops a credential that the other grouping keeps |
| LayeredConfig.MergeServerMaps | config.ts:1097-1155 | the loop over names merges each definition over the entry of its name and leaves the rest |
| LayeredConfig.ExpandImports | config.ts:1163-1195 | of the imports the first to list a server wins, and the file's own entries are merged over them |
| LayeredConfig.LoadServers | config.ts:644-684 | the loop folds the files in order, without the global Pi entries that the project's Pi file redefines |
| LayeredConfig.FirstImportWins | config.ts:1169-1182 | of the imports that list a server the first is used, and no other |
| LayeredConfig.FileFieldIsGiven | config.ts:651-656 | a field of a file is as its own entry sets it, unless it is a global Pi entry of a server of the project's Pi file, and else as its first import that lists the server |
| LayeredConfig.LastFileWins | config.ts:646-684 | a loaded field is as the last file that has it, or the host config where none has, and a field that no merge forgets is there if any has it |
| LayeredConfig.FinalPrecedence | config.ts:690-707 | files win over plugins, plugins over packages, which are not heard on a plugin's servers, and those over Claude defaults |
| LayeredConfig.LoadedCredentialsStayWithTheirUrl | config.ts:646-707 | in the final config, over any files, imports, plugins and packages, each url-bound credential is that of one given entry, and has met no other url if and only if no other `url` that is not text was merged over it; so always where the final url is text or left out |
| DroppedNotices.DroppedCredentialNotices | config.ts:334-395 | the replay merges what the loader merges and reports exactly the drops of the merges whose values carry their files |
| DroppedNotices.NoticesAreTrue | config.ts:366-394 | for each file there is a notice for a field if and only if the file takes a credential from its imports, or from the files before it, with another url; it names the file behind the field in the last file that has it, or the host's, and the file behind the url |
| DroppedNotices.ImportedFile | config.ts:380-382 | a key of an import is traced to the file given for that key where there is one, and else to the imported file, for the first import that lists the server |
| DroppedNotices.LastFileIsTraced | config.ts:371-393 | a loaded field is traced to the file behind it in the last file that has it, or to the host's |
| DroppedNotices.DropsAreReported | config.ts:345-355 | one merge's drops are exactly the credentials for one url that another url takes away, each with the files of both |
| DroppedNotices.ReplayFile | config.ts:371-393 | the same for one file: its entries over its imports, then over the files before it |
| DroppedNotices.MergeWithFiles | config.ts:336-360 | one merge reports exactly its drops, and its file map still names the right file for every credential that is there |
| DroppedNotices.NoticesFor | config.ts:346-357 | the loop over the dropped fields of one server reports those with a known file and updates the file map |
| DroppedNotices.DropsAreLostCredentials | config.ts:1083-1095 | under a url change without a command, one of the eight credential fields is reported as dropped if and only if it is missing from the merge |
| DroppedNotices.StaleFieldFiles | config.ts:348-357 | the file map keeps a field the entry lacks only where that entry makes any further merge forget the field anyway |
| DroppedNotices.OverNoImports | config.ts:377-390 | the replay's merge over no imports is the loader's plain use of the file |
| DisabledOverride.WriteDisabledOverride | config.ts:2018-2068 | only the flag of the one server changes, to what was asked and what the writer saw below; a change is reported if and only if an entry changes, or the place of a flag that is `false` already and must be |
| DisabledOverride.OnlyOrderChanges | config.ts:2043-2061 | the comparison of the serialized entries sees a change in the order of keys exactly when a flag that must be `false` is so already and not last |
| DisabledOverride.OtherKeysKeepTheirOrder | config.ts:2036-2056 | the other keys of the entry stay in their order, and the flag keeps its place when a server is switched off and comes last when it must be `false` |
| DisabledOverride.SwitchWorksIff | config.ts:2013-2056 | after a reload, off is always off, and on is on if and only if the writer saw the server disabled or nothing below disables it |
| DisabledOverride.SwitchWorksOnFiles | config.ts:2044-2056 | where only config files disable the server both switches always work |
| DisabledOverride.WriterMissesNoFile | config.ts:2045-2049 | reading a global Pi entry that the loader leaves out never hides a file that disables the server |
| DisabledOverride.HostServerStaysDisabled | config.ts:2044-2056 | a server that a discovered host config disables stays disabled when switched on |
| BearerResolver.NoRejectionAfterSuccess | bearer-command-resolver.ts:135-173 | once a command has succeeded, no call is newly rejected except by its own caller's abort, whether it is made later or was waiting |
| BearerResolver.OneFlightAndNoAbandonedWaiter | bearer-command-resolver.ts:147-196 | in every run at most one unaborted flight is unfinished, no call waits for an aborted one, and each counter is the number of waiting calls |
| BearerResolver.CommandsAreATtlApart | bearer-command-resolver.ts:137-174 | in every run the whole TTL lies between the end of an unaborted command, good or bad, and the start of any later one |
| BearerResolver.TokensAreTheCommands | bearer-command-resolver.ts:135-196 | in every run the cached token is the one the last successful command put out, until the TTL after that, and the failure window is that of the last unaborted failure since; each call is answered with exactly those, or waits for the one unaborted flight, a new one where there is none, and is then given what that flight's command put out, or the token cached when it failed |
| BearerResolver.AbortIsNoOutage | bearer-command-resolver.ts:157-165 | an aborted command never opens a failure window, and a token once cached is never forgotten |
| BearerResolver.OwnAbortIsTheCallers | bearer-command-resolver.ts:136-187 | an answer never changes, and is an abort only by that caller's own signal |
| BearerResolver.InvStep | bearer-command-resolver.ts:135-196 | every step keeps single flight, counted waiters, no forgotten caller, no failure after success and the TTL |
| BearerResolver.BearerCommandResolver.Resolve | bearer-command-resolver.ts:135-174 | is the step of the machine: answers from token or failure window, or joins or starts a flight |
| BearerResolver.BearerCommandResolver.CommandEnds | bearer-command-resolver.ts:151-165 | is the step of the `then` and `catch` handlers |
| BearerResolver.BearerCommandResolver.FlightSettles | bearer-command-resolver.ts:166-168 | is the step of the flight's `finally` handler, and settles every waiting call |
| BearerResolver.BearerCommandResolver.WaiterLeaves | bearer-command-resolver.ts:188-195 | is the step of the waiter's `finally` handler, which aborts a flight nobody waits for |
| PromptDeadline.TimerMeasuresUnpausedTime | elicitation-handler.ts:64-134 | in every run, by a meter of the events alone: a running call's timer is set exactly when no prompt is open and is due exactly when the call has used up its timeout; it never aborts early, and once the time is used up it has aborted or may now |
| PromptDeadline.PromptsCostNothing | elicitation-handler.ts:64-71 | however prompts nest and whatever other calls do meanwhile, when the last prompt closes a running call's timer is set for exactly what was left |
| PromptDeadline.DelaysNeverExceedTheTimeout | elicitation-handler.ts:73-114 | no timer is set for longer than the timeout, so none overflows the limit of `setTimeout` |
| PromptDeadline.InvStep | elicitation-handler.ts:96-134 | every step keeps remaining plus unpaused time equal to the timeout |
| PromptDeadline.PromptPause.OpenPrompt | elicitation-handler.ts:65 | the first prompt pauses every registered deadline, a further one none |
| PromptDeadline.PromptPause.ClosePrompt | elicitation-handler.ts:69 | the last prompt to close resumes every registered deadline |
| PromptDeadline.PromptPause.OnProgress | elicitation-handler.ts:122-128 | progress gives the whole timeout again, and a paused deadline stays paused |
| PromptDeadline.PromptPause.EndCall | elicitation-handler.ts:130-133 | the deadline is taken out and its timer cleared |
| ExecutorCatalog.FetchExecutorCatalog | executor-catalog.ts:116-157 | for any server the loop ends with the outcome its pages decide, distinct paths and at most the cap; an honest server's catalog is returned exactly when it ends, or fills the cap, within as many pages as the cap, and then is its app tools as first listed |
| ExecutorCatalog.PagesGoForward | executor-catalog.ts:127-156 | each page is asked for at most 200 items and the room that is left of 1000; reading goes on at a later offset only, a page that points back, or stays without being empty, is refused |
| ExecutorCatalog.OutcomeIsUnique | executor-catalog.ts:127-156 | the pages of a server leave one outcome: the tools and the total of the items looked at, or a refusal |
| ExecutorCatalog.HonestOutcome | executor-catalog.ts:116-157 | the outcome that an honest server's pages leave is its app tools as first listed, with the total of the catalog less what was passed over, or a refusal exactly when it takes too many pages |
| ExecutorCatalog.ReadFromAllIff | executor-catalog.ts:127-156 | a catalog is read from every honest server if and only if it has at most as many items as the cap, or its first items up to the cap are all kept |
| ExecutorCatalog.KeepItems | executor-catalog.ts:134-143 | one page adds its new app tools up to the cap and counts the others |
| ExecutorCatalog.TotalIsTheToolsKept | executor-catalog.ts:137-148 | for a catalog below the cap `total` is the number of tools, and it is never less than the number of app tools there are |
| ExecutorCatalog.SmallCatalogsAreRead | executor-catalog.ts:127-130 | an honest catalog of at most as many items as the cap is always read |
| ExecutorCatalog.ForeignToolsCanRefuseACatalog | executor-catalog.ts:127-130 | in any other catalog, the honest server that gives one item a page is refused |
| ExecutorCatalog.KeptPaths | executor-catalog.ts:137-142 | first listing wins: distinct paths, exactly those of the app tools |
| ExecutorCatalog.KeptAreFirstListings | executor-catalog.ts:134-143 | the tools are the items that are the first app tools of their path, all of them and in their order |
| SkillDiscovery.DiscoverContainedSkillFiles | claude-plugin-loader.ts:194-236 | on any links the walk ends, lists each real directory once and exactly those reachable inside the root, and returns exactly their skill files, as often as they are listed |
| SkillDiscovery.SkillWalk.Visit | claude-plugin-loader.ts:197-233 | after a visit everything newly listed has all its edges inside the listed directories, and the new files are those of the new directories |
| SkillDiscovery.SkillWalk.VisitEntry | claude-plugin-loader.ts:208-232 | an entry is followed, taken or passed over by its kind and where its real path lies |
| SkillDiscovery.ClosedContainsReachable | claude-plugin-loader.ts:197-233 | a set of directories closed under the walk's edges has every directory that can be reached |
| SkillDiscovery.LeadsToIff | claude-plugin-loader.ts:197-222 | an entry leads to a directory if and only if it is a directory, or a link to one inside the root, whose real path is inside the root |
| SkillDiscovery.SkillFileIff | claude-plugin-loader.ts:210-231 | an entry is a skill file if and only if it is named `SKILL.md` and is a file, or a link to one, whose real path is inside the root |
| DeferredNames.ResolveNames | deferred-tool-surface.ts:90-110 | names are distinct, at most 64 name characters, not in use and not another tool's; for any list each tool has its plain name if that is short, free and not shared, else its hashed name if that is free, else none; they are the names that no order decides if and only if those do not collide |
| DeferredNames.OrderDoesNotMatter | deferred-tool-surface.ts:90-96 | for any permutation of the tools the wanted names are the same, and collide or not alike |
| DeferredNames.NameTool | deferred-tool-surface.ts:98-107 | the plain name if it may be used and is not shared, else the hashed one if it may be used, else none; a name that is given is safe |
| DeferredNames.HashedNameIsSafe | deferred-tool-surface.ts:41-47 | a hashed name fits the length and the alphabet |
| DeferredNames.HashedNameIsCut | deferred-tool-surface.ts:41-47 | it is the first 55 characters of the plain name, an underscore and the hash |
| DeferredNames.HashInputTellsApart | deferred-tool-surface.ts:44 | without NULs in server and tool names, two tools are hashed from the same text if and only if they are the same, resource included |
| DeferredNames.PlainNameIsCleaned | deferred-tool-surface.ts:31-33 | the plain name is `mcp__namespace__tool` with an underscore for each character that is no letter, digit or underscore |
| DeferredNames.SharingOfPermutation | deferred-tool-surface.ts:92-96 | how many tools share a plain name does not depend on the order |
| CanonicalPath.CanonicalPath | executor-accounts.ts:70-82 | the loop ends on every text with what reading it member by member gives |
| CanonicalPath.PrintedExpressionIsItsSegments | executor-accounts.ts:70-82 | `tools` followed by any members, spelled in any way the grammar has, comes back as the segments joined by dots |
| CanonicalPath.AnySegmentsComeBack | executor-accounts.ts:70-82 | any segments whatever can be written as an expression and come back |
| CanonicalPath.PrintReadMembers | executor-accounts.ts:74-80 | only a text that is a list of printed members is read to its end |
| CanonicalPath.ScanPrintedMember | executor-accounts.ts:20 | a printed member is matched as itself, whatever follows |
| CanonicalPath.PrintScannedMember | executor-accounts.ts:20 | what is matched is a printed member, and is not empty |
| CanonicalPath.ThrowsExactlyOnRawControls | executor-accounts.ts:78 | the function throws if and only if a quoted member with a raw control character is met |
| CanonicalPath.RawControlDoesThrow | executor-accounts.ts:78 | an expression of one quoted member, with the character 1 as it is, on which it throws |
| CanonicalPath.OtherTextsAreTrimmed | executor-accounts.ts:70-82 | for every text: it is trimmed where it is no expression of members to its end, the dotted segments of its members where it is, and an exception where it meets a raw control character |
| CanonicalPath.TrimTakesSpaces | executor-accounts.ts:71 | trimming takes white space from both ends, all of it and nothing else |
| CanonicalPath.DotsTellSegmentsApart | executor-accounts.ts:65-81 | segments without dots are what splitting the path at its dots gives, so the first names the app |
| CanonicalPath.EscapesMean | executor-accounts.ts:78 | the short escapes of a quoted member and what they stand for |
| CanonicalPath.HexDigitsMean | executor-accounts.ts:78 | a four-digit escape is the number its digits write, in either case |
| CanonicalPath.CharactersAre | executor-accounts.ts:20 | the characters of identifiers, escapes, digits and white space |
| HostRefresh.NotRetiredIsUnchanged | host-managed.ts:244-271 | with no re-list pending, the last completed one began after the last notification, and a selected tool is retired if and only if some completed one did not have it as registered; retired tools stay retired |
| HostRefresh.RefreshFollowsTheEvents | host-managed.ts:244-265 | in every run, by a log of the events alone: a re-list runs from the first notification, the selection or the end of another as long as a notification is unanswered, and a tool is retired if and only if some completed re-list failed or did not list it as registered |
| HostRefresh.InvStep | host-managed.ts:247-271 | every step keeps that no notification is lost and that retired tools are exactly the changed ones |
| HostRefresh.Connection.RequestCatalogRefresh | host-managed.ts:247-255 | is the step up to the await: nothing before selection or during a re-list, otherwise a new one |
| HostRefresh.Connection.OnListing | host-managed.ts:251-264 | is the rest of the loop's body: retires what changed or everything, and lists again if asked meanwhile |
| HostRefresh.Connection.SelectTools | host-managed.ts:342-344 | a notification from before the selection gets its re-list |
| HostDispatch.AtMostOneAllowedRequest | host-managed.ts:404-464 | in every run a call sends at most one request and a read at most one, and only while it is allowed to |
| HostDispatch.CallFollowsTheEvents | host-managed.ts:404-507 | in every run, by a log of the events alone: the request is sent exactly when `send` goes on in a call that is not over with a tool told not retired, a read exactly when its dispatch finds the call not over, each answer means what its delivery says, and the report is the one the events call for |
| HostDispatch.SentToolWasAsRegistered | host-managed.ts:268-271 | from the connection's start on, a request is only sent for a tool that was as registered in every re-list completed when `isRetired` answered, with none pending and the last begun after the last notification |
| HostDispatch.NothingIsSentLater | host-managed.ts:408-411 | after close, abort, disconnection or settlement nothing more is sent, whatever was waiting, and the report stays |
| HostDispatch.HostErrorNotSentIsFinal | host-managed.ts:487-507 | `host_error` with `sent: false` means that the request is never sent, even if a dispatch was waiting |
| HostDispatch.OwnDeliveryIsTrue | host-managed.ts:183-195 | for the call's own dispatch error, `not_sent` is reported if and only if no request was handed to a connected client |
| HostDispatch.ForeignNotSentIsTrueIff | host-managed.ts:492-494 | for an adapter error from elsewhere, exactly when a report of `not_sent` is made and is true, by what the host sees of its own dispatch, and while that is pending by whether the request was sent |
| HostDispatch.ForeignNotSentCanBeTrue | host-managed.ts:492-494 | two steps after which that report is true, with the dispatch pending |
| HostDispatch.ForeignNotSentCanBeFalse | host-managed.ts:492-494 | four steps after which the report says `not_sent`, the dispatch is pending and the request was sent |
| HostDispatch.ToolCall.ContinueSend | host-managed.ts:410-419 | is the step of `send` after its await: the last checks, then the request |
| HostDispatch.ToolCall.DispatchOnce | host-managed.ts:476-480 | a second dispatch throws and changes nothing |
| HostDispatch.ToolCall.AnswerRetired | host-managed.ts:268-271 | is the step of `isRetired` once no re-list is pending |
| HostDispatch.ToolCall.DispatchRead | host-managed.ts:447-463 | a read is sent at most once, and not once the call is unavailable |
| HostDispatch.ToolCall.HostFails | host-managed.ts:489-507 | is the step of the `catch` and `finally` around the host's handler |
| Lifecycle.ConvergenceIsSingle | lifecycle.ts:127-163 | in every run retry states and publication marks are only of registered servers, and all work is of the one active pass all along if and only if no pass is cut short; it is where no check rejected and health checks were not started again during shutdown |
| Lifecycle.OnePassIff | lifecycle.ts:127-138 | from any state in which one pass works, a run keeps it so if and only if no step ends the active pass, or lets shutdown forget it, while one of its checks works |
| Lifecycle.RejectionLetsPassesOverlap | lifecycle.ts:127-138 | from any such state, how a rejecting callback or close lets a second pass work beside the first |
| Lifecycle.RestartLetsPassesOverlap | lifecycle.ts:424-440 | from any such state, how starting health checks during shutdown does |
| Lifecycle.OverlapAfterRejection | lifecycle.ts:127-138 | a run from the start, with a close that fails, after which two passes work on one server |
| Lifecycle.OverlapAfterRestart | lifecycle.ts:424-440 | a run from the start, with health checks started again before shutdown forgets the active pass, after which they do |
| Lifecycle.StaleTasksRecordNothing | lifecycle.ts:307-344 | a check of a replaced definition records no failure and adds no mark, and leaves its replacement's alone if and only if it does not end a publication well |
| Lifecycle.ErasureHappens | lifecycle.ts:317-320 | a run from the start after which the check of a replaced definition erases the retry state of its replacement |
| Lifecycle.OnePassErasesNothing | lifecycle.ts:307-320 | while one pass works, as long as a check of a replaced definition is at work no check of the registered one has taken a step since it was registered |
| Lifecycle.CloseHitsOnlyOwnConnection | lifecycle.ts:307-336 | a connection is closed explicitly only by a check of a replaced definition, only the one it was just given, and only while that is current |
| Lifecycle.AttemptsBackOff | lifecycle.ts:165-410 | in every run, all attempts of a server, with a gate or without, come 30 s doubled k - 1 times, at most 5 min, after the last of k failures in a row on one connection and status, if and only if none of its checks fails while another is past its gate; so always while one pass works |
| KeepAliveLedger.ChecksFollowTheLedger | lifecycle.ts:165-410 | in every run, by a ledger of the events alone: a server's retry state has exactly its failures in a row, the time of the next attempt and the connection of the last one, its mark is there exactly while a publication is owed, and every check goes on to exactly what these call for |
| KeepAliveLedger.NoServerIsGivenUp | lifecycle.ts:171-223 | five minutes after the last failure, or when connection or status has changed since, the next check of a registered server connects, publishes what is owed, or refreshes |
| KeepAliveLedger.DelayIsTheTable | lifecycle.ts:397-401 | the wait is 30, 60, 120, 240 and then 300 seconds |
| KeepAliveLedger.PassChecksEveryServer | lifecycle.ts:156-163 | a pass checks each server registered when it starts once and touches no check of another pass |
| KeepAliveLedger.WorldIsOfTheEvents | lifecycle.ts:71-125 | no check changes the clock, the registrations, what is stopped or the connections it finds |
| Lifecycle.NoCheckPassesItsGate | lifecycle.ts:346-354 | in every run, no check passes its gate before that time, neither when it begins nor when it begins again after a superseded refresh |
| Lifecycle.ReconnectTooSoon | lifecycle.ts:239-246 | a run from the start, with overlapping passes, in which a reconnect comes in the instant of a failure |
| Lifecycle.DelayIsCappedDoubling | lifecycle.ts:397-401 | the cap of the exponent never changes the delay, which is monotone and between 30 s and 5 min |
| Lifecycle.FailuresAreCounted | lifecycle.ts:165-410 | whatever happens next, a row of failures keeps its retry state: only unregistering, shutdown, a check that ends well, a failure on another connection or another connection or status ends it, and a further failure extends its wait |
| Lifecycle.EventIsATaskStep | lifecycle.ts:165-344 | whatever a check does between two awaits changes only itself and its own server's retry state and mark, and those only in three ways |
| Lifecycle.InvStep | lifecycle.ts:71-444 | every step keeps the invariant behind all of this |
| Lifecycle.McpLifecycleManager.UnregisterServer | lifecycle.ts:82-88 | is the step that removes a server with its retry state and mark |
| Lifecycle.McpLifecycleManager.EnsureConverged | lifecycle.ts:127-138 | does nothing when stopped or aborted, joins the active pass, or starts the one of its step |
| Lifecycle.McpLifecycleManager.CheckKeepAliveConnection | lifecycle.ts:171-223 | is the step of a check up to its first await |
| Lifecycle.McpLifecycleManager.HandleSupersededConnection | lifecycle.ts:281-305 | is the step for a connection that was replaced meanwhile |
| Lifecycle.McpLifecycleManager.PublishConnectedMetadata | lifecycle.ts:307-317 | is the step up to the reconnect callback, with the fence by definition |
| Lifecycle.McpLifecycleManager.AfterPublish | lifecycle.ts:318-324 | is the step after it, which has no fence when it succeeds |
| Lifecycle.McpLifecycleManager.NotifyAuthRequired | lifecycle.ts:327-338 | is the step up to the auth callback, with the fence by definition |
| Lifecycle.McpLifecycleManager.ShouldAttemptConnection | lifecycle.ts:346-354 | answers as the step's gate does, and drops a retry state of another connection or status |
| Lifecycle.McpLifecycleManager.RecordRetry | lifecycle.ts:388-410 | records the failure only of the registered definition, as the step does |

## Left out

- File reading, JSON, TOML and comment parsing, and the validation of entries: files come as maps of entries.
- Settings, imports lists and script tools in `mergeConfigs`, which are replaced whole.
- The merge of discovered host configs with each other, and of OpenCode files: the result is given as one map.
- `stripProjectProviderAuth` and the namespace shadowing of Claude plugin servers, which only remove whole servers.
- Server names like `__proto__` that JavaScript objects treat in their own way.
- The wording of notices and their grouping by file: a notice is a server, a field and two files.
- `droppedUrlBoundAuth` on a `url`, `command` or `socket` that is not text is modelled as the code has it, and the theorems say where they need text.
- DisabledOverride.WriteDisabledOverride: malformed files, keys that are numbers, which JavaScript moves to the front, and the config mode in which the project file is no source.
- Process handling in `runCommand`: a command settles once, and after an abort it gives a token only if it had ended just before.
- BearerResolver.InvStep: the exit of a command and the handlers of its promise are one step, which may come after the flight was aborted.
- Lifecycle: idle shutdown, warnings, the limit of ten checks at a time (any order is allowed), and failure callbacks that throw or call back into the manager.
- Executor pages: checks of single fields, unavailable apps, aborts between pages and the time stamp.
- SkillDiscovery.DiscoverContainedSkillFiles: the order of the returned files; the sort by name is taken as done by the listing, and files do not change during the walk.
- DeferredNames.ResolveNames: SHA-256 and the encoding of server names are any functions, hashes being eight name characters, and which tools are candidates is given.
- Host-managed start and approval, from before the host is given a call and of linked reads, the output guard, and the time limit of shutdown.
- Rounding of timers to milliseconds; clocks that step back.
- Strings outside `CanonicalPath` are sequences of characters rather than UTF-16 code units.
- Promises and objects of the concurrent parts are numbered values in maps, so aliasing between them is not part of the model.
