# TelegrafOpenSearchManager, modelled in Dafny

`TelegrafOpenSearchManager` is a one-class Java tool that sets up Telegraf on a VM. Telegraf ships the VM's syslog to an OpenSearch cluster. The tool then queries the cluster for that VM's logs from the last day. This project models the three pieces of logic inside that tool and proves properties about them:

- **Grok pattern selection** (`grok.dfy`, module `Grok`). `determineGrokPattern` lower-cases the OS name and classifies it by substring:
  - the Debian family (`ubuntu`, `debian`);
  - the RedHat family (`redhat`, `centos`, `fedora`);
  - everything else.

  It returns one fixed grok pattern per family. The OS name is a parameter, and lower-casing is ASCII-only (`Text.ToLowerAscii`). `Text.Contains` models Java's `String.contains`.
- **The configuration writer** (`config.dfy`, module `TelegrafConfig`). `writeNewConfig` writes `/etc/telegraf/telegraf.conf` with one `writer.write` call per line, in three sections:
  - `[agent]`;
  - `[[inputs.tail]]` with its `[inputs.tail.tags]` table;
  - `[[outputs.opensearch]]`.

  The file is modelled as a sequence of structured `Line`s, one per `writer.write` call. `Render` gives each line's exact text without the trailing newline, and `RenderAll` gives the text of the whole file. The `...Text` lemmas pin each table header and each line that splices a value to the concatenation the source writes. Their positions count lines from 0. The static fields the source keeps become a `Settings` record, and `DEFAULT_SETTINGS` holds their built-in values. A reader's view of the file is given by:
  - `Find` and `Lookup`: the first line that assigns a key;
  - `Header`: the table a line belongs to;
  - `Text.Unwrap`: the text between a line's prefix and suffix.

  These lemmas are stated against that view.
- **Index bootstrap, query and report** (`search.dfy`, module `LogSearch`). `searchLogs` calls `isIndexExists`, creates the index when it is missing, builds a search request step by step, sends it, and prints the hits. A `Cluster` object stands for the server's set of index names and the creation requests it has received, and the index methods update both in place. The query is a datatype value. The server's answer is a function parameter `respond`. The printed lines are returned as a sequence of strings.

## Model

All source paths are relative to the repository root.

| member | source | states |
|---|---|---|
| Text.Contains | untitled/src/main/java/TelegrafOpenSearchManager.java:135-138 | `s.contains(t)` holds exactly when some position of `s` starts an occurrence of `t` |
| Text.ToLowerAscii | untitled/src/main/java/TelegrafOpenSearchManager.java:133 | lower-casing keeps the length. Every character is lowered and no upper-case ASCII letter is left |
| Text.ToLowerIdempotent | untitled/src/main/java/TelegrafOpenSearchManager.java:133 | lower-casing an already lower-cased name changes nothing |
| Text.Unwrap | untitled/src/main/java/TelegrafOpenSearchManager.java:105 | a value is read from a line exactly when the line has the prefix and suffix, and the line is prefix + value + suffix |
| Text.UnwrapSpliced | untitled/src/main/java/TelegrafOpenSearchManager.java:105 | any text spliced between a prefix and a suffix is read back unchanged |
| Grok.Classify | untitled/src/main/java/TelegrafOpenSearchManager.java:135-141 | the family is Debian iff the name contains `ubuntu` or `debian`. It is RedHat iff the name contains none of those but contains `redhat`, `centos` or `fedora`. Otherwise it is the fallback |
| Grok.DetermineGrokPattern | untitled/src/main/java/TelegrafOpenSearchManager.java:132-142 | for every OS name, the Debian pattern is returned iff the lower-cased name names a Debian distribution. The RedHat pattern is returned iff it names a RedHat one and no Debian one. Otherwise the fallback pattern is returned |
| Grok.PatternsDistinct | untitled/src/main/java/TelegrafOpenSearchManager.java:136-140 | the three patterns are pairwise different |
| Grok.PatternDeterminesFamily | untitled/src/main/java/TelegrafOpenSearchManager.java:135-141 | two families give the same pattern iff they are the same family |
| Grok.DebianGroups | untitled/src/main/java/TelegrafOpenSearchManager.java:136 | the Debian pattern starts with the ISO-8601 timestamp group, has the hostname, program and pid groups, and ends with the message group |
| Grok.RedHatGroups | untitled/src/main/java/TelegrafOpenSearchManager.java:138 | the RedHat pattern starts with the syslog timestamp group, has the hostname, program and pid groups, and ends with the message group |
| Grok.FallbackGroups | untitled/src/main/java/TelegrafOpenSearchManager.java:140 | the fallback pattern starts with the ISO-8601 timestamp group, has the hostname and program groups, ends with the message group, and has no pid group, nor any `pid` text |
| Grok.FallbackHasNoBracket | untitled/src/main/java/TelegrafOpenSearchManager.java:140 | the fallback pattern contains no `[` |
| Grok.FallbackHasNoLowerD | untitled/src/main/java/TelegrafOpenSearchManager.java:140 | the fallback pattern contains no lower-case `d`, so it cannot contain `pid` |
| Grok.SelectedPatternGroups | untitled/src/main/java/TelegrafOpenSearchManager.java:132-142 | whatever the OS name, the chosen pattern has the hostname, program and message groups. It has a pid group iff the name is in the Debian or RedHat family |
| Grok.DebianTakesPrecedence | untitled/src/main/java/TelegrafOpenSearchManager.java:135-138 | a name whose lower-cased form contains both `ubuntu` and `centos` gets the Debian pattern, because the Debian test comes first |
| Grok.EmptyNameFallback | untitled/src/main/java/TelegrafOpenSearchManager.java:139-140 | the empty OS name gets the fallback pattern |
| Grok.CapitalisedUbuntu | untitled/src/main/java/TelegrafOpenSearchManager.java:133-136 | `Ubuntu` is lowered before the test, so it gets the Debian pattern |
| Grok.LinuxNameFallback | untitled/src/main/java/TelegrafOpenSearchManager.java:133-140 | `Linux`, the name a JVM reports on every Linux distribution, gets the fallback pattern |
| TelegrafConfig.QuotedText | untitled/src/main/java/TelegrafOpenSearchManager.java:115-126 | a quoted setting is written as indent, key, ` = "`, the value verbatim, then `"` |
| TelegrafConfig.QuotedListText | untitled/src/main/java/TelegrafOpenSearchManager.java:105-121 | a one-element list setting is written as indent, key, ` = ["`, the value verbatim, then `"]` |
| TelegrafConfig.Render | untitled/src/main/java/TelegrafOpenSearchManager.java:88-128 | only the blank line writes no text; after its indent a table header starts with `[`, a comment with `#`, a setting with a letter of its key |
| TelegrafConfig.AgentTableText | untitled/src/main/java/TelegrafOpenSearchManager.java:89 | line 1 (0-based) of the written text is `[agent]`, for all settings |
| TelegrafConfig.FilesText | untitled/src/main/java/TelegrafOpenSearchManager.java:105 | line 16 of the written text is `  files = ["` + log file + `"]` |
| TelegrafConfig.GrokPatternsText | untitled/src/main/java/TelegrafOpenSearchManager.java:111 | line 22 of the written text is `  grok_patterns = ["` + pattern + `"]` |
| TelegrafConfig.InputTableText | untitled/src/main/java/TelegrafOpenSearchManager.java:104 | line 15 of the written text is `[[inputs.tail]]` |
| TelegrafConfig.TagsTableText | untitled/src/main/java/TelegrafOpenSearchManager.java:114 | line 25 of the written text is `  [inputs.tail.tags]` |
| TelegrafConfig.VmIdText | untitled/src/main/java/TelegrafOpenSearchManager.java:115 | line 26 of the written text is `    vm_id = "` + VM id + `"`, the first tag |
| TelegrafConfig.MciGroupIdText | untitled/src/main/java/TelegrafOpenSearchManager.java:116 | line 27 of the written text is `    mci_group_id = "` + group id + `"`, straight after the VM tag |
| TelegrafConfig.OutputTableText | untitled/src/main/java/TelegrafOpenSearchManager.java:120 | line 30 of the written text is `[[outputs.opensearch]]` |
| TelegrafConfig.UrlsText | untitled/src/main/java/TelegrafOpenSearchManager.java:121 | line 31 of the written text is `  urls = ["` + host + `"]` |
| TelegrafConfig.IndexNameText | untitled/src/main/java/TelegrafOpenSearchManager.java:122 | line 32 of the written text is `  index_name = "` + index + `"` |
| TelegrafConfig.TemplateNameText | untitled/src/main/java/TelegrafOpenSearchManager.java:123 | line 33 of the written text is `  template_name = "` + template + `"` |
| TelegrafConfig.UsernameText | untitled/src/main/java/TelegrafOpenSearchManager.java:125 | when both credentials are non-empty, line 34 of the written text is `  username = "` + user + `"` |
| TelegrafConfig.PasswordText | untitled/src/main/java/TelegrafOpenSearchManager.java:126 | when both credentials are non-empty, line 35 of the written text is `  password = "` + password + `"` |
| TelegrafConfig.ConfigLines | untitled/src/main/java/TelegrafOpenSearchManager.java:88-128 | the write sequence has 37 writes when both credentials are non-empty, and 35 otherwise |
| TelegrafConfig.DEFAULT_SETTINGS | untitled/src/main/java/TelegrafOpenSearchManager.java:22-31 | the built-in values: `/var/log/syslog`, `http://192.168.110.14:9200`, `my-vm-test-1`, `MCI-1`, `telegraf-test`, `telegraf-*`, and empty credentials |
| TelegrafConfig.HasCredentials | untitled/src/main/java/TelegrafOpenSearchManager.java:124 | credentials count as given only when both are non-empty; an empty user name or password alone rules them out |
| TelegrafConfig.AgentSection | untitled/src/main/java/TelegrafOpenSearchManager.java:88-101 | the agent section has 14 writes, opens `[agent]` second, ends with a blank line, and every key it assigns belongs to `[agent]`; it takes no input |
| TelegrafConfig.InputSection | untitled/src/main/java/TelegrafOpenSearchManager.java:103-117 | the input section has 15 writes, opens `[[inputs.tail]]` and then `[inputs.tail.tags]`, holds the log path in `files` and the pattern in `grok_patterns`, and writes `vm_id` before `mci_group_id`; each key lies under its own table |
| TelegrafConfig.Credentials | untitled/src/main/java/TelegrafOpenSearchManager.java:124-127 | the credential writes are both or none: two (`username` then `password`, holding the values) iff both are non-empty |
| TelegrafConfig.OutputSection | untitled/src/main/java/TelegrafOpenSearchManager.java:119-128 | the output section has 8 writes with credentials and 6 without, opens `[[outputs.opensearch]]`, holds the URL in `urls`, puts the credentials straight after `template_name`, and ends with a blank line |
| TelegrafConfig.Find | untitled/src/main/java/TelegrafOpenSearchManager.java:88-128 | the position found is the first line assigning the key, and no position is found when no line assigns it |
| TelegrafConfig.Header | untitled/src/main/java/TelegrafOpenSearchManager.java:88-128 | a line's table is the nearest table header at or before it, with no header in between |
| TelegrafConfig.AgentFind | untitled/src/main/java/TelegrafOpenSearchManager.java:88-101 | the agent section assigns exactly the agent keys; a reader finds each at its own line. Each holds its fixed value, e.g. `interval = "1s"`, `metric_batch_size = 1000`, `debug = true` |
| TelegrafConfig.InputFind | untitled/src/main/java/TelegrafOpenSearchManager.java:103-117 | the input section assigns exactly the input and tag keys, at their lines, with the log path, the pattern and the two tags spliced in |
| TelegrafConfig.OutputFind | untitled/src/main/java/TelegrafOpenSearchManager.java:119-128 | the output section assigns `urls`, `index_name` and `template_name`, and the credentials only when both are non-empty |
| TelegrafConfig.FindConcat | untitled/src/main/java/TelegrafOpenSearchManager.java:87-129 | in a file written in two parts, the first part that assigns a key decides where a reader finds it |
| TelegrafConfig.FindAtSlot | untitled/src/main/java/TelegrafOpenSearchManager.java:88-128 | a reader finds each written key on its own fixed line, and finds nothing for an unwritten key. Counting writes from 0, the credentials are `username` at 34 and `password` at 35, straight after `template_name` at 33 (lines 35, 36 and 34 of the file counted from 1) |
| TelegrafConfig.LookupIntended | untitled/src/main/java/TelegrafOpenSearchManager.java:88-128 | a reader finds every written key with its intended value. That value is the setting or the pattern spliced in verbatim, or the fixed literal, which no input changes |
| TelegrafConfig.TablesInOrder | untitled/src/main/java/TelegrafOpenSearchManager.java:88-128 | the four tables are opened once each, in the order `[agent]`, `[[inputs.tail]]`, `[inputs.tail.tags]`, `[[outputs.opensearch]]`, and no other line is a table header |
| TelegrafConfig.KeysAssignedOnce | untitled/src/main/java/TelegrafOpenSearchManager.java:88-128 | a key is assigned on a line iff that is the key's line and the key is written. So no key is assigned twice |
| TelegrafConfig.HomeBySlot | untitled/src/main/java/TelegrafOpenSearchManager.java:88-128 | each key's line lies in the range of the table it belongs to |
| TelegrafConfig.KeyInItsTable | untitled/src/main/java/TelegrafOpenSearchManager.java:88-128 | every written key lies under its own table. For example, `vm_id` and `mci_group_id` lie under `[inputs.tail.tags]`, and the credentials under `[[outputs.opensearch]]` |
| TelegrafConfig.CredentialsBothOrNeither | untitled/src/main/java/TelegrafOpenSearchManager.java:124-127 | a reader finds a `username` exactly when it finds a `password` |
| TelegrafConfig.EndsWithBlank | untitled/src/main/java/TelegrafOpenSearchManager.java:128 | the file ends with a blank line, with or without credentials |
| TelegrafConfig.SameDocumentSameValue | untitled/src/main/java/TelegrafOpenSearchManager.java:84-129 | two equal write sequences agree, for every key, on whether it is written and on what it holds |
| TelegrafConfig.SameDocumentSameInput | untitled/src/main/java/TelegrafOpenSearchManager.java:103-117 | two equal write sequences were made with the same pattern, log path and tags |
| TelegrafConfig.SameDocumentSameOutput | untitled/src/main/java/TelegrafOpenSearchManager.java:119-123 | two equal write sequences were made with the same destination, index name and template |
| TelegrafConfig.SameDocumentSameCredentials | untitled/src/main/java/TelegrafOpenSearchManager.java:124-127 | two equal write sequences both have credentials or both lack them, and when present the credentials are the same |
| TelegrafConfig.DocumentDeterminesInputs | untitled/src/main/java/TelegrafOpenSearchManager.java:84-129 | the write sequence determines its inputs. Equal write sequences come from the same pattern and the same settings, except for credentials that were not written |
| TelegrafConfig.QuotedReadsBack | untitled/src/main/java/TelegrafOpenSearchManager.java:115-126 | stripping `key = "` and the closing `"` from a quoted setting gives back the spliced text, whatever it is |
| TelegrafConfig.QuotedListReadsBack | untitled/src/main/java/TelegrafOpenSearchManager.java:105-121 | stripping `key = ["` and the closing `"]` from a one-element list gives back the spliced path, pattern or URL, whatever it is |
| TelegrafConfig.DefaultDocumentOnLinux | untitled/src/main/java/TelegrafOpenSearchManager.java:84-140 | with the built-in settings and the OS name `Linux`, the file has 35 lines (no credentials) and `grok_patterns` holds the fallback pattern |
| TelegrafConfig.WriteAgentSection | untitled/src/main/java/TelegrafOpenSearchManager.java:88-101 | the writes append exactly the agent section to what was written before |
| TelegrafConfig.WriteInputSection | untitled/src/main/java/TelegrafOpenSearchManager.java:103-117 | the writes append exactly the input section for the given path, pattern and tags |
| TelegrafConfig.WriteOutputSection | untitled/src/main/java/TelegrafOpenSearchManager.java:119-128 | the writes append exactly the output section. The credential lines come only under the source's both-non-empty test |
| TelegrafConfig.WriteNewConfig | untitled/src/main/java/TelegrafOpenSearchManager.java:84-130 | the file written is the document for the settings and the pattern chosen for the OS name. So every `TelegrafConfig` lemma holds of it |
| LogSearch.Cluster.constructor | untitled/src/main/java/TelegrafOpenSearchManager.java:145-146 | a cluster starts with the given indices and has received no creation request |
| LogSearch.IsIndexExists | untitled/src/main/java/TelegrafOpenSearchManager.java:192-195 | the answer is true exactly when the cluster holds the index |
| LogSearch.CreatedNotice | untitled/src/main/java/TelegrafOpenSearchManager.java:204 | the notice is `Index created: ` followed by the index name, which can be read back from it |
| LogSearch.CreateIndex | untitled/src/main/java/TelegrafOpenSearchManager.java:197-205 | an absent index is added and `Index created: <name>` is printed. For an existing index the server refuses and the indices do not change. Either way exactly one creation request for the name reaches the server |
| LogSearch.Ensured | untitled/src/main/java/TelegrafOpenSearchManager.java:149-151 | after the check-then-create step, the cluster holds the index and everything it held before, and nothing else |
| LogSearch.EnsureRequests | untitled/src/main/java/TelegrafOpenSearchManager.java:149-151 | the step sends exactly one creation request, for the index itself, when the index is absent, and none when it is present |
| LogSearch.EnsureOutput | untitled/src/main/java/TelegrafOpenSearchManager.java:149-205 | the step prints nothing iff the index was already there. Otherwise it prints exactly the creation notice |
| LogSearch.EnsureIndex | untitled/src/main/java/TelegrafOpenSearchManager.java:149-151 | the check-then-create step sends the creation requests `EnsureRequests` gives (one when the index is absent, none when it is present), changes the indices as `Ensured` says and prints what `EnsureOutput` says |
| LogSearch.EnsureIdempotent | untitled/src/main/java/TelegrafOpenSearchManager.java:149-151 | running the step twice leaves the same indices as running it once, and the second run sends no creation request and prints nothing |
| LogSearch.EnsureTouchesOnlyItsIndex | untitled/src/main/java/TelegrafOpenSearchManager.java:149-151 | no other index is created or removed |
| LogSearch.AddMust | untitled/src/main/java/TelegrafOpenSearchManager.java:158-160 | `must` appends one required clause and keeps the filters |
| LogSearch.AddFilter | untitled/src/main/java/TelegrafOpenSearchManager.java:168 | `filter` appends one filter and keeps the required clauses |
| LogSearch.BuildSearchRequest | untitled/src/main/java/TelegrafOpenSearchManager.java:154-175 | the step-by-step builder calls produce exactly the request `LogSearchRequest` describes |
| LogSearch.LogSearchRequest | untitled/src/main/java/TelegrafOpenSearchManager.java:154-175 | the request searches only the configured index with a bool query. It asks for at most 100 hits, sorted by `@timestamp`, newest first |
| LogSearch.RequiresBothTags | untitled/src/main/java/TelegrafOpenSearchManager.java:158-160 | the required clauses are exactly a match on `tag.mci_group_id` and then a match on `tag.vm_id`, each for the configured value |
| LogSearch.FiltersLastDay | untitled/src/main/java/TelegrafOpenSearchManager.java:163-168 | the only filter is the range on `@timestamp` from `now-1d/d` to `now` |
| LogSearch.Report | untitled/src/main/java/TelegrafOpenSearchManager.java:184-188 | with a positive total one line is printed per hit of the page; otherwise exactly one line. `No results found.` appears only for a total of 0 or less, or when a hit's source is that very text |
| LogSearch.SearchReadsConfiguredIndex | untitled/src/main/java/TelegrafOpenSearchManager.java:121-154 | the index searched is the one the written file's output sends logs to |
| LogSearch.SearchRequiresConfiguredTag | untitled/src/main/java/TelegrafOpenSearchManager.java:115-160 | for `vm_id` and `mci_group_id`, the search requires the tag to match the value the written file gives it |
| LogSearch.ReportLines | untitled/src/main/java/TelegrafOpenSearchManager.java:184-188 | with a positive total, each hit's source is printed once, in the order received. Otherwise only `No results found.` is printed |
| LogSearch.ReportBounded | untitled/src/main/java/TelegrafOpenSearchManager.java:172-185 | a page no larger than the requested size prints at most 100 lines |
| LogSearch.CountedButEmptyPage | untitled/src/main/java/TelegrafOpenSearchManager.java:184-185 | a positive total with an empty page prints nothing, not even `No results found.` |
| LogSearch.PrintResults | untitled/src/main/java/TelegrafOpenSearchManager.java:184-188 | the `forEach` loop and the else branch print exactly the `Report` of the response |
| LogSearch.SearchLogs | untitled/src/main/java/TelegrafOpenSearchManager.java:144-190 | the index is ensured, with one creation request only when it was missing, then the request from `LogSearchRequest` is sent. What is printed is the creation notice (if any), then the report of the server's answer |
| LogSearch.FirstRunOnEmptyCluster | untitled/src/main/java/TelegrafOpenSearchManager.java:149-205 | on any cluster without `telegraf-test`, one creation request is sent, and an empty answer prints `Index created: telegraf-test` and then `No results found.` |
| LogSearch.LaterRunPrintsOnlyResults | untitled/src/main/java/TelegrafOpenSearchManager.java:149-188 | once the index exists, a run prints only the report of the answer |

## Left out

- `main` (lines 33-78) is not modelled: the root check, argument overrides, backup, delete, and catch-and-print. They are file-system and process I/O. The argument overrides only replace `opensearchHost` and `syslogFile`, which are `Settings` fields here, so any override is covered.
- `isRoot` (lines 80-82) reads a system property and is not modelled.
- `systemctl restart telegraf` (line 68) is left out: it is process control with no result the program uses.
- `System.getProperty("os.name")` is a parameter of `DetermineGrokPattern` and `WriteNewConfig`.
- `Text.ToLowerAscii`: only ASCII letters are lowered. Java's locale-sensitive Unicode `toLowerCase` is not modelled.
- The `BufferedWriter`/`FileWriter` mechanics are not modelled: opening, buffering, closing, and `IOException`. The file is the sequence of lines written, and the newline after each line is implicit in `Render`.
- The `RestHighLevelClient` transport is not modelled: connection, HTTP, deserialising the response, and closing the client. The server's answer to a search is the `respond` parameter.
- The `Executing query: ...` line (line 178) is left out. Its text is the client library's JSON rendering of the query, which is not part of this code.
- The meaning OpenSearch gives to the query is not modelled: match analysis, the date-math `now-1d/d`, scoring, and server-side sorting.
- `LogSearch.CreateIndex`: the error that the client throws when the server refuses an existing index is modelled as `Failed(IndexAlreadyExists(..))`. The exception's propagation out of `searchLogs` is not modelled; `searchLogs` itself only calls `createIndex` when the index is missing.
- `TelegrafConfig.ConfigLines`, `TelegrafConfig.DocumentDeterminesInputs` and the `SameDocument` lemmas: the line count and the recovery of the inputs are about the sequence of `writer.write` calls, not about the bytes of the file. A spliced value holding a newline adds a line to the file (e.g. a log path given as `args[1]`, line 45). Two different pairs of tags can also write the same bytes, e.g. `vm_id` = `a"\n    mci_group_id = "b` with `mci_group_id` = `c`, against `vm_id` = `a` with `mci_group_id` = `b"\n    mci_group_id = "c`.
- Values spliced into the file are not escaped, so a value holding `"` or a newline produces a line that a TOML reader would take differently. The model states that the text is spliced verbatim and read back unchanged, and leaves TOML parsing out.
- A server that ignores the size cap is not modelled. `LogSearch.ReportBounded` bounds the printed lines only for a page no larger than the 100 hits requested.

## Notes

Two behaviours of the code as written are worth knowing. Both are proved about the model as written:

- On a JVM, `os.name` is `Linux` on every Linux distribution. So the Debian and RedHat branches of `determineGrokPattern` are never taken, and syslog is always parsed with the fallback pattern, which has no `pid` group (`Grok.LinuxNameFallback`, `TelegrafConfig.DefaultDocumentOnLinux`).
- The report branch tests the total hit count, not the page it received. A positive total with an empty page prints nothing at all (`LogSearch.CountedButEmptyPage`).
