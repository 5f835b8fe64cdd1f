# khg kubeconfig merge engine in Dafny

khg ("Kubernetes hunter-gather") gathers and unifies kubernetes config
files: it collects kubeconfig files from local paths or over ssh/sftp and
merges their current contexts into one destination kubeconfig. Every copied entry is renamed `name@label`, where the label
identifies the source in a small catalog (a YAML configuration file).

This project models the core of khg and proves properties of that model:

- **Kubeconfig** (`kubeconfig.dfy`): the document with its three keyed tables.
  - `CopyCurrentContext` is a method on a `KubeConfig` class whose map fields it updates in place.
  - It is proved against the pure `Merge`. The lemmas about `Merge` cover errors, inserted keys, frame, endpoint transforms, idempotence, commutation and closure.
  - Reading and writing work over an abstract filesystem. This includes the remote/local dispatch, `~/` expansion, the backup name beside the written file, and the order "rename, errors ignored, then write".
  - `MergeOne` is the effect sequence around the copy.
- **Cfg** (`cfg.dfy`): the catalog class.
  - `Add` and `Delete` change its `sources` field.
  - `Save` writes the encoded catalog to the configuration file.
  - Lemmas say what the encoder drops.
- **KubeSftp** (`kubesftp.dfy`): the ssh parameter selection: remote file name, connect string, user precedence, default key path, and key loading.
- **ListCmd** (`list.dfy`): the reconciliation table of `khg list`.
  - A loop over catalog labels consumes matching contexts from a working copy.
  - A second loop reports the left-over contexts as unmanaged.
  - Each loop is a method with invariants. The finished table is characterised by `TableOf`.
- **GetCmd** (`get.dfy`): the flag validation and label default of `khg get`, and the condition under which the catalog entry is persisted.
- **Fs, Strings, Urls, Wrappers**: an abstract filesystem (`map<string, bytes>`), the Go `strings`/`fmt` pieces used, a parsed URL value, and Option/Result.

External effects are parameters:

- the home directory (`Option<string>`, None when it cannot be found);
- the clock (Unix seconds, an `int`);
- `url.Parse`;
- the remote fetch (`kubesftp.GetFile`);
- the kubeconfig and YAML codecs (functions that may fail);
- `ssh_config.Get` and `ssh.ParsePrivateKey`;
- whether the environment refuses a rename, and how a write ends: no fault, a failed open, or a failure after some bytes reached the truncated file.

Go's map iteration order is unspecified. Each visit is modelled as an arbitrary choice (`:|`), so every proved property holds for every order.

Where the code and its own documentation disagree, the model follows the code:

- The `rewrite-api` flag is described as rewriting the API address. The merge engine never reads `AutodetectApi`, so the copied cluster keeps the source's server (`GetCmd.RewriteApiKeepsServer`).
- The destination's current context is never set.

Where the code is evidently wrong (the connect string for a host containing ':', the `break` in the list loop, the backup name of a `~/` path), the model uses the corrected behaviour and keeps the code as written beside it, with the input that shows the difference (see Findings).

## Model

| member | source | states |
|---|---|---|
| Kubeconfig.Translate | internal/kubeconfig/kubeconfig.go:160-162 | the translated name starts with the original name and ends with "@" + label |
| Kubeconfig.TranslateInjective | internal/kubeconfig/kubeconfig.go:160-162 | for labels without '@', equal translated names have equal original names and equal labels |
| Kubeconfig.TranslateCollides | internal/kubeconfig/kubeconfig.go:160-162 | a label containing '@' lets two different entries take the same translated name |
| Kubeconfig.SourceCheck | internal/kubeconfig/kubeconfig.go:134-158 | there is no error exactly when the source is resolvable; each early error is returned exactly when its check is the first to fail, in the code's order |
| Kubeconfig.SourceCheckLater | internal/kubeconfig/kubeconfig.go:143-158 | the empty-auth, missing-cluster and missing-auth errors each occur exactly when the earlier checks pass and that check fails |
| Kubeconfig.MergeFailsExactly | internal/kubeconfig/kubeconfig.go:134-158 | the copy fails exactly when the source is not resolvable, and then with the first failing check's error |
| Kubeconfig.MergeInsertsTriple | internal/kubeconfig/kubeconfig.go:160-169 | the keys ctx@label, cluster@label and auth@label exist; the new context points at the new cluster and auth entry; the auth entry is the source's |
| Kubeconfig.MergeFrame | internal/kubeconfig/kubeconfig.go:164-169 | exactly the three translated keys are added or overwritten; every other entry and the current context are unchanged |
| Kubeconfig.MergeEndpoint | internal/kubeconfig/kubeconfig.go:171-179 | the server becomes "https://" + apiAddress when one is given and otherwise stays the source's; insecure clears both CA fields and sets skip-verify, never touching the server; without insecure the TLS fields are the source's |
| Kubeconfig.MergeIdempotent | internal/kubeconfig/kubeconfig.go:164-169 | merging the same source under the same label twice gives the same document as once (for a source document read afresh each time, as MergeOne reads it; see Left out on shared pointers) |
| Kubeconfig.MergeCommutes | internal/kubeconfig/kubeconfig.go:160-169 | two sources with distinct labels free of '@' can be merged in either order |
| Kubeconfig.MergePreservesClosed | internal/kubeconfig/kubeconfig.go:164-169 | a destination whose contexts all resolve still resolves after a merge |
| Kubeconfig.ReadBytesSource | internal/kubeconfig/kubeconfig.go:48-68 | a document is fetched remotely exactly for scheme "ssh" or a non-empty host; a "~/" path is read at join(home, path[2:]), or fails without a home; any other path is read verbatim |
| Kubeconfig.BackupName | internal/kubeconfig/kubeconfig.go:109 | a backup name starts with the file name and a dot, followed by the decimal Unix seconds |
| Kubeconfig.BackupNamesDistinct | internal/kubeconfig/kubeconfig.go:109 | backups taken at different seconds get different names, and a backup never has the file's own name |
| Kubeconfig.WrittenBackupName | internal/kubeconfig/kubeconfig.go:98-109 | as written: the backup name begins with the URL path as given, so a "~/" path keeps its "~/" and is not expanded |
| Kubeconfig.TildeBackupMisplaced | internal/kubeconfig/kubeconfig.go:98-110 | as written, for "~/.kube/config" and home "/root" the file is "/root/.kube/config" but the backup name "~/.kube/config.0" lies outside the home directory and is not the name beside the file |
| Kubeconfig.TildeBackupUnderHome | internal/kubeconfig/kubeconfig.go:98-110 | corrected: the backup of a "~/" path starts with the expanded file name and a dot, and lies under the home directory |
| Kubeconfig.WriteEarlyErrors | internal/kubeconfig/kubeconfig.go:93-103 | an encoding failure or a missing home directory is an error and touches no file |
| Kubeconfig.WriteSucceeds | internal/kubeconfig/kubeconfig.go:98-115 | corrected (backup beside the expanded file): a successful write stores the encoded bytes at the expanded path; when the file existed and the rename went through, the old contents sit at the backup beside it; otherwise the files are the old ones with only the file written; every other file is left alone |
| Kubeconfig.WriteFailureLosesFile | internal/kubeconfig/kubeconfig.go:109-114 | corrected (backup beside the expanded file): when the file exists, the rename succeeds and the write then fails, the error is returned and the old contents sit only at the backup; the destination name holds nothing when the open failed, and a truncated prefix of the new encoding (no longer than the bytes written) when a write failed |
| Kubeconfig.MergeOneWritesOnlyAfterCopy | internal/kubeconfig/kubeconfig.go:211-234 | files and document change only after the source parsed, was read and copied successfully; Merged means the merged document's encoding is at the destination path |
| Kubeconfig.KubeConfig.constructor | internal/kubeconfig/kubeconfig.go:82-88 | Init: the parsed URL and an empty configuration, label and source definition |
| Kubeconfig.KubeConfig.ReadConfig | internal/kubeconfig/kubeconfig.go:45-80 | there is no error exactly when the bytes could be obtained and decoded; the configuration is then the decoded document, and on error it is unchanged |
| Kubeconfig.KubeConfig.WriteConfig | internal/kubeconfig/kubeconfig.go:91-117 | the error and the files afterwards are those of WriteOutcome: encode, expand, rename to the backup beside the expanded file with its failure ignored, write |
| Kubeconfig.KubeConfig.CopyCurrentContext | internal/kubeconfig/kubeconfig.go:133-182 | the error is the first failing source check, with the destination unchanged; on success the new tables are the Merge of the old destination and the source |
| Kubeconfig.KubeConfig.MergeOne | internal/kubeconfig/kubeconfig.go:211-234 | corrected (backup beside the expanded file): the outcome, the document and the files are MergeOneOutcome's: parse, read, copy, and write only after the copy |
| Cfg.RestorePersist | internal/cfg/cfg.go:25-31 | decoding what was encoded resets AutodetectApi and OverrideIp and keeps the other fields; encoding it again gives the same entry |
| Cfg.PersistForgetsTransient | internal/cfg/cfg.go:25-31 | two entries encode alike exactly when they agree on source, insecure and apiaddress |
| Cfg.PersistSources | internal/cfg/cfg.go:33-37 | the encoded catalog has exactly the catalog's labels |
| Cfg.PersistSourcesForgetsTransient | internal/cfg/cfg.go:25-37 | catalogs that differ only in the two untagged fields encode identically |
| Cfg.SaveOutcomeSpec | internal/cfg/cfg.go:53-64 | saving succeeds exactly when encoding succeeds and the write has no fault; it then replaces the configuration file with the encoding; an encoding failure or a failed open changes no file; a write failing after k bytes leaves the configuration file holding a prefix of the encoding no longer than k, and changes nothing else |
| Cfg.Save | internal/cfg/cfg.go:53-64 | the error and the files afterwards are SaveOutcome of the encoded catalog |
| Cfg.Add | internal/cfg/cfg.go:39-42 | the label's entry is set, overwriting any previous one, other labels unchanged; the result is that of saving the updated catalog, and the entry stays when saving fails |
| Cfg.Delete | internal/cfg/cfg.go:44-51 | an absent label is an error that leaves the catalog unchanged; a present one is removed alone, with no error and nothing saved |
| Fs.RenamedMoves | internal/kubeconfig/kubeconfig.go:110 | a rename moves the contents to the new name, removes the old name and touches no other file |
| Fs.FileSystem.Read | internal/kubeconfig/kubeconfig.go:65-68 | reading succeeds exactly for a stored path and returns its contents (the map holds the readable files) |
| Fs.FileSystem.Rename | internal/kubeconfig/kubeconfig.go:110 | renaming fails for an absent name or a refusing environment, and otherwise moves the file |
| Fs.FileSystem.WriteFile | internal/kubeconfig/kubeconfig.go:111-114 | an error is reported exactly for a fault; without one the file is created or replaced; a failed open changes nothing; a write failing after some bytes leaves the truncated file holding that prefix of the data |
| Fs.WrittenSpec | internal/kubeconfig/kubeconfig.go:111 | a write without a fault stores the data at the path; a failed open changes nothing; a failed write leaves a prefix of the data there; no other path is touched |
| Fs.JoinPath | internal/kubeconfig/kubeconfig.go:60 | joining a non-empty directory and a non-empty name puts a single "/" between them |
| Fs.ExpandHome | internal/kubeconfig/kubeconfig.go:55-63 | expansion fails exactly for a "~/" path without a home directory; any other path is kept verbatim |
| Fs.ExpandHomeJoins | internal/kubesftp/kubesftp.go:42-48 | "~/" + rest expands to join(home, rest) |
| Strings.Split | internal/kubesftp/kubesftp.go:63 | a split yields at least one piece and no piece holds the separator |
| Strings.SplitJoin | internal/kubesftp/kubesftp.go:63 | joining the pieces with the separator rebuilds the string |
| Strings.SplitSingle | internal/kubesftp/kubesftp.go:63-65 | a split yields fewer than two pieces exactly when the separator does not occur |
| Strings.NatToDecimal | internal/kubeconfig/kubeconfig.go:109 | %d of a natural is a non-empty run of digits without a leading zero |
| Strings.DecimalRoundTrip | internal/kubeconfig/kubeconfig.go:109 | reading the digits back gives the number |
| Strings.IntToDecimal | internal/kubeconfig/kubeconfig.go:109 | %d of an integer starts with '-' exactly for a negative value, followed by digits |
| Strings.NatToDecimalInjective | internal/kubeconfig/kubeconfig.go:109 | distinct naturals print differently |
| Strings.IntToDecimalInjective | internal/kubeconfig/kubeconfig.go:109 | distinct integers print differently |
| KubeSftp.RemoteFileName | internal/kubesftp/kubesftp.go:101-105 | a non-empty name is the path after a "/./" or "/~/" prefix; without either prefix the name is empty |
| KubeSftp.RemoteFileNameStrips | internal/kubesftp/kubesftp.go:103-104 | both prefixes are stripped exactly, whatever follows |
| KubeSftp.ConnectString | internal/kubesftp/kubesftp.go:63-68 | as written: the connect string is set exactly when the host has no ':', and is then host + ":" + the configured Port |
| KubeSftp.ConnectStringDropsExplicitPort | internal/kubesftp/kubesftp.go:63-68 | as written, the host "10.0.0.1:2222" gets an empty connect string |
| KubeSftp.IntendedConnectString | internal/kubesftp/kubesftp.go:63-68 | corrected: a host containing ':' (the code's own test for a port) is dialled as given, any other host with its configured Port |
| KubeSftp.IntendedConnectStringSound | internal/kubesftp/kubesftp.go:63-68 | the corrected connect string is never empty and agrees with the written one wherever that one is set |
| KubeSftp.KeyPath | internal/kubesftp/kubesftp.go:76-81 | the library default "~/.ssh/identity" becomes "~/.ssh/id_rsa"; any other value is kept; so the library default is never the result |
| KubeSftp.PublicKey | internal/kubesftp/kubesftp.go:41-58 | a "~/" path without a home directory is the home error; loading succeeds exactly when the expanded path is stored and parses as a key, yielding that file's key; an unreadable error names an absent expanded path |
| KubeSftp.LoadSshConfig | internal/kubesftp/kubesftp.go:60-97 | a key error gives an empty connect string, no config and that error; otherwise the URL user wins over the configured User, the key is the only auth method, host keys are ignored, the timeout is 5 s, and the (corrected) connect string is non-empty |
| KubeSftp.LoadSshConfigDefaultKey | internal/kubesftp/kubesftp.go:38-48 | with no IdentityFile configured, the key loaded is ~/.ssh/id_rsa under the home directory |
| ListCmd.ClaimsLabelSuffix | cmd/list.go:76 | a context name claims a label exactly when it ends with "@" + label |
| ListCmd.ColumnsContain | cmd/list.go:73-103 | every row's context and label are among the table's columns |
| ListCmd.ContextsOfRows | cmd/list.go:73-103 | a context in the column is the context of some row |
| ListCmd.LabelsOfRows | cmd/list.go:73-95 | a label in the column is the label of some row |
| ListCmd.LabelsCount | cmd/list.go:73-95 | rows with pairwise different labels carry as many labels as there are rows |
| ListCmd.LabelTurn | cmd/list.go:74-94 | corrected: when some context of the working copy ends with "@label", one such context is matched; its row carries its server and it is deleted from the working copy; a label-only row means no context of the working copy ends with "@label"; a matched context without its cluster is an error |
| ListCmd.ExaminedAsWritten | cmd/list.go:75-86 | as written: only the first context visited is examined; a match is that context ending with "@label" |
| ListCmd.LabelTurnAsWritten | cmd/list.go:74-94 | as written: the one context visited first is matched exactly when it ends with "@label", its row then carrying its server and the context deleted; a label-only row after a non-empty working copy means some context (the one visited) does not end with "@label"; a visited context without its cluster is an error |
| ListCmd.LabelRowsAsWritten | cmd/list.go:73-95 | as written: the label loop over LabelTurnAsWritten keeps the same invariant as LabelRows: one row per label, matched or label-only, and the working copy is the contexts minus the matched ones; it fails only for a dangling cluster |
| ListCmd.BreakMissesLaterMatch | cmd/list.go:75-86 | as written, visiting "a@x" before "b@y" leaves the label "y" unmatched although "b@y" ends with "@y" |
| ListCmd.ExaminedIntended | cmd/list.go:75-86 | corrected, as the help text at cmd/list.go:35-36 describes: the scan returns a visited context ending with "@label", or finds none only when no visited context ends with it |
| ListCmd.IntendedExtendsWritten | cmd/list.go:75-86 | wherever the written loop finds a match, the intended scan finds the same one |
| ListCmd.IntendedScanMatchesLabelTurn | cmd/list.go:75-86 | in any visiting order of the working copy, the intended scan finds nothing exactly when no context ends with "@label", which is when LabelTurn leaves the label unmatched |
| ListCmd.LabelStep | cmd/list.go:73-95 | one label turn keeps the loop invariant: one row per label so far, no label or non-empty context repeated, the working copy equal to the contexts minus those claimed |
| ListCmd.LabelRows | cmd/list.go:73-95 | corrected (the scan of LabelTurn): the label loop ends with one row per catalog label, each either matched or label-only, and the working copy is the destination's contexts minus the matched ones; no context left in it ends with the "@label" of a label-only row; it fails only for a dangling cluster |
| ListCmd.UnmanagedStep | cmd/list.go:96-103 | one unmanaged row keeps the invariant of the second loop |
| ListCmd.UnmatchedStep | cmd/list.go:73-95 | corrected (the scan of LabelTurn): one label turn keeps "no context left ends with the label of a label-only row" |
| ListCmd.UnmanagedRows | cmd/list.go:96-103 | every context left in the working copy yields exactly one row with empty label and source and that context's server |
| ListCmd.NoMissedContextsOf | cmd/list.go:73-103 | corrected (the scan of LabelTurn): no unmanaged row names a context ending with the "@label" of a label-only row |
| ListCmd.TableSize | cmd/list.go:54-103 | the table has 1 + number of labels + number of contexts no label claimed rows |
| ListCmd.TableCoversContexts | cmd/list.go:73-103 | every context of the destination appears in some row |
| ListCmd.Assemble | cmd/list.go:54-103 | corrected (the scan of LabelTurn): header, label rows and unmanaged rows together satisfy TableOf, and no unmanaged row could have been claimed by a label-only row |
| ListCmd.AssembleTable | cmd/list.go:54-103 | header, label rows and unmanaged rows satisfy TableOf whichever inner loop produced the label rows |
| ListCmd.ListTable | cmd/list.go:54-103 | corrected (the scan of LabelTurn): the table starts with the header, then one row per label (each label exactly once), then one row per unclaimed context (each exactly once), with no context repeated; every row's address is the server of its context's cluster; no unmanaged context ends with the "@label" of a label-only row; it fails only when a reported context's cluster is missing, never when all clusters resolve |
| ListCmd.ListTableAsWritten | cmd/list.go:54-103 | as written: the table listCtx builds with the `break` satisfies TableOf and fails only when a reported context's cluster is missing |
| GetCmd.BuildSource | cmd/get.go:68-101 | the source is the argument; insecure holds when the flag or rewrite-api is set; rewrite-api sets autodetect; a given api-address is copied; rewrite-api together with an api-address is rejected, and nothing else is |
| GetCmd.Prepare | cmd/get.go:68-111 | the flag conflict is reported first, then an unparsable source; the label is the label flag when given, otherwise the URL host |
| GetCmd.RewriteApiKeepsServer | cmd/get.go:82-90 | with rewrite-api alone, the merged cluster is insecure and keeps the source's server |
| GetCmd.ReloadedSourceMergesAlike | internal/cfg/cfg.go:25-31 | an entry read back from the configuration file merges exactly as the entry that was saved |
| GetCmd.Add | cmd/get.go:61-136 | a rejected source changes nothing; otherwise the source is parsed by the same url.Parse the merge uses, so the merge never reports it unparsable, and the destination is merged; the catalog gets the entry and is saved only when the merge succeeded and persistent is set |

## Left out

- Reading the flags (cobra), the configuration (viper), logging and `pp` output are left out, as is the `fmt.Printf` rendering of the list table (cmd/list.go:104-111). `log.Fatal` and `log.Fatalf` become error results.
- The ssh dial, sftp open and copy in `GetFile` (internal/kubesftp/kubesftp.go:107-139) are left out. A remote read is the `fetchRemote` parameter. `GetFile` also ignores `loadSshConfig`'s error; that is not modelled.
- The kubeconfig codec (`clientcmd`, `runtime.Encode`, `yaml.JSONToYAML`), `yaml.Marshal`, `url.Parse`, `ssh_config.Get` and `ssh.ParsePrivateKey` are foreign libraries. They appear as function parameters.
- `homedir.Dir` and `time.Now().Unix()` are parameters. The clock is an unbounded `int`, with no 64-bit range.
- Fs.JoinPath: `filepath.Join` also cleans the result lexically (".." and doubled "/" removed). The model only joins.
- File permission bits (`0600`, and the decimal `600` at internal/cfg/cfg.go:59) are not modelled.
- The `Bytes` field of KubeConfig is never read by the core and is left out.
- clientcmd's maps hold pointers, so lines 164-179 of internal/kubeconfig/kubeconfig.go also change the source document's context and cluster objects. The model uses value semantics: the source document is unchanged, and only the destination's tables are updated.
  - In the Go code, line 168 repoints the source's own context at cluster@label. A second CopyCurrentContext from the same source object would then fail with "unable to find current cluster" (line 152).
  - Kubeconfig.MergeIdempotent therefore holds for a source read afresh, as MergeOne reads it, and not for a reused source object.
- nil maps and nil-pointer panics are not modelled. The one panic a consistent input can reach in `listCtx` is the lookup of a missing cluster (cmd/list.go:82, 101). That lookup is the `DanglingCluster` error.
- ListCmd.LabelTurn: models the inner loop of cmd/list.go:75-86 as the help text (cmd/list.go:35-36) describes it, a scan for a context ending in "@label", and not with the unconditional `break` that examines only the first context visited (see Findings; `ListCmd.ExaminedAsWritten`). The scan is a choice among the matching contexts (Go map order), not a loop.
- Kubeconfig.KubeConfig.WriteConfig: backs the file up beside the expanded file name, not under the unexpanded URL path of internal/kubeconfig/kubeconfig.go:109 (see Findings; `Kubeconfig.WrittenBackupName`). Directories are not modelled, so the model cannot show the real rename failing for a missing `./~/` directory.
- Kubeconfig.WriteSucceeds: states the old contents at the corrected backup, BackupName of the expanded file name; with the code as written the backup of a `~/` path is WrittenBackupName of the URL path instead.
- Kubeconfig.WriteFailureLosesFile: states the old contents at the corrected backup beside the expanded file, not at the URL-path-based name of internal/kubeconfig/kubeconfig.go:109.
- Kubeconfig.KubeConfig.MergeOne: its files afterwards come from WriteOutcome, which uses the corrected backup name, so for a `~/` destination they differ from the Go code's in where the backup lands.
- ListCmd.LabelRows: its `Unmatched` ensures holds for the corrected scan only. With the `break` at cmd/list.go:85 a label-only row can coexist with a left-over context ending in "@label" (`ListCmd.LabelTurnAsWritten`).
- ListCmd.UnmatchedStep: preserves a property that a turn as written (`ListCmd.LabelTurnAsWritten`) does not give; it holds for LabelTurn's corrected scan only.
- ListCmd.NoMissedContextsOf: holds for the corrected scan only; as written, with the contexts "a@x" and "b@y" and "a@x" visited first, the label "y" gets a label-only row while "b@y" is listed as unmanaged.
- ListCmd.Assemble: its `NoMissedContexts` ensures holds for the corrected scan only, not for the table cmd/list.go builds with the `break`. Its `TableOf` ensures holds for both: `ListCmd.AssembleTable` proves it without the corrected scan, and `ListCmd.ListTableAsWritten` uses it for the table as written.
- ListCmd.ListTable: its `NoMissedContexts` ensures holds for the corrected scan only; with the `break` as written an unmanaged context can end in the "@label" of a label-only row. Its other ensures hold for the code as written too: `ListCmd.ListTableAsWritten` proves them over `ListCmd.LabelRowsAsWritten`.
- `SourceInit`, `DestInit` and the one-argument `MergeOne` used by cmd/get.go and cmd/list.go are not part of this model.
  - `SourceInit` is taken to parse the source URL and keep the built definition.
  - The one-argument `MergeOne` is taken to be the two-argument one applied to the label and the definition.
  - The destination of `get` and `list` arrives already read.
- cmd/gather.go, cmd/delete.go, cmd/quickadd.go and cmd/root.go are not part of this model.
- Autodetection of the API address, `OverrideIp`, and a default for the destination's current context are not implemented in the modelled code, so the model has none.
- KubeSftp.IntendedConnectString: tests for ':' in the host, the test the code itself uses, not for a port: a bracketed IPv6 host without a port, such as "[::1]", is dialled without one.
- KubeSftp.LoadSshConfig: uses the corrected connect string (see Findings). With the code as written, a host containing ':' gets the empty connect string (`KubeSftp.ConnectString`).

## Findings

| source | as written | input that shows it | evidently intended | confidence | as-written member | corrected member |
|---|---|---|---|---|---|---|
| internal/kubesftp/kubesftp.go:63-68 | the connect string is built only when the host has no ':', and stays empty otherwise, so the dial address is "" | the URL ssh://centos@10.0.0.1:2222/./.kube.config from the command's own help text (cmd/get.go:33-34), host "10.0.0.1:2222" | dial the host as given when it already carries a port | not executed | KubeSftp.ConnectStringDropsExplicitPort | KubeSftp.IntendedConnectString |
| cmd/list.go:75-86 | the inner loop breaks unconditionally after the first context visited, so a label matches only if that one context ends with "@label" | contexts visited in the order "a@x", "b@y" for the label "y": "b@y" is reported as unmanaged and "y" as label-only | scan the contexts until one ends with "@label", as the help text at cmd/list.go:35-36 describes | not executed | ListCmd.BreakMissesLaterMatch | ListCmd.LabelTurn |
| internal/kubeconfig/kubeconfig.go:109-110 | the backup name is built from the URL path before `~/` expansion, so it is relative to the working directory | the destination "~/.kube/config" with home "/root": the file is "/root/.kube/config", the backup name "~/.kube/config.0"; the rename to it usually fails, the failure is ignored, and the old file is overwritten without a backup | name the backup after the expanded file name | not executed | Kubeconfig.TildeBackupMisplaced | Kubeconfig.TildeBackupUnderHome |
