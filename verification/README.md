# DSigner in Dafny

DSigner is a command-line tool for Windows that signs a batch of files with
`signtool`. It reads a mode (SHA1, SHA2 or Dual) and a file or directory
from the command line, and it can narrow the files with JSON white and black
lists of regular expressions. Every file that the Windows trust check
(`WinVerifyTrust`) does not already accept gets at least one and at most
max(1, `TrialLimit`) signing trials, stopping at the first that succeeds, and the tool reports the files that stayed untrusted. In Dual mode
a trial signs with SHA1 first and appends a SHA2 signature only when the
first signature made the file trusted.

This project models the signing engine, the command-line tokenizer, the
driver and the configuration lookup, and proves what they promise.

- `Wrappers.dfy` holds two value types. `Nullable` stands for a C# reference
  that may be null. `Outcome` stands for a call that returns a value or lets
  an exception escape.
- `Config.dfy` (module `Config`) holds the configuration records.
  - `CertInfo` is the keyed certificate lookup.
  - `NewConfig` gives the defaults of the private constructor and the
    property initialisers.
  - `ImportConfig` is the loader with its fall-back to the defaults.
  - Class `ConfigStore` holds the process-wide `Config.Instance`;
    `SetConfig` replaces it.
- `Host.dfy` (module `Host`) describes the machine as inputs.
  - File-system probes, path helpers, directory listing, the JSON readers and
    the regular-expression matcher are fields of `Host`.
  - The trust check and the signing tool are fields of `Platform<D>`. They
    work over an abstract state `D` of the files being signed. Only the trust
    check reads that state, and only a run of the tool changes it.
  - A tool run is given the command line and the configured timeout in
    milliseconds. It reports whether the process exited or was killed when
    the wait timed out. That status is kept so the model can show it plays no
    part.
- `Signer.dfy` (module `Signing`) holds the engine.
  - It covers quote stripping before the trust check and the signing-tool
    command line, built as a list of clauses and then rendered to text.
  - The functions `Trial`, `Attempts`, `SignOne` and `SignAllSpec` say what
    one trial, the retry loop, one file and the batch do. Lemmas state their
    properties. The retry loop is stated for any trial function, because it
    only sees each trial's result, state and invocations.
  - `Continue` and `SignFrom` are the same loops resumed part-way, in the
    form the imperative loops keep as invariants.
  - Class `Signer` holds the imperative `SignAll`, its do-while retry loop
    (`RetrySigning`) and `SigningFile`. Each is proved equal to its function.
  - The log of invocations records every signing-tool process started, with
    its stage (digest and append flag), its command line and the timeout it
    was waited for.
- `ArgsMapper.dfy` (module `Arguments`) holds the tokenizer.
  - `RoleAt` gives each token's role in closed form.
  - The constructor's `while` loop is proved to fill the positional list,
    the switch list and the option dictionary as those roles say.
- `Program.dfy` (module `Program`) holds the driver.
  - `ModeOf` maps the mode name without regard to case.
  - The white and black list filters and `SelectFiles`, the file selection.
  - `RunSpec`, and the method `Program.Run`, proved equal to it.

Three behaviours of the code are easy to misread, and the model keeps them.

- **List files.** An unparseable white or black list does not fall back to
  the unfiltered list. The list file is read and deserialised before the
  filter's `try`, so the exception escapes `Run` and `ListFilter` gives
  `Thrown`.
- **Missing `-d` directory.** This is not reported as a start-up error. The
  listing is null and reading its `Count` throws, so the model gives `Thrown`
  as well.
- **Trial outcome.** A tool process that timed out and was killed does not
  by itself fail the trial. A trial's outcome is the trust check after its
  last stage, however the process ended. The lemma `StatusIrrelevant` states
  this.

## Model

| member | source | states |
|---|---|---|
| Config.Config.CertInfo | DSigner/Config.cs:81-94 | a certificate comes back exactly for SHA1 and SHA2 (the two settings entries); Dual and None get null |
| Config.CertInfoIsKeyedLookup | DSigner/Config.cs:81-94 | `CertInfo` is the lookup in the table {SHA1 ↦ SHA1 entry, SHA2 ↦ SHA2 entry}, null for any other key |
| Config.NewConfig | DSigner/Config.cs:67-121 | a new configuration has SHA1 and SHA2 entries with no property set, empty `SignExtensions` and `KernelModeExtensions` lists, tool path "signtool.exe", trial limit 1 and process timeout 10000 ms |
| Config.ImportConfig | DSigner/Config.cs:47-65 | a missing file, or one that cannot be read or deserialised, gives the defaults; otherwise the deserialised configuration |
| Config.ConfigStore.constructor | DSigner/Config.cs:41-46 | the instance is the configuration imported from the default configuration file |
| Config.ConfigStore.SetConfig | DSigner/Config.cs:77-80 | the instance becomes the configuration imported from the given path |
| Signing.StripQuotes | DSigner/Signer.cs:200-212 | at most one leading and at most one trailing double quote are removed, the rest is kept in place, and the trailing quote is removed exactly when present |
| Signing.StripQuotesOfQuoted | DSigner/Signer.cs:205-212 | stripping a path wrapped in double quotes gives the path back |
| Signing.StripQuotesOfUnquoted | DSigner/Signer.cs:205-212 | a path with no quote at either end reaches the trust check unchanged |
| Signing.IsTrustedFile | DSigner/Signer.cs:197-238 | the empty name is never trusted; any other name is trusted iff the trust check succeeds on it with its quotes stripped; `StripQuotesOfQuoted` and `StripQuotesOfUnquoted` state what reaches the check |
| Signing.ArgumentClauses | DSigner/Signer.cs:147-192 | the signing-tool arguments as a list of clauses, one per part the code appends; `ArgumentClausesLayout`, `ArgumentClausesOptional` and `ArgumentClausesOrder` state its shape |
| Signing.GenerateProcessStartInfo | DSigner/Signer.cs:147-195 | the process to start: the configured tool and the rendered clause list as its arguments; `ArgumentsStart`, `ArgumentsEnd` and `ArgumentsOptionalClauses` state the text |
| Signing.ArgumentClausesLayout | DSigner/Signer.cs:147-192 | for SHA1 and SHA2 the clause list has the certificate header first, then `/t` for SHA1 or `/tr … /fd sha256 /td sha256` for SHA2, one clause per optional part that applies, and the file path last |
| Signing.ArgumentClausesOptional | DSigner/Signer.cs:170-190 | `/ac` iff a kernel-mode extension has an existing cross certificate, `/as` iff appending, `/d` iff the extension is `.msi` |
| Signing.ArgumentClausesOrder | DSigner/Signer.cs:160-192 | after the timestamp the clauses come in the order `/ac`, `/as`, `/d`, file path |
| Signing.ArgumentsStart | DSigner/Signer.cs:147-168 | the process is the configured tool; its arguments start with `sign /v /s "…" /n "…" /sha1 "…"` and then the digest's timestamp part, written out independently |
| Signing.ArgumentsEnd | DSigner/Signer.cs:192 | the arguments end with a space and the unquoted file path |
| Signing.ArgumentsOptionalClauses | DSigner/Signer.cs:170-190 | the arguments are the rendered clause list, which holds `/ac` with the cross-certificate path iff the extension is a kernel-mode one and the file exists, `/as` iff append, and `/d` with the file name iff the extension is exactly `.msi` |
| Signing.Trial | DSigner/Signer.cs:78-145 | one trial: the first stage, then in Dual mode the appended SHA2 stage only if the file is trusted after it; the result is the trust check after the last stage; `TrialEffect`, `TrialStages` and `TrialInvocations` state it |
| Signing.TrialEffect | DSigner/Signer.cs:99-137 | a trial ends in the state its logged invocations lead to, and its outcome is the trust check there |
| Signing.TrialStages | DSigner/Signer.cs:78-145 | one or two invocations; the first is SHA1 in Dual mode, else the mode's digest, never appended; SHA1 and SHA2 mode run exactly one; in Dual mode the appended SHA2 stage runs iff the file is trusted after the first |
| Signing.TrialInvocations | DSigner/Signer.cs:83-92 | each invocation of a trial is the command line built for its own digest and append flag on the trial's file, waited for up to the configured process timeout |
| Signing.TrialOfTracked | DSigner/Signer.cs:78-145 | in every state, the trial's result is the trust check in the state its invocations lead to |
| Signing.Attempts | DSigner/Signer.cs:53-61 | the do-while retry loop over any trial function: run a trial, count it, repeat while it failed and the count is below the limit; `AttemptsCount`, `AttemptsEffect`, `AttemptsOutcome` and `AttemptsFromStart` state it |
| Signing.AttemptsCount | DSigner/Signer.cs:53-61 | the do-while runs at least one trial, never more than max(count + 1, limit); every trial but the last failed; the last succeeded or the count reached the limit |
| Signing.AttemptsEffect | DSigner/Signer.cs:53-61 | the loop's last result is the trust check in its final state, and that state is the one all logged invocations lead to |
| Signing.AttemptsOutcome | DSigner/Signer.cs:53-61 | from count 0 the loop never reports a skip, runs at least one trial and succeeds iff the file is trusted where its invocations lead |
| Signing.AttemptsFromStart | DSigner/Signer.cs:53-61 | from count 0 the loop runs between 1 and max(1, limit) trials and stops at the first success |
| Signing.ContinueIsAttempts | DSigner/Signer.cs:53-61 | the loop resumed after some trials gives those trials followed by the attempts still to come, or stops when the last failed at the limit or succeeded |
| Signing.AttemptsStart | DSigner/Signer.cs:53-61 | the whole loop is its first trial followed by the loop resumed from it |
| Signing.SignOne | DSigner/Signer.cs:49-72 | one file of the batch: skipped when already trusted, otherwise the retry loop from count 0; `SignOneTrials` and `SignOneEffect` state it |
| Signing.SignOneTrials | DSigner/Signer.cs:49-72 | a trusted file is skipped with no invocation and no change; an untrusted one gets 1 to max(1, TrialLimit) trials, stopping at the first success |
| Signing.SignOneEffect | DSigner/Signer.cs:49-72 | a file counts as signed iff it is trusted in the state its invocations lead to |
| Signing.DefaultConfigSingleTrial | DSigner/Config.cs:119 | with the default trial limit an untrusted file gets exactly one trial |
| Signing.NeverTrustedTrialsFail | DSigner/Signer.cs:99-145 | when the trust check never accepts the file, in any state, every trial on it fails after its first stage (Dual mode never appends) |
| Signing.AttemptsPersistentFailure | DSigner/Signer.cs:53-61 | when every trial fails after one invocation the loop runs exactly max(1, limit − count) failed trials with one invocation each |
| Signing.PersistentFailure | DSigner/Signer.cs:51-67 | a file the trust check rejects in every state, whatever it does for other files, gets max(1, TrialLimit) trials of one invocation each and is reported as failed |
| Signing.SignAllSpec | DSigner/Signer.cs:45-75 | the batch: every file in input order from the state the previous one left, the failed ones collected; `SignAllSpecShape`, `SignAllSpecStep` and the `Failures…` lemmas state it |
| Signing.SignAllSpecShape | DSigner/Signer.cs:45-75 | one outcome per input file, in input order; the final state is the one the logged invocations lead to |
| Signing.TrustedBatchIsNoOp | DSigner/Signer.cs:49-72 | a batch of files all trusted on entry invokes nothing, leaves the state unchanged and reports nothing |
| Signing.FailuresMembership | DSigner/Signer.cs:63-66 | a file is reported iff some outcome for it failed (not trusted on entry, last trial false) |
| Signing.FailuresEmpty | DSigner/Signer.cs:63-66 | the error list is empty iff no outcome failed |
| Signing.FailuresInInputOrder | DSigner/Signer.cs:45-75 | the error list is a subsequence of the input list, in the same order |
| Signing.SignAllSpecStep | DSigner/Signer.cs:49-73 | each file is signed from the state the previous file left, and a failure never stops the files after it |
| Signing.SignFromTrusted | DSigner/Signer.cs:51-71 | an already trusted file leaves the failures, state and invocations as they were |
| Signing.SignFromUntrusted | DSigner/Signer.cs:51-67 | an untrusted file adds its retry loop's invocations and final state, and adds itself to the failures iff its last trial failed |
| Signing.SignFromIsSpec | DSigner/Signer.cs:45-75 | the loop resumed at any file adds the failures, final state and invocations of the batch of the remaining files |
| Signing.SignFromStart | DSigner/Signer.cs:45-75 | the loop from the first file with an empty error list gives the batch's failures, final state and invocations |
| Signing.AttemptsSameTrials | DSigner/Signer.cs:53-61 | the retry loop depends on the trial function only through the trials' values |
| Signing.TrialStatusIrrelevant | DSigner/Signer.cs:99-108 | a trial depends on the tool runs only through their effect on the files, not on whether a process timed out |
| Signing.StatusIrrelevant | DSigner/Signer.cs:99-137 | the whole batch is the same on two platforms that differ only in the process status they report |
| Signing.Signer.constructor | DSigner/Signer.cs:41-44 | the signer keeps the given mode |
| Signing.Signer.SignAll | DSigner/Signer.cs:45-76 | the loop over the files returns the failures, final state and invocations of the batch loop run from the first file, which `SignFromStart` ties to `SignAllSpec` |
| Signing.Signer.RetrySigning | DSigner/Signer.cs:53-61 | the do-while loop gives the trials, state and invocations of `Attempts` from count 0, and its flag is the last trial's result |
| Signing.Signer.SigningFile | DSigner/Signer.cs:78-145 | the staged trial gives the outcome, state and invocations of `Trial` |
| Arguments.RoleAt | DSigner/ArgsMapper.cs:51-79 | the role the loop gives each token, in closed form: a dash token before a non-dash one is a key, other dash tokens are switches, a non-dash token after a dash one is a value, others are positional; `RolesPartition`, `KeysAndValuesPair` and `RolesAndDashes` state it |
| Arguments.Pick | DSigner/ArgsMapper.cs:48-80 | the tokens of one role among the first n, in order; the constructor's invariants and `TokenCount` tie it to the lists |
| Arguments.OptionsUpTo | DSigner/ArgsMapper.cs:56-66 | the dictionary after the first n tokens, each key assigned the token after it; `OptionsUpToMeaning` states which value a key ends with |
| Arguments.OptionsUpToMeaning | DSigner/ArgsMapper.cs:54-66 | the dictionary holds exactly the tokens used as option keys, and a repeated key keeps the value after its last occurrence |
| Arguments.RolesPartition | DSigner/ArgsMapper.cs:50-79 | every token gets exactly one of the four roles |
| Arguments.KeysAndValuesPair | DSigner/ArgsMapper.cs:56-66 | every option key is paired with the value right after it |
| Arguments.RolesAndDashes | DSigner/ArgsMapper.cs:54-76 | switches and option keys start with `-`; positional arguments do not |
| Arguments.TokenCount | DSigner/ArgsMapper.cs:48-80 | \|ArgsList\| + \|SwitchList\| + 2 · (option pairs) = \|args\| |
| Arguments.ArgsMapper.GetOption | DSigner/ArgsMapper.cs:38-46 | the stored value when the key is present, the given default otherwise |
| Arguments.ArgsMapper.constructor | DSigner/ArgsMapper.cs:48-80 | the loop leaves the positional tokens in `argsList` and the switches in `switchList`, in order, and the key/value options in the dictionary, each as its role says |
| Arguments.GetOptionAfterParse | DSigner/ArgsMapper.cs:38-46 | after parsing, `GetOption` gives the value after the key's last occurrence, and the default for a key never given |
| Program.Lower | DSigner/Program.cs:59 | lower-casing keeps the length and maps each ASCII capital to its small letter |
| Program.ModeOf | DSigner/Program.cs:59-73 | the mode name never yields `None` |
| Program.ModeOfIgnoresCase | DSigner/Program.cs:59-73 | "sha1", "sha2", "dual" in any letter case map to SHA1, SHA2, Dual; every other token is unknown |
| Program.AnyMatchMeaning | DSigner/Program.cs:170 | without a throwing match, `Any` is true iff some pattern matches |
| Program.NoneThrowsTail | DSigner/Program.cs:170 | the absence of throwing matches carries over to the rest of the files |
| Program.KeepWhereOk | DSigner/Program.cs:170 | without a throwing match, `Where(...).ToList()` returns a list |
| Program.KeepWhereCountOf | DSigner/Program.cs:138 | without a throwing match the filter keeps each file as often as it was given when its match result is the wanted one, and never otherwise |
| Program.KeepWhereCounts | DSigner/Program.cs:138 | without a throwing match every kept file is kept as often as given and no other file is kept |
| Program.KeepWhereSubsequence | DSigner/Program.cs:138 | the kept files are a subsequence of the input |
| Program.KeepWhereExact | DSigner/Program.cs:170 | without a throwing match the filter keeps exactly the files whose match result is the wanted one, in order |
| Program.ListFilterFallbacks | DSigner/Program.cs:116-146 | the list is returned unchanged when the file is missing, the list is null or empty, or a match throws; an unreadable list escapes as an exception; any result is a subsequence |
| Program.WhiteListFilter | DSigner/Program.cs:148-178 | the list filter keeping the files that match some pattern; `ListFilterFallbacks` and `FiltersExact` state it |
| Program.BlackListFilter | DSigner/Program.cs:116-146 | the list filter keeping the files that match no pattern; `ListFilterFallbacks` and `FiltersExact` state it |
| Program.FiltersExact | DSigner/Program.cs:148-178 | with a readable non-empty list the white list keeps exactly the matching files and the black list exactly the others, in order |
| Program.SelectFiles | DSigner/Program.cs:80-105 | the files to sign: the `-d` listing, then the `-f` file, then the white and black lists; `SelectFilesTarget` states it |
| Program.SelectFilesTarget | DSigner/Program.cs:80-105 | a missing `-d` directory throws; with no lists the selection is exactly the listing followed by the `-f` file when it exists; the lists only remove files and never reorder them |
| Program.RunSpec | DSigner/Program.cs:41-115 | a whole run: early exits, configuration, file selection and the batch; `RunEarlyExits`, `RunVerdict` and `RunOnTrustedFiles` state it |
| Program.RunEarlyExits | DSigner/Program.cs:43-73 | null arguments, `-h`/`--help`, no positional argument or an unknown mode give false with the configuration and files untouched |
| Program.RunVerdict | DSigner/Program.cs:75-114 | past the early exits, `-c` decides the configuration; a throwing selection signs nothing; otherwise the run returns true iff no selected file failed |
| Program.RunOnTrustedFiles | DSigner/Program.cs:107-114 | when every selected file is already trusted the run signs nothing and returns true |
| Program.Program.constructor | DSigner/Program.cs:35 | no signer exists before a run |
| Program.Program.Run | DSigner/Program.cs:41-115 | the run returns, keeps as configuration and does to the files what `RunSpec` says; past the early exits it leaves a signer for the named mode, and an early exit leaves the signer as it was |
| Program.Program.SelectSignFiles | DSigner/Program.cs:80-105 | the step-by-step selection gives `SelectFiles` |

## Left out

- `NativeMethods.cs` is not part of this model. The trust check is the
  `verifyTrust` input of `Platform`, and its only argument is the stripped path.
- Process handling is an input. Starting the tool, the timed wait, `Kill`,
  reading its output and the line-ending replacement are all part of
  `runTool`, which is given the configured timeout.
- Exceptions from the process calls are left out. In the code, an exception
  from `Process.Start` (for example a missing `signtool.exe`), `WaitForExit`,
  `Kill` or `StandardOutput` escapes `SigningFile`, `SignAll` and `Run` and
  ends the run. In the model `runTool` always returns a state and a status,
  so the batch always goes on to the next stage and file.
- Console output and the usage text are left out. They have no effect on results.
- `ListUpFilePath` is an input: the `listFiles` field of `Host`, null for a
  missing directory.
- JSON deserialisation is an input: `readConfig` and `readPatterns`. A
  configuration file holding JSON `null`, or one missing `CertificateSettings`
  or its entries, is left out, because certificate entries are never null here.
  So is a `null` `SignExtensions` or `KernelModeExtensions` list, which makes
  the directory listing in `SelectFiles` or the kernel-mode test in
  `GenerateProcessStartInfo` throw; the lists are never null here.
- The location of the default configuration file is a parameter of the
  `ConfigStore` constructor.
- `File.Exists`, `Path.GetExtension`, `Path.GetFileName` and `Regex.IsMatch`
  are inputs. `Regex.IsMatch` can also throw.
- `Program.Lower`: models `ToLower` on ASCII letters only. Culture-specific
  mappings are left out. Under a Turkish or Azerbaijani culture these include
  the ASCII capital `I`, which becomes the dotless `ı`, and `İ`, which becomes
  `i`. No mapping left out can produce or remove a letter of the three mode
  names, which contain no `i`.
- `Arguments.IsDash` is an ordinal first-character test. It stands for the
  culture-sensitive `StartsWith("-")`.
- `Signing.StripQuotes`: the quote tests are ordinal first- and
  last-character tests. They stand for the culture-sensitive
  `StartsWith("\"")` and `EndsWith("\"")`.
- Null elements in the argument array are left out; the tokenizer would throw
  on them.
- `Signing.Signer.SignAll`: requires a mode other than `None`. `Run` never
  creates such a signer, and the source's `None` branch leaves the process
  without a program to start.
- `Main` discards the result of `Run`, so the process exit code is not modelled.
- `Signing.IsTrustedFile`: a null file name is not modelled (strings are never
  null here). The empty name is: it is never trusted.
