# boxsdk_trial upload bookkeeping, modelled in Dafny

`boxsdk_trial` scans a local directory for CSV files and uploads the ones it has
not uploaded before to a Box folder. It remembers uploaded files in a JSON
upload log, retries each upload a bounded number of times with exponential
backoff, and counts what it did in four counters. A small settings layer reads
the Box credentials from the environment and decides which client to build.

This project models that core and proves what it promises:

- `strings.dfy` (module `Strings`): Python's `str` order, `sorted()` of a set of
  strings, substring and suffix tests, and decimal numerals with zero padding.
- `wrappers.dfy` (module `Wrappers`): `Option`, and `Result` for the error paths
  (`raise ValueError` becomes a `Failure`).
- `uploader.dfy` (module `Uploader`): `find_csv_files` over a directory
  listing; the `UploadLog` class with its backing file; a scripted `Storage`
  object standing for the Box SDK; `_upload_with_retry` as a loop proved
  against the specification function `Retry`; `upload_directory` as a loop
  proved against the fold `Batch`; and `create_dummy_files`.
- `config.dfy` (module `Config`): `_get_env`, `_normalize_private_key`,
  `BoxSettings.from_env` over an explicit environment map, and the checks of
  `build_client`.

Abstractions:

- A directory listing is a map from entry names to entry kinds. `None` means
  the directory does not exist.
- `str(path.resolve())` is a function `canon` fixed for each log.
- The log's backing file is a `LogFile` value: absent, not JSON, JSON that is
  not an object, or an object with or without an `"uploaded"` list.
- The n-th upload call made against `Storage` succeeds exactly when `outcome(n)` holds.
- Backoff delays are counted in half time-units: the k-th sleep, 0.5·2^k, is 2^k.
- `time.time()` in `create_dummy_files` is a `clock` parameter.

`sorted()` in `find_csv_files` compares `Path` objects. They all share one
parent, so this comes down to comparing their names, which is what the model does.
With a negative `max_retries`, the source makes exactly one attempt, because
the test is `attempts > max_retries`. The model keeps that behaviour, so the
bound is `Limit(maxRetries)` and not `maxRetries + 1`.

## Model

| member | source | states |
|---|---|---|
| Uploader.FindCsvFiles | src/boxsdk_trial/uploader.py:19-23 | the result lists exactly the regular entries whose names end in `.csv`, all in the scanned directory, in strictly ascending name order; a missing or empty directory gives the empty list |
| Uploader.ScanDetermined | src/boxsdk_trial/uploader.py:19-23 | any sequence with those three properties is the scan's result, so the sorted order is unique |
| Strings.SortedList | src/boxsdk_trial/uploader.py:45 | `sorted()` of a set: strictly ascending, same size, exactly the set's elements |
| Strings.SortedListUnique | src/boxsdk_trial/uploader.py:45 | a strictly ascending listing of a set is the sorted list of that set |
| Uploader.Serialize | src/boxsdk_trial/uploader.py:43-46 | `save` writes an object with the `"uploaded"` key holding the entries, strictly ascending, one per entry |
| Uploader.SerializedCanonical | src/boxsdk_trial/uploader.py:43-46 | the saved list is free of duplicates and is fixed by the set alone |
| Uploader.LoadAsWritten | src/boxsdk_trial/uploader.py:34-41 | `_load` as written raises exactly when the file holds valid JSON that is not an object |
| Uploader.LoadAsWrittenRaisesOnArray | src/boxsdk_trial/uploader.py:37-38 | a log file holding `[]` makes the load as written raise |
| Uploader.Loaded | src/boxsdk_trial/uploader.py:34-41 | loading gives the document's entries, or the empty set for an absent or unreadable file or a missing key; it agrees with the load as written whenever that does not raise |
| Uploader.LoadSerialized | src/boxsdk_trial/uploader.py:34-46 | saving and then reloading gives back the same membership set |
| Uploader.UploadLog.constructor | src/boxsdk_trial/uploader.py:29-32 | a new log holds what its backing file loads as under the corrected load `Loaded` (see Findings): the empty set when the file is absent, not JSON, not an object or lacks the key |
| Uploader.UploadLog.Load | src/boxsdk_trial/uploader.py:34-41 | an absent file leaves the set as it was; otherwise the set becomes what the file loads as under the corrected load `Loaded` (see Findings) |
| Uploader.UploadLog.IsUploaded | src/boxsdk_trial/uploader.py:48-49 | membership of the canonical path in the set; `UploadedIffSaved` proves this is presence in the list `save` writes and in its reload |
| Uploader.UploadLog.Save | src/boxsdk_trial/uploader.py:43-46 | the backing file becomes the serialised set, which is unchanged; one more write |
| Uploader.UploadLog.MarkUploaded | src/boxsdk_trial/uploader.py:51-52 | adds the canonical path; marking twice changes nothing; every path with the same canonical form is then uploaded; no entry is removed |
| Uploader.UploadedIffSaved | src/boxsdk_trial/uploader.py:48-49 | `is_uploaded` holds exactly when the canonical path is in the saved list, and so in a reload of it |
| Uploader.Storage.UploadStream | src/boxsdk_trial/uploader.py:94-95 | each upload call is recorded in order and succeeds as the script says for its position |
| Uploader.Retry | src/boxsdk_trial/uploader.py:89-102 | between 1 and `Limit(max_retries)` attempts (`max_retries + 1`, or 1 when `max_retries` is negative), all but the last failing; the result is the last attempt's outcome; a failure means the bound was reached |
| Uploader.RetryFirstAttempt | src/boxsdk_trial/uploader.py:92-96 | a first attempt that succeeds returns at once, with one call and no sleep |
| Uploader.RetryExhausted | src/boxsdk_trial/uploader.py:97-100 | with R ≥ 0 and R+1 failing calls ahead, the upload fails after exactly R+1 attempts and R sleeps |
| Uploader.RetryDetermined | src/boxsdk_trial/uploader.py:89-102 | an attempt count with all earlier attempts failing and the last one succeeding or at the bound is the retry's result |
| Uploader.BackoffTotal | src/boxsdk_trial/uploader.py:91-102 | the sleeps 0.5·2^0 … 0.5·2^(n-1) add up to 0.5·(2^n − 1) |
| Uploader.UploadWithRetry | src/boxsdk_trial/uploader.py:89-102 | the loop makes exactly the calls `Retry` predicts for this file's name and folder, reports success as `Retry` does, and sleeps 0.5·2^k before retry k+1, fewer times than the attempt bound |
| Uploader.Step | src/boxsdk_trial/uploader.py:73-84 | one file is counted exactly once, as skipped or attempted, and the log gains at most its canonical path and loses nothing |
| Uploader.StepOutcome | src/boxsdk_trial/uploader.py:72-84 | a logged file only counts as skipped and makes no call; any other file is attempted with 1 to `Limit(max_retries)` calls and enters the log exactly when it succeeds |
| Uploader.StepSucceeds | src/boxsdk_trial/uploader.py:76-80 | a new file whose first call succeeds is uploaded with one call, counted as a success and logged |
| Uploader.Batch | src/boxsdk_trial/uploader.py:71-84 | the loop over the files as a left fold of `Step`; the calls made number at least the attempted files and at most `Limit(max_retries)` per attempted file |
| Uploader.BatchAccounting | src/boxsdk_trial/uploader.py:71-84 | `skipped + attempted` is the number of files and `succeeded + failed` is `attempted` |
| Uploader.BatchLogGrowth | src/boxsdk_trial/uploader.py:72-85 | the log only grows, only by canonical paths of the batch, by exactly one entry per success |
| Uploader.BatchWithoutFailuresLogsAll | src/boxsdk_trial/uploader.py:76-80 | after a batch without failures every file of it is in the log |
| Uploader.BatchAllLogged | src/boxsdk_trial/uploader.py:72-75 | files all in the log are all skipped, with no call and no new entry |
| Uploader.RerunSkipsAll | src/boxsdk_trial/uploader.py:72-85 | rerunning a batch that had no failures skips every file and uploads nothing |
| Uploader.BatchAllSucceed | src/boxsdk_trial/uploader.py:71-85 | N new files with distinct canonical paths against a storage that accepts every call give N attempts and N successes, one call per file in order, and N new log entries |
| Uploader.UploadOne | src/boxsdk_trial/uploader.py:72-84 | one loop iteration changes the counters, the log and the calls made as `Step` says, and writes nothing |
| Uploader.UploadDirectory | src/boxsdk_trial/uploader.py:63-86 | the counters, log and calls are those of `Batch` over the files; the accounting holds; the log only grows and is saved exactly once, after the loop |
| Strings.Decimal | src/boxsdk_trial/uploader.py:110 | `str(n)` is a non-empty digit string denoting n, one digit exactly when n < 10 |
| Strings.DecimalNoLeadingZero | src/boxsdk_trial/uploader.py:110 | `str(n)` starts with `0` only for n = 0, so it has no leading zeros |
| Strings.PaddedDecimalValue | src/boxsdk_trial/uploader.py:110 | zero padding keeps the numeral's value |
| Uploader.DummyName | src/boxsdk_trial/uploader.py:110 | `dummy_`, the index zero-padded to three digits, `.csv`; `DummyNameIsCsv`, `DummyNameInjective` and `DummyNamesAscending` state what it guarantees |
| Uploader.DummyNameIsCsv | src/boxsdk_trial/uploader.py:110 | every generated name matches `*.csv` |
| Uploader.DummyNameInjective | src/boxsdk_trial/uploader.py:110 | different indices give different names |
| Uploader.PaddedIndicesAscending | src/boxsdk_trial/uploader.py:110 | below 1000 the padded numerals have three digits and sort in index order |
| Uploader.DummyNamesAscending | src/boxsdk_trial/uploader.py:109-110 | below 1000 the generated names sort in index order |
| Uploader.ScanFindsGenerated | src/boxsdk_trial/uploader.py:105-124 | scanning a directory that holds just the generated files, at most 1000, finds them all in generation order |
| Uploader.CreateDummyFiles | src/boxsdk_trial/uploader.py:105-124 | `len(range(files))` files named `dummy_{index:03d}.csv` in index order, each with the header `timestamp,sensor_a,sensor_b` and `len(range(rows))` data lines stamped consecutively from the clock reading |
| Config.GetEnv | src/boxsdk_trial/config.py:15-22 | a set, non-empty value (or default) is returned unchanged; an unset-without-default or empty one raises when required and reads as None otherwise; a required lookup that succeeds has a value |
| Config.UnescapeNewlines | src/boxsdk_trial/config.py:28 | `replace("\\n", "\n")`: no longer, empty only for empty input, and no backslash-n pair is left |
| Config.EscapeNewlines | src/boxsdk_trial/config.py:26 | the inverse encoding writes no newline character |
| Config.UnescapeEscape | src/boxsdk_trial/config.py:28 | unescaping undoes escaping for text without a literal backslash-n pair |
| Config.EscapeUnescape | src/boxsdk_trial/config.py:28 | escaping undoes unescaping for text without a newline character |
| Config.UnescapeIdentity | src/boxsdk_trial/config.py:28 | text without a backslash-n pair is left unchanged |
| Config.ContainsSurvivesUnescape | src/boxsdk_trial/config.py:27-28 | unescaping keeps the PEM marker |
| Config.ContainsSurvivesEscape | src/boxsdk_trial/config.py:27-28 | escaping keeps the PEM marker |
| Config.NormalizePrivateKey | src/boxsdk_trial/config.py:25-29 | a string without the PEM marker is returned unchanged; a PEM-marked one keeps the marker and loses every backslash-n pair; a non-empty key stays non-empty |
| Config.NormalizeIdempotent | src/boxsdk_trial/config.py:25-29 | normalising twice is normalising once |
| Config.NormalizeRestoresPem | src/boxsdk_trial/config.py:25-29 | a PEM key with its newlines escaped into one line comes back exactly |
| Config.NormalizeReversible | src/boxsdk_trial/config.py:25-29 | re-escaping a normalised one-line PEM value gives the value back |
| Config.ParseInt | src/boxsdk_trial/config.py:75 | `int()` of an optional sign and ASCII digits; the empty text and anything else raise |
| Config.ParseIntText | src/boxsdk_trial/config.py:75 | `int(str(n)) == n` for every integer |
| Config.PrivateKeyField | src/boxsdk_trial/config.py:64-68 | with a developer token the key is None and nothing is read; otherwise an unset or empty `BOX_JWT_PRIVATE_KEY` raises naming it, and a set one is normalised |
| Config.FromEnv | src/boxsdk_trial/config.py:48-76 | on success the retry count is what `int()` gives, the paths are non-empty, and in developer-token mode the private key is None |
| Config.FromEnvSucceedsIff | src/boxsdk_trial/config.py:56-76 | reading succeeds exactly when every required variable is set and non-empty and the retry text is an integer; with a developer token only `BOX_UPLOAD_FOLDER_ID` is required |
| Config.FromEnvFirstError | src/boxsdk_trial/config.py:60-76 | a failure names the first required variable, in the source's order, that is unset or empty; the retry text is checked only after all of them |
| Config.FromEnvJwtFields | src/boxsdk_trial/config.py:60-76 | without a developer token the fields hold the variables' values, the key normalised, and the optional ids are None when unset or empty |
| Config.FromEnvDeveloperFields | src/boxsdk_trial/config.py:61-74 | with a developer token the private key is None, the other JWT fields and the enterprise and app user ids are optional (None when unset or empty), and the folder is still required |
| Config.FromEnvPaths | src/boxsdk_trial/config.py:57-75 | a set `LOCAL_DATA_DIR` or `UPLOAD_LOG_PATH` becomes the path field (non-empty values unchanged, the empty one `.`), and a set `BOX_MAX_RETRIES` is what `int()` parses |
| Config.FromEnvDefaults | src/boxsdk_trial/config.py:56-75 | the defaults are `data`, `.upload_log.json` and 3 retries |
| Config.BuildClient | src/boxsdk_trial/config.py:79-102 | a developer token wins with no check; otherwise the missing-identity error is raised exactly when both ids are None, before any credential check; then any missing or empty credential raises; with an id and all four credentials present a JWT client is built from exactly the settings' values |
| Config.BuildFromEnv | src/boxsdk_trial/config.py:86-90 | settings read from the same environment never fail the credential check: the client builds exactly when there is a developer token or an enterprise or app user id |

## Left out

- `cli.py` is not part of this model: argument parsing, logging setup, the exit code and `--limit` slicing.
- Filesystem effects: creating the scanned directory, the log's parent directory and the dummy directory; reading and writing file contents; read errors other than the cases `LogFile` names.
- Uploader.UploadLog.constructor: follows the corrected load `Loaded`; on a log file holding valid JSON that is not an object the source raises `AttributeError` instead (see Findings, modelled by `LoadAsWritten`).
- Uploader.UploadLog.Load: follows the corrected load `Loaded` in the same way, so it does not raise `AttributeError` on valid JSON that is not an object.
- Uploader.FindCsvFiles: the `*.csv` match is case-sensitive and names compare by code point, as on POSIX; Windows path semantics, which fold case in both, are not modelled.
- `Path.resolve()` is the uninterpreted function `canon`; symlinks and relative segments are not modelled.
- JSON text and its encoding. An `"uploaded"` value that is not a list of strings (a string, say, which `set()` would split into characters) is not modelled.
- `time.sleep` and float delays: sleeps are returned as half-unit counts by `UploadWithRetry`, and `UploadDirectory` does not expose them.
- Uploader.UploadWithRetry: a file that cannot be opened is modelled as an upload call that fails; the source makes no call in that case, but counts the attempt the same way.
- Uploader.Storage.UploadStream: the outcome depends only on the call's position, not on the file's bytes or the folder; the SDK, its network traffic and its returned file object are not modelled.
- Exceptions outside `Exception`, such as `KeyboardInterrupt`, which would abort the batch.
- `random.uniform` readings, the CSV text layout and the line terminator of `create_dummy_files`; only names, headers, row counts and timestamps are modelled.
- Uploader.DummyNamesAscending: holds only below index 1000, because from `dummy_1000.csv` on the names no longer sort in index order.
- `load_dotenv`, `env_path` and `Path.expanduser()`; the environment is an explicit map, and of path normalisation only `Path("")` becoming `.` is modelled.
- Config.ParseInt: rejects surrounding whitespace, underscores between digits and non-ASCII digits, which `int()` accepts.
- The JWT and developer-token authentication objects and their network exchanges; `BuildClient` returns which client would be built and with which values.
- Logging calls.

## Findings

| source | as written | input that shows it | evidently intended | confidence | as-written member | corrected member |
|---|---|---|---|---|---|---|
| src/boxsdk_trial/uploader.py:34-41 | `_load` catches only JSON decoding errors and then calls `data.get` | a log file holding `[]`, which is valid JSON but not an object, makes `data.get` raise `AttributeError` | treat any unreadable log as a fresh start with an empty set | medium; not executed | Uploader.LoadAsWrittenRaisesOnArray | Uploader.Loaded |
