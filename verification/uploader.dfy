/**
 * The upload bookkeeping of `uploader.py`: the directory scan, the upload
 * log with its JSON backing file, the bounded retry of one upload, the
 * batch upload of a directory with its four counters, and the dummy CSV
 * generator.
 *
 * The filesystem and the storage SDK are abstracted: a directory is a map
 * from entry names to entry kinds, the log's backing file is a `LogFile`
 * value, path canonicalisation is a function fixed per log, and the storage
 * collaborator is a `Storage` object whose n-th upload call succeeds or
 * fails as its script says.
 */
module Uploader {
  import opened Wrappers
  import opened Strings

  /** A filesystem path: the directory it lies in and its final component (`path.name`). */
  datatype Path = Path(parent: string, name: string)

  // ---------------------------------------------------------------------------
  // Directory scan (find_csv_files)
  // ---------------------------------------------------------------------------

  /** What `is_file()` distinguishes: a regular file (or a link to one) versus anything else. */
  datatype EntryKind = RegularFile | Subdirectory | OtherEntry

  /** The entries of one directory, by name. */
  type Listing = map<string, EntryKind>

  /** The names the pattern `*.csv` matches (case-sensitive, as on POSIX). */
  predicate IsCsvName(name: string) {
    EndsWith(name, ".csv")
  }

  /** `name` is a regular file of the listed directory that matches `*.csv`. */
  predicate IsCsvEntry(listing: Option<Listing>, name: string) {
    listing.Some? && name in listing.value && listing.value[name] == RegularFile && IsCsvName(name)
  }

  /** The paths of the entries `names` of directory `dir`, in the same order. */
  function InDirectory(dir: string, names: seq<string>): (r: seq<Path>)
    ensures |r| == |names|
    ensures forall i :: 0 <= i < |r| ==> r[i] == Path(dir, names[i])
    ensures forall name :: (exists i :: 0 <= i < |r| && r[i].name == name) <==> name in names
  {
    if names == [] then [] else [Path(dir, names[0])] + InDirectory(dir, names[1..])
  }

  /**
   * The regular files of directory `dir` whose names match `*.csv`, sorted by
   * name. `listing` is None when the directory does not exist: the scan then
   * creates it and finds nothing.
   */
  function FindCsvFiles(dir: string, listing: Option<Listing>): (r: seq<Path>)
    ensures forall i :: 0 <= i < |r| ==> r[i].parent == dir
    ensures forall name ::
      (exists i :: 0 <= i < |r| && r[i].name == name) <==>
      IsCsvEntry(listing, name)
    ensures forall i, j :: 0 <= i < j < |r| ==> Below(r[i].name, r[j].name)
    ensures listing.None? || listing == Some(map[]) ==> r == []
  {
    var csv := CsvNames(listing);
    assert forall name :: name in csv <==> IsCsvEntry(listing, name);
    assert listing.None? || listing == Some(map[]) ==> csv == {};
    InDirectory(dir, SortedList(csv))
  }

  /** The names of `paths`, in order. */
  function Names(paths: seq<Path>): (s: seq<string>)
    ensures |s| == |paths|
    ensures forall i :: 0 <= i < |s| ==> s[i] == paths[i].name
  {
    seq(|paths|, i requires 0 <= i < |paths| => paths[i].name)
  }

  /** The names `find_csv_files` keeps. */
  function CsvNames(listing: Option<Listing>): set<string> {
    if listing.None? then {} else set n | n in listing.value && IsCsvEntry(listing, n)
  }

  /** `r` names exactly the regular files of `listing` that match `*.csv`. */
  ghost predicate ListsCsvEntries(listing: Option<Listing>, r: seq<Path>) {
    forall name ::
      (exists i :: 0 <= i < |r| && r[i].name == name) <==>
      IsCsvEntry(listing, name)
  }

  /**
   * The scan's result is determined by its contract: any sequence of paths in
   * `dir` that lists exactly the matching names, in ascending order, is it.
   */
  lemma ScanDetermined(dir: string, listing: Option<Listing>, r: seq<Path>)
    requires forall i :: 0 <= i < |r| ==> r[i].parent == dir
    requires ListsCsvEntries(listing, r)
    requires forall i, j :: 0 <= i < j < |r| ==> Below(r[i].name, r[j].name)
    ensures r == FindCsvFiles(dir, listing)
  {
    var found := FindCsvFiles(dir, listing);
    assert ListsCsvEntries(listing, found);
    ScanNames(listing, r);
    ScanNames(listing, found);
    forall i | 0 <= i < |r|
      ensures r[i] == found[i]
    {
      assert r[i].name == Names(r)[i] == Names(found)[i] == found[i].name;
    }
  }

  /** The names of a scan result are the sorted list of the matching names. */
  lemma ScanNames(listing: Option<Listing>, r: seq<Path>)
    requires ListsCsvEntries(listing, r)
    requires forall i, j :: 0 <= i < j < |r| ==> Below(r[i].name, r[j].name)
    ensures Names(r) == SortedList(CsvNames(listing))
  {
    NamesOfMatches(listing, r);
    assert StrictlySorted(Names(r));
    SortedListUnique(CsvNames(listing), Names(r));
  }

  lemma NamesOfMatches(listing: Option<Listing>, r: seq<Path>)
    requires ListsCsvEntries(listing, r)
    ensures forall x :: x in Names(r) <==> x in CsvNames(listing)
  {
    var a := Names(r);
    forall x
      ensures x in a <==> x in CsvNames(listing)
    {
      assert x in CsvNames(listing) <==> IsCsvEntry(listing, x);
      if x in a {
        var i :| 0 <= i < |a| && a[i] == x;
        assert r[i].name == x;
        assert IsCsvEntry(listing, x);
      }
      if x in CsvNames(listing) {
        var i :| 0 <= i < |r| && r[i].name == x;
        assert a[i] == x;
      }
    }
  }

  // ---------------------------------------------------------------------------
  // The upload log and its backing file
  // ---------------------------------------------------------------------------

  /** The content of the log's backing file, as far as `_load` tells cases apart. */
  datatype LogFile =
    | Absent                                 // no file at the log path
    | Malformed                              // not valid JSON
    | NotAnObject                            // valid JSON whose top level is not an object
    | Document(uploaded: Option<seq<string>>) // a JSON object; None when it has no "uploaded" key

  /** What `save` writes: `{"uploaded": sorted(entries)}`. */
  function Serialize(entries: set<string>): (f: LogFile)
    ensures f.Document? && f.uploaded.Some?
    ensures StrictlySorted(f.uploaded.value)
    ensures |f.uploaded.value| == |entries|
    ensures forall x :: x in f.uploaded.value <==> x in entries
  {
    Document(Some(SortedList(entries)))
  }

  /**
   * `_load` as written: only a JSON decoding error is caught, so valid JSON
   * that is not an object makes `data.get` raise (None here).
   */
  function LoadAsWritten(f: LogFile): (r: Option<set<string>>)
    ensures r.None? <==> f.NotAnObject?
  {
    match f
    case Absent => Some({})
    case Malformed => Some({})
    case NotAnObject => None
    case Document(None) => Some({})
    case Document(Some(xs)) => Some(set x | x in xs)
  }

  /** A log file holding the JSON array `[]` makes the load as written raise. */
  lemma LoadAsWrittenRaisesOnArray()
    ensures LoadAsWritten(NotAnObject) == None
  {
  }

  /**
   * `_load` with the start-fresh policy applied to every unreadable file:
   * the entries of a saved document, and the empty set otherwise.
   */
  function Loaded(f: LogFile): (r: set<string>)
    ensures f.Document? && f.uploaded.Some? ==> forall x :: x in r <==> x in f.uploaded.value
    ensures !(f.Document? && f.uploaded.Some?) ==> r == {}
    ensures LoadAsWritten(f).Some? ==> LoadAsWritten(f) == Some(r)
  {
    match f
    case Document(Some(xs)) => set x | x in xs
    case _ => {}
  }

  /** Saving and then loading from the same path gives back the same membership set. */
  lemma {:induction false} LoadSerialized(entries: set<string>)
    ensures Loaded(Serialize(entries)) == entries
    ensures LoadAsWritten(Serialize(entries)) == Some(entries)
  {
    var f := Serialize(entries);
    assert forall x :: x in Loaded(f) <==> x in entries;
  }

  /** The saved list is sorted ascending, free of duplicates, and determined by the set alone. */
  lemma SerializedCanonical(entries: set<string>, listing: seq<string>)
    requires StrictlySorted(listing)
    requires forall x :: x in listing <==> x in entries
    ensures Serialize(entries) == Document(Some(listing))
    ensures forall i, j :: 0 <= i < j < |listing| ==> listing[i] != listing[j]
  {
    SortedListUnique(entries, listing);
    StrictlySortedDistinct(listing);
  }

  /**
   * The set of canonical paths already uploaded, with its JSON backing file.
   * `canon` stands for `str(path.resolve())`; `backing` is the content of the
   * file at `location`; `saves` counts the writes to it.
   */
  class UploadLog {
    const location: string
    const canon: Path -> string
    var uploaded: set<string>
    var backing: LogFile
    ghost var saves: nat

    constructor (location: string, file: LogFile, canon: Path -> string)
      ensures this.location == location && this.canon == canon
      ensures backing == file && saves == 0
      ensures uploaded == Loaded(file)
      ensures file.Absent? || file.Malformed? || file.NotAnObject? || file == Document(None) ==> uploaded == {}
    {
      this.location := location;
      this.canon := canon;
      uploaded := {};
      backing := file;
      saves := 0;
      new;
      Load();
    }

    /** Reads the backing file; an absent file leaves the set as it is. */
    method Load()
      modifies this
      ensures uploaded == if backing.Absent? then old(uploaded) else Loaded(backing)
      ensures backing == old(backing) && saves == old(saves)
    {
      if !backing.Absent? {
        uploaded := Loaded(backing);
      }
    }

    /** Overwrites the backing file with the sorted entries. */
    method Save()
      modifies this
      ensures backing == Serialize(uploaded)
      ensures uploaded == old(uploaded) && saves == old(saves) + 1
    {
      backing := Serialize(uploaded);
      saves := saves + 1;
    }

    /** Membership of the canonical path. */
    predicate IsUploaded(file: Path)
      reads this
    {
      canon(file) in uploaded
    }

    /** Adds the canonical path; marking an uploaded path again changes nothing. */
    method MarkUploaded(file: Path)
      modifies this
      ensures uploaded == old(uploaded) + {canon(file)}
      ensures old(IsUploaded(file)) ==> uploaded == old(uploaded)
      ensures forall q :: canon(q) == canon(file) ==> IsUploaded(q)
      ensures forall q :: old(IsUploaded(q)) ==> IsUploaded(q)
      ensures backing == old(backing) && saves == old(saves)
    {
      uploaded := uploaded + {canon(file)};
    }
  }

  /**
   * A path counts as uploaded exactly when its canonical form is an entry of
   * the list `save` writes, and so of the set a reload gives back.
   */
  lemma UploadedIffSaved(log: UploadLog, file: Path)
    ensures log.IsUploaded(file) <==> log.canon(file) in Serialize(log.uploaded).uploaded.value
    ensures log.IsUploaded(file) <==> log.canon(file) in Loaded(Serialize(log.uploaded))
  {
    LoadSerialized(log.uploaded);
  }

  // ---------------------------------------------------------------------------
  // The storage collaborator
  // ---------------------------------------------------------------------------

  /** One `client.folder(folder_id).upload_stream(stream, file_name=...)` call. */
  datatype Call = Call(folderId: string, fileName: string)

  function Repeat(c: Call, n: nat): (s: seq<Call>)
    ensures |s| == n && forall i :: 0 <= i < n ==> s[i] == c
  {
    seq(n, _ => c)
  }

  /**
   * A scripted stand-in for the storage SDK: the n-th upload call made
   * against it (counting from 0) succeeds exactly when `outcome(n)` holds;
   * `calls` records every call in order.
   */
  class Storage {
    const outcome: nat -> bool
    var calls: seq<Call>

    constructor (outcome: nat -> bool)
      ensures this.outcome == outcome && calls == []
    {
      this.outcome := outcome;
      calls := [];
    }

    method UploadStream(folderId: string, fileName: string) returns (ok: bool)
      modifies this
      ensures calls == old(calls) + [Call(folderId, fileName)]
      ensures ok == outcome(|old(calls)|)
    {
      ok := outcome(|calls|);
      calls := calls + [Call(folderId, fileName)];
    }
  }

  // ---------------------------------------------------------------------------
  // Upload with retry (_upload_with_retry)
  // ---------------------------------------------------------------------------

  /** The most attempts `_upload_with_retry` makes: `max_retries + 1`, and one when it is negative. */
  function Limit(maxRetries: int): nat {
    if maxRetries < 0 then 1 else maxRetries + 1
  }

  function Pow2(k: nat): (r: nat)
    ensures r >= 1
  {
    if k == 0 then 1 else 2 * Pow2(k - 1)
  }

  /**
   * The sleeps after `n` failed attempts, in half-units: the k-th sleep is
   * 0.5 * 2^k time units, that is 2^k half-units.
   */
  function Backoff(n: nat): seq<nat> {
    seq(n, k requires 0 <= k => Pow2(k))
  }

  function Sum(s: seq<nat>): nat
    decreases |s|
  {
    if s == [] then 0 else Sum(s[..|s| - 1]) + s[|s| - 1]
  }

  /** The time slept over `n` retries adds up to (2^n - 1) half-units. */
  lemma {:induction false} BackoffTotal(n: nat)
    ensures Sum(Backoff(n)) == Pow2(n) - 1
  {
    if n > 0 {
      assert Backoff(n)[..n - 1] == Backoff(n - 1);
      BackoffTotal(n - 1);
    }
  }

  /**
   * The offset of the first successful outcome among `bound` calls starting
   * at call number `next`, or `bound` when all of them fail.
   */
  function FirstSuccess(outcome: nat -> bool, next: nat, bound: nat): (k: nat)
    ensures k <= bound
    ensures forall j :: next <= j < next + k ==> !outcome(j)
    ensures k < bound ==> outcome(next + k)
    decreases bound
  {
    if bound == 0 || outcome(next) then 0
    else 1 + FirstSuccess(outcome, next + 1, bound - 1)
  }

  /** How one `_upload_with_retry` call ends: the number of upload calls, and whether it returned. */
  datatype Attempts = Attempts(count: nat, ok: bool)

  /**
   * The attempts of `_upload_with_retry` whose first call is call number
   * `next`: at least one and at most `Limit(maxRetries)`, all but the last
   * failed, the last one decides the result, and a failure means the limit
   * was reached.
   */
  function Retry(outcome: nat -> bool, next: nat, maxRetries: int): (r: Attempts)
    ensures 1 <= r.count <= Limit(maxRetries)
    ensures forall j :: next <= j < next + r.count - 1 ==> !outcome(j)
    ensures r.ok == outcome(next + r.count - 1)
    ensures !r.ok ==> r.count == Limit(maxRetries)
  {
    var k := FirstSuccess(outcome, next, Limit(maxRetries));
    if k < Limit(maxRetries) then Attempts(k + 1, true) else Attempts(k, false)
  }

  /** The properties in the contract of `Retry` determine its result. */
  lemma RetryDetermined(outcome: nat -> bool, next: nat, maxRetries: int, n: nat, ok: bool)
    requires 1 <= n <= Limit(maxRetries)
    requires forall j :: next <= j < next + n - 1 ==> !outcome(j)
    requires ok == outcome(next + n - 1)
    requires !ok ==> n == Limit(maxRetries)
    ensures Retry(outcome, next, maxRetries) == Attempts(n, ok)
  {
  }

  /** A first attempt that succeeds returns at once, without sleeping. */
  lemma RetryFirstAttempt(outcome: nat -> bool, next: nat, maxRetries: int)
    requires outcome(next)
    ensures Retry(outcome, next, maxRetries) == Attempts(1, true)
    ensures Backoff(Retry(outcome, next, maxRetries).count - 1) == []
  {
    RetryDetermined(outcome, next, maxRetries, 1, true);
  }

  /**
   * With `max_retries = R >= 0`, R + 1 failing calls exhaust the retries: the
   * error is re-raised after exactly R + 1 attempts and R sleeps.
   */
  lemma RetryExhausted(outcome: nat -> bool, next: nat, maxRetries: nat)
    requires forall j :: next <= j <= next + maxRetries ==> !outcome(j)
    ensures Retry(outcome, next, maxRetries) == Attempts(maxRetries + 1, false)
    ensures |Backoff(Retry(outcome, next, maxRetries).count - 1)| == maxRetries
  {
    RetryDetermined(outcome, next, maxRetries, maxRetries + 1, false);
  }

  /**
   * Uploads one file with bounded retry. `ok` is false when the last error is
   * re-raised; `sleeps` lists the backoff delays slept, in half-units.
   */
  method UploadWithRetry(storage: Storage, folderId: string, file: Path, maxRetries: int)
    returns (ok: bool, sleeps: seq<nat>)
    modifies storage
    ensures var r := Retry(storage.outcome, |old(storage.calls)|, maxRetries);
      && ok == r.ok
      && storage.calls == old(storage.calls) + Repeat(Call(folderId, file.name), r.count)
      && sleeps == Backoff(r.count - 1)
    ensures |sleeps| < Limit(maxRetries)
  {
    ghost var next := |storage.calls|;
    var attempts := 0;
    var delay := 1;
    sleeps := [];
    while true
      invariant 0 <= attempts < Limit(maxRetries)
      invariant storage.calls == old(storage.calls) + Repeat(Call(folderId, file.name), attempts)
      invariant forall j :: next <= j < next + attempts ==> !storage.outcome(j)
      invariant delay == Pow2(attempts)
      invariant sleeps == Backoff(attempts)
      decreases Limit(maxRetries) - attempts
    {
      var success := storage.UploadStream(folderId, file.name);
      if success {
        RetryDetermined(storage.outcome, next, maxRetries, attempts + 1, true);
        return true, sleeps;
      }
      attempts := attempts + 1;
      if attempts > maxRetries {
        RetryDetermined(storage.outcome, next, maxRetries, attempts, false);
        return false, sleeps;
      }
      sleeps := sleeps + [delay];
      delay := delay * 2;
    }
  }

  // ---------------------------------------------------------------------------
  // Batch upload (upload_directory)
  // ---------------------------------------------------------------------------

  /** The counters `upload_directory` keeps and returns. */
  datatype UploadStats = UploadStats(attempted: nat, skipped: nat, succeeded: nat, failed: nat)

  const NoUploads := UploadStats(0, 0, 0, 0)

  /** What stays fixed during one batch: canonicalisation, the storage script, where it stands, and the arguments. */
  datatype Context = Context(canon: Path -> string, outcome: nat -> bool, start: nat, folderId: string, maxRetries: int)

  /** The state of a batch after a prefix of the files: counters, log entries, upload calls made. */
  datatype Progress = Progress(stats: UploadStats, done: set<string>, sent: seq<Call>)

  /**
   * One iteration of the loop of `upload_directory`: the file is counted
   * once, as skipped or as attempted, and only its canonical path can enter
   * the log.
   */
  function Step(p: Progress, file: Path, ctx: Context): (r: Progress)
    ensures r.stats.skipped + r.stats.attempted == p.stats.skipped + p.stats.attempted + 1
    ensures p.done <= r.done <= p.done + {ctx.canon(file)}
  {
    if ctx.canon(file) in p.done then
      p.(stats := p.stats.(skipped := p.stats.skipped + 1))
    else
      var attempt := Retry(ctx.outcome, ctx.start + |p.sent|, ctx.maxRetries);
      var sent := p.sent + Repeat(Call(ctx.folderId, file.name), attempt.count);
      var stats := p.stats.(attempted := p.stats.attempted + 1);
      if attempt.ok then Progress(stats.(succeeded := stats.succeeded + 1), p.done + {ctx.canon(file)}, sent)
      else Progress(stats.(failed := stats.failed + 1), p.done, sent)
  }

  /**
   * One file: a logged file only counts as skipped and makes no call; any
   * other file is attempted with between one and `Limit(maxRetries)` calls, and
   * enters the log exactly when its upload succeeds.
   */
  lemma StepOutcome(p: Progress, file: Path, ctx: Context)
    ensures var q := Step(p, file, ctx);
      && (ctx.canon(file) in p.done ==>
            q == p.(stats := p.stats.(skipped := p.stats.skipped + 1)))
      && (ctx.canon(file) !in p.done ==>
            && q.stats.attempted == p.stats.attempted + 1
            && q.stats.skipped == p.stats.skipped
            && q.stats.succeeded + q.stats.failed == p.stats.succeeded + p.stats.failed + 1
            && (ctx.canon(file) in q.done <==> q.stats.succeeded == p.stats.succeeded + 1)
            && q.done - {ctx.canon(file)} == p.done
            && |p.sent| < |q.sent| <= |p.sent| + Limit(ctx.maxRetries)
            && q.sent[..|p.sent|] == p.sent)
  {
  }

  /**
   * The loop of `upload_directory` over `files`, starting from the log
   * entries `done`: every attempted file makes at least one upload call and
   * at most `Limit(maxRetries)` of them.
   */
  function Batch(files: seq<Path>, done: set<string>, ctx: Context): (r: Progress)
    ensures r.stats.attempted <= |r.sent| <= r.stats.attempted * Limit(ctx.maxRetries)
    decreases |files|
  {
    if files == [] then Progress(NoUploads, done, [])
    else
      var q := Batch(files[..|files| - 1], done, ctx);
      StepOutcome(q, files[|files| - 1], ctx);
      assert (q.stats.attempted + 1) * Limit(ctx.maxRetries) == q.stats.attempted * Limit(ctx.maxRetries) + Limit(ctx.maxRetries);
      Step(q, files[|files| - 1], ctx)
  }

  function CanonSet(files: seq<Path>, canon: Path -> string): set<string> {
    set i | 0 <= i < |files| :: canon(files[i])
  }

  lemma CanonSetSnoc(files: seq<Path>, canon: Path -> string)
    requires files != []
    ensures CanonSet(files, canon) == CanonSet(files[..|files| - 1], canon) + {canon(files[|files| - 1])}
  {
    var front := files[..|files| - 1];
    forall x
      ensures x in CanonSet(files, canon) <==> x in CanonSet(front, canon) + {canon(files[|files| - 1])}
    {
      if x in CanonSet(files, canon) {
        var i :| 0 <= i < |files| && canon(files[i]) == x;
        if i < |front| {
          assert front[i] == files[i];
        }
      }
      if x in CanonSet(front, canon) {
        var i :| 0 <= i < |front| && canon(front[i]) == x;
        assert files[i] == front[i];
      }
    }
  }

  /** Every file is either skipped or attempted, and every attempt either succeeds or fails. */
  lemma {:induction false} BatchAccounting(files: seq<Path>, done: set<string>, ctx: Context)
    ensures var s := Batch(files, done, ctx).stats;
      s.skipped + s.attempted == |files| && s.succeeded + s.failed == s.attempted
    decreases |files|
  {
    if files != [] {
      BatchAccounting(files[..|files| - 1], done, ctx);
    }
  }

  /**
   * The log only grows, only by canonical paths of the batch's files, and by
   * exactly one new entry per successful upload.
   */
  lemma {:induction false} BatchLogGrowth(files: seq<Path>, done: set<string>, ctx: Context)
    ensures var p := Batch(files, done, ctx);
      done <= p.done <= done + CanonSet(files, ctx.canon) && |p.done| == |done| + p.stats.succeeded
    decreases |files|
  {
    if files != [] {
      var front := files[..|files| - 1];
      BatchLogGrowth(front, done, ctx);
      CanonSetSnoc(files, ctx.canon);
    }
  }

  /** After a batch without failures, every one of its files is in the log. */
  lemma {:induction false} BatchWithoutFailuresLogsAll(files: seq<Path>, done: set<string>, ctx: Context)
    ensures var p := Batch(files, done, ctx);
      p.stats.failed == 0 ==> forall i :: 0 <= i < |files| ==> ctx.canon(files[i]) in p.done
    decreases |files|
  {
    if files != [] {
      var front := files[..|files| - 1];
      BatchWithoutFailuresLogsAll(front, done, ctx);
      var q := Batch(front, done, ctx);
      var p := Batch(files, done, ctx);
      assert q.done <= p.done && q.stats.failed <= p.stats.failed;
      forall i | 0 <= i < |front|
        ensures files[i] == front[i]
      {
      }
    }
  }

  /** Files all already in the log are all skipped, with no upload call and no new entry. */
  lemma {:induction false} BatchAllLogged(files: seq<Path>, done: set<string>, ctx: Context)
    requires forall i :: 0 <= i < |files| ==> ctx.canon(files[i]) in done
    ensures Batch(files, done, ctx) == Progress(UploadStats(0, |files|, 0, 0), done, [])
    decreases |files|
  {
    if files != [] {
      BatchAllLogged(files[..|files| - 1], done, ctx);
    }
  }

  /** Rerunning a batch that had no failures skips every file and uploads nothing. */
  lemma RerunSkipsAll(files: seq<Path>, done: set<string>, ctx: Context, ctx': Context)
    requires ctx'.canon == ctx.canon
    requires Batch(files, done, ctx).stats.failed == 0
    ensures var p := Batch(files, done, ctx);
      Batch(files, p.done, ctx') == Progress(UploadStats(0, |files|, 0, 0), p.done, [])
  {
    BatchWithoutFailuresLogsAll(files, done, ctx);
    BatchAllLogged(files, Batch(files, done, ctx).done, ctx');
  }

  /** A file not yet in the log whose first upload call succeeds is uploaded with that one call. */
  lemma StepSucceeds(p: Progress, file: Path, ctx: Context)
    requires ctx.canon(file) !in p.done
    requires ctx.outcome(ctx.start + |p.sent|)
    ensures Step(p, file, ctx) == Progress(
      p.stats.(attempted := p.stats.attempted + 1, succeeded := p.stats.succeeded + 1),
      p.done + {ctx.canon(file)},
      p.sent + [Call(ctx.folderId, file.name)])
  {
    RetryFirstAttempt(ctx.outcome, ctx.start + |p.sent|, ctx.maxRetries);
    assert Repeat(Call(ctx.folderId, file.name), 1) == [Call(ctx.folderId, file.name)];
  }

  /** The calls of files sent one call each, in order. */
  function OneCallEach(folderId: string, files: seq<Path>): (s: seq<Call>)
    ensures |s| == |files|
    ensures forall i :: 0 <= i < |files| ==> s[i] == Call(folderId, files[i].name)
  {
    seq(|files|, i requires 0 <= i < |files| => Call(folderId, files[i].name))
  }

  lemma OneCallEachSnoc(folderId: string, files: seq<Path>)
    requires files != []
    ensures OneCallEach(folderId, files)
      == OneCallEach(folderId, files[..|files| - 1]) + [Call(folderId, files[|files| - 1].name)]
  {
    var n := |files| - 1;
    var s := OneCallEach(folderId, files[..n]) + [Call(folderId, files[n].name)];
    forall i | 0 <= i < |files|
      ensures OneCallEach(folderId, files)[i] == s[i]
    {
      if i < n {
        assert files[..n][i] == files[i];
      }
    }
  }

  /**
   * N new files with distinct canonical paths and a storage that accepts
   * every call: N attempts, N successes, one call per file, and N new log
   * entries.
   */
  lemma {:induction false} BatchAllSucceed(files: seq<Path>, done: set<string>, ctx: Context)
    requires forall i :: 0 <= i < |files| ==> ctx.canon(files[i]) !in done
    requires forall i, j :: 0 <= i < j < |files| ==> ctx.canon(files[i]) != ctx.canon(files[j])
    requires forall j :: ctx.start <= j ==> ctx.outcome(j)
    ensures var p := Batch(files, done, ctx);
      && p.stats == UploadStats(|files|, 0, |files|, 0)
      && p.done == done + CanonSet(files, ctx.canon)
      && |p.done| == |done| + |files|
      && p.sent == OneCallEach(ctx.folderId, files)
    decreases |files|
  {
    if files == [] {
      assert CanonSet(files, ctx.canon) == {};
    } else {
      var n := |files| - 1;
      var front := files[..n];
      assert forall i :: 0 <= i < n ==> front[i] == files[i];
      BatchAllSucceed(front, done, ctx);
      var q := Batch(front, done, ctx);
      assert ctx.canon(files[n]) !in q.done;
      assert ctx.outcome(ctx.start + |q.sent|);
      StepSucceeds(q, files[n], ctx);
      CanonSetSnoc(files, ctx.canon);
      OneCallEachSnoc(ctx.folderId, files);
      BatchLogGrowth(files, done, ctx);
    }
  }

  /**
   * The body of the loop of `upload_directory` for one file: skip it when it
   * is in the log, otherwise upload it with retry and record the result.
   */
  method UploadOne(storage: Storage, folderId: string, path: Path, log: UploadLog, maxRetries: int,
                   stats: UploadStats, ghost before: seq<Call>, ghost p: Progress, ghost ctx: Context)
    returns (stats': UploadStats)
    requires ctx == Context(log.canon, storage.outcome, |before|, folderId, maxRetries)
    requires stats == p.stats && log.uploaded == p.done && storage.calls == before + p.sent
    modifies storage, log
    ensures var q := Step(p, path, ctx);
      stats' == q.stats && log.uploaded == q.done && storage.calls == before + q.sent
    ensures log.backing == old(log.backing) && log.saves == old(log.saves)
  {
    if log.IsUploaded(path) {
      stats' := stats.(skipped := stats.skipped + 1);
    } else {
      stats' := stats.(attempted := stats.attempted + 1);
      ghost var r := Retry(ctx.outcome, ctx.start + |p.sent|, maxRetries);
      ghost var calls := Repeat(Call(folderId, path.name), r.count);
      assert before + (p.sent + calls) == (before + p.sent) + calls;
      var ok, _ := UploadWithRetry(storage, folderId, path, maxRetries);
      assert ok == r.ok && storage.calls == before + (p.sent + calls);
      if ok {
        log.MarkUploaded(path);
        stats' := stats'.(succeeded := stats'.succeeded + 1);
      } else {
        stats' := stats'.(failed := stats'.failed + 1);
      }
    }
  }

  /**
   * Uploads the files in order, skipping those already in the log, and saves
   * the log once at the end.
   */
  method UploadDirectory(storage: Storage, folderId: string, files: seq<Path>, log: UploadLog, maxRetries: int)
    returns (stats: UploadStats)
    modifies storage, log
    ensures var p := Batch(files, old(log.uploaded), Context(log.canon, storage.outcome, |old(storage.calls)|, folderId, maxRetries));
      && stats == p.stats
      && log.uploaded == p.done
      && storage.calls == old(storage.calls) + p.sent
    ensures stats.skipped + stats.attempted == |files| && stats.succeeded + stats.failed == stats.attempted
    ensures old(log.uploaded) <= log.uploaded
    ensures log.backing == Serialize(log.uploaded) && log.saves == old(log.saves) + 1
  {
    ghost var ctx := Context(log.canon, storage.outcome, |storage.calls|, folderId, maxRetries);
    ghost var done := log.uploaded;
    ghost var p := Progress(NoUploads, done, []);
    stats := NoUploads;
    for i := 0 to |files|
      invariant p == Batch(files[..i], done, ctx)
      invariant stats == p.stats && log.uploaded == p.done
      invariant storage.calls == old(storage.calls) + p.sent
      invariant log.saves == old(log.saves)
    {
      assert files[..i + 1][..i] == files[..i];
      stats := UploadOne(storage, folderId, files[i], log, maxRetries, stats, old(storage.calls), p, ctx);
      p := Step(p, files[i], ctx);
    }
    assert files[..|files|] == files;
    BatchAccounting(files, done, ctx);
    BatchLogGrowth(files, done, ctx);
    log.Save();
  }

  // ---------------------------------------------------------------------------
  // Dummy CSV files (create_dummy_files)
  // ---------------------------------------------------------------------------

  const DummyHeader := "timestamp,sensor_a,sensor_b"

  /** `f"dummy_{index:03d}.csv"` */
  function DummyName(index: nat): string {
    "dummy_" + ZeroPad(Decimal(index), 3) + ".csv"
  }

  /** Every generated name matches the scan's `*.csv` pattern. */
  lemma DummyNameIsCsv(index: nat)
    ensures IsCsvName(DummyName(index))
  {
  }

  /** Distinct indices give distinct names, however many files are generated. */
  lemma DummyNameInjective(i: nat, j: nat)
    ensures DummyName(i) == DummyName(j) ==> i == j
  {
    var pi, pj := ZeroPad(Decimal(i), 3), ZeroPad(Decimal(j), 3);
    if DummyName(i) == DummyName(j) {
      assert DummyName(i)[6..|DummyName(i)| - 4] == pi;
      assert DummyName(j)[6..|DummyName(j)| - 4] == pj;
      PaddedDecimalValue(i, 3);
      PaddedDecimalValue(j, 3);
    }
  }

  /** Below index 1000 the zero-padded numerals all have three digits and sort in index order. */
  lemma PaddedIndicesAscending(i: nat, j: nat)
    requires i < j < 1000
    ensures |ZeroPad(Decimal(i), 3)| == |ZeroPad(Decimal(j), 3)|
    ensures Below(ZeroPad(Decimal(i), 3), ZeroPad(Decimal(j), 3))
  {
    DecimalBelowThousand(i);
    DecimalBelowThousand(j);
    PaddedDecimalValue(i, 3);
    PaddedDecimalValue(j, 3);
    SameLengthNumeralsOrdered(ZeroPad(Decimal(i), 3), ZeroPad(Decimal(j), 3));
  }

  /** Below index 1000 the generated names sort in index order. */
  lemma DummyNamesAscending(i: nat, j: nat)
    requires i < j < 1000
    ensures Below(DummyName(i), DummyName(j))
  {
    var pi, pj := ZeroPad(Decimal(i), 3), ZeroPad(Decimal(j), 3);
    PaddedIndicesAscending(i, j);
    BelowExtend(pi, pj, ".csv", ".csv");
    BelowCommonPrefix("dummy_", pi + ".csv", pj + ".csv");
    assert DummyName(i) == "dummy_" + (pi + ".csv");
    assert DummyName(j) == "dummy_" + (pj + ".csv");
  }

  /**
   * Scanning a directory that holds just the generated files (at most 1000 of
   * them) finds exactly those files, in the order they were generated.
   */
  lemma ScanFindsGenerated(dir: string, generated: seq<Path>, listing: Listing)
    requires |generated| <= 1000
    requires forall i :: 0 <= i < |generated| ==> generated[i] == Path(dir, DummyName(i))
    requires forall name :: name in listing <==> exists i :: 0 <= i < |generated| && generated[i].name == name
    requires forall name | name in listing :: listing[name] == RegularFile
    ensures FindCsvFiles(dir, Some(listing)) == generated
  {
    forall i, j | 0 <= i < j < |generated|
      ensures Below(generated[i].name, generated[j].name)
    {
      DummyNamesAscending(i, j);
    }
    forall name | name in listing
      ensures IsCsvName(name)
    {
      var i :| 0 <= i < |generated| && generated[i].name == name;
      DummyNameIsCsv(i);
    }
    ScanDetermined(dir, Some(listing), generated);
  }

  /**
   * A CSV file written by the generator: its path, its header line, and the
   * timestamp column of each data line (the two random readings are not modelled).
   */
  datatype CsvFile = CsvFile(path: Path, header: string, timestamps: seq<int>)

  /** `count` consecutive timestamps from `base` on, one second apart. */
  function Timestamps(base: int, count: nat): (s: seq<int>)
    ensures |s| == count
  {
    seq(count, k requires 0 <= k => base + k)
  }

  /** Python's `len(range(n))`. */
  function RangeLength(n: int): nat {
    if n < 0 then 0 else n
  }

  /**
   * Writes `files` dummy CSV files into `dir`, each with the header line and
   * `rows` data lines. `clock(i)` is `int(time.time())` as read while writing
   * file `i`; data line k carries the timestamp `clock(i) + k`.
   */
  method CreateDummyFiles(dir: string, rows: int, files: int, clock: nat -> int)
    returns (generated: seq<Path>, written: seq<CsvFile>)
    ensures |generated| == RangeLength(files) && |written| == |generated|
    ensures forall i :: 0 <= i < |generated| ==> generated[i] == Path(dir, DummyName(i))
    ensures forall i :: 0 <= i < |written| ==>
      written[i] == CsvFile(generated[i], DummyHeader, Timestamps(clock(i), RangeLength(rows)))
  {
    generated, written := [], [];
    for index := 0 to RangeLength(files)
      invariant |generated| == index && |written| == index
      invariant forall i :: 0 <= i < index ==> generated[i] == Path(dir, DummyName(i))
      invariant forall i :: 0 <= i < index ==>
        written[i] == CsvFile(generated[i], DummyHeader, Timestamps(clock(i), RangeLength(rows)))
    {
      var path := Path(dir, DummyName(index));
      var baseTs := clock(index);
      var timestamps := [];
      for rowIdx := 0 to RangeLength(rows)
        invariant timestamps == Timestamps(baseTs, rowIdx)
      {
        timestamps := timestamps + [baseTs + rowIdx];
      }
      written := written + [CsvFile(path, DummyHeader, timestamps)];
      generated := generated + [path];
    }
  }
}
