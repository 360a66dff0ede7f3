/** The driver of `run_pipeline.py`: pre-flight checks of the input files and the
    warehouse client, then each domain's chunks transformed and loaded in order, with
    an exception in a chunk ending that domain only. Reading the chunks, the loader and
    the file system are parameters: `chunks` is what reading a domain's file yields,
    `accepts` says whether the loader returns normally for a given chunk number and
    write, and `fileExists` and `clientOk` are the pre-flight observations. */
module Pipeline {
  import opened Wrappers
  import opened Frames
  import opened Transform

  datatype Domain = Sales | Financial | Attendance

  /** The domains in the order `main` loads them. */
  const Domains: seq<Domain> := [Sales, Financial, Attendance]

  /** What a transform does to one chunk. */
  type TransformStep = Frame -> Result<Transformed, TransformError>

  /** The transform `main` passes for each domain. */
  function TransformFor(d: Domain, cfg: Config): TransformStep {
    match d
    case Sales => chunk => TransformSales(chunk, cfg)
    case Financial => chunk => TransformFinancial(chunk, cfg)
    case Attendance => chunk => TransformAttendance(chunk, cfg)
  }

  datatype WriteDisposition = WriteTruncate | WriteAppend

  /** The disposition of chunk number `n`, counting from 1: the first chunk replaces the
      table and every later one appends to it. */
  function DispositionFor(n: nat): (w: WriteDisposition)
    ensures w == WriteTruncate <==> n == 1
  {
    if n == 1 then WriteTruncate else WriteAppend
  }

  /** One call of the loader: the transformed chunk and its disposition. */
  datatype Write = Write(frame: Frame, disposition: WriteDisposition)

  /** What ended a domain early: its transform or its loader raised. */
  datatype ChunkError = TransformFailed(error: TransformError) | LoadFailed

  /** How a domain's load ended: every chunk loaded, or chunk number `chunk` raised. */
  datatype DatasetOutcome = Completed(chunks: nat) | Aborted(chunk: nat, error: ChunkError)

  datatype LogLine =
    | Loading(domain: Domain)
    | ChunkLoaded(domain: Domain, chunk: nat)
    | DatasetLoaded(domain: Domain)
    | DatasetFailed(domain: Domain, error: ChunkError)
    | FileNotFound(domain: Domain)
    | ClientInitialized
    | ClientInitFailed
    | AllProcessed

  /** The write for chunk number `k + 1`, once its transform has succeeded. */
  function WriteFor(transform: TransformStep, chunks: seq<Frame>, k: int): Write
    requires 0 <= k < |chunks| && transform(chunks[k]).Success?
  {
    Write(transform(chunks[k]).value.frame, DispositionFor(k + 1))
  }

  /** Chunk number `k + 1` is transformed and then loaded without an exception. */
  predicate ChunkOk(transform: TransformStep, chunks: seq<Frame>, accepts: (nat, Write) -> bool, k: int) {
    && 0 <= k < |chunks|
    && transform(chunks[k]).Success?
    && accepts(k + 1, WriteFor(transform, chunks, k))
  }

  /** The exception chunk number `k + 1` raises when it is not ok. */
  function ChunkErrorOf(transform: TransformStep, chunks: seq<Frame>, k: int): ChunkError
    requires 0 <= k < |chunks|
  {
    var t := transform(chunks[k]);
    if t.Failure? then TransformFailed(t.error) else LoadFailed
  }

  /** Each write is that of the chunk at its position, whose transform succeeded. */
  predicate WritesFor(transform: TransformStep, chunks: seq<Frame>, writes: seq<Write>) {
    forall k :: 0 <= k < |writes| ==>
      k < |chunks| && transform(chunks[k]).Success? && writes[k] == WriteFor(transform, chunks, k)
  }

  /** What `load_dataset` does with a domain's chunks: it makes the loader calls `writes`,
      in chunk order, one per chunk it gets to load; it completes when every chunk is ok,
      and otherwise stops at the first chunk that is not, with that chunk's exception. */
  predicate ReportsRun(transform: TransformStep, chunks: seq<Frame>, accepts: (nat, Write) -> bool,
                       outcome: DatasetOutcome, writes: seq<Write>) {
    && WritesFor(transform, chunks, writes)
    && match outcome
       case Completed(n) =>
         && n == |chunks| && |writes| == |chunks|
         && forall k :: 0 <= k < |chunks| ==> ChunkOk(transform, chunks, accepts, k)
       case Aborted(c, e) =>
         && 1 <= c <= |chunks|
         && (forall k :: 0 <= k < c - 1 ==> ChunkOk(transform, chunks, accepts, k))
         && !ChunkOk(transform, chunks, accepts, c - 1)
         && e == ChunkErrorOf(transform, chunks, c - 1)
         && |writes| == if e.LoadFailed? then c else c - 1
  }

  /** The number of chunks a domain loaded before it ended. */
  function ChunksLoaded(outcome: DatasetOutcome): nat {
    match outcome
    case Completed(n) => n
    case Aborted(c, _) => if c == 0 then 0 else c - 1
  }

  /** The lines announcing chunks 1 to `n`, in order. */
  function ChunkLines(d: Domain, n: nat): seq<LogLine> {
    if n == 0 then [] else ChunkLines(d, n - 1) + [ChunkLoaded(d, n)]
  }

  /** The log of one domain: its announcement, one line per loaded chunk numbered from 1,
      then its success message or its error. */
  function DatasetLog(d: Domain, outcome: DatasetOutcome): seq<LogLine> {
    [Loading(d)]
      + ChunkLines(d, ChunksLoaded(outcome))
      + [if outcome.Completed? then DatasetLoaded(d) else DatasetFailed(d, outcome.error)]
  }

  /** `load_dataset(csv_path, transform_func, table_id, client, dataset_name)`. */
  method LoadDataset(d: Domain, transform: TransformStep, chunks: seq<Frame>, accepts: (nat, Write) -> bool)
    returns (outcome: DatasetOutcome, writes: seq<Write>, log: seq<LogLine>)
    ensures ReportsRun(transform, chunks, accepts, outcome, writes)
    ensures forall k :: 0 <= k < |writes| ==> (writes[k].disposition == WriteTruncate <==> k == 0)
    ensures log == DatasetLog(d, outcome)
  {
    log := [Loading(d)];
    writes := [];
    var i := 1;
    while i <= |chunks|
      invariant 1 <= i <= |chunks| + 1
      invariant |writes| == i - 1
      invariant forall k :: 0 <= k < i - 1 ==> ChunkOk(transform, chunks, accepts, k)
      invariant WritesFor(transform, chunks, writes)
      invariant log == [Loading(d)] + ChunkLines(d, i - 1)
    {
      var t := transform(chunks[i - 1]);
      if t.Failure? {
        outcome := Aborted(i, TransformFailed(t.error));
        log := log + [DatasetFailed(d, outcome.error)];
        return;
      }
      var w := Write(t.value.frame, DispositionFor(i));
      writes := writes + [w];
      if !accepts(i, w) {
        outcome := Aborted(i, LoadFailed);
        log := log + [DatasetFailed(d, outcome.error)];
        return;
      }
      log := log + [ChunkLoaded(d, i)];
      i := i + 1;
    }
    outcome := Completed(|chunks|);
    log := log + [DatasetLoaded(d)];
  }

  /** A run with a failing chunk stops at that chunk or at an earlier one. */
  lemma FailureNotBefore(transform: TransformStep, chunks: seq<Frame>, accepts: (nat, Write) -> bool,
                         outcome: DatasetOutcome, writes: seq<Write>, c: int)
    requires ReportsRun(transform, chunks, accepts, outcome, writes)
    requires 1 <= c <= |chunks| && !ChunkOk(transform, chunks, accepts, c - 1)
    ensures outcome.Aborted? && outcome.chunk <= c
  {
  }

  /** The outcome and the writes of a domain's load are determined by its chunks, its
      transform and its loader. */
  lemma ReportsRunUnique(transform: TransformStep, chunks: seq<Frame>, accepts: (nat, Write) -> bool,
                         o1: DatasetOutcome, w1: seq<Write>, o2: DatasetOutcome, w2: seq<Write>)
    requires ReportsRun(transform, chunks, accepts, o1, w1)
    requires ReportsRun(transform, chunks, accepts, o2, w2)
    ensures o1 == o2 && w1 == w2
  {
    if o1.Aborted? {
      FailureNotBefore(transform, chunks, accepts, o2, w2, o1.chunk);
    }
    if o2.Aborted? {
      FailureNotBefore(transform, chunks, accepts, o1, w1, o2.chunk);
    }
    assert |w1| == |w2|;
    assert forall k :: 0 <= k < |w1| ==> w1[k] == w2[k];
  }

  /** The chunk lines hold exactly the numbers 1 to `n`, and no other kind of line. */
  lemma {:induction false} ChunkLinesContent(d: Domain, n: nat)
    ensures forall line :: line in ChunkLines(d, n) <==> line.ChunkLoaded? && line.domain == d && 1 <= line.chunk <= n
  {
    if n > 0 {
      ChunkLinesContent(d, n - 1);
    }
  }

  /** A domain's success message is logged exactly when every chunk loaded, and its log
      announces exactly the chunks that were loaded. */
  lemma DatasetLogSuccess(d: Domain, outcome: DatasetOutcome)
    ensures DatasetLoaded(d) in DatasetLog(d, outcome) <==> outcome.Completed?
    ensures forall n: nat :: ChunkLoaded(d, n) in DatasetLog(d, outcome) <==> 1 <= n <= ChunksLoaded(outcome)
  {
    ChunkLinesContent(d, ChunksLoaded(outcome));
  }

  /** The loader is told to replace the table for the first chunk only. */
  lemma TruncateOnlyFirst(transform: TransformStep, chunks: seq<Frame>, accepts: (nat, Write) -> bool,
                          outcome: DatasetOutcome, writes: seq<Write>)
    requires ReportsRun(transform, chunks, accepts, outcome, writes)
    ensures forall k :: 0 <= k < |writes| ==> (writes[k].disposition == WriteTruncate <==> k == 0)
  {
    forall k | 0 <= k < |writes|
      ensures writes[k].disposition == DispositionFor(k + 1)
    {
    }
  }

  /** Every input file of the pipeline exists. */
  predicate AllFilesPresent(fileExists: Domain -> bool) {
    forall k :: 0 <= k < |Domains| ==> fileExists(Domains[k])
  }

  /** `Domains[k]` is the first domain whose input file is missing. */
  predicate FirstMissingFile(fileExists: Domain -> bool, k: int) {
    0 <= k < |Domains| && !fileExists(Domains[k]) && forall j :: 0 <= j < k ==> fileExists(Domains[j])
  }

  /** The outcome of one domain, with the loader calls it made. */
  datatype DatasetReport = DatasetReport(domain: Domain, outcome: DatasetOutcome, writes: seq<Write>)

  /** `main()`: the process exits with status 1, before any domain is loaded, on the first
      missing input file or when the client cannot be created; otherwise every domain is
      loaded in the order sales, financial, attendance, each whatever became of the ones
      before it, the final message is logged whatever their outcomes, and the process
      ends normally (status 0). */
  method RunPipeline(cfg: Config, fileExists: Domain -> bool, clientOk: bool,
                     chunks: Domain -> seq<Frame>, accepts: Domain -> (nat, Write) -> bool)
    returns (exit: int, reports: seq<DatasetReport>, log: seq<LogLine>)
    ensures exit == 0 || exit == 1
    ensures exit == 0 <==> AllFilesPresent(fileExists) && clientOk
    ensures exit == 1 ==> reports == []
    ensures !AllFilesPresent(fileExists) ==>
      exists k :: FirstMissingFile(fileExists, k) && log == [FileNotFound(Domains[k])]
    ensures AllFilesPresent(fileExists) && !clientOk ==> log == [ClientInitFailed]
    ensures exit == 0 ==>
      && |reports| == |Domains|
      && (forall k :: 0 <= k < |Domains| ==> var r := reports[k];
            r.domain == Domains[k] && ReportsRun(TransformFor(r.domain, cfg), chunks(r.domain), accepts(r.domain), r.outcome, r.writes))
      && log == [ClientInitialized]
                + DatasetLog(Sales, reports[0].outcome)
                + DatasetLog(Financial, reports[1].outcome)
                + DatasetLog(Attendance, reports[2].outcome)
                + [AllProcessed]
  {
    // check_file on each input, exiting at the first one missing
    var k := 0;
    while k < |Domains|
      invariant 0 <= k <= |Domains|
      invariant forall j :: 0 <= j < k ==> fileExists(Domains[j])
    {
      if !fileExists(Domains[k]) {
        assert FirstMissingFile(fileExists, k);
        return 1, [], [FileNotFound(Domains[k])];
      }
      k := k + 1;
    }
    if !clientOk {
      return 1, [], [ClientInitFailed];
    }
    log := [ClientInitialized];
    var o1, w1, l1 := LoadDataset(Sales, TransformFor(Sales, cfg), chunks(Sales), accepts(Sales));
    var o2, w2, l2 := LoadDataset(Financial, TransformFor(Financial, cfg), chunks(Financial), accepts(Financial));
    var o3, w3, l3 := LoadDataset(Attendance, TransformFor(Attendance, cfg), chunks(Attendance), accepts(Attendance));
    reports := [DatasetReport(Sales, o1, w1), DatasetReport(Financial, o2, w2), DatasetReport(Attendance, o3, w3)];
    log := log + l1 + l2 + l3 + [AllProcessed];
    exit := 0;
  }
}
