/**
 The control flow of dedupe_initialise and run_deduper: whether a saved model
 is loaded or a new one is sampled and trained, which files get written, and
 in which order the dedupe library is called. The library itself is opaque
 here: a deduper records the calls made on it, and the clusters it finds are
 a parameter.
 */
module Pipeline {

  /** A call made on the deduper, with the arguments that matter to the flow. */
  datatype Event =
    | LoadSettings(path: string)   // StaticDedupe built from a settings file
    | Sample(size: nat)
    | ReadTraining(path: string)
    | Train
    | WriteTraining(path: string)
    | WriteSettings(path: string)
    | Threshold(recallWeight: int)
    | Match

  /** The sample size dedupe_initialise uses when its caller gives none. */
  const DefaultSampleSize: nat := 15000

  /** The files that exist, as os.path.exists sees them. */
  class Disk {
    var files: set<string>

    constructor (files: set<string>)
      ensures this.files == files
    {
      this.files := files;
    }

    /** open(path, 'w'): the file exists afterwards. */
    method Create(path: string)
      modifies this
      ensures files == old(files) + {path}
    {
      files := files + {path};
    }
  }

  /** A Dedupe or StaticDedupe object, seen through the calls made on it. */
  class Deduper {
    const isStatic: bool
    var trace: seq<Event>

    constructor (isStatic: bool, trace: seq<Event>)
      ensures this.isStatic == isStatic && this.trace == trace
    {
      this.isStatic := isStatic;
      this.trace := trace;
    }

    method Call(e: Event)
      modifies this
      ensures trace == old(trace) + [e]
    {
      trace := trace + [e];
    }
  }

  /** The calls dedupe_initialise makes, given which of its two files exist. */
  function InitialiseTrace(settingsExists: bool, trainingExists: bool,
                           settingsFile: string, trainingFile: string, sampleSize: nat): seq<Event>
  {
    if settingsExists then [LoadSettings(settingsFile)]
    else [Sample(sampleSize)] + (if trainingExists then [ReadTraining(trainingFile)] else [])
  }

  /**
   dedupe_initialise loads the saved model exactly when the settings file
   exists; otherwise it samples, and reads the training file, after sampling,
   exactly when that file exists. It never trains or writes.
   */
  lemma InitialiseTraceShape(settingsExists: bool, trainingExists: bool,
                             settingsFile: string, trainingFile: string, sampleSize: nat)
    ensures var t := InitialiseTrace(settingsExists, trainingExists, settingsFile, trainingFile, sampleSize);
      && (LoadSettings(settingsFile) in t <==> settingsExists)
      && (Sample(sampleSize) in t <==> !settingsExists)
      && (ReadTraining(trainingFile) in t <==> !settingsExists && trainingExists)
      && (forall e :: e in t ==> e.LoadSettings? || e.Sample? || e.ReadTraining?)
      && (forall i, j :: 0 <= i < |t| && 0 <= j < |t| && t[i].Sample? && t[j].ReadTraining? ==> i < j)
  {
  }

  /** The calls run_deduper makes on a deduper that is or is not static. */
  function RunTrace(isStatic: bool, settingsFile: string, trainingFile: string): seq<Event>
  {
    (if isStatic then [] else [Train, WriteTraining(trainingFile), WriteSettings(settingsFile)])
      + [Threshold(1), Match]
  }

  /**
   run_deduper trains and writes both files exactly when the deduper is not
   static, and always ends by computing the threshold with recall weight 1 and
   matching.
   */
  lemma RunTraceShape(isStatic: bool, settingsFile: string, trainingFile: string)
    ensures var t := RunTrace(isStatic, settingsFile, trainingFile);
      && (Train in t <==> !isStatic)
      && (WriteTraining(trainingFile) in t <==> !isStatic)
      && (WriteSettings(settingsFile) in t <==> !isStatic)
      && |t| >= 2 && t[|t| - 2..] == [Threshold(1), Match]
      && (forall w :: Threshold(w) in t ==> w == 1)
      && (forall i :: 0 <= i < |t| - 2 ==> !t[i].Threshold? && !t[i].Match?)
  {
    var t := RunTrace(isStatic, settingsFile, trainingFile);
    if isStatic {
      assert t == [Threshold(1), Match];
    } else {
      assert t == [Train, WriteTraining(trainingFile), WriteSettings(settingsFile), Threshold(1), Match];
      assert t[0] == Train && t[1] == WriteTraining(trainingFile) && t[2] == WriteSettings(settingsFile);
    }
  }

  /** The files after run_deduper: a trained model writes both of its files. */
  function FilesAfterRun(isStatic: bool, files: set<string>, settingsFile: string, trainingFile: string): (f: set<string>)
    ensures files <= f
    ensures isStatic ==> f == files
    ensures !isStatic ==> settingsFile in f && trainingFile in f && f - files <= {settingsFile, trainingFile}
  {
    if isStatic then files else files + {trainingFile, settingsFile}
  }

  /**
   dedupe_initialise: load the saved model when the settings file exists and
   stop there; otherwise create a model, sample the data and, when the
   training file exists, read the labelled examples from it. The sample size
   defaults to DefaultSampleSize.
   */
  method Initialise(disk: Disk, settingsFile: string, trainingFile: string, sampleSize: nat := DefaultSampleSize)
    returns (d: Deduper)
    ensures fresh(d)
    ensures d.isStatic <==> settingsFile in disk.files
    ensures d.trace == InitialiseTrace(settingsFile in disk.files, trainingFile in disk.files,
                                       settingsFile, trainingFile, sampleSize)
  {
    if settingsFile in disk.files {
      d := new Deduper(true, [LoadSettings(settingsFile)]);
      return;
    }
    d := new Deduper(false, []);
    d.Call(Sample(sampleSize));
    if trainingFile in disk.files {
      d.Call(ReadTraining(trainingFile));
    }
  }

  /**
   run_deduper: a deduper that is not static is trained and writes the
   training file and then the settings file; every deduper then computes its
   threshold with recall weight 1, whatever recallWeight says, and matches.
   `found` stands for what the library's match returns.
   */
  method RunDeduper<R>(d: Deduper, disk: Disk, settingsFile: string, trainingFile: string,
                       recallWeight: int := 1, found: R) returns (d': Deduper, matches: R)
    modifies d, disk
    ensures d' == d && matches == found
    ensures d.trace == old(d.trace) + RunTrace(d.isStatic, settingsFile, trainingFile)
    ensures disk.files == FilesAfterRun(d.isStatic, old(disk.files), settingsFile, trainingFile)
  {
    if !d.isStatic {
      d.Call(Train);
      disk.Create(trainingFile);
      d.Call(WriteTraining(trainingFile));
      disk.Create(settingsFile);
      d.Call(WriteSettings(settingsFile));
    }
    d.Call(Threshold(1));
    d.Call(Match);
    d', matches := d, found;
  }

  /**
   A session trains a model exactly when no settings file was saved, and the
   library's threshold is always asked for with recall weight 1.
   */
  lemma SessionTrains(settingsExists: bool, trainingExists: bool,
                      settingsFile: string, trainingFile: string, sampleSize: nat)
    ensures var t := InitialiseTrace(settingsExists, trainingExists, settingsFile, trainingFile, sampleSize)
                     + RunTrace(settingsExists, settingsFile, trainingFile);
      && (Train in t <==> !settingsExists)
      && (Sample(sampleSize) in t <==> !settingsExists)
      && (forall w :: Threshold(w) in t ==> w == 1)
  {
    InitialiseTraceShape(settingsExists, trainingExists, settingsFile, trainingFile, sampleSize);
    RunTraceShape(settingsExists, settingsFile, trainingFile);
    var init := InitialiseTrace(settingsExists, trainingExists, settingsFile, trainingFile, sampleSize);
    var run := RunTrace(settingsExists, settingsFile, trainingFile);
    assert Train !in init;
    assert forall w :: Threshold(w) !in init;
    assert Sample(sampleSize) !in run;
  }

  /**
   After a session that trained a model, the next dedupe_initialise finds the
   settings file, loads the saved model and neither samples nor reads training.
   */
  lemma TrainedModelReloaded(files: set<string>, settingsFile: string, trainingFile: string, sampleSize: nat)
    ensures var after := FilesAfterRun(false, files, settingsFile, trainingFile);
      InitialiseTrace(settingsFile in after, trainingFile in after, settingsFile, trainingFile, sampleSize)
        == [LoadSettings(settingsFile)]
  {
  }
}
