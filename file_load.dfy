/** The file-based metric source: its stats directory is configured by a
    list of options applied in order. What the file system says about a
    path and what the JSON decoder makes of its input are parameters. */
module FileLoad {
  import opened Wrappers
  import opened Autoscale

  const DefaultStatsDir := "/tmp"

  /** What stat reports about a path. */
  datatype PathStat = Missing(reason: string) | NotDirectory | Directory

  /** The "stats_dir" member of a decoded JSON object. */
  datatype JsonField = Absent | StringValue(text: string) | OtherValue

  /** What decoding the raw JSON gives. */
  datatype JsonInput = Unparseable | Parsed(statsDir: JsonField)

  datatype FileLoadOption =
    | FileLoadPath(dir: string, stat: PathStat)
    | FileLoadFromJSON(input: JsonInput)

  function Quote(s: string): string {
    "\"" + s + "\""
  }

  /** The stats directory after one option, or the option's error. */
  function Apply(opt: FileLoadOption, statsDir: string): (r: Result<string, Error>)
    ensures r.Failure? <==> opt.FileLoadPath? && !opt.stat.Directory?
    ensures opt.FileLoadPath? && opt.stat.Directory? ==> r == Success(opt.dir)
    ensures opt.FileLoadFromJSON? && opt.input.Unparseable? ==> r == Success(DefaultStatsDir)
    ensures opt.FileLoadFromJSON? && opt.input.Parsed? ==>
              r == Success(if opt.input.statsDir.StringValue? then opt.input.statsDir.text else statsDir)
  {
    match opt
    case FileLoadPath(dir, stat) =>
      (match stat
       case Missing(reason) => Failure(Failed("unable to stat " + Quote(dir) + ": " + reason))
       case NotDirectory => Failure(Failed(Quote(dir) + " is not a directory"))
       case Directory => Success(dir))
    case FileLoadFromJSON(input) =>
      (match input
       case Unparseable => Success(DefaultStatsDir)
       case Parsed(field) => if field.StringValue? then Success(field.text) else Success(statsDir))
  }

  /** The options applied in order from `statsDir`; the first error stops. */
  function ApplyAll(opts: seq<FileLoadOption>, statsDir: string): Result<string, Error>
  {
    if |opts| == 0 then Success(statsDir)
    else
      match ApplyAll(opts[..|opts| - 1], statsDir)
      case Failure(e) => Failure(e)
      case Success(dir) => Apply(opts[|opts| - 1], dir)
  }

  /** What construction gives: the options from an empty directory, and
      the default when the directory is still empty. */
  function Configured(opts: seq<FileLoadOption>): Result<string, Error>
  {
    match ApplyAll(opts, "")
    case Failure(e) => Failure(e)
    case Success(dir) => Success(if dir == "" then DefaultStatsDir else dir)
  }

  lemma ApplyAllSnoc(opts: seq<FileLoadOption>, opt: FileLoadOption, statsDir: string)
    ensures ApplyAll(opts + [opt], statsDir) ==
              match ApplyAll(opts, statsDir)
              case Failure(e) => Failure(e)
              case Success(dir) => Apply(opt, dir)
  {
    assert (opts + [opt])[..|opts|] == opts;
  }

  /** Once an option has failed, later options change nothing. */
  lemma {:induction false} FailureStops(opts: seq<FileLoadOption>, more: seq<FileLoadOption>, statsDir: string)
    requires ApplyAll(opts, statsDir).Failure?
    ensures ApplyAll(opts + more, statsDir) == ApplyAll(opts, statsDir)
  {
    if |more| > 0 {
      var init, last := more[..|more| - 1], more[|more| - 1];
      FailureStops(opts, init, statsDir);
      assert opts + more == (opts + init) + [last];
      ApplyAllSnoc(opts + init, last, statsDir);
    } else {
      assert opts + more == opts;
    }
  }

  /** With no options the directory is the default one. */
  lemma NoOptionsGiveDefault()
    ensures Configured([]) == Success(DefaultStatsDir)
  {
  }

  /** A constructed file load never has an empty stats directory. */
  lemma ConfiguredNeverEmpty(opts: seq<FileLoadOption>)
    ensures Configured(opts).Success? ==> Configured(opts).value != ""
  {
  }

  /** JSON options never fail, so a list of them always constructs. */
  lemma {:induction false} JsonOptionsNeverFail(opts: seq<FileLoadOption>, statsDir: string)
    requires forall i :: 0 <= i < |opts| ==> opts[i].FileLoadFromJSON?
    ensures ApplyAll(opts, statsDir).Success?
  {
    if |opts| > 0 {
      JsonOptionsNeverFail(opts[..|opts| - 1], statsDir);
    }
  }

  /** A later directory option overrides whatever came before it. */
  lemma LaterPathOverrides(opts: seq<FileLoadOption>, dir: string)
    requires Configured(opts).Success? && dir != ""
    ensures Configured(opts + [FileLoadPath(dir, Directory)]) == Success(dir)
  {
    ApplyAllSnoc(opts, FileLoadPath(dir, Directory), "");
  }

  /** A failing option makes construction fail with its error, whatever follows. */
  lemma FirstErrorAborts(opts: seq<FileLoadOption>, i: nat)
    requires i < |opts| && ApplyAll(opts[..i], "").Success?
    requires Apply(opts[i], ApplyAll(opts[..i], "").value).Failure?
    ensures Configured(opts) == Failure(Apply(opts[i], ApplyAll(opts[..i], "").value).error)
  {
    ApplyAllSnoc(opts[..i], opts[i], "");
    assert opts[..i] + [opts[i]] == opts[..i + 1];
    FailureStops(opts[..i + 1], opts[i + 1..], "");
    assert opts[..i + 1] + opts[i + 1..] == opts;
  }

  class FileLoad {
    var statsDir: string

    constructor ()
      ensures statsDir == ""
    {
      statsDir := "";
    }

    /** Runs one option against this file load. */
    method ApplyOption(opt: FileLoadOption) returns (err: Option<Error>)
      modifies this
      ensures Apply(opt, old(statsDir)).Success? ==> err == None && statsDir == Apply(opt, old(statsDir)).value
      ensures Apply(opt, old(statsDir)).Failure? ==> err == Some(Apply(opt, old(statsDir)).error) && statsDir == old(statsDir)
    {
      match opt
      case FileLoadPath(dir, stat) =>
        if stat.Missing? {
          return Some(Failed("unable to stat " + Quote(dir) + ": " + stat.reason));
        }
        if !stat.Directory? {
          return Some(Failed(Quote(dir) + " is not a directory"));
        }
        statsDir := dir;
        return None;
      case FileLoadFromJSON(input) =>
        if input.Unparseable? {
          statsDir := DefaultStatsDir;
        } else if input.statsDir.StringValue? {
          statsDir := input.statsDir.text;
        }
        return None;
    }

    /** The metric configuration this source reports. */
    function Config(): (c: map<string, string>)
      reads this
      ensures c.Keys == {"statsDir"} && c["statsDir"] == statsDir
    {
      map["statsDir" := statsDir]
    }

    /** Nothing to update: the values are fixed. */
    method Update(groupName: string, allocations: seq<string>) returns (err: Option<Error>)
      ensures err == None
    {
      err := None;
    }

    /** Nothing to remove: the values are fixed. */
    method Remove(groupID: string) returns (err: Option<Error>)
      ensures err == None
    {
      err := None;
    }
  }

  /** Builds a file load from its options: no instance when one fails. */
  method NewFileLoad(opts: seq<FileLoadOption>) returns (fl: FileLoad?, err: Option<Error>)
    ensures Configured(opts).Failure? ==> fl == null && err == Some(Configured(opts).error)
    ensures Configured(opts).Success? ==> err == None && fl != null && fresh(fl) && fl.statsDir == Configured(opts).value
  {
    var f := new FileLoad();
    var i := 0;
    while i < |opts|
      invariant 0 <= i <= |opts|
      invariant ApplyAll(opts[..i], "") == Success(f.statsDir)
    {
      ApplyAllSnoc(opts[..i], opts[i], "");
      assert opts[..i] + [opts[i]] == opts[..i + 1];
      var e := f.ApplyOption(opts[i]);
      if e.Some? {
        FirstErrorAborts(opts, i);
        return null, e;
      }
      i := i + 1;
    }
    assert opts[..i] == opts;
    if f.statsDir == "" {
      f.statsDir := DefaultStatsDir;
    }
    return f, None;
  }
}
