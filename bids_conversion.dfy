/**
 * DICOM-to-BIDS conversion job generation (clpipe's `convert2bids`). The
 * settings come from the command line, falling back to the project
 * configuration. The DICOM folders are found by globbing the folder format
 * string, parsed back into subject and session, filtered, and turned into
 * one dcm2bids or heudiconv command per folder.
 *
 * `glob`, `parse.parse`, the status cache and the working directory are
 * inputs (a `Host`). The result is the list of jobs, each an id and a
 * command, that the converters hand to the batch manager.
 */
module BidsConversion {
  import opened Wrappers
  import opened Strings
  import opened Paths
  import opened PyFormat
  import opened Comprehensions

  /** The named fields `parse` extracts from a path. */
  type Record = map<string, string>

  /** What the code consults outside itself. */
  datatype Host = Host(
    cwd: string,
    glob: string -> seq<string>,
    parse: (string, string) -> Option<Record>,            // `parse.parse(pattern, text)`; `None` when it does not match
    needsProcessing: (seq<string>, string) -> seq<string>) // the subjects the status cache still lists as to do

  datatype ConvertError =
    | NotSpecified(setting: string)      // logged, then `sys.exit(1)`
    | NoConversionConfig                 // dcm2bids without a conversion config: `sys.exit(1)`
    | NoHeuristic                        // heudiconv without a heuristic file: `sys.exit(1)`
    | NoFoldersFound                     // no subject/session folder selected: `sys.exit(1)`
    | NotParsed(path: string)            // a `None` parse result subscripted: `TypeError`
    | NoField(key: string)               // a parse result without that field: `KeyError`
    | BadGlobPattern(cause: FormatError) // the heudiconv glob pattern does not format
    | BatchManagerCall                   // `BatchManager(..., debug=...)`: `TypeError`
    | JobCall                            // `Job(job_id, command)` with two arguments: `TypeError`

  /** One job for the batch manager. */
  datatype ConvJob = ConvJob(jobId: string, command: string)

  /** Python truthiness of an optional string: given and non-empty. */
  predicate Given(o: Option<string>) {
    o.Some? && o.value != []
  }

  // ---------------------------------------------------------------------
  // dcm2bids: finding and selecting the folders

  /** The arguments of `dcm2bids_wrapper` the model uses. */
  datatype Dcm2BidsCall = Dcm2BidsCall(
    dicomDir: string,
    bidsDir: string,
    convConfig: string,
    dicomDirFormat: string,
    subject: Option<string>,
    session: Option<string>,
    longitudinal: bool,
    overwrite: bool,
    statusCache: Option<string>)

  /** `format_str`: the folder format string with both placeholders turned into `*`. */
  function GlobFormat(fmt: string): (r: string)
    ensures !Contains(r, "{subject}") && !Contains(r, "{session}")
  {
    var s := ReplaceAll(fmt, "{subject}", "*");
    ReplaceRemoves(fmt, "{subject}", "*");
    ReplaceKeepsAbsent(s, "{session}", "*", "{subject}");
    ReplaceRemoves(s, "{session}", "*");
    ReplaceAll(s, "{session}", "*")
  }

  /** A format string without placeholders is globbed as it is. */
  lemma GlobFormatPlain(fmt: string)
    requires !Contains(fmt, "{subject}") && !Contains(fmt, "{session}")
    ensures GlobFormat(fmt) == fmt
  {
    ReplaceAbsent(fmt, "{subject}", "*");
    ReplaceAbsent(fmt, "{session}", "*");
  }

  /** A folder found by `glob` and what `parse` read from it. */
  datatype Found = Found(folder: string, parsed: Option<Record>)

  /** `x[key]` on a parse result. */
  function Field(f: Found, key: string): (r: Result<string, ConvertError>)
    ensures r.Ok? <==> f.parsed.Some? && key in f.parsed.value
    ensures r.Ok? ==> r.value == f.parsed.value[key]
  {
    if f.parsed.None? then Err(NotParsed(f.folder))
    else if key !in f.parsed.value then Err(NoField(key))
    else Ok(f.parsed.value[key])
  }

  /** `[x[key] for x in fs]`: the first record that lacks the field raises. */
  function Fields(fs: seq<Found>, key: string): (r: Result<seq<string>, ConvertError>)
    ensures r.Ok? <==> forall i :: 0 <= i < |fs| ==> Field(fs[i], key).Ok?
    ensures r.Ok? ==> |r.value| == |fs| && forall i :: 0 <= i < |fs| ==> r.value[i] == Field(fs[i], key).value
    ensures r.Err? ==> exists i :: (0 <= i < |fs| && Field(fs[i], key).Err? && r.error == Field(fs[i], key).error
      && forall j :: 0 <= j < i ==> Field(fs[j], key).Ok?)
  {
    var rs := seq(|fs|, i requires 0 <= i < |fs| => Field(fs[i], key));
    assert forall i :: 0 <= i < |fs| ==> rs[i] == Field(fs[i], key);
    var r := Collect(rs);
    if r.Ok? then CollectValues(rs); r
    else CollectFirstError(rs); r
  }

  /** The subject and the session filters, each applied when given. */
  predicate Matches(f: Found, subject: Option<string>, session: Option<string>) {
    && (subject.None? || Field(f, "subject") == Ok(subject.value))
    && (session.None? || Field(f, "session") == Ok(session.value))
  }

  /** Which records pass one filter; with no filter, all of them. */
  function Passing(fs: seq<Found>, key: string, want: Option<string>): (r: Result<seq<bool>, ConvertError>)
    ensures r.Err? <==> want.Some? && Fields(fs, key).Err?
    ensures r.Err? ==> r.error == Fields(fs, key).error
    ensures r.Ok? ==> |r.value| == |fs|
    ensures r.Ok? ==> forall i :: 0 <= i < |fs| ==> r.value[i] == (want.None? || Field(fs[i], key) == Ok(want.value))
  {
    if want.None? then Ok(seq(|fs|, i => true))
    else
      var values :- Fields(fs, key);
      Ok(seq(|fs|, i requires 0 <= i < |fs| => values[i] == want.value))
  }

  /**
   * The indices of the records that pass both filters (the intersection of
   * `sub_inds` and `sess_inds`), in ascending order. A filter that reads a
   * record without its field raises first, the subject filter before the
   * session filter.
   */
  function Selection(fs: seq<Found>, subject: Option<string>, session: Option<string>): (r: Result<seq<nat>, ConvertError>)
    ensures r.Err? <==> (subject.Some? && Fields(fs, "subject").Err?) || (session.Some? && Fields(fs, "session").Err?)
    ensures subject.Some? && Fields(fs, "subject").Err? ==> r == Err(Fields(fs, "subject").error)
    ensures r.Ok? ==> forall k :: 0 <= k < |r.value| ==> r.value[k] < |fs|
    ensures r.Ok? ==> forall j, k :: 0 <= j < k < |r.value| ==> r.value[j] < r.value[k]
    ensures r.Ok? ==> forall i :: 0 <= i < |fs| ==> (i in r.value <==> Matches(fs[i], subject, session))
  {
    var bySubject :- Passing(fs, "subject", subject);
    var bySession :- Passing(fs, "session", session);
    var both := seq(|fs|, i requires 0 <= i < |fs| => bySubject[i] && bySession[i]);
    var sel := IndicesWhere(both, b => b);
    assert forall i :: 0 <= i < |fs| ==> (i in sel <==> Matches(fs[i], subject, session)) by {
      forall i | 0 <= i < |fs|
        ensures i in sel <==> Matches(fs[i], subject, session)
      {
        if both[i] {
          IndicesWhereComplete(both, b => b, i);
        }
      }
    }
    Ok(sel)
  }

  /**
   * The selected folders, in order (`folders` and `sub_sess_list` narrowed
   * together). An empty selection ends the program.
   */
  function Chosen(fs: seq<Found>, subject: Option<string>, session: Option<string>): (r: Result<seq<Found>, ConvertError>)
    ensures Selection(fs, subject, session).Err? ==> r == Err(Selection(fs, subject, session).error)
    ensures Selection(fs, subject, session) == Ok([]) ==> r == Err(NoFoldersFound)
    ensures r.Ok? ==> r.value != []
    ensures r.Ok? ==> forall f :: f in r.value ==> f in fs && Matches(f, subject, session)
    ensures r.Ok? ==> forall i :: 0 <= i < |fs| && Matches(fs[i], subject, session) ==> fs[i] in r.value
  {
    var sel :- Selection(fs, subject, session);
    if sel == [] then Err(NoFoldersFound)
    else
      var chosen := seq(|sel|, k requires 0 <= k < |sel| => fs[sel[k]]);
      assert forall i :: 0 <= i < |fs| && Matches(fs[i], subject, session) ==> fs[i] in chosen by {
        forall i | 0 <= i < |fs| && Matches(fs[i], subject, session)
          ensures fs[i] in chosen
        {
          var k :| 0 <= k < |sel| && sel[k] == i;
          assert chosen[k] == fs[i];
        }
      }
      Ok(chosen)
  }

  /** The folders `glob` finds for the format string, each with what `parse` reads from it. */
  function FoundFolders(host: Host, dicomDir: string, fmt: string): (r: seq<Found>)
    ensures |r| == |host.glob(PathJoin(dicomDir, GlobFormat(fmt) + "/"))|
    ensures forall i :: 0 <= i < |r| ==>
      var folder := host.glob(PathJoin(dicomDir, GlobFormat(fmt) + "/"))[i];
      r[i] == Found(folder, host.parse(PathJoin(dicomDir, fmt + "/"), folder))
  {
    var pstring := PathJoin(dicomDir, fmt + "/");
    var folders := host.glob(PathJoin(dicomDir, GlobFormat(fmt) + "/"));
    seq(|folders|, i requires 0 <= i < |folders| => Found(folders[i], host.parse(pstring, folders[i])))
  }

  // ---------------------------------------------------------------------
  // dcm2bids: the command line

  /** `BASE_CMD`: the dicom directory, the output directory, the subject and the conversion config. */
  const BaseCmd: string :=
    WithHole("dcm2bids -d ", "dicom_dir", WithHole(" -o ", "bids_dir", WithHole(" -p ", "subject", WithHole(" -c ", "conv_config_file", ""))))

  /** The session option `conv_string` gains for a non-longitudinal session layout. */
  const SessionOption: string := WithHole(" -s ", "session", "")

  /** The options `conv_string` gains when overwriting. */
  const ClobberOption: string := " --clobber --forceDcm2niix"

  /** `conv_string` once built: `BASE_CMD`, then the session option, then the overwrite options, each when it applies. */
  function ConvTemplate(toggle: bool, longitudinal: bool, overwrite: bool): string {
    var withSession := if toggle && !longitudinal then BaseCmd + SessionOption else BaseCmd;
    if overwrite then withSession + ClobberOption else withSession
  }

  /** `conv_string`, extended one option at a time. */
  method ConvString(toggle: bool, longitudinal: bool, overwrite: bool) returns (s: string)
    ensures s == ConvTemplate(toggle, longitudinal, overwrite)
  {
    s := BaseCmd;
    if toggle && !longitudinal {
      s := s + SessionOption;
    }
    if overwrite {
      s := s + ClobberOption;
    }
  }

  /** `conv_args`: the folder, the conversion config, the output directory, the subject and, when set, the session. */
  function ConvArgs(folder: string, convConfig: string, bidsDir: string, subject: string, session: Option<string>): Env {
    var base := map["dicom_dir" := folder, "conv_config_file" := convConfig, "bids_dir" := bidsDir, "subject" := subject];
    if session.Some? then base["session" := session.value] else base
  }

  /** The dcm2bids command line, written out. */
  function Dcm2BidsCommand(folder: string, bidsDir: string, subject: string, convConfig: string,
                           session: Option<string>, overwrite: bool): string {
    var sessionText := if session.Some? then " -s " + session.value else "";
    var clobberText := if overwrite then " --clobber --forceDcm2niix" else "";
    ("dcm2bids -d " + folder) + ((" -o " + bidsDir) + ((" -p " + subject) + ((" -c " + convConfig) + (sessionText + clobberText))))
  }

  lemma ConvArgsLookup(folder: string, convConfig: string, bidsDir: string, subject: string, session: Option<string>)
    ensures var env := ConvArgs(folder, convConfig, bidsDir, subject, session);
      && "dicom_dir" in env && env["dicom_dir"] == folder
      && "bids_dir" in env && env["bids_dir"] == bidsDir
      && "subject" in env && env["subject"] == subject
      && "conv_config_file" in env && env["conv_config_file"] == convConfig
      && ("session" in env <==> session.Some?)
      && (session.Some? ==> env["session"] == session.value)
  {
  }

  /** `conv_string` is `BASE_CMD` followed by the options it gained. */
  lemma ConvTemplateTail(toggle: bool, longitudinal: bool, overwrite: bool)
    ensures ConvTemplate(toggle, longitudinal, overwrite)
      == BaseCmd + ((if toggle && !longitudinal then SessionOption else "") + (if overwrite then ClobberOption else ""))
  {
    var sessionPart := if toggle && !longitudinal then SessionOption else "";
    var clobberPart := if overwrite then ClobberOption else "";
    Assoc3(BaseCmd, sessionPart, clobberPart);
    assert BaseCmd + "" == BaseCmd;
    assert BaseCmd + sessionPart + "" == BaseCmd + sessionPart;
    assert sessionPart + "" == sessionPart;
  }

  lemma BaseCmdPieces()
    ensures BraceFree("dcm2bids -d ") && BraceFree(" -o ") && BraceFree(" -p ") && BraceFree(" -c ")
    ensures BraceFree("dicom_dir") && BraceFree("bids_dir") && BraceFree("subject") && BraceFree("conv_config_file")
  {
    assert BraceFree("dcm2bids -d ");
    assert BraceFree(" -o ");
    assert BraceFree(" -p ");
    assert BraceFree(" -c ");
    assert BraceFree("dicom_dir");
    assert BraceFree("bids_dir");
    assert BraceFree("subject");
    assert BraceFree("conv_config_file");
  }

  /** `BASE_CMD` followed by anything: the four holes filled in front of the rest's formatting. */
  lemma BaseCmdFills(env: Env, rest: string)
    requires "dicom_dir" in env && "bids_dir" in env && "subject" in env && "conv_config_file" in env
    ensures Format(BaseCmd + rest, env)
      == Concat(Ok("dcm2bids -d " + env["dicom_dir"]), Concat(Ok(" -o " + env["bids_dir"]),
           Concat(Ok(" -p " + env["subject"]), Concat(Ok(" -c " + env["conv_config_file"]), Format(rest, env)))))
  {
    BaseCmdPieces();
    FormatFourHoles("dcm2bids -d ", "dicom_dir", " -o ", "bids_dir", " -p ", "subject", " -c ", "conv_config_file", rest, env);
  }

  /** The options `conv_string` gained, formatted. */
  lemma OptionsFill(env: Env, withSession: bool, overwrite: bool)
    requires withSession ==> "session" in env
    ensures Format((if withSession then SessionOption else "") + (if overwrite then ClobberOption else ""), env)
      == Ok((if withSession then " -s " + env["session"] else "") + (if overwrite then " --clobber --forceDcm2niix" else ""))
  {
    var clobberPart := if overwrite then ClobberOption else "";
    FormatText(clobberPart, env);
    if withSession {
      WithHoleAppend(" -s ", "session", "", clobberPart);
      assert "" + clobberPart == clobberPart;
      FormatWithHole(" -s ", "session", clobberPart, env);
    } else {
      assert "" + clobberPart == clobberPart;
    }
  }

  /**
   * When the session is passed exactly when the template has its option,
   * formatting `conv_string` with `conv_args` succeeds and gives the command
   * line: the session option iff it is passed, the overwrite options iff
   * overwriting.
   */
  lemma ConvCommand(folder: string, bidsDir: string, subject: string, convConfig: string, session: Option<string>,
                    toggle: bool, longitudinal: bool, overwrite: bool)
    requires session.Some? <==> toggle && !longitudinal
    ensures Format(ConvTemplate(toggle, longitudinal, overwrite), ConvArgs(folder, convConfig, bidsDir, subject, session))
      == Ok(Dcm2BidsCommand(folder, bidsDir, subject, convConfig, session, overwrite))
  {
    var env := ConvArgs(folder, convConfig, bidsDir, subject, session);
    ConvArgsLookup(folder, convConfig, bidsDir, subject, session);
    ConvTemplateTail(toggle, longitudinal, overwrite);
    OptionsFill(env, toggle && !longitudinal, overwrite);
    BaseCmdFills(env, (if toggle && !longitudinal then SessionOption else "") + (if overwrite then ClobberOption else ""));
  }

  // ---------------------------------------------------------------------
  // dcm2bids: one job per selected folder

  /**
   * The job for one selected record. The job id names the subject and, with a
   * session layout, the folder's session. A longitudinal layout folds the
   * session into the subject argument; otherwise the session argument is the
   * `session` parameter (printed as "None" when there is none), not the
   * folder's own session.
   */
  function DcmJob(f: Found, c: Dcm2BidsCall, toggle: bool): (r: Result<ConvJob, ConvertError>)
    ensures r.Ok? <==> Field(f, "subject").Ok? && (toggle ==> Field(f, "session").Ok?)
    ensures Field(f, "subject").Err? ==> r == Err(Field(f, "subject").error)
    ensures Field(f, "subject").Ok? && toggle && Field(f, "session").Err? ==> r == Err(Field(f, "session").error)
  {
    var subject :- Field(f, "subject");
    var session :- if toggle then Field(f, "session") else Ok("");
    var subjectArg := if toggle && c.longitudinal then subject + "sess" + session else subject;
    var sessionArg := if toggle && !c.longitudinal then Some(OptStr(c.session)) else None;
    var jobId := if toggle then "convert_sub-" + subject + "_ses-" + session else "convert_sub-" + subject;
    Ok(ConvJob(jobId, Dcm2BidsCommand(f.folder, c.bidsDir, subjectArg, c.convConfig, sessionArg, c.overwrite)))
  }

  /** `DcmJob` for a record whose fields are known. */
  lemma DcmJobOk(f: Found, c: Dcm2BidsCall, toggle: bool, subject: string, session: string)
    requires Field(f, "subject") == Ok(subject) && (toggle ==> Field(f, "session") == Ok(session))
    ensures DcmJob(f, c, toggle) == Ok(ConvJob(
      if toggle then "convert_sub-" + subject + "_ses-" + session else "convert_sub-" + subject,
      Dcm2BidsCommand(f.folder, c.bidsDir, if toggle && c.longitudinal then subject + "sess" + session else subject,
                      c.convConfig, if toggle && !c.longitudinal then Some(OptStr(c.session)) else None, c.overwrite)))
  {
  }

  /** Appending to the subject argument is passing the longer subject. */
  lemma ConvArgsLongerSubject(folder: string, convConfig: string, bidsDir: string, subject: string, extra: string)
    ensures ConvArgs(folder, convConfig, bidsDir, subject, None)["subject" := subject + extra]
      == ConvArgs(folder, convConfig, bidsDir, subject + extra, None)
  {
  }

  /**
   * The loop body: `conv_args` and `job_id` built up, then `conv_string`
   * formatted, which gives the command line `DcmJob` writes out.
   */
  method MakeDcmJob(f: Found, c: Dcm2BidsCall, toggle: bool, conv: string) returns (r: Result<ConvJob, ConvertError>)
    requires conv == ConvTemplate(toggle, c.longitudinal, c.overwrite)
    ensures r == DcmJob(f, c, toggle)
  {
    var subject :- Field(f, "subject");
    var convArgs := ConvArgs(f.folder, c.convConfig, c.bidsDir, subject, None);
    var jobId := "convert_sub-" + subject;
    if !toggle {
      ConvCommand(f.folder, c.bidsDir, subject, c.convConfig, None, toggle, c.longitudinal, c.overwrite);
      DcmJobOk(f, c, toggle, subject, "");
    } else {
      var session :- Field(f, "session");
      jobId := jobId + "_ses-" + session;
      if c.longitudinal {
        ConvArgsLongerSubject(f.folder, c.convConfig, c.bidsDir, subject, "sess" + session);
        convArgs := convArgs["subject" := subject + ("sess" + session)];
        Assoc3(subject, "sess", session);
        ConvCommand(f.folder, c.bidsDir, subject + "sess" + session, c.convConfig, None, toggle, c.longitudinal, c.overwrite);
      } else {
        convArgs := convArgs["session" := OptStr(c.session)];
        ConvCommand(f.folder, c.bidsDir, subject, c.convConfig, Some(OptStr(c.session)), toggle, c.longitudinal, c.overwrite);
      }
      DcmJobOk(f, c, toggle, subject, session);
    }
    var submission := Format(conv, convArgs);
    r := Ok(ConvJob(jobId, submission.value));
  }

  /** A record whose subject still needs processing gets its job added. */
  function NeedsJob(needs: seq<string>): Found -> bool {
    f => Field(f, "subject").Ok? && Field(f, "subject").value in needs
  }

  /**
   * The jobs for the selected records, in order: every record's job is made,
   * and the first record whose job cannot be made stops the loop; the jobs of
   * the records whose subject needs processing are the ones added.
   */
  function DcmJobs(fs: seq<Found>, c: Dcm2BidsCall, toggle: bool, needs: seq<string>): (r: Result<seq<ConvJob>, ConvertError>)
    ensures r.Ok? <==> forall i :: 0 <= i < |fs| ==> DcmJob(fs[i], c, toggle).Ok?
    decreases |fs|
  {
    if fs == [] then Ok([])
    else
      var n := |fs| - 1;
      assert forall i :: 0 <= i < n ==> fs[..n][i] == fs[i];
      var prev :- DcmJobs(fs[..n], c, toggle, needs);
      var job :- DcmJob(fs[n], c, toggle);
      Ok(if NeedsJob(needs)(fs[n]) then prev + [job] else prev)
  }

  /** The jobs made are those of the records whose subject needs processing, in order. */
  lemma {:induction false} DcmJobsKept(fs: seq<Found>, c: Dcm2BidsCall, toggle: bool, needs: seq<string>)
    requires DcmJobs(fs, c, toggle, needs).Ok?
    ensures var r, kept := DcmJobs(fs, c, toggle, needs).value, IndicesWhere(fs, NeedsJob(needs));
      && |r| == |kept|
      && forall k :: 0 <= k < |kept| ==> r[k] == DcmJob(fs[kept[k]], c, toggle).value
    decreases |fs|
  {
    if fs != [] {
      var n := |fs| - 1;
      assert forall i :: 0 <= i < n ==> fs[..n][i] == fs[i];
      DcmJobsKept(fs[..n], c, toggle, needs);
    }
  }

  /** Once a prefix of the records fails, the records after it change nothing. */
  lemma {:induction false} DcmJobsStopped(fs: seq<Found>, c: Dcm2BidsCall, toggle: bool, needs: seq<string>, i: nat)
    requires i <= |fs| && DcmJobs(fs[..i], c, toggle, needs).Err?
    ensures DcmJobs(fs, c, toggle, needs) == DcmJobs(fs[..i], c, toggle, needs)
    decreases |fs| - i
  {
    if i < |fs| {
      assert fs[..i + 1][..i] == fs[..i];
      DcmJobsStopped(fs, c, toggle, needs, i + 1);
    } else {
      assert fs[..i] == fs;
    }
  }

  /** The first record whose job cannot be made decides the error. */
  lemma DcmJobsFails(fs: seq<Found>, c: Dcm2BidsCall, toggle: bool, needs: seq<string>, i: nat)
    requires i < |fs| && DcmJobs(fs[..i], c, toggle, needs).Ok? && DcmJob(fs[i], c, toggle).Err?
    ensures DcmJobs(fs, c, toggle, needs) == Err(DcmJob(fs[i], c, toggle).error)
  {
    assert fs[..i + 1][..i] == fs[..i];
    DcmJobsStopped(fs, c, toggle, needs, i + 1);
  }

  /** One more record: its job is made, and added when its subject needs processing. */
  lemma DcmJobsSnoc(fs: seq<Found>, c: Dcm2BidsCall, toggle: bool, needs: seq<string>, i: nat)
    requires i < |fs| && DcmJobs(fs[..i], c, toggle, needs).Ok? && DcmJob(fs[i], c, toggle).Ok?
    ensures DcmJobs(fs[..i + 1], c, toggle, needs) == Ok(
      var prev := DcmJobs(fs[..i], c, toggle, needs).value;
      if NeedsJob(needs)(fs[i]) then prev + [DcmJob(fs[i], c, toggle).value] else prev)
  {
    assert fs[..i + 1][..i] == fs[..i];
  }

  /** Without a status cache every selected record gets its job, in order. */
  lemma DcmJobsAll(fs: seq<Found>, c: Dcm2BidsCall, toggle: bool)
    requires Fields(fs, "subject").Ok? && DcmJobs(fs, c, toggle, Fields(fs, "subject").value).Ok?
    ensures var r := DcmJobs(fs, c, toggle, Fields(fs, "subject").value);
      r.Ok? ==> |r.value| == |fs| && forall i :: 0 <= i < |fs| ==> r.value[i] == DcmJob(fs[i], c, toggle).value
  {
    var subjects := Fields(fs, "subject").value;
    var kept := IndicesWhere(fs, NeedsJob(subjects));
    forall i | 0 <= i < |fs|
      ensures NeedsJob(subjects)(fs[i])
    {
      assert subjects[i] == Field(fs[i], "subject").value;
    }
    IndicesWhereAll(fs, NeedsJob(subjects));
    DcmJobsKept(fs, c, toggle, subjects);
  }

  /**
   * `dcm2bids_wrapper` up to the point where the jobs go to the batch manager:
   * the folders found and selected, the subjects read, the cache consulted
   * when one is given, and the jobs made.
   */
  function Dcm2BidsSpec(host: Host, c: Dcm2BidsCall): (r: Result<seq<ConvJob>, ConvertError>)
  {
    var fs := FoundFolders(host, c.dicomDir, c.dicomDirFormat);
    var chosen :- Chosen(fs, c.subject, c.session);
    var subjects :- Fields(chosen, "subject");
    var needs := if Given(c.statusCache) then host.needsProcessing(subjects, c.statusCache.value) else subjects;
    DcmJobs(chosen, c, Contains(c.dicomDirFormat, "{session}"), needs)
  }

  /** The job loop of `dcm2bids_wrapper`: one job per record, added when its subject needs processing. */
  method AddDcmJobs(chosen: seq<Found>, c: Dcm2BidsCall, toggle: bool, needs: seq<string>, conv: string)
    returns (r: Result<seq<ConvJob>, ConvertError>)
    requires conv == ConvTemplate(toggle, c.longitudinal, c.overwrite)
    ensures r == DcmJobs(chosen, c, toggle, needs)
  {
    var jobs := [];
    for i := 0 to |chosen|
      invariant DcmJobs(chosen[..i], c, toggle, needs) == Ok(jobs)
    {
      var job := MakeDcmJob(chosen[i], c, toggle, conv);
      if job.Err? {
        DcmJobsFails(chosen, c, toggle, needs, i);
        return Err(job.error);
      }
      DcmJobsSnoc(chosen, c, toggle, needs, i);
      if Field(chosen[i], "subject").value in needs {
        jobs := jobs + [job.value];
      }
    }
    assert chosen[..|chosen|] == chosen;
    r := Ok(jobs);
  }

  /** `dcm2bids_wrapper`: the folders selected, the command template built once, then the job loop. */
  method Dcm2BidsWrapper(host: Host, c: Dcm2BidsCall) returns (r: Result<seq<ConvJob>, ConvertError>)
    ensures r == Dcm2BidsSpec(host, c)
  {
    var toggle := Contains(c.dicomDirFormat, "{session}");
    var fs := FoundFolders(host, c.dicomDir, c.dicomDirFormat);
    var chosen :- Chosen(fs, c.subject, c.session);
    var conv := ConvString(toggle, c.longitudinal, c.overwrite);
    var subjects :- Fields(chosen, "subject");
    var needs := subjects;
    if Given(c.statusCache) {
      needs := host.needsProcessing(subjects, c.statusCache.value);
    }
    r := AddDcmJobs(chosen, c, toggle, needs, conv);
  }

  // ---------------------------------------------------------------------
  // heudiconv: the records

  /** The arguments of `heudiconv_wrapper` the model uses. */
  datatype HeudiconvCall = HeudiconvCall(
    dicomDirectory: string,
    outputDirectory: string,
    heuristicFile: string,
    dicomDirFormat: string,
    subjects: Option<string>,   // the `-subjects` option: one string, so `in` tests for a substring
    overwrite: bool)

  // The parse string: every slash-star, then every remaining star, removed (two `str.replace` calls).
  function StripStars(s: string): (r: string)
    ensures !Contains(r, "*")
    ensures '*' !in s ==> r == s
  {
    var t := ReplaceAll(s, "/*", "");
    ReplaceRemoves(t, "*", "");
    assert '*' !in s ==> ReplaceAll(t, "*", "") == s by {
      if '*' !in s {
        MissingCharNotContains(s, "/*", '*');
        ReplaceAbsent(s, "/*", "");
        MissingCharNotContains(s, "*", '*');
        ReplaceAbsent(s, "*", "");
      }
    }
    ReplaceAll(t, "*", "")
  }

  /** The arguments the parse string is formatted with to give the glob pattern: each placeholder a wildcard. */
  function WildcardArgs(toggle: bool): Env {
    if toggle then map["subject" := "*", "session" := "*"] else map["subject" := "*"]
  }

  lemma WildcardArgsLookup(toggle: bool, name: string)
    ensures var env := WildcardArgs(toggle);
      && "subject" in env && env["subject"] == "*"
      && ("session" in env <==> toggle)
      && (toggle ==> env["session"] == "*")
      && (name != "subject" && name != "session" ==> name !in env)
  {
  }

  /**
   * The glob pattern: the parse string formatted with wildcards for the
   * subject and, when the folder format names a session, for the session.
   * Any other placeholder, or a stray brace, makes the formatting raise.
   */
  function HeudiconvGlob(fmt: string): (r: Result<string, ConvertError>)
  {
    match Format(StripStars(fmt), WildcardArgs(Contains(fmt, "{session}")))
    case Ok(p) => Ok(p)
    case Err(e) => Err(BadGlobPattern(e))
  }

  /** A format string `<pre>{subject}<post>` globs for `<pre>*<post>`. */
  lemma HeudiconvGlobSubject(pre: string, post: string)
    requires BraceFree(pre) && BraceFree(post) && '*' !in pre && '*' !in post
    ensures HeudiconvGlob(WithHole(pre, "subject", post)) == Ok(pre + "*" + post)
  {
    var fmt := WithHole(pre, "subject", post);
    var env := WildcardArgs(Contains(fmt, "{session}"));
    WildcardArgsLookup(Contains(fmt, "{session}"), "subject");
    assert '*' !in fmt;
    FormatWithHole(pre, "subject", post, env);
    FormatText(post, env);
  }

  /** A format string `<pre>{subject}<mid>{session}<post>` globs for `<pre>*<mid>*<post>`. */
  lemma HeudiconvGlobSession(pre: string, mid: string, post: string)
    requires BraceFree(pre) && BraceFree(mid) && BraceFree(post)
    requires '*' !in pre && '*' !in mid && '*' !in post
    ensures HeudiconvGlob(WithHole(pre, "subject", WithHole(mid, "session", post))) == Ok(pre + "*" + (mid + "*" + post))
  {
    var rest := WithHole(mid, "session", post);
    var fmt := WithHole(pre, "subject", rest);
    var at := |pre| + |"{subject}"| + |mid|;
    assert fmt[at..at + |"{session}"|] == "{session}";
    assert OccursAt(fmt, "{session}", at);
    ContainsIffOccurs(fmt, "{session}");
    var env := WildcardArgs(true);
    WildcardArgsLookup(true, "subject");
    assert '*' !in fmt;
    FormatWithHole(pre, "subject", rest, env);
    FormatWithHole(mid, "session", post, env);
    FormatText(post, env);
  }

  /** A placeholder other than the subject and the session makes the glob pattern raise. */
  lemma HeudiconvGlobOtherField(pre: string, name: string, post: string)
    requires BraceFree(pre) && BraceFree(name) && '*' !in pre && '*' !in name && '*' !in post
    requires name != "subject" && name != "session"
    ensures HeudiconvGlob(WithHole(pre, name, post)) == Err(BadGlobPattern(MissingField(name)))
  {
    var fmt := WithHole(pre, name, post);
    var env := WildcardArgs(Contains(fmt, "{session}"));
    WildcardArgsLookup(Contains(fmt, "{session}"), name);
    assert '*' !in fmt;
    FormatHolePrefix(name, post, env);
    FormatPlainPrefix(pre, "{" + name + "}" + post, env);
  }

  /** `[parser.parse(x).named for x in all_dicoms if parser.parse(x) is not None]`. */
  /** The test of the comprehension's `if`: the path parses. */
  function Parses(host: Host, pattern: string): string -> bool {
    p => host.parse(pattern, p).Some?
  }

  /** `[parser.parse(x).named for x in all_dicoms if parser.parse(x) is not None]`. */
  function ParsedRecords(host: Host, pattern: string, paths: seq<string>): (r: seq<Record>)
    ensures |r| <= |paths|
    ensures forall x :: x in r <==> exists p :: p in paths && host.parse(pattern, p) == Some(x)
    ensures |r| == |Keep(paths, Parses(host, pattern))|
    ensures forall k :: 0 <= k < |r| ==> host.parse(pattern, Keep(paths, Parses(host, pattern))[k]) == Some(r[k])
    decreases |paths|
  {
    if paths == [] then []
    else
      var rest := ParsedRecords(host, pattern, paths[1..]);
      assert forall p :: p in paths <==> p == paths[0] || p in paths[1..];
      match host.parse(pattern, paths[0])
      case Some(x) =>
        assert Keep(paths, Parses(host, pattern)) == [paths[0]] + Keep(paths[1..], Parses(host, pattern));
        [x] + rest
      case None =>
        assert Keep(paths, Parses(host, pattern)) == Keep(paths[1..], Parses(host, pattern));
        rest
  }

  /** `x[key]` on a record: `KeyError` when the field is missing. */
  function Get(x: Record, key: string): (r: Result<string, ConvertError>)
    ensures r.Ok? <==> key in x
    ensures r.Ok? ==> r.value == x[key]
    ensures r.Err? ==> r.error == NoField(key)
  {
    if key in x then Ok(x[key]) else Err(NoField(key))
  }

  /** A record's subject occurs in the `-subjects` string. */
  predicate Listed(subjects: string, x: Record) {
    "subject" in x && Contains(subjects, x["subject"])
  }

  /**
   * `[x for x in fileinfo if x['subject'] in subjects]`, applied when
   * `subjects` is given: the records whose subject occurs in it, in order. A
   * record without a subject raises.
   */
  function BySubjects(info: seq<Record>, subjects: Option<string>): (r: Result<seq<Record>, ConvertError>)
    ensures !Given(subjects) ==> r == Ok(info)
    ensures Given(subjects) ==> (r.Ok? <==> forall x :: x in info ==> "subject" in x)
    ensures r.Err? ==> r.error == NoField("subject")
    ensures r.Ok? && Given(subjects) ==> forall x :: x in r.value <==> x in info && Contains(subjects.value, x["subject"])
    ensures r.Ok? && Given(subjects) ==> r.value == Keep(info, x => Listed(subjects.value, x))
  {
    if !Given(subjects) then Ok(info)
    else if exists x :: x in info && "subject" !in x then Err(NoField("subject"))
    else
      var kept := Keep(info, x => Listed(subjects.value, x));
      assert forall x :: x in info && Contains(subjects.value, x["subject"]) ==> x in kept by {
        forall x | x in info && Contains(subjects.value, x["subject"])
          ensures x in kept
        {
          KeepComplete(info, x => Listed(subjects.value, x), x);
        }
      }
      Ok(kept)
  }

  // ---------------------------------------------------------------------
  // heudiconv: the command line

  /** The start of every heudiconv command: the module load, a newline, then the call. */
  const HeudiconvHead: string := "module add heudiconv \n" + " heudiconv -d "

  /** The template for a session layout. */
  const SessionTemplate: string :=
    WithHole(HeudiconvHead, "dicomdirectory", WithHole(" -s ", "subject", WithHole("  -ss ", "sess",
      WithHole(" -f ", "heuristic", WithHole(" -o ", "output_directory", ""))))) + " -b --minmeta"

  /** The template without sessions. */
  const PlainTemplate: string :=
    WithHole(HeudiconvHead, "dicomdirectory", WithHole(" -s ", "subject",
      WithHole("  -f ", "heuristic", WithHole(" -o ", "output_directory", "")))) + " -b --minmeta"

  /** The template when overwriting: no session option, and `--overwrite` at the end. */
  const OverwriteTemplate: string :=
    WithHole(HeudiconvHead, "dicomdirectory", WithHole(" -s ", "subject",
      WithHole("  -f ", "heuristic", WithHole(" -o ", "output_directory", "")))) + " -b --minmeta --overwrite"

  /** `heudiconv_string` once chosen: the overwrite template whenever overwriting, else by the layout. */
  function HeudiconvTemplate(toggle: bool, overwrite: bool): string {
    if overwrite then OverwriteTemplate else if toggle then SessionTemplate else PlainTemplate
  }

  /** `heudiconv_string`: chosen by the layout, then replaced when overwriting. */
  method HeudiconvString(toggle: bool, overwrite: bool) returns (s: string)
    ensures s == HeudiconvTemplate(toggle, overwrite)
  {
    if toggle {
      s := SessionTemplate;
    } else {
      s := PlainTemplate;
    }
    if overwrite {
      s := OverwriteTemplate;
    }
  }

  /** The keyword arguments of the `format` call; the session only with a session layout. */
  function HeudiconvArgs(dicom: string, subject: string, session: Option<string>, heuristic: string, output: string): Env {
    var base := map["dicomdirectory" := dicom, "subject" := subject, "heuristic" := heuristic, "output_directory" := output];
    if session.Some? then base["sess" := session.value] else base
  }

  lemma HeudiconvArgsLookup(dicom: string, subject: string, session: Option<string>, heuristic: string, output: string)
    ensures var env := HeudiconvArgs(dicom, subject, session, heuristic, output);
      && "dicomdirectory" in env && env["dicomdirectory"] == dicom
      && "subject" in env && env["subject"] == subject
      && "heuristic" in env && env["heuristic"] == heuristic
      && "output_directory" in env && env["output_directory"] == output
      && ("sess" in env <==> session.Some?)
      && (session.Some? ==> env["sess"] == session.value)
  {
  }

  /** The heudiconv command line, written out: the session option only with a session and without overwriting. */
  function HeudiconvCommand(dicom: string, subject: string, session: Option<string>, heuristic: string,
                            output: string, overwrite: bool): string {
    var ending := if overwrite then " -b --minmeta --overwrite" else " -b --minmeta";
    var rest := (" -o " + output) + ending;
    if session.Some? && !overwrite then
      (HeudiconvHead + dicom) + ((" -s " + subject) + (("  -ss " + session.value) + ((" -f " + heuristic) + rest)))
    else
      (HeudiconvHead + dicom) + ((" -s " + subject) + (("  -f " + heuristic) + rest))
  }

  lemma HeudiconvTexts()
    ensures BraceFree(HeudiconvHead) && BraceFree(" -s ") && BraceFree("  -ss ") && BraceFree(" -f ")
    ensures BraceFree("  -f ") && BraceFree(" -o ") && BraceFree(" -b --minmeta") && BraceFree(" -b --minmeta --overwrite")
  {
    assert BraceFree("module add heudiconv \n");
    assert BraceFree(" heudiconv -d ");
    assert BraceFree(HeudiconvHead);
    assert BraceFree(" -s ");
    assert BraceFree("  -ss ");
    assert BraceFree(" -f ");
    assert BraceFree("  -f ");
    assert BraceFree(" -o ");
    assert BraceFree(" -b --minmeta");
    assert BraceFree(" -b --minmeta --overwrite");
  }

  lemma HeudiconvNames()
    ensures BraceFree("dicomdirectory") && BraceFree("subject") && BraceFree("sess")
    ensures BraceFree("heuristic") && BraceFree("output_directory")
  {
    assert BraceFree("dicomdirectory");
    assert BraceFree("subject");
    assert BraceFree("sess");
    assert BraceFree("heuristic");
    assert BraceFree("output_directory");
  }

  /** The session template formatted with a bound session. */
  lemma SessionTemplateFills(env: Env)
    requires "dicomdirectory" in env && "subject" in env && "sess" in env && "heuristic" in env && "output_directory" in env
    ensures Format(SessionTemplate, env)
      == Ok((HeudiconvHead + env["dicomdirectory"]) + ((" -s " + env["subject"]) + (("  -ss " + env["sess"])
           + ((" -f " + env["heuristic"]) + ((" -o " + env["output_directory"]) + " -b --minmeta")))))
  {
    HeudiconvTexts();
    HeudiconvNames();
    var inner := WithHole(" -s ", "subject", WithHole("  -ss ", "sess", WithHole(" -f ", "heuristic", WithHole(" -o ", "output_directory", ""))));
    WithHoleAppend(HeudiconvHead, "dicomdirectory", inner, " -b --minmeta");
    FormatWithHole(HeudiconvHead, "dicomdirectory", inner + " -b --minmeta", env);
    FormatFourHoles(" -s ", "subject", "  -ss ", "sess", " -f ", "heuristic", " -o ", "output_directory", " -b --minmeta", env);
    FormatText(" -b --minmeta", env);
  }

  /** The plain or the overwrite template formatted: four holes, then the fixed ending. */
  lemma FourHoleTemplateFills(env: Env, ending: string)
    requires ending == " -b --minmeta" || ending == " -b --minmeta --overwrite"
    requires "dicomdirectory" in env && "subject" in env && "heuristic" in env && "output_directory" in env
    ensures Format(WithHole(HeudiconvHead, "dicomdirectory", WithHole(" -s ", "subject",
        WithHole("  -f ", "heuristic", WithHole(" -o ", "output_directory", "")))) + ending, env)
      == Ok((HeudiconvHead + env["dicomdirectory"]) + ((" -s " + env["subject"])
           + (("  -f " + env["heuristic"]) + ((" -o " + env["output_directory"]) + ending))))
  {
    HeudiconvTexts();
    HeudiconvNames();
    FormatFourHoles(HeudiconvHead, "dicomdirectory", " -s ", "subject", "  -f ", "heuristic", " -o ", "output_directory", ending, env);
    FormatText(ending, env);
  }

  /**
   * When the session is passed exactly with a session layout, formatting
   * `heudiconv_string` succeeds and gives the command line: the session
   * option iff there is a session and no overwriting, `--overwrite` iff
   * overwriting.
   */
  lemma HeudiconvCommandFormat(dicom: string, subject: string, session: Option<string>, heuristic: string,
                               output: string, toggle: bool, overwrite: bool)
    requires session.Some? <==> toggle
    ensures Format(HeudiconvTemplate(toggle, overwrite), HeudiconvArgs(dicom, subject, session, heuristic, output))
      == Ok(HeudiconvCommand(dicom, subject, session, heuristic, output, overwrite))
  {
    var env := HeudiconvArgs(dicom, subject, session, heuristic, output);
    HeudiconvArgsLookup(dicom, subject, session, heuristic, output);
    if overwrite {
      FourHoleTemplateFills(env, " -b --minmeta --overwrite");
    } else if toggle {
      SessionTemplateFills(env);
    } else {
      FourHoleTemplateFills(env, " -b --minmeta");
    }
  }

  /** With overwriting, the command has no session option and ends in `--overwrite`, whatever the session. */
  lemma HeudiconvOverwrite(dicom: string, subject: string, session: Option<string>, heuristic: string, output: string)
    ensures HeudiconvCommand(dicom, subject, session, heuristic, output, true)
      == HeudiconvCommand(dicom, subject, None, heuristic, output, true)
    ensures var c := HeudiconvCommand(dicom, subject, session, heuristic, output, true);
      |c| >= |" --overwrite"| && c[|c| - |" --overwrite"|..] == " --overwrite"
  {
    var e := " -b --minmeta --overwrite";
    var s4 := (" -o " + output) + e;
    var s3 := ("  -f " + heuristic) + s4;
    var s2 := (" -s " + subject) + s3;
    var k := |" --overwrite"|;
    SuffixOfAppend(" -o " + output, e, k);
    SuffixOfAppend("  -f " + heuristic, s4, k);
    SuffixOfAppend(" -s " + subject, s3, k);
    SuffixOfAppend(HeudiconvHead + dicom, s2, k);
    assert e[|e| - k..] == " --overwrite";
  }

  // ---------------------------------------------------------------------
  // heudiconv: one job per record

  /**
   * The job for one record. The job id uses the raw subject and session; the
   * command uses them with their wildcards removed. Without a session
   * layout the output directory is made absolute against the working
   * directory.
   */
  function HeudiconvJob(x: Record, h: HeudiconvCall, toggle: bool, cwd: string): (r: Result<ConvJob, ConvertError>)
    requires IsAbs(cwd)
    ensures r.Ok? <==> "subject" in x && (toggle ==> "session" in x)
    ensures "subject" !in x ==> r == Err(NoField("subject"))
    ensures "subject" in x && toggle && "session" !in x ==> r == Err(NoField("session"))
  {
    var subject :- Get(x, "subject");
    var session :- if toggle then Get(x, "session") else Ok("");
    var jobId := if toggle then "convert_sub-" + subject + "_ses-" + session else "convert_sub-" + subject;
    var output := if toggle then h.outputDirectory else AbsPath(cwd, h.outputDirectory);
    var sessionArg := if toggle then Some(StripStars(session)) else None;
    Ok(ConvJob(jobId, HeudiconvCommand(h.dicomDirectory, StripStars(subject), sessionArg, h.heuristicFile, output, h.overwrite)))
  }

  /** The job of each record, or what it raises. */
  function HeudiconvResults(info: seq<Record>, h: HeudiconvCall, toggle: bool, cwd: string): (rs: seq<Result<ConvJob, ConvertError>>)
    requires IsAbs(cwd)
    ensures |rs| == |info| && forall i :: 0 <= i < |info| ==> rs[i] == HeudiconvJob(info[i], h, toggle, cwd)
  {
    seq(|info|, i requires 0 <= i < |info| => HeudiconvJob(info[i], h, toggle, cwd))
  }

  /**
   * Every record's job, in the records' order, or the error of the first
   * record that lacks a field.
   */
  function HeudiconvJobs(info: seq<Record>, h: HeudiconvCall, toggle: bool, cwd: string): (r: Result<seq<ConvJob>, ConvertError>)
    requires IsAbs(cwd)
    ensures r.Ok? <==> forall i :: 0 <= i < |info| ==> HeudiconvJob(info[i], h, toggle, cwd).Ok?
    ensures r.Ok? ==> |r.value| == |info| && forall i :: 0 <= i < |info| ==> r.value[i] == HeudiconvJob(info[i], h, toggle, cwd).value
    ensures r.Err? ==> exists i :: (0 <= i < |info| && HeudiconvJob(info[i], h, toggle, cwd) == Err(r.error)
      && forall j :: 0 <= j < i ==> HeudiconvJob(info[j], h, toggle, cwd).Ok?)
  {
    var rs := HeudiconvResults(info, h, toggle, cwd);
    var r := Collect(rs);
    if r.Ok? then CollectValues(rs); r
    else CollectFirstError(rs); r
  }

  /**
   * The loop body: the wildcards stripped from the subject and session, the
   * job id built from the raw ones, and `heudiconv_string` formatted, which
   * gives the command line `HeudiconvJob` writes out.
   */
  method MakeHeudiconvJob(x: Record, h: HeudiconvCall, toggle: bool, cwd: string, template: string)
    returns (r: Result<ConvJob, ConvertError>)
    requires IsAbs(cwd) && template == HeudiconvTemplate(toggle, h.overwrite)
    ensures r == HeudiconvJob(x, h, toggle, cwd)
  {
    var subjectId :- Get(x, "subject");
    subjectId := ReplaceAll(subjectId, "/*", "");
    subjectId := ReplaceAll(subjectId, "*", "");
    var jobId;
    var args;
    if toggle {
      var sessionId :- Get(x, "session");
      sessionId := ReplaceAll(sessionId, "/*", "");
      sessionId := ReplaceAll(sessionId, "*", "");
      jobId := "convert_sub-" + x["subject"] + "_ses-" + x["session"];
      args := HeudiconvArgs(h.dicomDirectory, subjectId, Some(sessionId), h.heuristicFile, h.outputDirectory);
      HeudiconvCommandFormat(h.dicomDirectory, subjectId, Some(sessionId), h.heuristicFile, h.outputDirectory, toggle, h.overwrite);
    } else {
      jobId := "convert_sub-" + x["subject"];
      var output := AbsPath(cwd, h.outputDirectory);
      args := HeudiconvArgs(h.dicomDirectory, subjectId, None, h.heuristicFile, output);
      HeudiconvCommandFormat(h.dicomDirectory, subjectId, None, h.heuristicFile, output, toggle, h.overwrite);
    }
    var command := Format(template, args);
    r := Ok(ConvJob(jobId, command.value));
  }

  /**
   * `heudiconv_wrapper` up to the point where the jobs go to the batch
   * manager: the parse string and the glob pattern, the records parsed from
   * the paths found, the subject filter, and one job per remaining record.
   */
  function HeudiconvSpec(host: Host, h: HeudiconvCall): (r: Result<seq<ConvJob>, ConvertError>)
    requires IsAbs(host.cwd)
  {
    var parseString := StripStars(h.dicomDirFormat);
    var pattern :- HeudiconvGlob(h.dicomDirFormat);
    var info :- BySubjects(ParsedRecords(host, parseString, host.glob(pattern)), h.subjects);
    HeudiconvJobs(info, h, Contains(h.dicomDirFormat, "{session}"), host.cwd)
  }

  /** The job loop of `heudiconv_wrapper`: one job per record. */
  method AddHeudiconvJobs(info: seq<Record>, h: HeudiconvCall, toggle: bool, cwd: string, template: string)
    returns (r: Result<seq<ConvJob>, ConvertError>)
    requires IsAbs(cwd) && template == HeudiconvTemplate(toggle, h.overwrite)
    ensures r == HeudiconvJobs(info, h, toggle, cwd)
  {
    ghost var rs := HeudiconvResults(info, h, toggle, cwd);
    var jobs := [];
    for i := 0 to |info|
      invariant Collect(rs[..i]) == Ok(jobs)
    {
      var job := MakeHeudiconvJob(info[i], h, toggle, cwd, template);
      if job.Err? {
        CollectFails(rs, i);
        return Err(job.error);
      }
      CollectSnoc(rs, i);
      jobs := jobs + [job.value];
    }
    assert rs[..|info|] == rs;
    r := Ok(jobs);
  }

  /** `heudiconv_wrapper`: the parse string stripped step by step, the records found and filtered, then the job loop. */
  method HeudiconvWrapper(host: Host, h: HeudiconvCall) returns (r: Result<seq<ConvJob>, ConvertError>)
    requires IsAbs(host.cwd)
    ensures r == HeudiconvSpec(host, h)
  {
    var parseString := ReplaceAll(h.dicomDirFormat, "/*", "");
    parseString := ReplaceAll(parseString, "*", "");
    var toggle := Contains(h.dicomDirFormat, "{session}");
    var pattern := Format(parseString, WildcardArgs(toggle));
    if pattern.Err? {
      return Err(BadGlobPattern(pattern.error));
    }
    var allDicoms := host.glob(pattern.value);
    var fileinfo := ParsedRecords(host, parseString, allDicoms);
    fileinfo :- BySubjects(fileinfo, h.subjects);
    var template := HeudiconvString(toggle, h.overwrite);
    r := AddHeudiconvJobs(fileinfo, h, toggle, host.cwd, template);
  }

  // ---------------------------------------------------------------------
  // convert2bids: the settings and the converter

  /** The `DICOMToBIDSOptions` entries of the project configuration. */
  datatype DicomOptions = DicomOptions(
    dicomDirectory: string,
    dicomFormatString: string,
    bidsDirectory: string,
    conversionConfig: string,
    logDirectory: string,
    heuristic: string,
    memUsage: string,
    timeUsage: string,
    coreUsage: string)

  /** The arguments of `convert2bids` the model uses. */
  datatype ConvertArgs = ConvertArgs(
    dicomDir: Option<string>,
    dicomDirFormat: Option<string>,
    bidsDir: Option<string>,
    convConfig: Option<string>,
    heuristic: Option<string>,
    logDir: Option<string>,
    overwrite: bool,
    subject: Option<string>,
    subjects: Option<string>,
    session: Option<string>,
    longitudinal: bool,
    statusCache: Option<string>,
    dcm2bids: bool)   // `-dcm2bids/-heudiconv`

  /** `x if x else config[...]`: the argument when it is given and non-empty, else the configured value. */
  function Settle(arg: Option<string>, configured: string): (r: string)
    ensures Given(arg) ==> r == arg.value
    ensures !Given(arg) ==> r == configured
  {
    if Given(arg) then arg.value else configured
  }

  /** The settings once every argument has been settled against the configuration. */
  datatype Settings = Settings(
    dicomDir: string,
    dicomDirFormat: string,
    bidsDir: string,
    convConfig: string,
    logDir: string,
    heuristic: string)

  function Settled(args: ConvertArgs, opts: DicomOptions): Settings {
    Settings(
      Settle(args.dicomDir, opts.dicomDirectory),
      Settle(args.dicomDirFormat, opts.dicomFormatString),
      Settle(args.bidsDir, opts.bidsDirectory),
      Settle(args.convConfig, opts.conversionConfig),
      Settle(args.logDir, opts.logDirectory),
      Settle(args.heuristic, opts.heuristic))
  }

  /** The first required setting that is empty, in the order `convert2bids` checks them. */
  function MissingSetting(s: Settings): (r: Option<string>)
    ensures r.None? <==> s.dicomDir != [] && s.bidsDir != [] && s.dicomDirFormat != [] && s.logDir != []
    ensures r == Some("DICOM directory") <==> s.dicomDir == []
    ensures r == Some("BIDS directory") <==> s.dicomDir != [] && s.bidsDir == []
    ensures r == Some("Format string") <==> s.dicomDir != [] && s.bidsDir != [] && s.dicomDirFormat == []
    ensures r == Some("Log directory") <==> s.dicomDir != [] && s.bidsDir != [] && s.dicomDirFormat != [] && s.logDir == []
  {
    if s.dicomDir == [] then Some("DICOM directory")
    else if s.bidsDir == [] then Some("BIDS directory")
    else if s.dicomDirFormat == [] then Some("Format string")
    else if s.logDir == [] then Some("Log directory")
    else None
  }

  /** What `convert2bids` gives the batch manager: the resource settings, the log directory and the jobs. */
  datatype Conversion = Conversion(memUsage: string, timeUsage: string, nThreads: string, logDir: string, jobs: seq<ConvJob>)

  /** The call of `dcm2bids_wrapper` that `convert2bids` makes. */
  function Dcm2BidsCallOf(s: Settings, args: ConvertArgs): Dcm2BidsCall {
    Dcm2BidsCall(s.dicomDir, s.bidsDir, s.convConfig, s.dicomDirFormat, args.subject, args.session,
                 args.longitudinal, args.overwrite, args.statusCache)
  }

  /** The call of `heudiconv_wrapper` that `convert2bids` makes. */
  function HeudiconvCallOf(s: Settings, args: ConvertArgs): HeudiconvCall {
    HeudiconvCall(s.dicomDir, s.bidsDir, s.heuristic, s.dicomDirFormat, args.subjects, args.overwrite)
  }

  /**
   * `convert2bids`: the settings settled and checked, then the chosen
   * converter, which needs its own conversion config or heuristic file.
   */
  function Convert2Bids(host: Host, opts: DicomOptions, args: ConvertArgs): (r: Result<Conversion, ConvertError>)
    requires IsAbs(host.cwd)
  {
    var s := Settled(args, opts);
    if MissingSetting(s).Some? then Err(NotSpecified(MissingSetting(s).value))
    else if args.dcm2bids && s.convConfig == [] then Err(NoConversionConfig)
    else if !args.dcm2bids && s.heuristic == [] then Err(NoHeuristic)
    else
      var jobs :- if args.dcm2bids then Dcm2BidsSpec(host, Dcm2BidsCallOf(s, args)) else HeudiconvSpec(host, HeudiconvCallOf(s, args));
      Ok(Conversion(opts.memUsage, opts.timeUsage, opts.coreUsage, s.logDir, jobs))
  }

  /**
   * The required settings are checked first, in order, and the first empty
   * one ends the conversion; the converter's own file is checked next; then
   * the conversion's jobs are exactly the converter's.
   */
  lemma Convert2BidsChecks(host: Host, opts: DicomOptions, args: ConvertArgs)
    requires IsAbs(host.cwd)
    ensures var s := Settled(args, opts);
      && (MissingSetting(s).Some? ==> Convert2Bids(host, opts, args) == Err(NotSpecified(MissingSetting(s).value)))
      && (MissingSetting(s).None? && args.dcm2bids && s.convConfig == [] ==> Convert2Bids(host, opts, args) == Err(NoConversionConfig))
      && (MissingSetting(s).None? && !args.dcm2bids && s.heuristic == [] ==> Convert2Bids(host, opts, args) == Err(NoHeuristic))
  {
  }

  /** Past the checks, the conversion succeeds exactly when the converter does, with the converter's jobs. */
  lemma Convert2BidsJobs(host: Host, opts: DicomOptions, args: ConvertArgs)
    requires IsAbs(host.cwd)
    requires MissingSetting(Settled(args, opts)).None?
    requires if args.dcm2bids then Settled(args, opts).convConfig != [] else Settled(args, opts).heuristic != []
    ensures var s := Settled(args, opts);
      var jobs := if args.dcm2bids then Dcm2BidsSpec(host, Dcm2BidsCallOf(s, args)) else HeudiconvSpec(host, HeudiconvCallOf(s, args));
      && (Convert2Bids(host, opts, args).Ok? <==> jobs.Ok?)
      && (jobs.Ok? ==> Convert2Bids(host, opts, args).value.jobs == jobs.value)
      && (jobs.Err? ==> Convert2Bids(host, opts, args) == Err(jobs.error))
      && (jobs.Ok? ==> Convert2Bids(host, opts, args).value.logDir == s.logDir)
  {
  }

  /**
   * A setting given on the command line overrides the configuration: two
   * configurations that differ only in settings whose argument is given
   * lead to the same conversion.
   */
  lemma Convert2BidsOverride(host: Host, o1: DicomOptions, o2: DicomOptions, args: ConvertArgs)
    requires IsAbs(host.cwd)
    requires Given(args.dicomDir) || o1.dicomDirectory == o2.dicomDirectory
    requires Given(args.dicomDirFormat) || o1.dicomFormatString == o2.dicomFormatString
    requires Given(args.bidsDir) || o1.bidsDirectory == o2.bidsDirectory
    requires Given(args.convConfig) || o1.conversionConfig == o2.conversionConfig
    requires Given(args.logDir) || o1.logDirectory == o2.logDirectory
    requires Given(args.heuristic) || o1.heuristic == o2.heuristic
    requires o1.memUsage == o2.memUsage && o1.timeUsage == o2.timeUsage && o1.coreUsage == o2.coreUsage
    ensures Convert2Bids(host, o1, args) == Convert2Bids(host, o2, args)
  {
    assert Settled(args, o1) == Settled(args, o2);
  }

  /**
   * A conversion is carried out only with every required setting and the
   * chosen converter's file in place, and it hands on the settled log
   * directory and the configured resources.
   */
  lemma Convert2BidsChecked(host: Host, opts: DicomOptions, args: ConvertArgs)
    requires IsAbs(host.cwd)
    ensures var s, r := Settled(args, opts), Convert2Bids(host, opts, args);
      r.Ok? ==>
        && s.dicomDir != [] && s.bidsDir != [] && s.dicomDirFormat != [] && s.logDir != []
        && (if args.dcm2bids then s.convConfig != [] else s.heuristic != [])
        && r.value.logDir == s.logDir
        && r.value.memUsage == opts.memUsage && r.value.timeUsage == opts.timeUsage && r.value.nThreads == opts.coreUsage
  {
  }

  /** Where a failed conversion's error comes from: a check, or the converter. */
  lemma Convert2BidsErrorKinds(host: Host, opts: DicomOptions, args: ConvertArgs)
    requires IsAbs(host.cwd)
    ensures var s, r := Settled(args, opts), Convert2Bids(host, opts, args);
      r.Err? ==>
        || (MissingSetting(s).Some? && r.error == NotSpecified(MissingSetting(s).value))
        || (MissingSetting(s).None? && args.dcm2bids && s.convConfig == [] && r.error == NoConversionConfig)
        || (MissingSetting(s).None? && !args.dcm2bids && s.heuristic == [] && r.error == NoHeuristic)
        || ConverterError(r.error)
  {
    var s := Settled(args, opts);
    if MissingSetting(s).None? && (if args.dcm2bids then s.convConfig != [] else s.heuristic != []) {
      ConverterErrors(host, s, args);
    }
  }

  /**
   * A setting given on the command line is never reported missing, nor is a
   * given conversion config or heuristic file.
   */
  lemma Convert2BidsGivenNotMissing(host: Host, opts: DicomOptions, args: ConvertArgs)
    requires IsAbs(host.cwd)
    ensures Given(args.dicomDir) ==> Convert2Bids(host, opts, args) != Err(NotSpecified("DICOM directory"))
    ensures Given(args.bidsDir) ==> Convert2Bids(host, opts, args) != Err(NotSpecified("BIDS directory"))
    ensures Given(args.dicomDirFormat) ==> Convert2Bids(host, opts, args) != Err(NotSpecified("Format string"))
    ensures Given(args.logDir) ==> Convert2Bids(host, opts, args) != Err(NotSpecified("Log directory"))
    ensures Given(args.convConfig) ==> Convert2Bids(host, opts, args) != Err(NoConversionConfig)
    ensures Given(args.heuristic) ==> Convert2Bids(host, opts, args) != Err(NoHeuristic)
  {
    Convert2BidsErrorKinds(host, opts, args);
  }

  /** An error raised by reading a record: a folder that did not parse, or a missing field. */
  predicate ReadError(e: ConvertError) {
    e.NotParsed? || e.NoField?
  }

  /** An error a converter raises before handing its jobs on. */
  predicate ConverterError(e: ConvertError) {
    ReadError(e) || e.NoFoldersFound? || e.BadGlobPattern?
  }

  lemma FieldsError(fs: seq<Found>, key: string)
    ensures Fields(fs, key).Err? ==> ReadError(Fields(fs, key).error)
  {
  }

  lemma ChosenError(fs: seq<Found>, subject: Option<string>, session: Option<string>)
    ensures Chosen(fs, subject, session).Err? ==> ConverterError(Chosen(fs, subject, session).error)
  {
    FieldsError(fs, "subject");
    FieldsError(fs, "session");
    assert Selection(fs, subject, session).Err? ==> ReadError(Selection(fs, subject, session).error);
  }

  lemma {:induction false} DcmJobsError(fs: seq<Found>, c: Dcm2BidsCall, toggle: bool, needs: seq<string>)
    ensures DcmJobs(fs, c, toggle, needs).Err? ==> ReadError(DcmJobs(fs, c, toggle, needs).error)
    decreases |fs|
  {
    if fs != [] {
      DcmJobsError(fs[..|fs| - 1], c, toggle, needs);
    }
  }

  /** The converters report neither a missing setting nor a missing conversion config or heuristic. */
  lemma ConverterErrors(host: Host, s: Settings, args: ConvertArgs)
    requires IsAbs(host.cwd)
    ensures Dcm2BidsSpec(host, Dcm2BidsCallOf(s, args)).Err? ==>
      ConverterError(Dcm2BidsSpec(host, Dcm2BidsCallOf(s, args)).error)
    ensures HeudiconvSpec(host, HeudiconvCallOf(s, args)).Err? ==>
      ConverterError(HeudiconvSpec(host, HeudiconvCallOf(s, args)).error)
  {
    var c := Dcm2BidsCallOf(s, args);
    var fs := FoundFolders(host, c.dicomDir, c.dicomDirFormat);
    ChosenError(fs, c.subject, c.session);
    var chosen := Chosen(fs, c.subject, c.session);
    if chosen.Ok? {
      FieldsError(chosen.value, "subject");
      var subjects := Fields(chosen.value, "subject");
      if subjects.Ok? {
        var needs := if Given(c.statusCache) then host.needsProcessing(subjects.value, c.statusCache.value) else subjects.value;
        DcmJobsError(chosen.value, c, Contains(c.dicomDirFormat, "{session}"), needs);
      }
    }
  }

  lemma PrefixOfAppend(p: string, q: string)
    ensures IsPrefix(p, p + q)
  {
    assert (p + q)[..|p|] == p;
  }

  lemma PrefixOfPrefix(p: string, q: string, s: string)
    requires IsPrefix(p + q, s)
    ensures IsPrefix(p, s)
  {
    assert s[..|p|] == (p + q)[..|p|];
  }

  /**
   * A dcm2bids job is named after its record's subject and runs `dcm2bids`
   * on the record's folder.
   */
  lemma DcmJobShape(f: Found, c: Dcm2BidsCall, toggle: bool)
    requires DcmJob(f, c, toggle).Ok?
    ensures IsPrefix("convert_sub-" + Field(f, "subject").value, DcmJob(f, c, toggle).value.jobId)
    ensures IsPrefix("dcm2bids -d " + f.folder, DcmJob(f, c, toggle).value.command)
  {
    var subject := Field(f, "subject").value;
    var session := if toggle then Field(f, "session").value else "";
    DcmJobOk(f, c, toggle, subject, session);
    var j := DcmJob(f, c, toggle).value;
    if toggle {
      assert "convert_sub-" + subject + "_ses-" + session == ("convert_sub-" + subject) + ("_ses-" + session);
      PrefixOfAppend("convert_sub-" + subject, "_ses-" + session);
    } else {
      PrefixOfAppend("convert_sub-" + subject, "");
      assert "convert_sub-" + subject + "" == "convert_sub-" + subject;
    }
    var sessionArg := if toggle && !c.longitudinal then Some(OptStr(c.session)) else None;
    var subjectArg := if toggle && c.longitudinal then subject + "sess" + session else subject;
    var sessionText := if sessionArg.Some? then " -s " + sessionArg.value else "";
    var clobberText := if c.overwrite then " --clobber --forceDcm2niix" else "";
    PrefixOfAppend("dcm2bids -d " + f.folder,
      (" -o " + c.bidsDir) + ((" -p " + subjectArg) + ((" -c " + c.convConfig) + (sessionText + clobberText))));
  }

  /**
   * A heudiconv job is named after its record's subject and runs the module
   * load and `heudiconv` on the configured DICOM directory.
   */
  lemma HeudiconvJobShape(x: Record, h: HeudiconvCall, toggle: bool, cwd: string)
    requires IsAbs(cwd) && HeudiconvJob(x, h, toggle, cwd).Ok?
    ensures IsPrefix("convert_sub-" + x["subject"], HeudiconvJob(x, h, toggle, cwd).value.jobId)
    ensures IsPrefix(HeudiconvHead + h.dicomDirectory, HeudiconvJob(x, h, toggle, cwd).value.command)
  {
    var subject := x["subject"];
    var j := HeudiconvJob(x, h, toggle, cwd).value;
    if toggle {
      var session := x["session"];
      assert j.jobId == "convert_sub-" + subject + "_ses-" + session;
      assert "convert_sub-" + subject + "_ses-" + session == ("convert_sub-" + subject) + ("_ses-" + session);
      PrefixOfAppend("convert_sub-" + subject, "_ses-" + session);
    } else {
      assert j.jobId == "convert_sub-" + subject;
      PrefixOfAppend("convert_sub-" + subject, "");
      assert "convert_sub-" + subject + "" == "convert_sub-" + subject;
    }
    var output := if toggle then h.outputDirectory else AbsPath(cwd, h.outputDirectory);
    var sessionArg := if toggle then Some(StripStars(x["session"])) else None;
    assert j.command == HeudiconvCommand(h.dicomDirectory, StripStars(subject), sessionArg, h.heuristicFile, output, h.overwrite);
    HeudiconvCommandHead(h.dicomDirectory, StripStars(subject), sessionArg, h.heuristicFile, output, h.overwrite);
  }

  lemma HeudiconvCommandHead(dicom: string, subject: string, session: Option<string>, heuristic: string,
                             output: string, overwrite: bool)
    ensures IsPrefix(HeudiconvHead + dicom, HeudiconvCommand(dicom, subject, session, heuristic, output, overwrite))
  {
    var ending := if overwrite then " -b --minmeta --overwrite" else " -b --minmeta";
    var rest := (" -o " + output) + ending;
    if session.Some? && !overwrite {
      PrefixOfAppend(HeudiconvHead + dicom, (" -s " + subject) + (("  -ss " + session.value) + ((" -f " + heuristic) + rest)));
    } else {
      PrefixOfAppend(HeudiconvHead + dicom, (" -s " + subject) + (("  -f " + heuristic) + rest));
    }
  }

  /**
   * Every job of a conversion is named `convert_sub-...`; a dcm2bids job runs
   * `dcm2bids` on a folder, and a heudiconv job runs `heudiconv` on the
   * settled DICOM directory.
   */
  lemma Convert2BidsJobShape(host: Host, opts: DicomOptions, args: ConvertArgs)
    requires IsAbs(host.cwd) && Convert2Bids(host, opts, args).Ok?
    ensures forall j :: j in Convert2Bids(host, opts, args).value.jobs ==> IsPrefix("convert_sub-", j.jobId)
    ensures args.dcm2bids ==>
      forall j :: j in Convert2Bids(host, opts, args).value.jobs ==> IsPrefix("dcm2bids -d ", j.command)
    ensures !args.dcm2bids ==>
      forall j :: j in Convert2Bids(host, opts, args).value.jobs ==>
        IsPrefix(HeudiconvHead + Settled(args, opts).dicomDir, j.command)
  {
    var s := Settled(args, opts);
    var jobs := Convert2Bids(host, opts, args).value.jobs;
    if args.dcm2bids {
      var c := Dcm2BidsCallOf(s, args);
      var fs := FoundFolders(host, c.dicomDir, c.dicomDirFormat);
      var chosen := Chosen(fs, c.subject, c.session).value;
      var subjects := Fields(chosen, "subject").value;
      var needs := if Given(c.statusCache) then host.needsProcessing(subjects, c.statusCache.value) else subjects;
      var toggle := Contains(c.dicomDirFormat, "{session}");
      assert jobs == DcmJobs(chosen, c, toggle, needs).value;
      DcmJobsKept(chosen, c, toggle, needs);
      var kept := IndicesWhere(chosen, NeedsJob(needs));
      forall j | j in jobs
        ensures IsPrefix("convert_sub-", j.jobId) && IsPrefix("dcm2bids -d ", j.command)
      {
        var k :| 0 <= k < |jobs| && jobs[k] == j;
        var f := chosen[kept[k]];
        DcmJobShape(f, c, toggle);
        PrefixOfPrefix("convert_sub-", Field(f, "subject").value, j.jobId);
        PrefixOfPrefix("dcm2bids -d ", f.folder, j.command);
      }
    } else {
      var h := HeudiconvCallOf(s, args);
      var info := BySubjects(ParsedRecords(host, StripStars(h.dicomDirFormat), host.glob(HeudiconvGlob(h.dicomDirFormat).value)), h.subjects).value;
      var toggle := Contains(h.dicomDirFormat, "{session}");
      assert jobs == HeudiconvJobs(info, h, toggle, host.cwd).value;
      forall j | j in jobs
        ensures IsPrefix("convert_sub-", j.jobId) && IsPrefix(HeudiconvHead + s.dicomDir, j.command)
      {
        var k :| 0 <= k < |jobs| && jobs[k] == j;
        HeudiconvJobShape(info[k], h, toggle, host.cwd);
        PrefixOfPrefix("convert_sub-", info[k]["subject"], j.jobId);
      }
    }
  }

  // ---------------------------------------------------------------------
  // The calls as written

  /**
   * `convert2bids` as written: once the settings pass their checks, it
   * constructs the batch manager with a `debug` keyword that
   * `BatchManager.__init__` does not take, which raises.
   */
  function Convert2BidsAsWritten(host: Host, opts: DicomOptions, args: ConvertArgs): (r: Result<Conversion, ConvertError>)
    requires IsAbs(host.cwd)
  {
    var s := Settled(args, opts);
    if MissingSetting(s).Some? then Err(NotSpecified(MissingSetting(s).value))
    else Err(BatchManagerCall)
  }

  /** As written, every conversion that gets past the settings check raises, including every one the corrected model carries out. */
  lemma Convert2BidsAsWrittenFails(host: Host, opts: DicomOptions, args: ConvertArgs)
    requires IsAbs(host.cwd)
    ensures !Convert2BidsAsWritten(host, opts, args).Ok?
    ensures Convert2Bids(host, opts, args).Ok? ==> Convert2BidsAsWritten(host, opts, args) == Err(BatchManagerCall)
  {
  }

  /**
   * `dcm2bids_wrapper` as written: the first pass of the job loop builds a
   * `Job` from two arguments where `Job.__init__` takes five, which raises.
   * The selection always holds a folder by then.
   */
  function Dcm2BidsAsWritten(host: Host, c: Dcm2BidsCall): (r: Result<seq<ConvJob>, ConvertError>)
  {
    var fs := FoundFolders(host, c.dicomDir, c.dicomDirFormat);
    var chosen :- Chosen(fs, c.subject, c.session);
    var subjects :- Fields(chosen, "subject");
    var first :- DcmJob(chosen[0], c, Contains(c.dicomDirFormat, "{session}"));
    Err(JobCall)
  }

  /** As written, dcm2bids never produces jobs; wherever the corrected model does, it raises at the `Job` call. */
  lemma Dcm2BidsAsWrittenFails(host: Host, c: Dcm2BidsCall)
    ensures !Dcm2BidsAsWritten(host, c).Ok?
    ensures Dcm2BidsSpec(host, c).Ok? ==> Dcm2BidsAsWritten(host, c) == Err(JobCall)
  {
  }

  /**
   * `heudiconv_wrapper` as written: the job loop builds a `Job` from two
   * arguments for the first record, which raises; with no record it
   * finishes with no jobs.
   */
  function HeudiconvAsWritten(host: Host, h: HeudiconvCall): (r: Result<seq<ConvJob>, ConvertError>)
    requires IsAbs(host.cwd)
  {
    var parseString := StripStars(h.dicomDirFormat);
    var pattern :- HeudiconvGlob(h.dicomDirFormat);
    var info :- BySubjects(ParsedRecords(host, parseString, host.glob(pattern)), h.subjects);
    if info == [] then Ok([])
    else
      var first :- HeudiconvJob(info[0], h, Contains(h.dicomDirFormat, "{session}"), host.cwd);
      Err(JobCall)
  }

  /** As written, heudiconv produces jobs only when there are none to produce; otherwise it raises at the `Job` call. */
  lemma HeudiconvAsWrittenFails(host: Host, h: HeudiconvCall)
    requires IsAbs(host.cwd)
    ensures HeudiconvAsWritten(host, h).Ok? ==> HeudiconvAsWritten(host, h) == Ok([])
    ensures HeudiconvSpec(host, h).Ok? ==>
      HeudiconvAsWritten(host, h) == if HeudiconvSpec(host, h).value == [] then Ok([]) else Err(JobCall)
  {
  }
}
