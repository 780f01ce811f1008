# clpipe job generation, in Dafny

This project models three parts of clpipe, a pipeline that prepares
neuroimaging analyses as jobs for an HPC batch scheduler, and proves
properties of the model.

- **Batch submission** (`BatchManagement`, batch_manager.dfy). A
  `BatchManager` holds three things:
  - a scheduler profile: a dictionary of directive templates, defaults and flags;
  - a list of `Job`s;
  - the list of submission strings compiled from them.

  The header is the single-space join of a fixed sequence of directives.
  Optional directives are gated by flags, or by the email address being
  non-empty. Compiling fills the header's `{jobid}` and `{cmdwrap}` holes
  for each job and appends the result. A `Job` can wrap its command in a
  datalad clone … push/merge "sandwich". `BatchManager` and `Job` are
  classes whose methods update their fields.
- **FSF prototype propagation** (`GlmPrepare`, glm_prepare.dfy). FSL FEAT
  design files are made from a prototype in three steps:
  - The lines carrying fixed markers are located once.
  - The candidate images are filtered by the include, exclude and task rules.
  - For every image (level 1) or every group of level-1 results (level 2), the
    marked lines of one shared line array are overwritten in place, and the
    array is written out as a new design file.

  The model keeps the in-place rewriting of one `array<string>`. It proves
  that at level 1 the sharing cannot be observed. It also proves that at
  level 2 lines leak from one design file into the next.
- **DICOM-to-BIDS conversion jobs** (`BidsConversion`, bids_conversion.dfy).
  Settings come from the command line, falling back to the project
  configuration, and the required ones are checked. The DICOM folders are
  found by turning the folder format string into a glob pattern. They are
  parsed back into subject and session records and filtered. Each
  remaining record becomes one dcm2bids or heudiconv command with a job id.
  The result is the list of (job id, command) pairs.

Python's own operations are modelled in small supporting modules:
- `PyFormat` (format.dfy): `str.format` with named fields. A format string
  parses into literal and hole fragments, and an unbound name is an error.
- `Paths` (paths.dfy): `os.path.join`, `basename`, `normpath` and
  `abspath`, with the working directory as an input.
- `Strings` (strings.dfy): `in`, `replace`, `join`, `split` and `str(n)`.
- `Comprehensions` (comprehensions.dfy): filtering list comprehensions, and
  a loop that stops at the first error.
- `Wrappers` (wrappers.dfy): `Option` and `Result`.

Everything the code reads from outside is a parameter:
- the scheduler profile;
- `glob`, `parse.parse` and the status cache (`Host`);
- `nibabel`'s volume count, which paths exist, file contents and the subject
  table (`World`);
- the working directory.

An uncaught exception or a `sys.exit` is an `Err` result that names it.

## Model

| member | source | states |
|---|---|---|
| BatchManagement.AppendOptions | clpipe/batch_manager.py:52-57 | the append loop extends `head` by exactly the rendered entries, in order |
| BatchManagement.HeadPartsCount | clpipe/batch_manager.py:50-79 | the header has 3 fixed parts, one per option entry, and one per truthy gate |
| BatchManagement.TimeGateOff | clpipe/batch_manager.py:59-61 | switching `TimeCommandActive` off takes exactly one part out of the header, the time template filled with `TimeDefault`, and keeps the other parts in order |
| BatchManagement.ThreadsGateOff | clpipe/batch_manager.py:62-65 | switching `ThreadCommandActive` off takes exactly one part out of the header, the thread template filled with `NThreads`, and keeps the other parts in order |
| BatchManagement.JobIdGateOff | clpipe/batch_manager.py:66-68 | switching `JobIDCommandActive` off takes exactly one part out of the header, the job-ID template with `jobid` bound to the literal `{jobid}` |
| BatchManagement.OutputGateOff | clpipe/batch_manager.py:69-71 | switching `OutputCommandActive` off takes exactly one part out of the header, the output template fed the absolute log path |
| BatchManagement.EmailGateOff | clpipe/batch_manager.py:72-74 | clearing `EmailAddress` takes exactly one part out of the header, the email template filled with the address |
| BatchManagement.HeaderEnds | clpipe/batch_manager.py:49-77 | the header starts with `SubmissionHead` and a space, ends with a space and `CommandWrapper`, and between them joins directives that always include the memory directive |
| BatchManagement.HeaderReadsOnly | clpipe/batch_manager.py:50-79 | two profiles that agree on the header's keys give the same header |
| BatchManagement.EmailActiveFlagIgnored | clpipe/batch_manager.py:74-76 | changing any key outside the header's keys, such as an email "active" flag, leaves the header unchanged |
| BatchManagement.InactiveTimeIgnored | clpipe/batch_manager.py:61-63 | with the time flag off, the time template and default do not affect the header |
| BatchManagement.UnsetEmailIgnored | clpipe/batch_manager.py:74-76 | with an empty address, the email template does not affect the header |
| BatchManagement.Rendered | clpipe/batch_manager.py:43-47 | compiling yields at most one string per job, and stops only at a job whose formatting fails |
| BatchManagement.RenderedFormats | clpipe/batch_manager.py:46 | the i-th compiled string is the header formatted with the i-th job's id and command |
| BatchManagement.RenderedUnique | clpipe/batch_manager.py:43-47 | any list that formats each job in order, up to the first failure, is the compiled list |
| BatchManagement.RenderedAll | clpipe/batch_manager.py:43-47 | when every job formats, exactly one string per job is compiled, in job order |
| BatchManagement.EchoLinesJoin | clpipe/batch_manager.py:85-87 | printing the jobs writes them in order, one per line |
| BatchManagement.EchoLinesSplit | clpipe/batch_manager.py:85-87 | the printed text splits back into exactly the submission strings |
| BatchManagement.BatchManager.constructor | clpipe/batch_manager.py:12-26 | a new manager has the given profile, no jobs, no submissions, and the absolute output directory (`.` by default) |
| BatchManagement.BatchManager.UpdateMemUsage | clpipe/batch_manager.py:28-29 | only `MemoryDefault` changes |
| BatchManagement.BatchManager.UpdateTime | clpipe/batch_manager.py:31-32 | only `TimeDefault` changes |
| BatchManagement.BatchManager.UpdateNThreads | clpipe/batch_manager.py:34-35 | only `NThreads` changes |
| BatchManagement.BatchManager.UpdateEmail | clpipe/batch_manager.py:37-38 | only `EmailAddress` changes |
| BatchManagement.BatchManager.AddJob | clpipe/batch_manager.py:40-41 | the job is appended at the end; earlier jobs are unchanged |
| BatchManagement.BatchManager.CreateSubmissionHead | clpipe/batch_manager.py:50-79 | the header built by successive appends is the specified header |
| BatchManagement.BatchManager.CompileJobStrings | clpipe/batch_manager.py:43-47 | the compiled strings are appended after the existing ones; a failing header or job is reported and nothing else is added |
| BatchManagement.BatchManager.AppendJobStrings | clpipe/batch_manager.py:45-47 | the loop appends the compiled strings for the jobs, in order, and reports the first job that fails |
| BatchManagement.BatchManager.SubmitJobs | clpipe/batch_manager.py:81-83 | the commands run are the submission strings, in order, and nothing changes |
| BatchManagement.BatchManager.PrintJobs | clpipe/batch_manager.py:85-87 | the output is the submission strings, one per line, and nothing changes |
| BatchManagement.ThreadsCommandDirective | clpipe/batch_manager.py:89-90 | with `ThreadCommandActive` set, the pair `get_threads_command` returns is the header's thread directive: the template filled with the count is a part of the header |
| BatchManagement.CompileTwice | clpipe/batch_manager.py:43-47 | compiling twice appends the compiled list twice |
| BatchManagement.JobIdHole | clpipe/batch_manager.py:70 | the literal `{jobid}` kept in the header formats to the job's id |
| BatchManagement.JobIdDirectiveRefilled | clpipe/batch_manager.py:68-70 | formatting the job-ID directive and then the job's values gives the directive with the job's id |
| BatchManagement.OutputPathJoined | clpipe/batch_manager.py:73 | the log path is the output directory joined with `Output-{jobid}-jobid-%j.out`, with no further normalisation |
| BatchManagement.LogPathFormat | clpipe/batch_manager.py:73 | the compile step fills the log path's `{jobid}` and leaves `%j` verbatim |
| BatchManagement.OutputDirectiveRefilled | clpipe/batch_manager.py:71-73 | the output directive, formatted twice, names the job's own log file |
| BatchManagement.LoadConfigSources | clpipe/batch_manager.py:14-19 | a profile file on disk shadows any packaged profile of that name; with no file, only the packaged profiles matter; an absolute profile path does not depend on the working directory |
| BatchManagement.LoadConfigDiscrepancy | clpipe/batch_manager.py:15 | as written, loading an existing profile file fails; the packaged path behaves as intended |
| BatchManagement.SuffixAsWrittenFails | clpipe/batch_manager.py:107 | the sandwich suffix template names `target_dataset`, which is not supplied |
| BatchManagement.GitSandwichAsWrittenFails | clpipe/batch_manager.py:104-109 | as written, building the sandwich always fails with the missing `target_dataset` |
| BatchManagement.PrefixFills | clpipe/batch_manager.py:105 | the prefix is `datalad clone <target> <branch> && git -C <branch> annex dead here && git -C <branch> checkout job-<id> && ` |
| BatchManagement.SuffixFills | clpipe/batch_manager.py:107 | with the target supplied, the suffix pushes the branch and merges into the target with the temporary message |
| BatchManagement.Sandwich | clpipe/batch_manager.py:104-109 | the sandwiched command is the prefix, the command, then the suffix |
| BatchManagement.JobInitAsWrittenFails | clpipe/batch_manager.py:95-102 | as written, a job without `tmp_dir` fails in `os.path.join`, and one with it fails in the sandwich |
| BatchManagement.Job.constructor | clpipe/batch_manager.py:95-102 | the fields are stored; with a `tmp_dir` the branch is `tmp_dir/job-<id>` and the command is sandwiched, otherwise it is kept |
| BatchManagement.Job.GitSandwich | clpipe/batch_manager.py:104-109 | the sandwich of the job's own target, branch, id and command |
| GlmPrepare.SelectModelUnique | clpipe/glm_prepare.py:53-57 | the selected block is the only one named `str(model)`; failure means no block or two blocks carry the name |
| GlmPrepare.SelectModelIff | clpipe/glm_prepare.py:53-57 | a model is selected exactly when its name is unique among the blocks |
| GlmPrepare.MarkerIndicesExact | clpipe/glm_prepare.py:69-74 | a marker's index list holds exactly the indices of the lines containing it, ascending |
| GlmPrepare.FindMarkersShape | clpipe/glm_prepare.py:69-74 | every marker index addresses a line, and the feat and EV index lists ascend |
| GlmPrepare.SelectImagesFilters | clpipe/glm_prepare.py:75-93 | selection fails exactly when both lists are set; otherwise it keeps, in order, exactly the paths passing include, exclude and task filters |
| GlmPrepare.FilesNotFoundEmpty | clpipe/glm_prepare.py:82-86 | the missing-file report is always empty |
| GlmPrepare.OutputNamesOfSuffixed | clpipe/glm_prepare.py:105-107 | `<stem>_<suffix>` gives `<OutputDir>/<stem>.feat` and `<FSFDir>/<stem>.fsf` |
| GlmPrepare.OutputNamesOfUnsuffixed | clpipe/glm_prepare.py:105-107 | a base name without `_<suffix>` is kept as it is in both names |
| GlmPrepare.EvFoundAll | clpipe/glm_prepare.py:136-149 | every EV suffix is found exactly when each search matched one file, and the files are in suffix order |
| GlmPrepare.EvConfoundMatSpec | clpipe/glm_prepare.py:129-167 | a result has one EV file per suffix, and a confound file exactly when a confound suffix is set |
| GlmPrepare.EvConfoundMatOk | clpipe/glm_prepare.py:129-167 | success exactly when every EV search and the confound search (if set) matched exactly one file, with those files as the result |
| GlmPrepare.EvConfoundMat | clpipe/glm_prepare.py:129-167 | the append loop over the EV suffixes and the confound search compute that result |
| GlmPrepare.ImageEditLines | clpipe/glm_prepare.py:108-120 | an image rewrites the volume count, output, image, reference (if set), confound (if set) and `custom(i+1)` lines, and leaves every other line unchanged |
| GlmPrepare.EditKeepsOthers | clpipe/glm_prepare.py:108-120 | a line no assignment targets keeps its text |
| GlmPrepare.SharedRunIsFresh | clpipe/glm_prepare.py:97-126 | editing the shared list gives the same files as editing fresh copies, while earlier edits touch only lines every edit rewrites |
| GlmPrepare.L1AliasingUnobservable | clpipe/glm_prepare.py:108 | although `new_fsf` aliases the prototype, every level-1 file equals the prototype with only that image's lines rewritten |
| GlmPrepare.PutLine | clpipe/glm_prepare.py:110 | one assignment into the array is one more write |
| GlmPrepare.WriteFixed | clpipe/glm_prepare.py:110-117 | the fixed assignments in place; an indexing failure on the first missing marker is reported |
| GlmPrepare.WriteEvLines | clpipe/glm_prepare.py:119-120 | the EV assignments in place; they fail exactly when there are more EV files than EV lines |
| GlmPrepare.RewriteImage | clpipe/glm_prepare.py:98-126 | one pass of the image loop on the shared array performs that image's step |
| GlmPrepare.RunImages | clpipe/glm_prepare.py:97-126 | the image loop on the shared array produces the level-1 run |
| GlmPrepare.GlmL1Propagate | clpipe/glm_prepare.py:65-126 | `_glm_l1_propagate` produces the specified level-1 outcome |
| GlmPrepare.UniqueInOrder | clpipe/glm_prepare.py:193 | each design-file name appears once, every name of the table appears, and the names come in the order of their first appearance in the table |
| GlmPrepare.FirstMissing | clpipe/glm_prepare.py:204-206 | the scan stops at the first missing feat folder, or at the end |
| GlmPrepare.L2Run | clpipe/glm_prepare.py:198-225 | one outcome per design file; a file is written exactly when its step succeeded, at the prototype's length |
| GlmPrepare.L2FileAt | clpipe/glm_prepare.py:198-225 | the i-th design file carries every write made so far, including those of failed design files |
| GlmPrepare.L2LinesCarryOver | clpipe/glm_prepare.py:200 | a line a design file does not write holds what earlier design files left there |
| GlmPrepare.L2StaleLine | clpipe/glm_prepare.py:200 | a line the first design file wrote and the second does not write appears in the second file |
| GlmPrepare.GroupStepOk | clpipe/glm_prepare.py:199-225 | a design file is written exactly when every folder exists and the needed lines exist; the first missing folder is the error reported |
| GlmPrepare.GroupLinesExact | clpipe/glm_prepare.py:204-219 | the k-th folder is at the k-th feat line as `feat_files(k)`, the output is `<OutputDir>/<fsf>.gfeat`, and the reference line is written when set |
| GlmPrepare.FillGroup | clpipe/glm_prepare.py:199-225 | one pass of the level-2 loop, with its `counter`, edits the shared array as the step says |
| GlmPrepare.RunGroups | clpipe/glm_prepare.py:198-225 | the loop over design files on the shared array produces the level-2 run |
| GlmPrepare.GlmL2Propagate | clpipe/glm_prepare.py:170-225 | `_glm_l2_propagate` produces the specified level-2 outcomes |
| GlmPrepare.GlmPrepareLevel | clpipe/glm_prepare.py:40-48 | `glm_prepare` stops before any work exactly when the level is not valid |
| GlmPrepare.GlmPrepareL1 | clpipe/glm_prepare.py:53-60 | at level 1 it propagates exactly when one level-1 block is named `model`, and then it propagates that block |
| GlmPrepare.GlmPrepareL2 | clpipe/glm_prepare.py:53-62 | at level 2 likewise, with the level-2 blocks |
| GlmPrepare.GlmPrepareRun | clpipe/glm_prepare.py:26-62 | `glm_prepare` produces the specified run |
| BidsConversion.GlobFormat | clpipe/bids_conversion.py:201-206 | the glob format has no `{subject}` or `{session}` left |
| BidsConversion.GlobFormatPlain | clpipe/bids_conversion.py:201-206 | a format without placeholders is used as it is |
| BidsConversion.FoundFolders | clpipe/bids_conversion.py:209-215 | one entry per folder the glob finds, in glob order, each the folder paired with what `parse` reads from it |
| BidsConversion.Fields | clpipe/bids_conversion.py:249 | the field of every record, in order; otherwise the first record's error |
| BidsConversion.Passing | clpipe/bids_conversion.py:222-227 | with no filter every record passes; with a filter, exactly the records whose field equals it |
| BidsConversion.Selection | clpipe/bids_conversion.py:218-230 | the selected indices ascend and are exactly the records matching both filters that were given |
| BidsConversion.Chosen | clpipe/bids_conversion.py:230-240 | the chosen records are exactly the matching ones, paired with their folders; an empty selection exits |
| BidsConversion.ConvString | clpipe/bids_conversion.py:242-247 | `BASE_CMD`, plus the session option exactly when the toggle is set and not longitudinal, plus the clobber options exactly when overwriting |
| BidsConversion.ConvTemplateTail | clpipe/bids_conversion.py:242-247 | the template is `BASE_CMD` followed by its optional options |
| BidsConversion.ConvArgsLookup | clpipe/bids_conversion.py:265-279 | the format arguments hold the folder, config, BIDS directory and subject, and a session exactly when one is passed |
| BidsConversion.BaseCmdFills | clpipe/bids_conversion.py:22-23 | `BASE_CMD` fills its four holes in order |
| BidsConversion.OptionsFill | clpipe/bids_conversion.py:243-247 | the optional options format to ` -s <session>` and ` --clobber --forceDcm2niix` |
| BidsConversion.ConvCommand | clpipe/bids_conversion.py:282 | formatting the template with the job's arguments gives the written-out dcm2bids command |
| BidsConversion.DcmJob | clpipe/bids_conversion.py:261-284 | a job is made exactly when the record has a subject, and a session when the layout has one; otherwise the field's error |
| BidsConversion.DcmJobOk | clpipe/bids_conversion.py:271-279 | the id is `convert_sub-<s>[_ses-<t>]`; longitudinally the subject gains `sess<t>`, otherwise the session argument is the `session` parameter |
| BidsConversion.MakeDcmJob | clpipe/bids_conversion.py:262-284 | the loop body builds the arguments and id step by step, and gives that job |
| BidsConversion.DcmJobs | clpipe/bids_conversion.py:261-287 | the jobs are made exactly when every record's job can be made |
| BidsConversion.DcmJobsKept | clpipe/bids_conversion.py:286-287 | exactly the jobs of records whose subject needs processing are added, in order |
| BidsConversion.DcmJobsAll | clpipe/bids_conversion.py:252 | without a status cache every selected record's job is added |
| BidsConversion.AddDcmJobs | clpipe/bids_conversion.py:261-287 | the job loop produces those jobs, stopping at the first record that fails |
| BidsConversion.Dcm2BidsWrapper | clpipe/bids_conversion.py:201-287 | `dcm2bids_wrapper`'s job list, up to the hand-off to the batch manager |
| BidsConversion.StripStars | clpipe/bids_conversion.py:323-324 | the parse string has no `*` left, and one without `*` is kept as it is |
| BidsConversion.WildcardArgsLookup | clpipe/bids_conversion.py:328-338 | the glob binds `subject` to `*`, and `session` too exactly when the format has one |
| BidsConversion.HeudiconvGlobSubject | clpipe/bids_conversion.py:336-338 | a subject-only format globs with `*` for the subject |
| BidsConversion.HeudiconvGlobSession | clpipe/bids_conversion.py:330-333 | a subject-and-session format globs with `*` for both |
| BidsConversion.HeudiconvGlobOtherField | clpipe/bids_conversion.py:328-338 | any other field in the format is an unbound-name error |
| BidsConversion.ParsedRecords | clpipe/bids_conversion.py:345 | one record per path that parses, in path order, each that path's parse result; a path that does not parse is dropped |
| BidsConversion.BySubjects | clpipe/bids_conversion.py:349-350 | with no subjects given all records stay; otherwise exactly the records whose subject occurs in the argument, in their original order, and a record without a subject raises |
| BidsConversion.HeudiconvString | clpipe/bids_conversion.py:353-361 | the session template for a session layout, the plain one otherwise, and the overwrite template when overwriting |
| BidsConversion.HeudiconvArgsLookup | clpipe/bids_conversion.py:372-386 | the format arguments hold the directory, subject, heuristic and output, and `sess` exactly when a session is passed |
| BidsConversion.SessionTemplateFills | clpipe/bids_conversion.py:354-355 | the session template fills its five holes in order |
| BidsConversion.FourHoleTemplateFills | clpipe/bids_conversion.py:357-361 | the plain and overwrite templates fill their four holes in order |
| BidsConversion.HeudiconvCommandFormat | clpipe/bids_conversion.py:353-386 | formatting the chosen template gives the written-out heudiconv command |
| BidsConversion.HeudiconvOverwrite | clpipe/bids_conversion.py:359-361 | with overwrite on, the command has no `-ss` part and ends in ` --overwrite`, whatever the session |
| BidsConversion.HeudiconvJob | clpipe/bids_conversion.py:363-386 | a job is made exactly when the record has a subject, and a session for a session layout; otherwise that `KeyError` |
| BidsConversion.HeudiconvJobs | clpipe/bids_conversion.py:363-387 | all jobs exactly when every record's job can be made, in record order; otherwise the first record's error |
| BidsConversion.MakeHeudiconvJob | clpipe/bids_conversion.py:364-386 | the loop body strips the ids step by step and gives that job |
| BidsConversion.AddHeudiconvJobs | clpipe/bids_conversion.py:363-387 | the job loop produces those jobs, stopping at the first record that fails |
| BidsConversion.HeudiconvWrapper | clpipe/bids_conversion.py:323-387 | `heudiconv_wrapper`'s job list, up to the hand-off to the batch manager |
| BidsConversion.Convert2BidsAsWrittenFails | clpipe/bids_conversion.py:133 | as written, no conversion succeeds, and every one the corrected model carries out raises at the `BatchManager` call |
| BidsConversion.Dcm2BidsAsWrittenFails | clpipe/bids_conversion.py:284 | as written, dcm2bids never produces jobs, and raises at the `Job` call wherever the corrected model produces them |
| BidsConversion.HeudiconvAsWrittenFails | clpipe/bids_conversion.py:372-381 | as written, heudiconv produces jobs only when there are none, and raises at the `Job` call otherwise |
| BidsConversion.Convert2BidsOverride | clpipe/bids_conversion.py:108-118 | two configurations that differ only in settings whose command-line argument is given lead to the same conversion |
| BidsConversion.Convert2BidsChecked | clpipe/bids_conversion.py:120-180 | a conversion is carried out only with the four required settings non-empty and the chosen converter's config or heuristic given, and it hands on the settled log directory and the configured memory, time and cores |
| BidsConversion.Convert2BidsErrorKinds | clpipe/bids_conversion.py:120-180 | a failed conversion names the first empty required setting, or the missing converter file, or is an error the converter raised while reading folders and records |
| BidsConversion.Convert2BidsGivenNotMissing | clpipe/bids_conversion.py:108-131 | a setting given on the command line is never reported missing, nor is a given conversion config or heuristic |
| BidsConversion.Convert2BidsJobShape | clpipe/bids_conversion.py:142-180 | every job of a conversion is named `convert_sub-...`; a dcm2bids job runs `dcm2bids -d` on a folder, and a heudiconv job runs the module load and `heudiconv -d` on the settled DICOM directory |
| BidsConversion.DcmJobShape | clpipe/bids_conversion.py:271-282 | a dcm2bids job's id starts with `convert_sub-` and the record's subject, and its command starts with `dcm2bids -d` and the record's folder |
| BidsConversion.HeudiconvJobShape | clpipe/bids_conversion.py:363-386 | a heudiconv job's id starts with `convert_sub-` and the record's subject, and its command starts with the module load and `heudiconv -d` on the DICOM directory |
| PyFormat.Fill | clpipe/batch_manager.py:46 | filling succeeds exactly when every hole is bound; otherwise the leftmost unbound name is the error |
| PyFormat.FormatIsFill | clpipe/batch_manager.py:46 | formatting a string is filling the template it parses to |
| PyFormat.UnparseParse | clpipe/batch_manager.py:46 | writing a parsed template back gives the original string |
| PyFormat.FormatUnparse | clpipe/batch_manager.py:46 | formatting a written-down template is filling it |
| PyFormat.FormatAppend | clpipe/batch_manager.py:46 | formatting a concatenation formats the parts in turn |
| PyFormat.FormatJoin | clpipe/batch_manager.py:79 | formatting the joined header formats each part on its own |
| PyFormat.FormatTwice | clpipe/batch_manager.py:68-70 | formatting twice is filling once from the values formatted again |
| Paths.PathJoinShape | clpipe/batch_manager.py:100 | an absolute second argument replaces the first; otherwise the first is a prefix |
| Paths.BasenameShape | clpipe/glm_prepare.py:99 | the base name is the slash-free tail of the path |
| Paths.NormAbsIdempotent | clpipe/batch_manager.py:24 | `normpath` is idempotent on absolute paths |
| Paths.AbsPathNormal | clpipe/batch_manager.py:24 | `abspath` returns a normal absolute path |
| Paths.AbsPathOfJoin | clpipe/batch_manager.py:73 | joining a plain name to a normal directory needs no normalisation |
| Strings.ContainsIffOccurs | clpipe/glm_prepare.py:69 | `sub in s` holds exactly when `sub` occurs at some position |
| Strings.ReplaceRemoves | clpipe/bids_conversion.py:323-324 | after replacing every occurrence with a text that cannot recreate the pattern, the pattern no longer occurs |
| Strings.ReplaceAtEnd | clpipe/glm_prepare.py:105 | replacing a pattern that occurs only at the end swaps that occurrence |
| Strings.JoinSplit | clpipe/batch_manager.py:85-87 | splitting a text at a character and joining the pieces with it gives the text back |
| Strings.SplitJoin | clpipe/batch_manager.py:85-87 | joining pieces that do not contain the character and splitting again gives back the pieces |
| Strings.NatToStringDecimal | clpipe/glm_prepare.py:110 | `str(n)` is the digits of `n` without a leading zero |
| Comprehensions.IndicesWhere | clpipe/glm_prepare.py:69-74 | the indices of the elements that satisfy the test, ascending |
| Comprehensions.IndicesWhereComplete | clpipe/glm_prepare.py:69-74 | every element that satisfies the test has its index listed |
| Comprehensions.KeepComplete | clpipe/glm_prepare.py:80-93 | a filter keeps every element that passes |
| Comprehensions.KeepKeep | clpipe/glm_prepare.py:80-93 | two filters one after the other are one filter on both conditions |
| Comprehensions.CollectFirstError | clpipe/bids_conversion.py:363-387 | a loop that stops at the first error reports the first failing element |

## Left out

- Files, processes and logging are not modelled. This covers the file reads and writes, `os.system`, `click.echo`, `os.makedirs`/`os.mkdir`, `sys.exit` (an error result instead), and every logger call. Written design files are values, and submitted or printed jobs are returned.
- JSON parsing of the scheduler profile and of the project and GLM configurations is not modelled: each is given as a value. `LoadConfig` models only the choice between a profile file and a packaged one.
- `nibabel`, `pandas.read_csv`, `glob` and `parse.parse`, and the status cache (`needs_processing`, `write_record`) are inputs. Their own behaviour is not modelled.
- The working directory is an input and is assumed absolute, which is why `abspath`-using members require `IsAbs(cwd)`.
- `str.format` is modelled for named fields only. Conversions (`!r`), format specs (`:>5`), attribute and index access and positional fields are not.
- Python's `is not ""` and `is not 1` tests are modelled as `!=`. For the strings and small integers involved, CPython gives that answer.
- The include and exclude lists of a level-1 block hold base names or the empty string. Other JSON types are not modelled. Profile values are strings, numbers, flags or option lists; profile lists are never inserted by `format`.
- `_apply_mumford_workaround` and `glm_apply_mumford_workaround` (clpipe/glm_prepare.py:228-297) only create, copy and remove files, so they are not modelled. The level-2 loop's call to the workaround is left out with them.
- At level 2 only `FileNotFoundError` and `IndexError` are caught. Other failures caught by `except Exception` cannot arise in the model.
- The union of `nibabel` failures (a 3-D image has no `shape[3]`) is not modelled. The volume count is always a given number.
- `VALID_L1` and `VALID_L2` come from a configuration module that is not part of this model. They are parameters.
- `set(sub_inds) & set(sess_inds)` is turned back into a list in an order Python does not fix (clpipe/bids_conversion.py:230). The model uses ascending index order.
- The conversion jobs are not handed to a `BatchManager`, for these reasons:
  - `import LOGGER_NAME` at clpipe/bids_conversion.py:2 names something batch_manager.py does not define.
  - `create_submission_head` (:134) and `compile_job_strings` (:289) do not exist; the methods are `createsubmissionhead` and `compilejobstrings`.
  - `dcm2bids_wrapper` is called with `log_dir` and `debug` keywords it does not take (:159-161).

  The model's result is the job list those calls would receive. Submitting, printing and writing the status records (:289-303, :390-394) are left out.
- `config_parser.setup_dcm2bids` and `setup_heudiconv` (clpipe/bids_conversion.py:149-154, 171-174) write configuration files, so they are not modelled.
- The `else` branch at clpipe/bids_conversion.py:182-183 cannot be reached, because `dcm2bids` is a flag.
- `dicom_to_nifti_to_bids_converter_setup` (clpipe/bids_conversion.py:397 onward) and the command-line wrapper `convert2bids_cli` are not part of this model.
- A list of subjects is not modelled. The `-subjects` option (clpipe/bids_conversion.py:72) takes one string, so `x['subject'] in subjects` at :350 is a substring test, and that test is what is modelled.
- BatchManagement.BatchManager.constructor: the `project_dir` parameter (clpipe/batch_manager.py:12) is accepted but never used by `__init__`, so the constructor does not take it. It also neither creates the output directory nor checks it.

## Findings

| source | as written | input that shows it | evidently intended | confidence | as-written member | corrected member |
|---|---|---|---|---|---|---|
| clpipe/batch_manager.py:15 | an existing profile file is opened with `os.open(path)`, which needs a flags argument and returns a descriptor, not a file | any profile name that is an existing file | open the file with `open(path)` and load it as JSON | not executed | BatchManagement.LoadConfigAsWritten, BatchManagement.LoadConfigDiscrepancy | BatchManagement.LoadConfig |
| clpipe/batch_manager.py:100-101 | `os.path.join(self.tmp_dir, ...)` runs before the `None` check, so `tmp_dir=None` raises `TypeError` | `Job("1", "cmd", "ds", None, "m")` | compute the branch only when `tmp_dir` is given, and otherwise keep the command | not executed | BatchManagement.JobInitAsWritten, BatchManagement.JobInitAsWrittenFails | BatchManagement.Job.constructor |
| clpipe/batch_manager.py:107 | the suffix template names `{target_dataset}` but only `target_dir` is supplied, so building any sandwich raises `KeyError` | `Job("1", "cmd", "ds", "/tmp", "m")` | merge into the target dataset given as `target_dir` | not executed | BatchManagement.GitSandwichAsWritten, BatchManagement.GitSandwichAsWrittenFails | BatchManagement.Sandwich |
| clpipe/bids_conversion.py:133 | `BatchManager(batch_config, log_dir, debug=debug)` has two binding faults: it passes a `debug` keyword `__init__` does not take, so every conversion that passes the checks raises `TypeError`; and `log_dir` binds to the unused `project_dir`, not to `outputDirectory`, so the scheduler logs would go under `.` | any settings with all four required values non-empty | construct the manager with `outputDirectory=log_dir` and no `debug` keyword, so that the log directory is the output directory | not executed | BidsConversion.Convert2BidsAsWritten, BidsConversion.Convert2BidsAsWrittenFails | BidsConversion.Convert2Bids |
| clpipe/bids_conversion.py:284 | `Job(job_id, submission_string)` passes two of the five arguments `Job.__init__` requires, so the first selected folder raises `TypeError` | a format `{subject}` whose glob finds one folder that parses | a job with that id and command | not executed | BidsConversion.Dcm2BidsAsWritten, BidsConversion.Dcm2BidsAsWrittenFails | BidsConversion.Dcm2BidsWrapper |
| clpipe/bids_conversion.py:372-381 | both heudiconv `Job(...)` calls pass two arguments, so any parsed record raises `TypeError` | a format `{subject}` whose glob finds one path that parses | a job with that id and command | not executed | BidsConversion.HeudiconvAsWritten, BidsConversion.HeudiconvAsWrittenFails | BidsConversion.HeudiconvWrapper |
