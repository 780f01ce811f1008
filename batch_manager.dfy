/**
 * The batch submission layer of clpipe: a scheduler profile (a dictionary of
 * directive templates, defaults and flags), a list of jobs, and the list of
 * submission strings compiled from them. The profile is given as a value:
 * reading it from a JSON file or a packaged resource is outside the model.
 */
module BatchManagement {
  import opened Wrappers
  import opened Strings
  import opened Paths
  import opened PyFormat

  /** One `{command, args}` entry of `SubmissionOptions` or `SubOptionsEqual`. */
  datatype OptionPair = OptionPair(command: string, args: string)

  /** A value of the scheduler profile, as JSON delivers it. */
  datatype ConfigValue =
    | Text(text: string)
    | Number(number: int)
    | Flag(flag: bool)
    | Pairs(pairs: seq<OptionPair>)

  type Config = map<string, ConfigValue>

  datatype BatchError =
    | MissingKey(key: string)                      // `KeyError` on the profile
    | WrongType(key: string)                       // the value at `key` has the wrong JSON type
    | DirectiveFailed(key: string, cause: FormatError)  // formatting the template at `key` failed
    | JobFailed(index: nat, cause: FormatError)    // formatting the header for the job at `index` failed

  /** Python's truthiness of a profile value. */
  predicate Truthy(v: ConfigValue) {
    match v
    case Text(s) => s != ""
    case Number(n) => n != 0
    case Flag(b) => b
    case Pairs(ps) => ps != []
  }

  /** `str(n)` for an integer. */
  function IntToString(n: int): string {
    if n < 0 then "-" + NatToString(-n) else NatToString(n)
  }

  /** The text `format` inserts for a profile value; lists are not rendered. */
  function PyStr(v: ConfigValue): Option<string> {
    match v
    case Text(s) => Some(s)
    case Number(n) => Some(IntToString(n))
    case Flag(b) => Some(if b then "True" else "False")
    case Pairs(_) => None
  }

  /** `config[key]`. */
  function Lookup(c: Config, key: string): (r: Result<ConfigValue, BatchError>)
    ensures r.Ok? <==> key in c
    ensures r.Ok? ==> r.value == c[key]
    ensures r.Err? ==> r.error == MissingKey(key)
  {
    if key in c then Ok(c[key]) else Err(MissingKey(key))
  }

  /**
   * The entries `for e in config[key]` visits. A list of pairs is visited in
   * order; an empty string visits nothing; anything else fails.
   */
  function LookupPairs(c: Config, key: string): (r: Result<seq<OptionPair>, BatchError>)
    ensures r.Ok? <==> key in c && (c[key].Pairs? || c[key] == Text(""))
    ensures r.Ok? ==> r.value == if c[key].Pairs? then c[key].pairs else []
    ensures r.Err? ==> r.error == if key in c then WrongType(key) else MissingKey(key)
  {
    var v :- Lookup(c, key);
    if v.Pairs? then Ok(v.pairs)
    else if v == Text("") then Ok([])
    else Err(WrongType(key))
  }

  /** `template.format(**env)` for the template found at `key`. */
  function FormatAt(key: string, template: string, env: Env): (r: Result<string, BatchError>)
    ensures r.Ok? <==> Format(template, env).Ok?
    ensures r.Ok? ==> r.value == Format(template, env).value
    ensures r.Err? ==> r.error == DirectiveFailed(key, Format(template, env).error)
  {
    match Format(template, env)
    case Ok(s) => Ok(s)
    case Err(e) => Err(DirectiveFailed(key, e))
  }

  /** `config[templateKey].format(hole=config[valueKey])`, in Python's evaluation order. */
  function Directive(c: Config, templateKey: string, hole: string, valueKey: string): Result<string, BatchError> {
    var t :- Lookup(c, templateKey);
    if !t.Text? then Err(WrongType(templateKey))
    else
      var v :- Lookup(c, valueKey);
      if PyStr(v).None? then Err(WrongType(valueKey))
      else FormatAt(templateKey, t.text, map[hole := PyStr(v).value])
  }

  /** A directive emitted only when the profile's flag at `flagKey` is truthy. */
  function Gated(c: Config, flagKey: string, templateKey: string, hole: string, valueKey: string)
    : Result<seq<string>, BatchError>
  {
    var flag :- Lookup(c, flagKey);
    if Truthy(flag) then
      var d :- Directive(c, templateKey, hole, valueKey);
      Ok([d])
    else Ok([])
  }

  /** The job-ID directive, which keeps a literal `{jobid}` hole for the later compile step. */
  function JobIdDirective(c: Config): Result<seq<string>, BatchError> {
    var flag :- Lookup(c, "JobIDCommandActive");
    if Truthy(flag) then
      var t :- Lookup(c, "JobIDCommand");
      if !t.Text? then Err(WrongType("JobIDCommand"))
      else
        var d :- FormatAt("JobIDCommand", t.text, map["jobid" := "{jobid}"]);
        Ok([d])
    else Ok([])
  }

  /** The file name of a job's scheduler log, holding the `{jobid}` hole and the scheduler's `%j`. */
  const OutputName: string := "Output-{jobid}-jobid-%j.out"

  /** `os.path.abspath(os.path.join(outputDir, OutputName))`. */
  function OutputPath(outputDir: string): string
    requires IsAbs(outputDir)
  {
    NormAbs(PathJoin(outputDir, OutputName))
  }

  /** The output directive, fed the log path. */
  function OutputDirective(c: Config, outputDir: string): Result<seq<string>, BatchError>
    requires IsAbs(outputDir)
  {
    var flag :- Lookup(c, "OutputCommandActive");
    if Truthy(flag) then
      var t :- Lookup(c, "OutputCommand");
      if !t.Text? then Err(WrongType("OutputCommand"))
      else
        var d :- FormatAt("OutputCommand", t.text, map["output" := OutputPath(outputDir)]);
        Ok([d])
    else Ok([])
  }

  /** The email directive: emitted when `EmailAddress` is truthy; no active flag is read. */
  function EmailDirective(c: Config): Result<seq<string>, BatchError> {
    var address :- Lookup(c, "EmailAddress");
    if Truthy(address) then
      var d :- Directive(c, "EmailCommand", "email", "EmailAddress");
      Ok([d])
    else Ok([])
  }

  /** Each option entry rendered as `command + sep + args`, in order. */
  function RenderOptions(ps: seq<OptionPair>, sep: string): (r: seq<string>)
    ensures |r| == |ps|
    ensures forall i :: 0 <= i < |ps| ==> r[i] == ps[i].command + sep + ps[i].args
  {
    seq(|ps|, i requires 0 <= i < |ps| => ps[i].command + sep + ps[i].args)
  }

  /** Appends each option entry, rendered as `command + sep + args`, in order. */
  method AppendOptions(head: seq<string>, ps: seq<OptionPair>, sep: string) returns (out: seq<string>)
    ensures out == head + RenderOptions(ps, sep)
  {
    out := head;
    var i := 0;
    while i < |ps|
      invariant 0 <= i <= |ps|
      invariant out == head + RenderOptions(ps[..i], sep)
    {
      var e := ps[i];
      out := out + [e.command + sep + e.args];
      i := i + 1;
    }
    assert ps[..i] == ps;
  }

  /** The header parts between the submission head and the command wrapper. */
  function HeadBody(c: Config, outputDir: string): Result<seq<string>, BatchError>
    requires IsAbs(outputDir)
  {
    var opts :- LookupPairs(c, "SubmissionOptions");
    var eqs :- LookupPairs(c, "SubOptionsEqual");
    var mem :- Directive(c, "MemoryCommand", "mem", "MemoryDefault");
    var time :- Gated(c, "TimeCommandActive", "TimeCommand", "time", "TimeDefault");
    var threads :- Gated(c, "ThreadCommandActive", "NThreadsCommand", "nthreads", "NThreads");
    var jobid :- JobIdDirective(c);
    var output :- OutputDirective(c, outputDir);
    var email :- EmailDirective(c);
    Ok(RenderOptions(opts, " ") + RenderOptions(eqs, "=") + [mem] + time + threads + jobid + output + email)
  }

  /**
   * The directives of the submission header, in the order they are joined.
   * `SubmissionHead` and `CommandWrapper` are only checked to be strings when
   * the parts are joined, after every other lookup.
   */
  function HeadParts(c: Config, outputDir: string): Result<seq<string>, BatchError>
    requires IsAbs(outputDir)
  {
    var head :- Lookup(c, "SubmissionHead");
    var body :- HeadBody(c, outputDir);
    var wrapper :- Lookup(c, "CommandWrapper");
    if !head.Text? then Err(WrongType("SubmissionHead"))
    else if !wrapper.Text? then Err(WrongType("CommandWrapper"))
    else Ok([head.text] + body + [wrapper.text])
  }

  /** The submission header: the parts joined by single spaces. */
  function SubmissionHead(c: Config, outputDir: string): Result<string, BatchError>
    requires IsAbs(outputDir)
  {
    var parts :- HeadParts(c, outputDir);
    Ok(Join(" ", parts))
  }

  /** The keys the header reads. */
  const HeaderKeys: set<string> := {
    "SubmissionHead", "SubmissionOptions", "SubOptionsEqual", "MemoryCommand", "MemoryDefault",
    "TimeCommandActive", "TimeCommand", "TimeDefault", "ThreadCommandActive", "NThreadsCommand",
    "NThreads", "JobIDCommandActive", "JobIDCommand", "OutputCommandActive", "OutputCommand",
    "EmailAddress", "EmailCommand", "CommandWrapper"
  }

  /** Two profiles that agree on the keys in `keys`. */
  predicate AgreeOn(c1: Config, c2: Config, keys: set<string>) {
    forall k :: k in keys ==> (k in c1 <==> k in c2) && (k in c1 ==> c1[k] == c2[k])
  }

  /**
   * The header parts in order: the submission head, each `SubmissionOptions`
   * entry as "command args", each `SubOptionsEqual` entry as "command=args", the
   * memory directive, the gated directives, and last the command wrapper; both
   * ends must be strings.
   */
  lemma HeadPartsOrder(c: Config, d: string)
    requires IsAbs(d) && HeadParts(c, d).Ok?
    ensures HeadBody(c, d).Ok? && "SubmissionHead" in c && "CommandWrapper" in c
    ensures c["SubmissionHead"].Text? && c["CommandWrapper"].Text?
    ensures HeadParts(c, d).value == [c["SubmissionHead"].text] + HeadBody(c, d).value + [c["CommandWrapper"].text]
  {
  }

  /** The body: the option entries, the memory directive, then the gated directives in order. */
  lemma HeadBodyOrder(c: Config, d: string)
    requires IsAbs(d) && HeadBody(c, d).Ok?
    ensures LookupPairs(c, "SubmissionOptions").Ok? && LookupPairs(c, "SubOptionsEqual").Ok?
    ensures Directive(c, "MemoryCommand", "mem", "MemoryDefault").Ok?
    ensures Gated(c, "TimeCommandActive", "TimeCommand", "time", "TimeDefault").Ok?
    ensures Gated(c, "ThreadCommandActive", "NThreadsCommand", "nthreads", "NThreads").Ok?
    ensures JobIdDirective(c).Ok? && OutputDirective(c, d).Ok? && EmailDirective(c).Ok?
    ensures HeadBody(c, d).value
      == RenderOptions(LookupPairs(c, "SubmissionOptions").value, " ")
      + RenderOptions(LookupPairs(c, "SubOptionsEqual").value, "=")
      + [Directive(c, "MemoryCommand", "mem", "MemoryDefault").value]
      + Gated(c, "TimeCommandActive", "TimeCommand", "time", "TimeDefault").value
      + Gated(c, "ThreadCommandActive", "NThreadsCommand", "nthreads", "NThreads").value
      + JobIdDirective(c).value + OutputDirective(c, d).value + EmailDirective(c).value
  {
  }

  /** A gated directive is emitted exactly when its flag is truthy. */
  lemma GatedIff(c: Config, flagKey: string, templateKey: string, hole: string, valueKey: string)
    requires Gated(c, flagKey, templateKey, hole, valueKey).Ok?
    ensures flagKey in c
    ensures Truthy(c[flagKey]) ==> Directive(c, templateKey, hole, valueKey).Ok?
    ensures Gated(c, flagKey, templateKey, hole, valueKey).value
      == if Truthy(c[flagKey]) then [Directive(c, templateKey, hole, valueKey).value] else []
  {
  }

  /** The job-ID directive is emitted exactly when `JobIDCommandActive` is truthy, with `{jobid}` kept. */
  lemma JobIdIff(c: Config)
    requires JobIdDirective(c).Ok?
    ensures "JobIDCommandActive" in c
    ensures Truthy(c["JobIDCommandActive"]) ==>
      c["JobIDCommand"].Text? && Format(c["JobIDCommand"].text, map["jobid" := "{jobid}"]).Ok?
    ensures JobIdDirective(c).value == if Truthy(c["JobIDCommandActive"])
      then [Format(c["JobIDCommand"].text, map["jobid" := "{jobid}"]).value] else []
  {
  }

  /** The output directive is emitted exactly when `OutputCommandActive` is truthy, fed the log path. */
  lemma OutputIff(c: Config, d: string)
    requires IsAbs(d) && OutputDirective(c, d).Ok?
    ensures "OutputCommandActive" in c
    ensures Truthy(c["OutputCommandActive"]) ==>
      c["OutputCommand"].Text? && Format(c["OutputCommand"].text, map["output" := OutputPath(d)]).Ok?
    ensures OutputDirective(c, d).value == if Truthy(c["OutputCommandActive"])
      then [Format(c["OutputCommand"].text, map["output" := OutputPath(d)]).value] else []
  {
  }

  /** The email directive is emitted exactly when `EmailAddress` is truthy. */
  lemma EmailIff(c: Config)
    requires EmailDirective(c).Ok?
    ensures "EmailAddress" in c
    ensures Truthy(c["EmailAddress"]) ==> Directive(c, "EmailCommand", "email", "EmailAddress").Ok?
    ensures EmailDirective(c).value
      == if Truthy(c["EmailAddress"]) then [Directive(c, "EmailCommand", "email", "EmailAddress").value] else []
  {
  }

  /** The number of header parts: three fixed ones, the option entries, and one per open gate. */
  lemma HeadPartsCount(c: Config, d: string)
    requires IsAbs(d) && HeadParts(c, d).Ok?
    ensures |HeadParts(c, d).value|
      == 3 + |LookupPairs(c, "SubmissionOptions").value| + |LookupPairs(c, "SubOptionsEqual").value|
      + (if Truthy(c["TimeCommandActive"]) then 1 else 0)
      + (if Truthy(c["ThreadCommandActive"]) then 1 else 0)
      + (if Truthy(c["JobIDCommandActive"]) then 1 else 0)
      + (if Truthy(c["OutputCommandActive"]) then 1 else 0)
      + (if Truthy(c["EmailAddress"]) then 1 else 0)
  {
    HeadPartsOrder(c, d);
    HeadBodyOrder(c, d);
    GatedIff(c, "TimeCommandActive", "TimeCommand", "time", "TimeDefault");
    GatedIff(c, "ThreadCommandActive", "NThreadsCommand", "nthreads", "NThreads");
    JobIdIff(c);
    OutputIff(c, d);
    EmailIff(c);
  }

  /** The entries the job-ID, output and email directives read. */
  const FlaggedKeys: set<string> :=
    {"JobIDCommandActive", "JobIDCommand", "OutputCommandActive", "OutputCommand", "EmailAddress", "EmailCommand"}

  /** The entries read around the directives: both ends and the two option lists. */
  const FrameKeys: set<string> := {"SubmissionHead", "SubmissionOptions", "SubOptionsEqual", "CommandWrapper"}

  /** A directive depends only on its template and value entries. */
  lemma DirectiveAgree(c1: Config, c2: Config, templateKey: string, hole: string, valueKey: string)
    requires Lookup(c1, templateKey) == Lookup(c2, templateKey) && Lookup(c1, valueKey) == Lookup(c2, valueKey)
    ensures Directive(c1, templateKey, hole, valueKey) == Directive(c2, templateKey, hole, valueKey)
  {
  }

  /** A gated directive depends only on its flag, template and value entries. */
  lemma GatedAgree(c1: Config, c2: Config, flagKey: string, templateKey: string, hole: string, valueKey: string)
    requires Lookup(c1, flagKey) == Lookup(c2, flagKey)
    requires Lookup(c1, templateKey) == Lookup(c2, templateKey) && Lookup(c1, valueKey) == Lookup(c2, valueKey)
    ensures Gated(c1, flagKey, templateKey, hole, valueKey) == Gated(c2, flagKey, templateKey, hole, valueKey)
  {
    DirectiveAgree(c1, c2, templateKey, hole, valueKey);
  }

  /** The job-ID, output and email directives depend only on their own entries. */
  lemma FlaggedAgree(c1: Config, c2: Config, d: string)
    requires IsAbs(d)
    requires forall k :: k in FlaggedKeys ==> Lookup(c1, k) == Lookup(c2, k)
    ensures JobIdDirective(c1) == JobIdDirective(c2)
    ensures OutputDirective(c1, d) == OutputDirective(c2, d)
    ensures EmailDirective(c1) == EmailDirective(c2)
  {
    assert Lookup(c1, "JobIDCommandActive") == Lookup(c2, "JobIDCommandActive");
    assert Lookup(c1, "JobIDCommand") == Lookup(c2, "JobIDCommand");
    assert Lookup(c1, "OutputCommandActive") == Lookup(c2, "OutputCommandActive");
    assert Lookup(c1, "OutputCommand") == Lookup(c2, "OutputCommand");
    assert Lookup(c1, "EmailAddress") == Lookup(c2, "EmailAddress");
    DirectiveAgree(c1, c2, "EmailCommand", "email", "EmailAddress");
  }

  /** The header parts are determined by their components. */
  lemma PartsAgree(c1: Config, c2: Config, d: string)
    requires IsAbs(d)
    requires forall k :: k in FrameKeys ==> Lookup(c1, k) == Lookup(c2, k)
    requires Directive(c1, "MemoryCommand", "mem", "MemoryDefault") == Directive(c2, "MemoryCommand", "mem", "MemoryDefault")
    requires Gated(c1, "TimeCommandActive", "TimeCommand", "time", "TimeDefault")
      == Gated(c2, "TimeCommandActive", "TimeCommand", "time", "TimeDefault")
    requires Gated(c1, "ThreadCommandActive", "NThreadsCommand", "nthreads", "NThreads")
      == Gated(c2, "ThreadCommandActive", "NThreadsCommand", "nthreads", "NThreads")
    requires JobIdDirective(c1) == JobIdDirective(c2)
    requires OutputDirective(c1, d) == OutputDirective(c2, d)
    requires EmailDirective(c1) == EmailDirective(c2)
    ensures HeadParts(c1, d) == HeadParts(c2, d)
  {
    assert Lookup(c1, "SubmissionOptions") == Lookup(c2, "SubmissionOptions");
    assert Lookup(c1, "SubOptionsEqual") == Lookup(c2, "SubOptionsEqual");
    assert LookupPairs(c1, "SubmissionOptions") == LookupPairs(c2, "SubmissionOptions");
    assert LookupPairs(c1, "SubOptionsEqual") == LookupPairs(c2, "SubOptionsEqual");
    assert HeadBody(c1, d) == HeadBody(c2, d);
    assert Lookup(c1, "SubmissionHead") == Lookup(c2, "SubmissionHead");
    assert Lookup(c1, "CommandWrapper") == Lookup(c2, "CommandWrapper");
  }

  /** The header reads only `HeaderKeys`: any other entry of the profile is irrelevant. */
  lemma HeaderReadsOnly(c1: Config, c2: Config, d: string)
    requires IsAbs(d) && AgreeOn(c1, c2, HeaderKeys)
    ensures HeadParts(c1, d) == HeadParts(c2, d)
  {
    assert forall k :: k in HeaderKeys ==> Lookup(c1, k) == Lookup(c2, k);
    DirectiveAgree(c1, c2, "MemoryCommand", "mem", "MemoryDefault");
    GatedAgree(c1, c2, "TimeCommandActive", "TimeCommand", "time", "TimeDefault");
    GatedAgree(c1, c2, "ThreadCommandActive", "NThreadsCommand", "nthreads", "NThreads");
    FlaggedAgree(c1, c2, d);
    PartsAgree(c1, c2, d);
  }

  /** An `EmailCommandActive` entry, or any other unread key, does not change the header. */
  lemma EmailActiveFlagIgnored(c: Config, key: string, v: ConfigValue, d: string)
    requires IsAbs(d) && key !in HeaderKeys
    ensures HeadParts(c[key := v], d) == HeadParts(c, d)
  {
    HeaderReadsOnly(c[key := v], c, d);
  }

  /** With a falsy `TimeCommandActive`, the time template and default do not matter. */
  lemma InactiveTimeIgnored(c: Config, command: ConfigValue, default: ConfigValue, d: string)
    requires IsAbs(d) && "TimeCommandActive" in c && !Truthy(c["TimeCommandActive"])
    ensures Gated(c, "TimeCommandActive", "TimeCommand", "time", "TimeDefault") == Ok([])
    ensures HeadParts(c["TimeCommand" := command]["TimeDefault" := default], d) == HeadParts(c, d)
  {
    var c' := c["TimeCommand" := command]["TimeDefault" := default];
    var keys := HeaderKeys - {"TimeCommand", "TimeDefault"};
    assert forall k :: k in keys ==> Lookup(c', k) == Lookup(c, k);
    DirectiveAgree(c', c, "MemoryCommand", "mem", "MemoryDefault");
    assert Gated(c', "TimeCommandActive", "TimeCommand", "time", "TimeDefault") == Ok([]);
    GatedAgree(c', c, "ThreadCommandActive", "NThreadsCommand", "nthreads", "NThreads");
    FlaggedAgree(c', c, d);
    PartsAgree(c', c, d);
  }

  /** With a falsy `EmailAddress`, the email template does not matter and no email directive is emitted. */
  lemma UnsetEmailIgnored(c: Config, command: ConfigValue, d: string)
    requires IsAbs(d) && "EmailAddress" in c && !Truthy(c["EmailAddress"])
    ensures EmailDirective(c) == Ok([])
    ensures HeadParts(c["EmailCommand" := command], d) == HeadParts(c, d)
  {
    var c' := c["EmailCommand" := command];
    var keys := HeaderKeys - {"EmailCommand"};
    assert forall k :: k in keys ==> Lookup(c', k) == Lookup(c, k);
    DirectiveAgree(c', c, "MemoryCommand", "mem", "MemoryDefault");
    GatedAgree(c', c, "TimeCommandActive", "TimeCommand", "time", "TimeDefault");
    GatedAgree(c', c, "ThreadCommandActive", "NThreadsCommand", "nthreads", "NThreads");
    assert JobIdDirective(c') == JobIdDirective(c);
    assert OutputDirective(c', d) == OutputDirective(c, d);
    assert EmailDirective(c') == Ok([]);
    PartsAgree(c', c, d);
  }

  /** `off` is `on` with exactly one occurrence of `x` taken out, the rest in order. */
  predicate DropsOne(on: seq<string>, off: seq<string>, x: string) {
    exists k :: 0 <= k < |on| && on[k] == x && off == on[..k] + on[k + 1..]
  }

  /** Taking out the first element. */
  lemma DropsFront(x: string, rest: seq<string>)
    ensures DropsOne([x] + rest, rest, x)
  {
    assert ([x] + rest)[1..] == rest;
    assert ([x] + rest)[..0] + ([x] + rest)[1..] == rest;
  }

  /** A common prefix keeps a one-element drop. */
  lemma DropsUnder(p: seq<string>, on: seq<string>, off: seq<string>, x: string)
    requires DropsOne(on, off, x)
    ensures DropsOne(p + on, p + off, x)
  {
    var k :| 0 <= k < |on| && on[k] == x && off == on[..k] + on[k + 1..];
    var j := |p| + k;
    var whole := p + on;
    var front, back := whole[..j], whole[j + 1..];
    var pre, post := p + on[..k], on[k + 1..];
    assert |front| == |pre| && forall i :: 0 <= i < |front| ==> front[i] == pre[i];
    assert |back| == |post| && forall i :: 0 <= i < |back| ==> back[i] == post[i];
    assert p + off == pre + post;
    assert 0 <= j < |whole| && whole[j] == x && p + off == whole[..j] + whole[j + 1..];
  }

  /** The pieces of a header, in the order they are joined. */
  datatype Layout = Layout(
    head: string, options: seq<string>, memory: string, time: seq<string>, threads: seq<string>,
    jobid: seq<string>, output: seq<string>, email: seq<string>, wrapper: string)

  function Flat(l: Layout): seq<string> {
    [l.head] + (l.options + ([l.memory] + (l.time + (l.threads + (l.jobid + (l.output + (l.email + [l.wrapper])))))))
  }

  /** The pieces of a header that can be built. */
  function LayoutOf(c: Config, d: string): Layout
    requires IsAbs(d) && HeadParts(c, d).Ok?
  {
    HeadPartsOrder(c, d);
    HeadBodyOrder(c, d);
    Layout(
      c["SubmissionHead"].text,
      RenderOptions(LookupPairs(c, "SubmissionOptions").value, " ") + RenderOptions(LookupPairs(c, "SubOptionsEqual").value, "="),
      Directive(c, "MemoryCommand", "mem", "MemoryDefault").value,
      Gated(c, "TimeCommandActive", "TimeCommand", "time", "TimeDefault").value,
      Gated(c, "ThreadCommandActive", "NThreadsCommand", "nthreads", "NThreads").value,
      JobIdDirective(c).value, OutputDirective(c, d).value, EmailDirective(c).value,
      c["CommandWrapper"].text)
  }

  lemma RegroupBody(h: string, o: seq<string>, m: string, t: seq<string>, th: seq<string>, j: seq<string>,
                    ou: seq<string>, e: seq<string>, w: string)
    ensures [h] + (o + [m] + t + th + j + ou + e) + [w]
      == [h] + (o + ([m] + (t + (th + (j + (ou + (e + [w])))))))
  {
  }

  lemma HeadLayout(c: Config, d: string)
    requires IsAbs(d) && HeadParts(c, d).Ok?
    ensures HeadParts(c, d).value == Flat(LayoutOf(c, d))
  {
    HeadPartsOrder(c, d);
    HeadBodyOrder(c, d);
    var l := LayoutOf(c, d);
    RegroupBody(l.head, l.options, l.memory, l.time, l.threads, l.jobid, l.output, l.email, l.wrapper);
  }

  /** Emptying a one-directive piece drops exactly that directive. */
  lemma FlatDropsTime(l: Layout, x: string)
    requires l.time == [x]
    ensures DropsOne(Flat(l), Flat(l.(time := [])), x)
  {
    var r := l.threads + (l.jobid + (l.output + (l.email + [l.wrapper])));
    assert [] + r == r;
    DropsFront(x, r);
    DropsUnder([l.memory], [x] + r, r, x);
    DropsUnder(l.options, [l.memory] + ([x] + r), [l.memory] + r, x);
    DropsUnder([l.head], l.options + ([l.memory] + ([x] + r)), l.options + ([l.memory] + r), x);
  }

  lemma FlatDropsThreads(l: Layout, x: string)
    requires l.threads == [x]
    ensures DropsOne(Flat(l), Flat(l.(threads := [])), x)
  {
    var r := l.jobid + (l.output + (l.email + [l.wrapper]));
    assert [] + r == r;
    DropsFront(x, r);
    DropsUnder(l.time, [x] + r, r, x);
    DropsUnder([l.memory], l.time + ([x] + r), l.time + r, x);
    DropsUnder(l.options, [l.memory] + (l.time + ([x] + r)), [l.memory] + (l.time + r), x);
    DropsUnder([l.head], l.options + ([l.memory] + (l.time + ([x] + r))), l.options + ([l.memory] + (l.time + r)), x);
  }

  /** The pieces before the job-ID directive. */
  function Front(l: Layout): seq<string> {
    [l.head] + (l.options + ([l.memory] + (l.time + l.threads)))
  }

  lemma FlatFront(l: Layout)
    ensures Flat(l) == Front(l) + (l.jobid + (l.output + (l.email + [l.wrapper])))
  {
  }

  lemma FlatDropsJobId(l: Layout, x: string)
    requires l.jobid == [x]
    ensures DropsOne(Flat(l), Flat(l.(jobid := [])), x)
  {
    var r := l.output + (l.email + [l.wrapper]);
    assert [] + r == r;
    DropsFront(x, r);
    DropsUnder(Front(l), [x] + r, r, x);
    FlatFront(l);
    FlatFront(l.(jobid := []));
  }

  lemma FlatDropsOutput(l: Layout, x: string)
    requires l.output == [x]
    ensures DropsOne(Flat(l), Flat(l.(output := [])), x)
  {
    var r := l.email + [l.wrapper];
    assert [] + r == r;
    DropsFront(x, r);
    DropsUnder(l.jobid, [x] + r, r, x);
    DropsUnder(Front(l), l.jobid + ([x] + r), l.jobid + r, x);
    FlatFront(l);
    FlatFront(l.(output := []));
  }

  lemma FlatDropsEmail(l: Layout, x: string)
    requires l.email == [x]
    ensures DropsOne(Flat(l), Flat(l.(email := [])), x)
  {
    var r := [l.wrapper];
    assert [] + r == r;
    DropsFront(x, r);
    DropsUnder(l.output, [x] + r, r, x);
    DropsUnder(l.jobid, l.output + ([x] + r), l.output + r, x);
    DropsUnder(Front(l), l.jobid + (l.output + ([x] + r)), l.jobid + (l.output + r), x);
    FlatFront(l);
    FlatFront(l.(email := []));
  }

  /** With `TimeCommandActive` off, the header loses its time piece and nothing else. */
  lemma TimeOffLayout(c: Config, d: string)
    requires IsAbs(d) && HeadParts(c, d).Ok?
    ensures HeadParts(c["TimeCommandActive" := Flag(false)], d).Ok?
    ensures LayoutOf(c["TimeCommandActive" := Flag(false)], d) == LayoutOf(c, d).(time := [])
  {
    var c' := c["TimeCommandActive" := Flag(false)];
    HeadPartsOrder(c, d);
    HeadBodyOrder(c, d);
    assert forall k :: k in FrameKeys ==> Lookup(c', k) == Lookup(c, k);
    assert forall k :: k in FlaggedKeys ==> Lookup(c', k) == Lookup(c, k);
    DirectiveAgree(c', c, "MemoryCommand", "mem", "MemoryDefault");
    GatedAgree(c', c, "ThreadCommandActive", "NThreadsCommand", "nthreads", "NThreads");
    FlaggedAgree(c', c, d);
    assert Gated(c', "TimeCommandActive", "TimeCommand", "time", "TimeDefault") == Ok([]);
    assert LookupPairs(c', "SubmissionOptions") == LookupPairs(c, "SubmissionOptions");
    assert LookupPairs(c', "SubOptionsEqual") == LookupPairs(c, "SubOptionsEqual");
    assert HeadParts(c', d).Ok?;
  }

  /**
   * Switching `TimeCommandActive` off removes exactly one part of the header:
   * the time template filled with `TimeDefault`.
   */
  lemma TimeGateOff(c: Config, d: string)
    requires IsAbs(d) && HeadParts(c, d).Ok? && "TimeCommandActive" in c && Truthy(c["TimeCommandActive"])
    ensures "TimeCommand" in c && c["TimeCommand"].Text? && "TimeDefault" in c && PyStr(c["TimeDefault"]).Some?
    ensures Format(c["TimeCommand"].text, map["time" := PyStr(c["TimeDefault"]).value]).Ok?
    ensures HeadParts(c["TimeCommandActive" := Flag(false)], d).Ok?
    ensures DropsOne(HeadParts(c, d).value, HeadParts(c["TimeCommandActive" := Flag(false)], d).value,
                     Format(c["TimeCommand"].text, map["time" := PyStr(c["TimeDefault"]).value]).value)
  {
    HeadPartsOrder(c, d);
    HeadBodyOrder(c, d);
    GatedIff(c, "TimeCommandActive", "TimeCommand", "time", "TimeDefault");
    TimeOffLayout(c, d);
    HeadLayout(c, d);
    HeadLayout(c["TimeCommandActive" := Flag(false)], d);
    FlatDropsTime(LayoutOf(c, d), Directive(c, "TimeCommand", "time", "TimeDefault").value);
  }

  /** With `ThreadCommandActive` off, the header loses its thread piece and nothing else. */
  lemma ThreadsOffLayout(c: Config, d: string)
    requires IsAbs(d) && HeadParts(c, d).Ok?
    ensures HeadParts(c["ThreadCommandActive" := Flag(false)], d).Ok?
    ensures LayoutOf(c["ThreadCommandActive" := Flag(false)], d) == LayoutOf(c, d).(threads := [])
  {
    var c' := c["ThreadCommandActive" := Flag(false)];
    HeadPartsOrder(c, d);
    HeadBodyOrder(c, d);
    assert forall k :: k in FrameKeys ==> Lookup(c', k) == Lookup(c, k);
    assert forall k :: k in FlaggedKeys ==> Lookup(c', k) == Lookup(c, k);
    DirectiveAgree(c', c, "MemoryCommand", "mem", "MemoryDefault");
    GatedAgree(c', c, "TimeCommandActive", "TimeCommand", "time", "TimeDefault");
    FlaggedAgree(c', c, d);
    assert Gated(c', "ThreadCommandActive", "NThreadsCommand", "nthreads", "NThreads") == Ok([]);
    assert LookupPairs(c', "SubmissionOptions") == LookupPairs(c, "SubmissionOptions");
    assert LookupPairs(c', "SubOptionsEqual") == LookupPairs(c, "SubOptionsEqual");
    assert HeadParts(c', d).Ok?;
  }

  /**
   * Switching `ThreadCommandActive` off removes exactly one part of the
   * header: the thread template filled with `NThreads`.
   */
  lemma ThreadsGateOff(c: Config, d: string)
    requires IsAbs(d) && HeadParts(c, d).Ok? && "ThreadCommandActive" in c && Truthy(c["ThreadCommandActive"])
    ensures "NThreadsCommand" in c && c["NThreadsCommand"].Text? && "NThreads" in c && PyStr(c["NThreads"]).Some?
    ensures Format(c["NThreadsCommand"].text, map["nthreads" := PyStr(c["NThreads"]).value]).Ok?
    ensures HeadParts(c["ThreadCommandActive" := Flag(false)], d).Ok?
    ensures DropsOne(HeadParts(c, d).value, HeadParts(c["ThreadCommandActive" := Flag(false)], d).value,
                     Format(c["NThreadsCommand"].text, map["nthreads" := PyStr(c["NThreads"]).value]).value)
  {
    HeadPartsOrder(c, d);
    HeadBodyOrder(c, d);
    GatedIff(c, "ThreadCommandActive", "NThreadsCommand", "nthreads", "NThreads");
    ThreadsOffLayout(c, d);
    HeadLayout(c, d);
    HeadLayout(c["ThreadCommandActive" := Flag(false)], d);
    FlatDropsThreads(LayoutOf(c, d), Directive(c, "NThreadsCommand", "nthreads", "NThreads").value);
  }

  /** Two profiles that agree on everything but the job-ID, output and email directives. */
  lemma UnflaggedAgree(c: Config, c': Config, d: string)
    requires IsAbs(d) && HeadParts(c, d).Ok?
    requires forall k :: k in FrameKeys ==> Lookup(c', k) == Lookup(c, k)
    requires Directive(c', "MemoryCommand", "mem", "MemoryDefault") == Directive(c, "MemoryCommand", "mem", "MemoryDefault")
    requires Gated(c', "TimeCommandActive", "TimeCommand", "time", "TimeDefault")
      == Gated(c, "TimeCommandActive", "TimeCommand", "time", "TimeDefault")
    requires Gated(c', "ThreadCommandActive", "NThreadsCommand", "nthreads", "NThreads")
      == Gated(c, "ThreadCommandActive", "NThreadsCommand", "nthreads", "NThreads")
    requires JobIdDirective(c').Ok? && OutputDirective(c', d).Ok? && EmailDirective(c').Ok?
    ensures HeadParts(c', d).Ok?
    ensures LayoutOf(c', d) == LayoutOf(c, d).(jobid := JobIdDirective(c').value,
      output := OutputDirective(c', d).value, email := EmailDirective(c').value)
  {
    HeadPartsOrder(c, d);
    HeadBodyOrder(c, d);
    assert Lookup(c', "SubmissionHead") == Lookup(c, "SubmissionHead");
    assert Lookup(c', "CommandWrapper") == Lookup(c, "CommandWrapper");
    assert Lookup(c', "SubmissionOptions") == Lookup(c, "SubmissionOptions");
    assert Lookup(c', "SubOptionsEqual") == Lookup(c, "SubOptionsEqual");
    assert HeadParts(c', d).Ok?;
  }

  /** The memory, time and thread directives do not read a flagged entry. */
  lemma UnflaggedSame(c: Config, key: string, v: ConfigValue)
    requires key in FlaggedKeys
    ensures forall k :: k in FrameKeys ==> Lookup(c[key := v], k) == Lookup(c, k)
    ensures Directive(c[key := v], "MemoryCommand", "mem", "MemoryDefault") == Directive(c, "MemoryCommand", "mem", "MemoryDefault")
    ensures Gated(c[key := v], "TimeCommandActive", "TimeCommand", "time", "TimeDefault")
      == Gated(c, "TimeCommandActive", "TimeCommand", "time", "TimeDefault")
    ensures Gated(c[key := v], "ThreadCommandActive", "NThreadsCommand", "nthreads", "NThreads")
      == Gated(c, "ThreadCommandActive", "NThreadsCommand", "nthreads", "NThreads")
  {
    var c' := c[key := v];
    DirectiveAgree(c', c, "MemoryCommand", "mem", "MemoryDefault");
    GatedAgree(c', c, "TimeCommandActive", "TimeCommand", "time", "TimeDefault");
    GatedAgree(c', c, "ThreadCommandActive", "NThreadsCommand", "nthreads", "NThreads");
  }

  /** With `JobIDCommandActive` off, the header loses its job-ID piece and nothing else. */
  lemma JobIdOffLayout(c: Config, d: string)
    requires IsAbs(d) && HeadParts(c, d).Ok?
    ensures HeadParts(c["JobIDCommandActive" := Flag(false)], d).Ok?
    ensures LayoutOf(c["JobIDCommandActive" := Flag(false)], d) == LayoutOf(c, d).(jobid := [])
  {
    var c' := c["JobIDCommandActive" := Flag(false)];
    HeadPartsOrder(c, d);
    HeadBodyOrder(c, d);
    UnflaggedSame(c, "JobIDCommandActive", Flag(false));
    assert JobIdDirective(c') == Ok([]);
    assert OutputDirective(c', d) == OutputDirective(c, d);
    DirectiveAgree(c', c, "EmailCommand", "email", "EmailAddress");
    assert EmailDirective(c') == EmailDirective(c);
    UnflaggedAgree(c, c', d);
  }

  /**
   * Switching `JobIDCommandActive` off removes exactly one part of the
   * header: the job-ID template with its `{jobid}` hole kept.
   */
  lemma JobIdGateOff(c: Config, d: string)
    requires IsAbs(d) && HeadParts(c, d).Ok? && "JobIDCommandActive" in c && Truthy(c["JobIDCommandActive"])
    ensures "JobIDCommand" in c && c["JobIDCommand"].Text?
    ensures Format(c["JobIDCommand"].text, map["jobid" := "{jobid}"]).Ok?
    ensures HeadParts(c["JobIDCommandActive" := Flag(false)], d).Ok?
    ensures DropsOne(HeadParts(c, d).value, HeadParts(c["JobIDCommandActive" := Flag(false)], d).value,
                     Format(c["JobIDCommand"].text, map["jobid" := "{jobid}"]).value)
  {
    HeadPartsOrder(c, d);
    HeadBodyOrder(c, d);
    JobIdIff(c);
    JobIdOffLayout(c, d);
    HeadLayout(c, d);
    HeadLayout(c["JobIDCommandActive" := Flag(false)], d);
    FlatDropsJobId(LayoutOf(c, d), Format(c["JobIDCommand"].text, map["jobid" := "{jobid}"]).value);
  }

  /** With `OutputCommandActive` off, the header loses its output piece and nothing else. */
  lemma OutputOffLayout(c: Config, d: string)
    requires IsAbs(d) && HeadParts(c, d).Ok?
    ensures HeadParts(c["OutputCommandActive" := Flag(false)], d).Ok?
    ensures LayoutOf(c["OutputCommandActive" := Flag(false)], d) == LayoutOf(c, d).(output := [])
  {
    var c' := c["OutputCommandActive" := Flag(false)];
    HeadPartsOrder(c, d);
    HeadBodyOrder(c, d);
    UnflaggedSame(c, "OutputCommandActive", Flag(false));
    assert JobIdDirective(c') == JobIdDirective(c);
    assert OutputDirective(c', d) == Ok([]);
    DirectiveAgree(c', c, "EmailCommand", "email", "EmailAddress");
    assert EmailDirective(c') == EmailDirective(c);
    UnflaggedAgree(c, c', d);
  }

  /**
   * Switching `OutputCommandActive` off removes exactly one part of the
   * header: the output template fed the job's log path.
   */
  lemma OutputGateOff(c: Config, d: string)
    requires IsAbs(d) && HeadParts(c, d).Ok? && "OutputCommandActive" in c && Truthy(c["OutputCommandActive"])
    ensures "OutputCommand" in c && c["OutputCommand"].Text?
    ensures Format(c["OutputCommand"].text, map["output" := OutputPath(d)]).Ok?
    ensures HeadParts(c["OutputCommandActive" := Flag(false)], d).Ok?
    ensures DropsOne(HeadParts(c, d).value, HeadParts(c["OutputCommandActive" := Flag(false)], d).value,
                     Format(c["OutputCommand"].text, map["output" := OutputPath(d)]).value)
  {
    HeadPartsOrder(c, d);
    HeadBodyOrder(c, d);
    OutputIff(c, d);
    OutputOffLayout(c, d);
    HeadLayout(c, d);
    HeadLayout(c["OutputCommandActive" := Flag(false)], d);
    FlatDropsOutput(LayoutOf(c, d), Format(c["OutputCommand"].text, map["output" := OutputPath(d)]).value);
  }

  /** With `EmailAddress` cleared, the header loses its email piece and nothing else. */
  lemma EmailOffLayout(c: Config, d: string)
    requires IsAbs(d) && HeadParts(c, d).Ok?
    ensures HeadParts(c["EmailAddress" := Text("")], d).Ok?
    ensures LayoutOf(c["EmailAddress" := Text("")], d) == LayoutOf(c, d).(email := [])
  {
    var c' := c["EmailAddress" := Text("")];
    HeadPartsOrder(c, d);
    HeadBodyOrder(c, d);
    UnflaggedSame(c, "EmailAddress", Text(""));
    assert JobIdDirective(c') == JobIdDirective(c);
    assert OutputDirective(c', d) == OutputDirective(c, d);
    assert EmailDirective(c') == Ok([]);
    UnflaggedAgree(c, c', d);
  }

  /**
   * Clearing `EmailAddress` removes exactly one part of the header: the email
   * template filled with the address.
   */
  lemma EmailGateOff(c: Config, d: string)
    requires IsAbs(d) && HeadParts(c, d).Ok? && "EmailAddress" in c && Truthy(c["EmailAddress"])
    ensures "EmailCommand" in c && c["EmailCommand"].Text? && PyStr(c["EmailAddress"]).Some?
    ensures Format(c["EmailCommand"].text, map["email" := PyStr(c["EmailAddress"]).value]).Ok?
    ensures HeadParts(c["EmailAddress" := Text("")], d).Ok?
    ensures DropsOne(HeadParts(c, d).value, HeadParts(c["EmailAddress" := Text("")], d).value,
                     Format(c["EmailCommand"].text, map["email" := PyStr(c["EmailAddress"]).value]).value)
  {
    HeadPartsOrder(c, d);
    HeadBodyOrder(c, d);
    EmailIff(c);
    EmailOffLayout(c, d);
    HeadLayout(c, d);
    HeadLayout(c["EmailAddress" := Text("")], d);
    FlatDropsEmail(LayoutOf(c, d), Directive(c, "EmailCommand", "email", "EmailAddress").value);
  }

  /**
   * The submission header starts with `SubmissionHead` and a space, ends with
   * a space and `CommandWrapper`, and holds the space-joined directives
   * between them; the memory directive is always among them.
   */
  lemma HeaderEnds(c: Config, d: string)
    requires IsAbs(d) && SubmissionHead(c, d).Ok?
    ensures HeadBody(c, d).Ok? && |HeadBody(c, d).value| >= 1
    ensures Directive(c, "MemoryCommand", "mem", "MemoryDefault").Ok?
      && Directive(c, "MemoryCommand", "mem", "MemoryDefault").value in HeadBody(c, d).value
    ensures SubmissionHead(c, d).value
      == c["SubmissionHead"].text + " " + Join(" ", HeadBody(c, d).value) + " " + c["CommandWrapper"].text
  {
    HeadPartsOrder(c, d);
    HeadBodyOrder(c, d);
    var h := c["SubmissionHead"].text;
    var w := c["CommandWrapper"].text;
    var body := HeadBody(c, d).value;
    var pre := RenderOptions(LookupPairs(c, "SubmissionOptions").value, " ")
      + RenderOptions(LookupPairs(c, "SubOptionsEqual").value, "=");
    var mem := Directive(c, "MemoryCommand", "mem", "MemoryDefault").value;
    assert body[|pre|] == mem;
    assert ([h] + body)[1..] == body;
    assert Join(" ", [h] + body) == h + " " + Join(" ", body);
    JoinSnoc(" ", [h] + body, w);
  }

  /** The holes the compile step fills for one job. */
  function JobEnv(job: Job): Env {
    map["jobid" := job.jobId, "cmdwrap" := job.jobString]
  }

  /**
   * The strings compile appends for `jobs`: the header formatted for each job
   * in order, up to the first job whose formatting fails.
   */
  function Rendered(header: string, jobs: seq<Job>): (r: seq<string>)
    ensures |r| <= |jobs|
    ensures |r| < |jobs| ==> Format(header, JobEnv(jobs[|r|])).Err?
    decreases |jobs|
  {
    if jobs == [] then []
    else
      var f := Format(header, JobEnv(jobs[0]));
      if f.Err? then []
      else
        var rest := Rendered(header, jobs[1..]);
        assert |rest| < |jobs| - 1 ==> jobs[1 + |rest|] == jobs[1..][|rest|];
        [f.value] + rest
  }

  /** Each string compile appends is the header formatted for the job at its position. */
  lemma {:induction false} RenderedFormats(header: string, jobs: seq<Job>)
    ensures forall i :: 0 <= i < |Rendered(header, jobs)| ==> Format(header, JobEnv(jobs[i])) == Ok(Rendered(header, jobs)[i])
    decreases |jobs|
  {
    if jobs != [] && Format(header, JobEnv(jobs[0])).Ok? {
      var r := Rendered(header, jobs);
      var rest := Rendered(header, jobs[1..]);
      RenderedFormats(header, jobs[1..]);
      assert r == [Format(header, JobEnv(jobs[0])).value] + rest;
      forall i | 1 <= i < |r|
        ensures Format(header, JobEnv(jobs[i])) == Ok(r[i])
      {
        assert jobs[i] == jobs[1..][i - 1] && r[i] == rest[i - 1];
      }
    }
  }

  /** The properties of `Rendered` determine it. */
  lemma {:induction false} RenderedUnique(header: string, jobs: seq<Job>, r: seq<string>)
    requires |r| <= |jobs|
    requires forall i :: 0 <= i < |r| ==> Format(header, JobEnv(jobs[i])) == Ok(r[i])
    requires |r| < |jobs| ==> Format(header, JobEnv(jobs[|r|])).Err?
    ensures r == Rendered(header, jobs)
    decreases |jobs|
  {
    if jobs != [] && r != [] {
      var js, rs := jobs[1..], r[1..];
      assert Format(header, JobEnv(jobs[0])) == Ok(r[0]);
      forall i | 0 <= i < |rs|
        ensures Format(header, JobEnv(js[i])) == Ok(rs[i])
      {
        assert js[i] == jobs[i + 1] && rs[i] == r[i + 1];
      }
      if |rs| < |js| {
        assert js[|rs|] == jobs[|r|];
      }
      RenderedUnique(header, js, rs);
      assert Rendered(header, jobs) == [r[0]] + Rendered(header, js);
      assert r == [r[0]] + rs;
    }
  }

  /** A single job that formats contributes exactly its formatted header. */
  lemma RenderedOne(header: string, job: Job)
    requires Format(header, JobEnv(job)).Ok?
    ensures Rendered(header, [job]) == [Format(header, JobEnv(job)).value]
  {
    assert [job][1..] == [];
  }

  /** When every job formats, compile adds exactly one string per job. */
  lemma RenderedAll(header: string, jobs: seq<Job>)
    requires forall i :: 0 <= i < |jobs| ==> Format(header, JobEnv(jobs[i])).Ok?
    ensures |Rendered(header, jobs)| == |jobs|
    ensures forall i :: 0 <= i < |jobs| ==> Rendered(header, jobs)[i] == Format(header, JobEnv(jobs[i])).value
  {
    RenderedFormats(header, jobs);
  }

  /** `click.echo` of each string in turn: the string and a newline. */
  function EchoLines(lines: seq<string>): string
    decreases |lines|
  {
    if lines == [] then "" else EchoLines(lines[..|lines| - 1]) + lines[|lines| - 1] + "\n"
  }

  /** The echoed text is the lines joined by newlines, with a final newline. */
  lemma {:induction false} EchoLinesJoin(lines: seq<string>)
    requires lines != []
    ensures EchoLines(lines) == Join("\n", lines) + "\n"
    decreases |lines|
  {
    var n := |lines|;
    var init := lines[..n - 1];
    if n > 1 {
      EchoLinesJoin(init);
      JoinSnoc("\n", init, lines[n - 1]);
      assert init + [lines[n - 1]] == lines;
    } else {
      assert init == [];
    }
  }

  /** Lines without a newline can be read back from the echoed text. */
  lemma EchoLinesSplit(lines: seq<string>)
    requires forall i :: 0 <= i < |lines| ==> '\n' !in lines[i]
    ensures Split(EchoLines(lines), '\n') == lines + [""]
  {
    if lines != [] {
      EchoLinesJoin(lines);
      JoinSnoc("\n", lines, "");
      assert Join("\n", lines) + "\n" + "" == Join("\n", lines) + "\n";
      assert forall p :: p in lines + [""] ==> '\n' !in p;
      SplitJoin(lines + [""], '\n');
    }
  }

  class BatchManager {
    var config: Config
    var jobs: seq<Job>
    var submissionList: seq<string>
    /** The absolute output directory, fixed at construction. */
    const outputDir: string

    predicate Valid() {
      IsAbs(outputDir) && NormAbs(outputDir) == outputDir
    }

    /**
     * A manager for the given profile; `outputDirectory` defaults to `.` and
     * is made absolute against the working directory `cwd`.
     */
    constructor(config: Config, cwd: string, outputDirectory: Option<string>)
      requires IsAbs(cwd)
      ensures Valid()
      ensures this.config == config && jobs == [] && submissionList == []
      ensures outputDir == AbsPath(cwd, outputDirectory.GetOr("."))
    {
      AbsPathNormal(cwd, outputDirectory.GetOr("."));
      this.config := config;
      jobs := [];
      submissionList := [];
      outputDir := AbsPath(cwd, outputDirectory.GetOr("."));
    }

    method UpdateMemUsage(memUse: ConfigValue)
      modifies this`config
      ensures config == old(config)["MemoryDefault" := memUse]
    {
      config := config["MemoryDefault" := memUse];
    }

    method UpdateTime(time: ConfigValue)
      modifies this`config
      ensures config == old(config)["TimeDefault" := time]
    {
      config := config["TimeDefault" := time];
    }

    method UpdateNThreads(threads: ConfigValue)
      modifies this`config
      ensures config == old(config)["NThreads" := threads]
    {
      config := config["NThreads" := threads];
    }

    method UpdateEmail(email: ConfigValue)
      modifies this`config
      ensures config == old(config)["EmailAddress" := email]
    {
      config := config["EmailAddress" := email];
    }

    method AddJob(job: Job)
      modifies this`jobs
      ensures jobs == old(jobs) + [job]
    {
      jobs := jobs + [job];
    }

    /** Builds the header by successive appends, as the source does. */
    method CreateSubmissionHead() returns (r: Result<string, BatchError>)
      requires Valid()
      ensures r == SubmissionHead(config, outputDir)
    {
      if "SubmissionHead" !in config {
        return Err(MissingKey("SubmissionHead"));
      }
      var first := config["SubmissionHead"];
      var head: seq<string> := [];
      var opts := LookupPairs(config, "SubmissionOptions");
      if opts.Err? {
        return Err(opts.error);
      }
      head := AppendOptions(head, opts.value, " ");
      assert head == RenderOptions(opts.value, " ");
      var eqs := LookupPairs(config, "SubOptionsEqual");
      if eqs.Err? {
        return Err(eqs.error);
      }
      head := AppendOptions(head, eqs.value, "=");
      var mem := Directive(config, "MemoryCommand", "mem", "MemoryDefault");
      if mem.Err? {
        return Err(mem.error);
      }
      head := head + [mem.value];
      var time := Gated(config, "TimeCommandActive", "TimeCommand", "time", "TimeDefault");
      if time.Err? {
        return Err(time.error);
      }
      head := head + time.value;
      var threads := Gated(config, "ThreadCommandActive", "NThreadsCommand", "nthreads", "NThreads");
      if threads.Err? {
        return Err(threads.error);
      }
      head := head + threads.value;
      var jobid := JobIdDirective(config);
      if jobid.Err? {
        return Err(jobid.error);
      }
      head := head + jobid.value;
      var output := OutputDirective(config, outputDir);
      if output.Err? {
        return Err(output.error);
      }
      head := head + output.value;
      var email := EmailDirective(config);
      if email.Err? {
        return Err(email.error);
      }
      head := head + email.value;
      if "CommandWrapper" !in config {
        return Err(MissingKey("CommandWrapper"));
      }
      var wrapper := config["CommandWrapper"];
      if !first.Text? {
        return Err(WrongType("SubmissionHead"));
      }
      if !wrapper.Text? {
        return Err(WrongType("CommandWrapper"));
      }
      assert HeadBody(config, outputDir) == Ok(head);
      r := Ok(Join(" ", [first.text] + head + [wrapper.text]));
    }

    /**
     * Formats the header for every job, in order, and appends each result to
     * the submission list. Earlier entries are kept, so the list only grows;
     * a job whose formatting fails stops the loop after the earlier appends.
     */
    method CompileJobStrings() returns (failure: Option<BatchError>)
      requires Valid()
      modifies this`submissionList
      ensures var h := SubmissionHead(config, outputDir);
        && (h.Err? ==> failure == Some(h.error) && submissionList == old(submissionList))
        && (h.Ok? ==> submissionList == old(submissionList) + Rendered(h.value, jobs))
        && (h.Ok? ==> var n := |Rendered(h.value, jobs)|;
             failure == if n == |jobs| then None else Some(JobFailed(n, Format(h.value, JobEnv(jobs[n])).error)))
    {
      var h := CreateSubmissionHead();
      if h.Err? {
        return Some(h.error);
      }
      failure := AppendJobStrings(h.value);
    }

    /** The loop of compile: the header formatted for each job, appended in turn. */
    method AppendJobStrings(header: string) returns (failure: Option<BatchError>)
      modifies this`submissionList
      ensures submissionList == old(submissionList) + Rendered(header, jobs)
      ensures var n := |Rendered(header, jobs)|;
        failure == if n == |jobs| then None else Some(JobFailed(n, Format(header, JobEnv(jobs[n])).error))
    {
      var done: seq<string> := [];
      var i := 0;
      while i < |jobs|
        invariant 0 <= i <= |jobs| && |done| == i
        invariant forall k :: 0 <= k < i ==> Format(header, JobEnv(jobs[k])) == Ok(done[k])
        invariant submissionList == old(submissionList) + done
      {
        var temp := Format(header, JobEnv(jobs[i]));
        if temp.Err? {
          RenderedUnique(header, jobs, done);
          return Some(JobFailed(i, temp.error));
        }
        submissionList := submissionList + [temp.value];
        done := done + [temp.value];
        i := i + 1;
      }
      RenderedUnique(header, jobs, done);
      failure := None;
    }

    /** Runs every submission string in order (the shell call is the returned trace). */
    method SubmitJobs() returns (executed: seq<string>)
      ensures executed == submissionList
    {
      executed := [];
      var i := 0;
      while i < |submissionList|
        invariant 0 <= i <= |submissionList|
        invariant executed == submissionList[..i]
      {
        executed := executed + [submissionList[i]];
        i := i + 1;
      }
    }

    /** Echoes every submission string in order, each on its own line. */
    method PrintJobs() returns (out: string)
      ensures out == EchoLines(submissionList)
    {
      out := "";
      var i := 0;
      while i < |submissionList|
        invariant 0 <= i <= |submissionList|
        invariant out == EchoLines(submissionList[..i])
      {
        assert submissionList[..i + 1][..i] == submissionList[..i];
        out := out + submissionList[i] + "\n";
        i := i + 1;
      }
      assert submissionList[..i] == submissionList;
    }

    /** `[config['NThreadsCommand'], config['NThreads']]`. */
    function ThreadsCommand(): (r: Result<seq<ConfigValue>, BatchError>)
      reads this
      ensures r.Ok? <==> "NThreadsCommand" in config && "NThreads" in config
      ensures r.Ok? ==> r.value == [config["NThreadsCommand"], config["NThreads"]]
      ensures r.Err? ==> r.error == MissingKey(if "NThreadsCommand" in config then "NThreads" else "NThreadsCommand")
    {
      var command :- Lookup(config, "NThreadsCommand");
      var threads :- Lookup(config, "NThreads");
      Ok([command, threads])
    }
  }

  /**
   * With `ThreadCommandActive` set, the pair `ThreadsCommand` returns is what
   * the header's thread directive is made of: the template, filled with the
   * count, is a part of the header.
   */
  lemma ThreadsCommandDirective(m: BatchManager)
    requires IsAbs(m.outputDir) && HeadParts(m.config, m.outputDir).Ok?
    requires "ThreadCommandActive" in m.config && Truthy(m.config["ThreadCommandActive"])
    ensures m.ThreadsCommand().Ok? && |m.ThreadsCommand().value| == 2
    ensures var tc := m.ThreadsCommand().value;
      tc[0].Text? && PyStr(tc[1]).Some?
      && Format(tc[0].text, map["nthreads" := PyStr(tc[1]).value]).Ok?
      && Format(tc[0].text, map["nthreads" := PyStr(tc[1]).value]).value in HeadParts(m.config, m.outputDir).value
  {
    var c := m.config;
    var d := m.outputDir;
    HeadPartsOrder(c, d);
    HeadBodyOrder(c, d);
    GatedIff(c, "ThreadCommandActive", "NThreadsCommand", "nthreads", "NThreads");
    HeadLayout(c, d);
    var l := LayoutOf(c, d);
    assert Directive(c, "NThreadsCommand", "nthreads", "NThreads").value in l.threads;
  }

  /** Compiling twice without adding jobs appends the same strings twice. */
  method CompileTwice(m: BatchManager) returns (f1: Option<BatchError>, f2: Option<BatchError>)
    requires m.Valid()
    modifies m`submissionList
    ensures var h := SubmissionHead(m.config, m.outputDir);
      h.Ok? ==> m.submissionList == old(m.submissionList) + Rendered(h.value, m.jobs) + Rendered(h.value, m.jobs)
  {
    f1 := m.CompileJobStrings();
    f2 := m.CompileJobStrings();
  }

  /** Formatting `{jobid}` with a job's arguments yields the job's ID. */
  lemma JobIdHole(jobId: string, command: string)
    ensures Format("{jobid}", map["jobid" := jobId, "cmdwrap" := command]) == Ok(jobId)
    ensures Parse("{jobid}").Ok?
  {
    var env := map["jobid" := jobId, "cmdwrap" := command];
    assert "{jobid}" == [] + ("{" + "jobid" + "}");
    assert jobId == [] + env["jobid"];
    FormatEndHole("{jobid}", jobId, [], "jobid", env);
  }

  /**
   * The job-ID directive survives until compile time: formatting the template
   * with `{jobid}` for its hole and then, at compile time, with a job's
   * arguments is formatting the template with the job's ID.
   */
  lemma JobIdDirectiveRefilled(template: string, jobId: string, command: string)
    requires Parse(template).Ok? && PlainLiterals(Parse(template).value)
    requires Bound(Parse(template).value, map["jobid" := "{jobid}"])
    ensures Format(template, map["jobid" := "{jobid}"]).Ok?
    ensures Format(Format(template, map["jobid" := "{jobid}"]).value, map["jobid" := jobId, "cmdwrap" := command])
      == Format(template, map["jobid" := jobId])
  {
    JobIdHole(jobId, command);
    FormatTwiceOne(template, "jobid", "{jobid}", jobId, map["jobid" := jobId, "cmdwrap" := command]);
  }

  /** The log file name is a single plain path component. */
  lemma OutputNamePlain()
    ensures Plain(OutputName)
  {
  }

  /** In a normal output directory the log path is the directory joined with the file name. */
  lemma OutputPathJoined(d: string)
    requires IsAbs(d) && NormAbs(d) == d
    ensures OutputPath(d) == PathJoin(d, OutputName)
  {
    OutputNamePlain();
    AbsPathOfJoin(d, d, OutputName);
  }

  /** A file name with a `{jobid}` hole, joined onto a brace-free directory, is formatted in place. */
  lemma JoinedNameFormat(d: string, a: string, b: string, env: Env)
    requires BraceFree(d) && BraceFree(a) && BraceFree(b) && "jobid" in env
    requires a != [] && a[0] != '/'
    ensures Format(PathJoin(d, a + "{jobid}" + b), env) == Ok(PathJoin(d, a + env["jobid"] + b))
    ensures Parse(PathJoin(d, a + "{jobid}" + b)).Ok?
  {
    var sep := if d == [] || d[|d| - 1] == '/' then "" else "/";
    var stem := d + sep + a;
    assert BraceFree(stem);
    var x, y := a + "{jobid}" + b, a + env["jobid"] + b;
    assert !IsAbs(x) && !IsAbs(y);
    PathJoinRelative(d, x);
    PathJoinRelative(d, y);
    FormatAround(PathJoin(d, x), PathJoin(d, y), stem, "jobid", b, env);
  }

  /** Formatting the joined log path for a job puts the job's ID in the file name. */
  lemma LogPathFormat(d: string, jobId: string, command: string)
    requires BraceFree(d)
    ensures Parse(PathJoin(d, OutputName)).Ok?
    ensures Format(PathJoin(d, OutputName), map["jobid" := jobId, "cmdwrap" := command])
      == Ok(PathJoin(d, "Output-" + jobId + "-jobid-%j.out"))
  {
    var a, b := "Output-", "-jobid-%j.out";
    assert OutputName == a + "{jobid}" + b;
    JoinedNameFormat(d, a, b, map["jobid" := jobId, "cmdwrap" := command]);
  }

  /**
   * At compile time the log path gets the job's ID in place of `{jobid}`,
   * while the scheduler's `%j` is left for the scheduler.
   */
  lemma OutputPathRefilled(d: string, jobId: string, command: string)
    requires IsAbs(d) && NormAbs(d) == d && BraceFree(d)
    ensures Parse(OutputPath(d)).Ok?
    ensures Format(OutputPath(d), map["jobid" := jobId, "cmdwrap" := command])
      == Ok(PathJoin(d, "Output-" + jobId + "-jobid-%j.out"))
  {
    OutputPathJoined(d);
    LogPathFormat(d, jobId, command);
  }

  /**
   * The header formatted for a job: the job-ID directive's hole and the log
   * path's `{jobid}` both become the job's ID, and `{cmdwrap}` becomes its
   * command.
   */
  lemma OutputDirectiveRefilled(template: string, d: string, jobId: string, command: string)
    requires IsAbs(d) && NormAbs(d) == d && BraceFree(d)
    requires Parse(template).Ok? && PlainLiterals(Parse(template).value)
    requires Bound(Parse(template).value, map["output" := OutputPath(d)])
    ensures Format(template, map["output" := OutputPath(d)]).Ok?
    ensures Format(Format(template, map["output" := OutputPath(d)]).value, map["jobid" := jobId, "cmdwrap" := command])
      == Format(template, map["output" := PathJoin(d, "Output-" + jobId + "-jobid-%j.out")])
  {
    OutputPathRefilled(d, jobId, command);
    FormatTwiceOne(template, "output", OutputPath(d), PathJoin(d, "Output-" + jobId + "-jobid-%j.out"),
      map["jobid" := jobId, "cmdwrap" := command]);
  }

  // ---------------------------------------------------------------------------
  // Loading the profile

  /** Why the profile cannot be loaded. */
  datatype LoadError =
    | OpenWithoutFlags               // `os.open(path)` without its flags argument: `TypeError`
    | NoPackagedProfile(name: string)

  /**
   * Profile loading as written: an existing file is opened with `os.open`,
   * which needs a flags argument and is not a context manager, so only the
   * packaged profiles can be loaded. `files` are the JSON files on disk by
   * absolute path; `packaged` the profiles shipped with the program.
   */
  function LoadConfigAsWritten(name: string, cwd: string, files: map<string, Config>, packaged: map<string, Config>)
    : Result<Config, LoadError>
    requires IsAbs(cwd)
  {
    if AbsPath(cwd, name) in files then Err(OpenWithoutFlags)
    else if "batchConfigs/" + name in packaged then Ok(packaged["batchConfigs/" + name])
    else Err(NoPackagedProfile(name))
  }

  /** The evident intent: a profile file on disk is read; otherwise the packaged profile of that name. */
  function LoadConfig(name: string, cwd: string, files: map<string, Config>, packaged: map<string, Config>)
    : (r: Result<Config, LoadError>)
    requires IsAbs(cwd)
    ensures AbsPath(cwd, name) in files ==> r == Ok(files[AbsPath(cwd, name)])
    ensures AbsPath(cwd, name) !in files ==>
      r == if "batchConfigs/" + name in packaged then Ok(packaged["batchConfigs/" + name]) else Err(NoPackagedProfile(name))
  {
    var path := AbsPath(cwd, name);
    if path in files then Ok(files[path])
    else if "batchConfigs/" + name in packaged then Ok(packaged["batchConfigs/" + name])
    else Err(NoPackagedProfile(name))
  }

  /**
   * Where a profile comes from: a file on disk shadows any packaged profile
   * of the same name; a name with no file is resolved among the packaged
   * profiles alone; and an absolute name does not depend on the working
   * directory.
   */
  lemma LoadConfigSources(name: string, cwd: string, cwd2: string, files: map<string, Config>,
                          packaged: map<string, Config>, packaged2: map<string, Config>)
    requires IsAbs(cwd) && IsAbs(cwd2)
    ensures AbsPath(cwd, name) in files ==>
      LoadConfig(name, cwd, files, packaged) == LoadConfig(name, cwd, files, packaged2)
    ensures AbsPath(cwd, name) !in files ==>
      LoadConfig(name, cwd, files, packaged) == LoadConfig(name, cwd, map[], packaged)
    ensures IsAbs(name) ==> LoadConfig(name, cwd, files, packaged) == LoadConfig(name, cwd2, files, packaged)
  {
    PathJoinShape(cwd, name);
    PathJoinShape(cwd2, name);
  }

  /** As written, a profile given by a path that exists always fails; otherwise both agree. */
  lemma LoadConfigDiscrepancy(name: string, cwd: string, files: map<string, Config>, packaged: map<string, Config>)
    requires IsAbs(cwd)
    ensures AbsPath(cwd, name) in files ==>
      LoadConfigAsWritten(name, cwd, files, packaged) == Err(OpenWithoutFlags)
      && LoadConfig(name, cwd, files, packaged).Ok?
    ensures AbsPath(cwd, name) !in files ==>
      LoadConfigAsWritten(name, cwd, files, packaged) == LoadConfig(name, cwd, files, packaged)
  {
  }

  // ---------------------------------------------------------------------------
  // A minimal profile

  /**
   * A profile with a submission head, a memory directive whose hole is at its
   * end, no optional directive, no email, empty option lists, and the bare
   * `{cmdwrap}` as command wrapper.
   */
  function MinimalProfile(head: string, memPrefix: string, mem: string): Config {
    map[
      "SubmissionHead" := Text(head), "SubmissionOptions" := Text(""), "SubOptionsEqual" := Text(""),
      "MemoryCommand" := Text(memPrefix + "{mem}"), "MemoryDefault" := Text(mem),
      "TimeCommandActive" := Flag(false), "ThreadCommandActive" := Flag(false),
      "JobIDCommandActive" := Flag(false), "OutputCommandActive" := Flag(false),
      "EmailAddress" := Text(""), "CommandWrapper" := Text("{cmdwrap}")
    ]
  }

  /** The header body from the values of its parts. */
  lemma HeadBodyFrom(c: Config, d: string, opts: seq<OptionPair>, eqs: seq<OptionPair>, mem: string,
      time: seq<string>, threads: seq<string>, jobid: seq<string>, output: seq<string>, email: seq<string>)
    requires IsAbs(d)
    requires LookupPairs(c, "SubmissionOptions") == Ok(opts) && LookupPairs(c, "SubOptionsEqual") == Ok(eqs)
    requires Directive(c, "MemoryCommand", "mem", "MemoryDefault") == Ok(mem)
    requires Gated(c, "TimeCommandActive", "TimeCommand", "time", "TimeDefault") == Ok(time)
    requires Gated(c, "ThreadCommandActive", "NThreadsCommand", "nthreads", "NThreads") == Ok(threads)
    requires JobIdDirective(c) == Ok(jobid) && OutputDirective(c, d) == Ok(output) && EmailDirective(c) == Ok(email)
    ensures HeadBody(c, d)
      == Ok(RenderOptions(opts, " ") + RenderOptions(eqs, "=") + [mem] + time + threads + jobid + output + email)
  {
  }

  /** The header from its body and its two string ends. */
  lemma HeadPartsFrom(c: Config, d: string, head: string, body: seq<string>, wrapper: string)
    requires IsAbs(d)
    requires Lookup(c, "SubmissionHead") == Ok(Text(head)) && HeadBody(c, d) == Ok(body)
    requires Lookup(c, "CommandWrapper") == Ok(Text(wrapper))
    ensures HeadParts(c, d) == Ok([head] + body + [wrapper])
  {
  }

  /** A memory template with its hole at the end formats to its text followed by the default. */
  lemma MemoryDirectiveOf(c: Config, pre: string, v: string)
    requires "MemoryCommand" in c && c["MemoryCommand"] == Text(pre + "{mem}") && BraceFree(pre)
    requires "MemoryDefault" in c && c["MemoryDefault"] == Text(v)
    ensures Directive(c, "MemoryCommand", "mem", "MemoryDefault") == Ok(pre + v)
  {
    assert "{mem}" == "{" + "mem" + "}";
    FormatEndHole(pre + "{mem}", pre + v, pre, "mem", map["mem" := v]);
  }

  lemma MinimalGates(head: string, memPrefix: string, mem: string, d: string)
    requires IsAbs(d)
    ensures var c := MinimalProfile(head, memPrefix, mem);
      && LookupPairs(c, "SubmissionOptions") == Ok([])
      && LookupPairs(c, "SubOptionsEqual") == Ok([])
      && Gated(c, "TimeCommandActive", "TimeCommand", "time", "TimeDefault") == Ok([])
      && Gated(c, "ThreadCommandActive", "NThreadsCommand", "nthreads", "NThreads") == Ok([])
      && JobIdDirective(c) == Ok([])
      && OutputDirective(c, d) == Ok([])
      && EmailDirective(c) == Ok([])
  {
  }

  lemma MinimalBody(head: string, memPrefix: string, mem: string, d: string)
    requires IsAbs(d) && BraceFree(memPrefix)
    ensures HeadBody(MinimalProfile(head, memPrefix, mem), d) == Ok([memPrefix + mem])
  {
    var c := MinimalProfile(head, memPrefix, mem);
    MemoryDirectiveOf(c, memPrefix, mem);
    MinimalGates(head, memPrefix, mem, d);
    var m := memPrefix + mem;
    HeadBodyFrom(c, d, [], [], m, [], [], [], [], []);
    assert RenderOptions([], " ") + RenderOptions([], "=") + [m] + [] + [] + [] + [] + [] == [m];
  }

  lemma JoinThree(a: string, b: string, c: string)
    ensures Join(" ", [a, b, c]) == a + " " + b + " " + c
  {
    var parts := [a, b, c];
    assert parts[1..] == [b, c] && parts[1..][1..] == [c];
    assert Join(" ", [c]) == c;
    assert Join(" ", [b, c]) == b + " " + c;
    assert Join(" ", parts) == a + " " + (b + " " + c);
  }

  /** The minimal profile's header: the head, the memory directive and the `{cmdwrap}` hole. */
  lemma MinimalHeader(head: string, memPrefix: string, mem: string, d: string)
    requires IsAbs(d) && BraceFree(memPrefix)
    ensures SubmissionHead(MinimalProfile(head, memPrefix, mem), d) == Ok(head + " " + (memPrefix + mem) + " " + "{cmdwrap}")
  {
    var c := MinimalProfile(head, memPrefix, mem);
    MinimalBody(head, memPrefix, mem, d);
    HeadPartsFrom(c, d, head, [memPrefix + mem], "{cmdwrap}");
    assert [head] + [memPrefix + mem] + ["{cmdwrap}"] == [head, memPrefix + mem, "{cmdwrap}"];
    JoinThree(head, memPrefix + mem, "{cmdwrap}");
  }

  /**
   * A header whose only hole is a final `{cmdwrap}` compiles, for any job,
   * to the header's text followed by the job's command.
   */
  lemma WrapperLine(pre: string, jobId: string, command: string)
    requires BraceFree(pre)
    ensures Format(pre + "{cmdwrap}", map["jobid" := jobId, "cmdwrap" := command]) == Ok(pre + command)
  {
    var env := map["jobid" := jobId, "cmdwrap" := command];
    assert "{cmdwrap}" == "{" + "cmdwrap" + "}";
    FormatEndHole(pre + "{cmdwrap}", pre + command, pre, "cmdwrap", env);
  }

  /** Without the two option lists the header fails on the first of them. */
  lemma MinimalWithoutOptions(head: string, memPrefix: string, mem: string, d: string)
    requires IsAbs(d)
    ensures SubmissionHead(MinimalProfile(head, memPrefix, mem) - {"SubmissionOptions", "SubOptionsEqual"}, d)
      == Err(MissingKey("SubmissionOptions"))
  {
  }

  /** The minimal profile's header compiled for one job. */
  lemma MinimalLine(head: string, memPrefix: string, mem: string, d: string, job: Job)
    requires IsAbs(d) && BraceFree(head) && BraceFree(memPrefix) && BraceFree(mem)
    ensures SubmissionHead(MinimalProfile(head, memPrefix, mem), d).Ok?
    ensures Rendered(SubmissionHead(MinimalProfile(head, memPrefix, mem), d).value, [job])
      == [head + " " + memPrefix + mem + " " + job.jobString]
  {
    MinimalHeader(head, memPrefix, mem, d);
    var pre := head + " " + (memPrefix + mem) + " ";
    assert head + " " + (memPrefix + mem) + " " + "{cmdwrap}" == pre + "{cmdwrap}";
    WrapperRendered(SubmissionHead(MinimalProfile(head, memPrefix, mem), d).value, pre, job);
    Regroup(head, " ", memPrefix, mem, job.jobString);
  }

  lemma Regroup(a: string, sp: string, b: string, c: string, e: string)
    ensures a + sp + (b + c) + sp + e == a + sp + b + c + sp + e
  {
  }

  /** A header ending in its only hole, `{cmdwrap}`, renders a job as the text before it and the command. */
  lemma WrapperRendered(h: string, pre: string, job: Job)
    requires BraceFree(pre) && h == pre + "{cmdwrap}"
    ensures Rendered(h, [job]) == [pre + job.jobString]
  {
    WrapperLine(pre, job.jobId, job.jobString);
    assert Format(h, JobEnv(job)) == Ok(pre + job.jobString);
    RenderedOne(h, job);
  }

  /**
   * One job on the minimal profile compiles to one submission string: the
   * head, the memory directive and the job's command, separated by spaces.
   */
  method MinimalCompile(cwd: string, head: string, memPrefix: string, mem: string, jobId: string, command: string)
    returns (lines: seq<string>)
    requires IsAbs(cwd) && BraceFree(head) && BraceFree(memPrefix) && BraceFree(mem)
    ensures lines == [head + " " + memPrefix + mem + " " + command]
  {
    var m := new BatchManager(MinimalProfile(head, memPrefix, mem), cwd, None);
    var job := new Job(jobId, command, None, None, "");
    m.AddJob(job);
    MinimalLine(head, memPrefix, mem, m.outputDir, job);
    var failure := m.CompileJobStrings();
    lines := m.submissionList;
  }

  // ---------------------------------------------------------------------------
  // Job and the dataset sandwich

  /** The clone-and-checkout segment put in front of a sandwiched command. */
  const PrefixTemplate: Template :=
    LitHole("datalad clone ", "target_dir", LitHole(" ", "tmp_dir", LitHole(" && git -C ", "tmp_dir",
    LitHole(" annex dead here && git -C ", "tmp_dir", LitHole(" checkout job-", "jobid", [Lit(" && ")])))))

  /** The push-and-merge segment as the source writes it: it names `{target_dataset}`. */
  const SuffixTemplateAsWritten: Template :=
    LitHole(" && datalad push -d ", "tmp_dir", LitHole(" --to origin && git -C ", "target_dataset",
    LitHole(" merge -m ", "merge_message", LitHole(" job-", "jobid", []))))

  /** The push-and-merge segment with the hole the call supplies, `{target_dir}`. */
  const SuffixTemplate: Template :=
    LitHole(" && datalad push -d ", "tmp_dir", LitHole(" --to origin && git -C ", "target_dir",
    LitHole(" merge -m ", "merge_message", LitHole(" job-", "jobid", []))))

  lemma Assoc8(s1: string, s2: string, s3: string, s4: string, s5: string, s6: string, s7: string, s8: string)
    ensures s1 + (s2 + (s3 + (s4 + (s5 + (s6 + (s7 + s8)))))) == s1 + s2 + s3 + s4 + s5 + s6 + s7 + s8
  {
  }

  lemma Assoc11(s1: string, s2: string, s3: string, s4: string, s5: string, s6: string, s7: string, s8: string,
                s9: string, s10: string, s11: string)
    ensures s1 + (s2 + (s3 + (s4 + (s5 + (s6 + (s7 + (s8 + (s9 + (s10 + s11)))))))))
      == s1 + s2 + s3 + s4 + s5 + s6 + s7 + s8 + s9 + s10 + s11
  {
  }

  /** The arguments the prefix is formatted with. */
  function PrefixEnv(target: Option<string>, branch: string, jobId: string): Env {
    map["target_dir" := OptStr(target), "tmp_dir" := branch, "jobid" := jobId]
  }

  function MergeMessage(jobId: string): string {
    "TEMPORARY MERGE MESSAGE for Job-" + jobId
  }

  /** The arguments the suffix is formatted with. */
  function SuffixEnv(target: Option<string>, branch: string, jobId: string): Env {
    map["target_dir" := OptStr(target), "tmp_dir" := branch, "jobid" := jobId, "merge_message" := MergeMessage(jobId)]
  }

  /** `git_sandwich` as written: both templates formatted, the suffix with an unbound name. */
  function GitSandwichAsWritten(target: Option<string>, branch: string, jobId: string, command: string)
    : Result<string, FormatError>
  {
    var prefix :- Format(Unparse(PrefixTemplate), PrefixEnv(target, branch, jobId));
    var suffix :- Format(Unparse(SuffixTemplateAsWritten), SuffixEnv(target, branch, jobId));
    Ok(prefix + command + suffix)
  }

  /** The suffix as written cannot be formatted: `{target_dataset}` is not among the arguments. */
  lemma SuffixAsWrittenFails(target: Option<string>, branch: string, jobId: string)
    ensures Fill(SuffixTemplateAsWritten, SuffixEnv(target, branch, jobId)) == Err(MissingField("target_dataset"))
  {
    var env := SuffixEnv(target, branch, jobId);
    var t2 := LitHole(" merge -m ", "merge_message", LitHole(" job-", "jobid", []));
    var t1 := LitHole(" --to origin && git -C ", "target_dataset", t2);
    assert "target_dataset" !in env;
    FillLitHole(" --to origin && git -C ", "target_dataset", t2, env);
    FillLitHole(" && datalad push -d ", "tmp_dir", t1, env);
  }

  lemma SuffixAsWrittenFormatFails(target: Option<string>, branch: string, jobId: string)
    ensures Format(Unparse(SuffixTemplateAsWritten), SuffixEnv(target, branch, jobId)) == Err(MissingField("target_dataset"))
  {
    SuffixWellNamed("target_dataset");
    FormatUnparse(SuffixTemplateAsWritten, SuffixEnv(target, branch, jobId));
    SuffixAsWrittenFails(target, branch, jobId);
  }

  /** The sandwich as written always fails: `{target_dataset}` is never bound. */
  lemma GitSandwichAsWrittenFails(target: Option<string>, branch: string, jobId: string, command: string)
    ensures GitSandwichAsWritten(target, branch, jobId, command) == Err(MissingField("target_dataset"))
  {
    var prefix := Format(Unparse(PrefixTemplate), PrefixEnv(target, branch, jobId));
    var suffix := Format(Unparse(SuffixTemplateAsWritten), SuffixEnv(target, branch, jobId));
    assert prefix.Ok? by {
      PrefixFills(target, branch, jobId);
    }
    SuffixAsWrittenFormatFails(target, branch, jobId);
  }

  lemma PrefixWellNamed()
    ensures WellNamed(PrefixTemplate)
  {
    var t4 := LitHole(" checkout job-", "jobid", [Lit(" && ")]);
    var t3 := LitHole(" annex dead here && git -C ", "tmp_dir", t4);
    var t2 := LitHole(" && git -C ", "tmp_dir", t3);
    var t1 := LitHole(" ", "tmp_dir", t2);
    WellNamedLitHole(" checkout job-", "jobid", [Lit(" && ")]);
    WellNamedLitHole(" annex dead here && git -C ", "tmp_dir", t4);
    WellNamedLitHole(" && git -C ", "tmp_dir", t3);
    WellNamedLitHole(" ", "tmp_dir", t2);
    WellNamedLitHole("datalad clone ", "target_dir", t1);
  }

  lemma PrefixFill(target: Option<string>, branch: string, jobId: string)
    ensures Fill(PrefixTemplate, PrefixEnv(target, branch, jobId))
      == Ok("datalad clone " + OptStr(target) + " " + branch + " && git -C " + branch
            + " annex dead here && git -C " + branch + " checkout job-" + jobId + " && ")
  {
    var env := PrefixEnv(target, branch, jobId);
    var t4 := LitHole(" checkout job-", "jobid", [Lit(" && ")]);
    var t3 := LitHole(" annex dead here && git -C ", "tmp_dir", t4);
    var t2 := LitHole(" && git -C ", "tmp_dir", t3);
    var t1 := LitHole(" ", "tmp_dir", t2);
    var r4 := " checkout job-" + (jobId + " && ");
    var r3 := " annex dead here && git -C " + (branch + r4);
    var r2 := " && git -C " + (branch + r3);
    var r1 := " " + (branch + r2);
    FillLit(" && ", env);
    FillLitHoleOk(" checkout job-", "jobid", [Lit(" && ")], env, jobId, " && ");
    FillLitHoleOk(" annex dead here && git -C ", "tmp_dir", t4, env, branch, r4);
    FillLitHoleOk(" && git -C ", "tmp_dir", t3, env, branch, r3);
    FillLitHoleOk(" ", "tmp_dir", t2, env, branch, r2);
    FillLitHoleOk("datalad clone ", "target_dir", t1, env, OptStr(target), r1);
    Assoc11("datalad clone ", OptStr(target), " ", branch, " && git -C ", branch,
            " annex dead here && git -C ", branch, " checkout job-", jobId, " && ");
  }

  /** The prefix always formats, to the clone-and-checkout command. */
  lemma PrefixFills(target: Option<string>, branch: string, jobId: string)
    ensures Format(Unparse(PrefixTemplate), PrefixEnv(target, branch, jobId))
      == Ok("datalad clone " + OptStr(target) + " " + branch + " && git -C " + branch
            + " annex dead here && git -C " + branch + " checkout job-" + jobId + " && ")
  {
    PrefixWellNamed();
    FormatUnparse(PrefixTemplate, PrefixEnv(target, branch, jobId));
    PrefixFill(target, branch, jobId);
  }

  lemma SuffixWellNamed(hole: string)
    requires BraceFree(hole)
    ensures WellNamed(LitHole(" && datalad push -d ", "tmp_dir", LitHole(" --to origin && git -C ", hole,
      LitHole(" merge -m ", "merge_message", LitHole(" job-", "jobid", [])))))
  {
    var t3 := LitHole(" job-", "jobid", []);
    var t2 := LitHole(" merge -m ", "merge_message", t3);
    var t1 := LitHole(" --to origin && git -C ", hole, t2);
    WellNamedLitHole(" job-", "jobid", []);
    WellNamedLitHole(" merge -m ", "merge_message", t3);
    WellNamedLitHole(" --to origin && git -C ", hole, t2);
    WellNamedLitHole(" && datalad push -d ", "tmp_dir", t1);
  }

  lemma SuffixFill(target: Option<string>, branch: string, jobId: string)
    ensures Fill(SuffixTemplate, SuffixEnv(target, branch, jobId))
      == Ok(" && datalad push -d " + branch + " --to origin && git -C " + OptStr(target)
            + " merge -m " + MergeMessage(jobId) + " job-" + jobId)
  {
    var env := SuffixEnv(target, branch, jobId);
    var t3 := LitHole(" job-", "jobid", []);
    var t2 := LitHole(" merge -m ", "merge_message", t3);
    var t1 := LitHole(" --to origin && git -C ", "target_dir", t2);
    var r3 := " job-" + jobId;
    var r2 := " merge -m " + (MergeMessage(jobId) + r3);
    var r1 := " --to origin && git -C " + (OptStr(target) + r2);
    assert Fill([], env) == Ok("");
    FillLitHoleOk(" job-", "jobid", [], env, jobId, "");
    assert " job-" + (jobId + "") == r3;
    FillLitHoleOk(" merge -m ", "merge_message", t3, env, MergeMessage(jobId), r3);
    FillLitHoleOk(" --to origin && git -C ", "target_dir", t2, env, OptStr(target), r2);
    FillLitHoleOk(" && datalad push -d ", "tmp_dir", t1, env, branch, r1);
    Assoc8(" && datalad push -d ", branch, " --to origin && git -C ", OptStr(target),
           " merge -m ", MergeMessage(jobId), " job-", jobId);
  }

  /** The corrected suffix always formats, to the push-and-merge command. */
  lemma SuffixFills(target: Option<string>, branch: string, jobId: string)
    ensures Format(Unparse(SuffixTemplate), SuffixEnv(target, branch, jobId))
      == Ok(" && datalad push -d " + branch + " --to origin && git -C " + OptStr(target)
            + " merge -m " + MergeMessage(jobId) + " job-" + jobId)
  {
    SuffixWellNamed("target_dir");
    FormatUnparse(SuffixTemplate, SuffixEnv(target, branch, jobId));
    SuffixFill(target, branch, jobId);
  }

  lemma AppendAssoc9(x: string, s1: string, s2: string, s3: string, s4: string, s5: string, s6: string, s7: string, s8: string)
    ensures x + (s1 + s2 + s3 + s4 + s5 + s6 + s7 + s8) == x + s1 + s2 + s3 + s4 + s5 + s6 + s7 + s8
  {
  }

  /**
   * The dataset sandwich with the suffix's hole corrected: clone the target
   * into the branch path and check out the job branch, run the command, push
   * the branch and merge it into the target.
   */
  function Sandwich(target: Option<string>, branch: string, jobId: string, command: string): (r: string)
    ensures r == "datalad clone " + OptStr(target) + " " + branch + " && git -C " + branch
      + " annex dead here && git -C " + branch + " checkout job-" + jobId + " && "
      + command
      + " && datalad push -d " + branch + " --to origin && git -C " + OptStr(target)
      + " merge -m " + MergeMessage(jobId) + " job-" + jobId
  {
    PrefixFills(target, branch, jobId);
    SuffixFills(target, branch, jobId);
    AppendAssoc9("datalad clone " + OptStr(target) + " " + branch + " && git -C " + branch
      + " annex dead here && git -C " + branch + " checkout job-" + jobId + " && " + command,
      " && datalad push -d ", branch, " --to origin && git -C ", OptStr(target),
      " merge -m ", MergeMessage(jobId), " job-", jobId);
    Format(Unparse(PrefixTemplate), PrefixEnv(target, branch, jobId)).value + command
      + Format(Unparse(SuffixTemplate), SuffixEnv(target, branch, jobId)).value
  }

  /** Why constructing a `Job` fails in the source. */
  datatype JobError =
    | JoinNone                    // `os.path.join(None, ...)`: `TypeError`
    | SandwichFailed(cause: FormatError)

  /**
   * `Job.__init__` as written: the branch path is joined before `tmp_dir` is
   * checked for `None`, and the sandwich it then builds cannot be formatted.
   * The result is the job's final command string.
   */
  function JobInitAsWritten(jobId: string, command: string, target: Option<string>, tmpDir: Option<string>)
    : Result<string, JobError>
  {
    if tmpDir.None? then Err(JoinNone)
    else
      var branch := PathJoin(tmpDir.value, "job-" + jobId);
      match GitSandwichAsWritten(target, branch, jobId, command)
      case Ok(s) => Ok(s)
      case Err(e) => Err(SandwichFailed(e))
  }

  /** No job can be constructed as the source is written. */
  lemma JobInitAsWrittenFails(jobId: string, command: string, target: Option<string>, tmpDir: Option<string>)
    ensures tmpDir.None? ==> JobInitAsWritten(jobId, command, target, tmpDir) == Err(JoinNone)
    ensures tmpDir.Some? ==> JobInitAsWritten(jobId, command, target, tmpDir) == Err(SandwichFailed(MissingField("target_dataset")))
  {
    if tmpDir.Some? {
      GitSandwichAsWrittenFails(target, PathJoin(tmpDir.value, "job-" + jobId), jobId, command);
    }
  }

  /** One unit of schedulable work, with its command sandwiched when a scratch directory is given. */
  class Job {
    const jobId: string
    const jobString: string
    const targetDataset: Option<string>
    const tmpDir: Option<string>
    const branchDataset: Option<string>

    /**
     * The corrected constructor: without a scratch directory the command is
     * kept as it is; with one, the branch path is `tmpDir/job-<id>` and the
     * command is sandwiched. The merge message argument is not used: the
     * sandwich builds its own.
     */
    constructor(jobId: string, command: string, targetDataset: Option<string>, tmpDir: Option<string>, mergeMessage: string)
      ensures this.jobId == jobId && this.targetDataset == targetDataset && this.tmpDir == tmpDir
      ensures tmpDir.None? ==> branchDataset.None? && jobString == command
      ensures tmpDir.Some? ==> branchDataset == Some(PathJoin(tmpDir.value, "job-" + jobId))
      ensures tmpDir.Some? ==> jobString == Sandwich(targetDataset, branchDataset.value, jobId, command)
    {
      this.jobId := jobId;
      this.targetDataset := targetDataset;
      this.tmpDir := tmpDir;
      if tmpDir.Some? {
        var branch := PathJoin(tmpDir.value, "job-" + jobId);
        branchDataset := Some(branch);
        jobString := Sandwich(targetDataset, branch, jobId, command);
      } else {
        branchDataset := None;
        jobString := command;
      }
    }

    /** `git_sandwich()` applied to the job's current command string. */
    function GitSandwich(): (r: string)
      requires branchDataset.Some?
      ensures r == Sandwich(targetDataset, branchDataset.value, jobId, jobString)
    {
      PrefixFills(targetDataset, branchDataset.value, jobId);
      SuffixFills(targetDataset, branchDataset.value, jobId);
      Format(Unparse(PrefixTemplate), PrefixEnv(targetDataset, branchDataset.value, jobId)).value + jobString
        + Format(Unparse(SuffixTemplate), SuffixEnv(targetDataset, branchDataset.value, jobId)).value
    }
  }
}
