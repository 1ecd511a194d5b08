/**
 * go/utils.go: registry membership, the rendering of a command list, the
 * lookup and loading of the managed-device registry, and the dry-run
 * preview document of a job.
 */
module Utils {
  import opened Wrappers
  import opened Strconv
  import opened Strings
  import Api
  import opened Params

  // ---------------------------------------------------------------------------
  // isElementExist

  /** isElementExist: whether str is one of the elements of s (nil or empty: never). */
  method IsElementExist(s: seq<string>, str: string) returns (found: bool)
    ensures found <==> str in s
  {
    for k := 0 to |s|
      invariant str !in s[..k]
    {
      if s[k] == str {
        return true;
      }
    }
    return false;
  }

  // ---------------------------------------------------------------------------
  // parseCommand

  function Quote(word: string): string {
    "\"" + word + "\""
  }

  function Quoted(words: seq<string>): seq<string> {
    seq(|words|, k requires 0 <= k < |words| => Quote(words[k]))
  }

  /** The bracketed list parseCommand renders: each word in double quotes, joined by ", ". */
  function CommandList(words: seq<string>): string {
    "[" + Join(Quoted(words), ", ") + "]"
  }

  /** parseCommand: renders the words one by one, the delimiter becoming ", " after the first. */
  method ParseCommand(command: seq<string>) returns (r: string)
    ensures r == CommandList(command)
  {
    var ret := "[";
    var del := "";
    for k := 0 to |command|
      invariant del == if k == 0 then "" else ", "
      invariant ret == "[" + Join(Quoted(command[..k]), ", ")
    {
      RenderStep(command, k);
      ret := ret + del + "\"" + command[k] + "\"";
      del := ", ";
    }
    assert command[..|command|] == command;
    r := ret + "]";
  }

  /** The rendering of one more word: the delimiter, then the word in quotes. */
  lemma RenderStep(command: seq<string>, k: nat)
    requires k < |command|
    ensures "[" + Join(Quoted(command[..k + 1]), ", ")
      == "[" + Join(Quoted(command[..k]), ", ") + (if k == 0 then "" else ", ") + "\"" + command[k] + "\""
  {
    var before := Quoted(command[..k]);
    assert Quoted(command[..k + 1]) == before + [Quote(command[k])];
    JoinSnoc(before, Quote(command[k]), ", ");
    assert k == 0 ==> before == [];
  }

  /** The sum over the words of their length plus two quotes. */
  function QuotedLength(words: seq<string>): nat
    decreases |words|
  {
    if words == [] then 0 else |words[0]| + 2 + QuotedLength(words[1..])
  }

  lemma {:induction false} QuotedJoinLength(words: seq<string>)
    ensures |Join(Quoted(words), ", ")| == QuotedLength(words) + 2 * (if |words| > 0 then |words| - 1 else 0)
    decreases |words|
  {
    if |words| > 1 {
      QuotedJoinLength(words[1..]);
      assert Quoted(words)[1..] == Quoted(words[1..]);
    } else if |words| == 1 {
      assert words[1..] == [];
    }
  }

  /** The length of a rendered command: brackets, quoted words, and a ", " between consecutive words. */
  lemma CommandListLength(words: seq<string>)
    ensures |CommandList(words)| == 2 + QuotedLength(words) + 2 * (if |words| > 0 then |words| - 1 else 0)
  {
    QuotedJoinLength(words);
  }

  lemma CommandListExamples()
    ensures CommandList([]) == "[]"
    ensures CommandList(["echo", "Hello!"]) == "[\"echo\", \"Hello!\"]"
  {
    var q := Quoted(["echo", "Hello!"]);
    assert |q| == 2 && q[0] == "\"echo\"" && q[1] == "\"Hello!\"";
    assert q == ["\"echo\"", "\"Hello!\""];
  }

  // ---------------------------------------------------------------------------
  // findConfigLocation and loadManagedDevices

  const SYSTEM_CONFIG_PATH: string := "/etc/kubernetes/job-manager.conf"

  /** The user-scoped configuration file under the home directory. */
  function UserConfigPath(home: string): string {
    home + "/.kube/job-manager.conf"
  }

  /**
   * findConfigLocation: the user file when it exists, else the system-wide file
   * when it exists, else "". present(path) stands for os.Stat(path) succeeding.
   */
  function FindConfigLocation(home: string, present: string -> bool): (location: string)
    ensures present(UserConfigPath(home)) ==> location == UserConfigPath(home)
    ensures !present(UserConfigPath(home)) && present(SYSTEM_CONFIG_PATH) ==> location == SYSTEM_CONFIG_PATH
    ensures !present(UserConfigPath(home)) && !present(SYSTEM_CONFIG_PATH) ==> location == ""
  {
    if !present(UserConfigPath(home)) then
      if !present(SYSTEM_CONFIG_PATH) then "" else SYSTEM_CONFIG_PATH
    else UserConfigPath(home)
  }

  /** What readLines gives for a path: its lines in order, or an error. */
  datatype ReadResult = ReadLines(lines: seq<string>) | ReadFailed

  /**
   * loadManagedDevices: the lines of the located file. None (a nil slice) when
   * there is no file, when reading fails, and when the file has no lines,
   * since readLines only allocates its slice on the first line it appends.
   */
  function LoadManagedDevices(home: string, present: string -> bool, read: string -> ReadResult): (config: Option<seq<string>>)
    ensures var location := FindConfigLocation(home, present);
      config.None? <==> location == "" || read(location).ReadFailed? || read(location).lines == []
    ensures config.Some? ==> config.value == read(FindConfigLocation(home, present)).lines
  {
    var location := FindConfigLocation(home, present);
    if location != "" then
      match read(location)
      case ReadFailed => None
      case ReadLines(lines) => if lines == [] then None else Some(lines)
    else None
  }

  // ---------------------------------------------------------------------------
  // printJobYaml

  /** One line of the preview: its key, ending in ": ", then the value. */
  function Entry(key: string, value: string): string {
    key + value
  }

  /** The head of the preview: the API version, the kind, and the job's name and namespace. */
  function MetadataLines(job: Api.Job): seq<string> {
    [ "apiVersion: batch/v1",
      "kind: Job",
      "metadata:",
      Entry("  name: ", job.name),
      Entry("  namespace: ", job.namespace) ]
  }

  /** The job-level numbers, rendered by fmt.Sprint. */
  function SpecLines(job: Api.Job): seq<string> {
    [ "spec:",
      Entry("  activeDeadlineSeconds: ", Decimal(job.activeDeadlineSeconds)),
      Entry("  ttlSecondsAfterFinished: ", Decimal(job.ttlSecondsAfterFinished)),
      Entry("  parallelism: ", Decimal(job.parallelism)),
      Entry("  completions: ", Decimal(job.completions)) ]
  }

  /** The pod template down to the container's command. */
  function TemplateLines(job: Api.Job, c: Api.Container): seq<string> {
    [ "  template:",
      "    spec:",
      "      containers:",
      Entry("      - name: ", job.name),
      Entry("        image: ", c.image),
      Entry("        command: ", CommandList(c.command)) ]
  }

  /** One unit of the device, requested and as a limit. */
  function ResourceLines(device: string): seq<string> {
    [ "        resources:",
      "          requests:",
      Entry("            " + device + ": ", "1"),
      "          limits:",
      Entry("            " + device + ": ", "1") ]
  }

  /** The pull policy, the restart policy and the backoff limit. */
  function TailLines(job: Api.Job, c: Api.Container): seq<string> {
    [ Entry("        imagePullPolicy: ", c.imagePullPolicy),
      Entry("      restartPolicy: ", job.restartPolicy),
      Entry("  backoffLimit: ", Decimal(job.backoffLimit)) ]
  }

  /**
   * The lines printJobYaml appends, in order, without their newlines.
   * Container 0 must exist (the source indexes it).
   */
  function JobYamlLines(job: Api.Job, device: string): seq<string>
    requires |job.containers| > 0
  {
    var c := job.containers[0];
    MetadataLines(job) + SpecLines(job) + TemplateLines(job, c) + ResourceLines(device) + TailLines(job, c)
  }

  /** The document printJobYaml prints: each line followed by a newline. */
  function JobYaml(job: Api.Job, device: string): string
    requires |job.containers| > 0
  {
    Unlines(JobYamlLines(job, device))
  }

  /**
   * printJobYaml: the preview built by appending its lines one by one, each
   * with its newline, section after section; the requests and limits name
   * the request's device.
   */
  method PrintJobYaml(job: Api.Job, device: string) returns (yaml: string)
    requires |job.containers| > 0
    ensures yaml == JobYaml(job, device)
  {
    var c := job.containers[0];
    yaml := "";
    yaml := AppendMetadata(yaml, job);
    yaml := AppendSpec(yaml, job);
    yaml := AppendTemplate(yaml, job, c);
    yaml := AppendResources(yaml, device);
    yaml := AppendTail(yaml, job, c);
    JobYamlSections(job, device);
    assert "" + Unlines(MetadataLines(job)) == Unlines(MetadataLines(job));
  }

  method AppendMetadata(head: string, job: Api.Job) returns (yaml: string)
    ensures yaml == head + Unlines(MetadataLines(job))
  {
    AppendLines5(head, "apiVersion: batch/v1", "kind: Job", "metadata:", "  name: " + job.name, "  namespace: " + job.namespace);
    yaml := head;
    yaml := yaml + "apiVersion: batch/v1" + "\n";
    yaml := yaml + "kind: Job" + "\n";
    yaml := yaml + "metadata:" + "\n";
    yaml := yaml + ("  name: " + job.name) + "\n";
    yaml := yaml + ("  namespace: " + job.namespace) + "\n";
  }

  method AppendSpec(head: string, job: Api.Job) returns (yaml: string)
    ensures yaml == head + Unlines(SpecLines(job))
  {
    AppendLines5(head, "spec:",
      "  activeDeadlineSeconds: " + Decimal(job.activeDeadlineSeconds),
      "  ttlSecondsAfterFinished: " + Decimal(job.ttlSecondsAfterFinished),
      "  parallelism: " + Decimal(job.parallelism),
      "  completions: " + Decimal(job.completions));
    yaml := head;
    yaml := yaml + "spec:" + "\n";
    yaml := yaml + ("  activeDeadlineSeconds: " + Decimal(job.activeDeadlineSeconds)) + "\n";
    yaml := yaml + ("  ttlSecondsAfterFinished: " + Decimal(job.ttlSecondsAfterFinished)) + "\n";
    yaml := yaml + ("  parallelism: " + Decimal(job.parallelism)) + "\n";
    yaml := yaml + ("  completions: " + Decimal(job.completions)) + "\n";
  }

  method AppendTemplate(head: string, job: Api.Job, c: Api.Container) returns (yaml: string)
    ensures yaml == head + Unlines(TemplateLines(job, c))
  {
    var command := ParseCommand(c.command);
    AppendLines6(head, "  template:", "    spec:", "      containers:",
      "      - name: " + job.name, "        image: " + c.image, "        command: " + command);
    yaml := head;
    yaml := yaml + "  template:" + "\n";
    yaml := yaml + "    spec:" + "\n";
    yaml := yaml + "      containers:" + "\n";
    yaml := yaml + ("      - name: " + job.name) + "\n";
    yaml := yaml + ("        image: " + c.image) + "\n";
    yaml := yaml + ("        command: " + command) + "\n";
  }

  method AppendResources(head: string, device: string) returns (yaml: string)
    ensures yaml == head + Unlines(ResourceLines(device))
  {
    AppendLines5(head, "        resources:", "          requests:", "            " + device + ": " + "1",
      "          limits:", "            " + device + ": " + "1");
    yaml := head;
    yaml := yaml + "        resources:" + "\n";
    yaml := yaml + "          requests:" + "\n";
    yaml := yaml + ("            " + device + ": " + "1") + "\n";
    yaml := yaml + "          limits:" + "\n";
    yaml := yaml + ("            " + device + ": " + "1") + "\n";
  }

  method AppendTail(head: string, job: Api.Job, c: Api.Container) returns (yaml: string)
    ensures yaml == head + Unlines(TailLines(job, c))
  {
    AppendLines3(head, "        imagePullPolicy: " + c.imagePullPolicy, "      restartPolicy: " + job.restartPolicy,
      "  backoffLimit: " + Decimal(job.backoffLimit));
    yaml := head;
    yaml := yaml + ("        imagePullPolicy: " + c.imagePullPolicy) + "\n";
    yaml := yaml + ("      restartPolicy: " + job.restartPolicy) + "\n";
    yaml := yaml + ("  backoffLimit: " + Decimal(job.backoffLimit)) + "\n";
  }

  /** The preview is the documents of its sections, one after the other. */
  lemma JobYamlSections(job: Api.Job, device: string)
    requires |job.containers| > 0
    ensures JobYaml(job, device)
      == Unlines(MetadataLines(job)) + Unlines(SpecLines(job)) + Unlines(TemplateLines(job, job.containers[0]))
         + Unlines(ResourceLines(device)) + Unlines(TailLines(job, job.containers[0]))
  {
    var c := job.containers[0];
    var m, s, t, r := MetadataLines(job), SpecLines(job), TemplateLines(job, c), ResourceLines(device);
    UnlinesAppend(m + s + t + r, TailLines(job, c));
    UnlinesAppend(m + s + t, r);
    UnlinesAppend(m + s, t);
    UnlinesAppend(m, s);
  }

  /** The text after key when line starts with it. */
  function ValueAfter(line: string, key: string): Option<string> {
    if |key| <= |line| && line[..|key|] == key then Some(line[|key|..]) else None
  }

  /** The number written after key on line, read as strconv.ParseInt reads it. */
  function IntAfter(line: string, key: string, b: BitSize): Option<int> {
    match ValueAfter(line, key)
    case None => None
    case Some(text) => ParseInt(text, b)
  }

  /** The strings of job and device that end up in the preview hold no newline. */
  predicate NewlineFree(job: Api.Job, device: string)
    requires |job.containers| > 0
  {
    var c := job.containers[0];
    && '\n' !in job.name && '\n' !in job.namespace && '\n' !in device
    && '\n' !in c.image && '\n' !in c.imagePullPolicy && '\n' !in job.restartPolicy
    && forall k :: 0 <= k < |c.command| ==> '\n' !in c.command[k]
  }

  /** The numbers of job fit the Go field widths: int64 for the deadline, int32 for the rest. */
  predicate FieldsInRange(job: Api.Job) {
    && InRange(job.activeDeadlineSeconds, Bits64)
    && InRange(job.ttlSecondsAfterFinished, Bits32)
    && InRange(job.parallelism, Bits32)
    && InRange(job.completions, Bits32)
    && InRange(job.backoffLimit, Bits32)
  }

  lemma DecimalHasNoNewline(n: int)
    ensures '\n' !in Decimal(n)
  {
  }

  lemma {:induction false} JoinHasNoNewline(parts: seq<string>, sep: string)
    requires '\n' !in sep
    requires forall k :: 0 <= k < |parts| ==> '\n' !in parts[k]
    ensures '\n' !in Join(parts, sep)
    decreases |parts|
  {
    if |parts| > 1 {
      JoinHasNoNewline(parts[1..], sep);
    }
  }

  /** An entry line reads back its value, and is newline-free when its key and value are. */
  lemma EntryReadsBack(key: string, value: string)
    ensures ValueAfter(Entry(key, value), key) == Some(value)
    ensures '\n' !in key && '\n' !in value ==> '\n' !in Entry(key, value)
  {
    var line := Entry(key, value);
    assert line[..|key|] == key;
    assert line[|key|..] == value;
  }

  predicate LinesNewlineFree(lines: seq<string>) {
    forall k :: 0 <= k < |lines| ==> '\n' !in lines[k]
  }

  lemma NewlineFreeAppend(first: seq<string>, second: seq<string>)
    requires LinesNewlineFree(first) && LinesNewlineFree(second)
    ensures LinesNewlineFree(first + second)
  {
    forall k | 0 <= k < |first + second|
      ensures '\n' !in (first + second)[k]
    {
      if k >= |first| {
        assert (first + second)[k] == second[k - |first|];
      }
    }
  }

  lemma MetadataNewlineFree(job: Api.Job)
    requires '\n' !in job.name && '\n' !in job.namespace
    ensures LinesNewlineFree(MetadataLines(job))
  {
    assert '\n' !in "apiVersion: batch/v1" && '\n' !in "kind: Job" && '\n' !in "metadata:";
    EntryReadsBack("  name: ", job.name);
    EntryReadsBack("  namespace: ", job.namespace);
  }

  lemma NumberEntryNewlineFree(key: string, n: int)
    requires '\n' !in key
    ensures '\n' !in Entry(key, Decimal(n))
  {
    DecimalHasNoNewline(n);
    EntryReadsBack(key, Decimal(n));
  }

  lemma TimeEntriesNewlineFree(job: Api.Job)
    ensures '\n' !in SpecLines(job)[1] && '\n' !in SpecLines(job)[2]
  {
    NumberEntryNewlineFree("  activeDeadlineSeconds: ", job.activeDeadlineSeconds);
    NumberEntryNewlineFree("  ttlSecondsAfterFinished: ", job.ttlSecondsAfterFinished);
  }

  lemma CountEntriesNewlineFree(job: Api.Job)
    ensures '\n' !in SpecLines(job)[3] && '\n' !in SpecLines(job)[4]
  {
    NumberEntryNewlineFree("  parallelism: ", job.parallelism);
    NumberEntryNewlineFree("  completions: ", job.completions);
  }

  lemma SpecNewlineFree(job: Api.Job)
    ensures LinesNewlineFree(SpecLines(job))
  {
    var lines := SpecLines(job);
    assert '\n' !in lines[0];
    TimeEntriesNewlineFree(job);
    CountEntriesNewlineFree(job);
    forall k | 0 <= k < |lines|
      ensures '\n' !in lines[k]
    {
    }
  }

  lemma TemplateNewlineFree(job: Api.Job, c: Api.Container)
    requires '\n' !in job.name && '\n' !in c.image
    requires forall k :: 0 <= k < |c.command| ==> '\n' !in c.command[k]
    ensures LinesNewlineFree(TemplateLines(job, c))
  {
    assert '\n' !in "  template:" && '\n' !in "    spec:" && '\n' !in "      containers:";
    EntryReadsBack("      - name: ", job.name);
    EntryReadsBack("        image: ", c.image);
    JoinHasNoNewline(Quoted(c.command), ", ");
    EntryReadsBack("        command: ", CommandList(c.command));
  }

  lemma ResourceNewlineFree(device: string)
    requires '\n' !in device
    ensures LinesNewlineFree(ResourceLines(device))
  {
    assert '\n' !in "        resources:" && '\n' !in "          requests:" && '\n' !in "          limits:";
    EntryReadsBack("            " + device + ": ", "1");
  }

  lemma TailNewlineFree(job: Api.Job, c: Api.Container)
    requires '\n' !in c.imagePullPolicy && '\n' !in job.restartPolicy
    ensures LinesNewlineFree(TailLines(job, c))
  {
    EntryReadsBack("        imagePullPolicy: ", c.imagePullPolicy);
    EntryReadsBack("      restartPolicy: ", job.restartPolicy);
    NumberEntryNewlineFree("  backoffLimit: ", job.backoffLimit);
  }

  /** No line of the preview holds a newline when the job's strings and the device hold none. */
  lemma PreviewLinesNewlineFree(job: Api.Job, device: string)
    requires |job.containers| > 0
    requires NewlineFree(job, device)
    ensures LinesNewlineFree(JobYamlLines(job, device))
  {
    var c := job.containers[0];
    MetadataNewlineFree(job);
    SpecNewlineFree(job);
    TemplateNewlineFree(job, c);
    ResourceNewlineFree(device);
    TailNewlineFree(job, c);
    NewlineFreeAppend(MetadataLines(job), SpecLines(job));
    NewlineFreeAppend(MetadataLines(job) + SpecLines(job), TemplateLines(job, c));
    NewlineFreeAppend(MetadataLines(job) + SpecLines(job) + TemplateLines(job, c), ResourceLines(device));
    NewlineFreeAppend(MetadataLines(job) + SpecLines(job) + TemplateLines(job, c) + ResourceLines(device), TailLines(job, c));
  }

  /** A number written as an entry reads back as itself when it fits the width. */
  lemma NumberEntryReadsBack(key: string, n: int, b: BitSize)
    requires InRange(n, b)
    ensures IntAfter(Entry(key, Decimal(n)), key, b) == Some(n)
  {
    EntryReadsBack(key, Decimal(n));
    DecimalRoundTrip(n, b);
  }

  /** Splitting the preview at its newlines gives its lines, when the fields hold no newline. */
  lemma PreviewSplitsIntoLines(job: Api.Job, device: string)
    requires |job.containers| > 0
    requires NewlineFree(job, device)
    ensures Split(JobYaml(job, device), '\n') == JobYamlLines(job, device) + [[]]
  {
    PreviewLinesNewlineFree(job, device);
    LinesOfUnlines(JobYamlLines(job, device));
  }

  /** The metadata lines of the preview show the job's name and namespace. */
  lemma PreviewMetadataReadsBack(job: Api.Job, device: string)
    requires |job.containers| > 0
    ensures var lines := JobYamlLines(job, device);
      && |lines| == 24
      && lines[..3] == ["apiVersion: batch/v1", "kind: Job", "metadata:"]
      && ValueAfter(lines[3], "  name: ") == Some(job.name)
      && ValueAfter(lines[4], "  namespace: ") == Some(job.namespace)
  {
    EntryReadsBack("  name: ", job.name);
    EntryReadsBack("  namespace: ", job.namespace);
  }

  /**
   * The numeric lines of the preview read back, by strconv.ParseInt at the
   * Go field's width, as the job's own numbers: the deadline, the time to
   * live after finishing, the parallelism, the completions and the backoff limit.
   */
  lemma PreviewNumbersReadBack(job: Api.Job, device: string)
    requires |job.containers| > 0
    requires FieldsInRange(job)
    ensures var lines := JobYamlLines(job, device);
      && IntAfter(lines[6], "  activeDeadlineSeconds: ", Bits64) == Some(job.activeDeadlineSeconds)
      && IntAfter(lines[7], "  ttlSecondsAfterFinished: ", Bits32) == Some(job.ttlSecondsAfterFinished)
      && IntAfter(lines[8], "  parallelism: ", Bits32) == Some(job.parallelism)
      && IntAfter(lines[9], "  completions: ", Bits32) == Some(job.completions)
      && IntAfter(lines[23], "  backoffLimit: ", Bits32) == Some(job.backoffLimit)
  {
    var lines := JobYamlLines(job, device);
    assert lines[6] == Entry("  activeDeadlineSeconds: ", Decimal(job.activeDeadlineSeconds));
    assert lines[7] == Entry("  ttlSecondsAfterFinished: ", Decimal(job.ttlSecondsAfterFinished));
    assert lines[8] == Entry("  parallelism: ", Decimal(job.parallelism));
    assert lines[9] == Entry("  completions: ", Decimal(job.completions));
    assert lines[23] == Entry("  backoffLimit: ", Decimal(job.backoffLimit));
    NumberEntryReadsBack("  activeDeadlineSeconds: ", job.activeDeadlineSeconds, Bits64);
    NumberEntryReadsBack("  ttlSecondsAfterFinished: ", job.ttlSecondsAfterFinished, Bits32);
    NumberEntryReadsBack("  parallelism: ", job.parallelism, Bits32);
    NumberEntryReadsBack("  completions: ", job.completions, Bits32);
    NumberEntryReadsBack("  backoffLimit: ", job.backoffLimit, Bits32);
  }

  /**
   * The container lines of the preview show the job name, container 0's
   * image, command and pull policy, and the restart policy.
   */
  lemma PreviewContainerReadsBack(job: Api.Job, device: string)
    requires |job.containers| > 0
    ensures var lines := JobYamlLines(job, device);
      var c := job.containers[0];
      && ValueAfter(lines[13], "      - name: ") == Some(job.name)
      && ValueAfter(lines[14], "        image: ") == Some(c.image)
      && ValueAfter(lines[15], "        command: ") == Some(CommandList(c.command))
      && ValueAfter(lines[21], "        imagePullPolicy: ") == Some(c.imagePullPolicy)
      && ValueAfter(lines[22], "      restartPolicy: ") == Some(job.restartPolicy)
  {
    var c := job.containers[0];
    var lines := JobYamlLines(job, device);
    assert lines[13] == Entry("      - name: ", job.name);
    assert lines[14] == Entry("        image: ", c.image);
    assert lines[15] == Entry("        command: ", CommandList(c.command));
    assert lines[21] == Entry("        imagePullPolicy: ", c.imagePullPolicy);
    assert lines[22] == Entry("      restartPolicy: ", job.restartPolicy);
    EntryReadsBack("      - name: ", job.name);
    EntryReadsBack("        image: ", c.image);
    EntryReadsBack("        command: ", CommandList(c.command));
    EntryReadsBack("        imagePullPolicy: ", c.imagePullPolicy);
    EntryReadsBack("      restartPolicy: ", job.restartPolicy);
  }

  /** The resources lines of the preview ask for one unit of the device, as request and as limit. */
  lemma PreviewResourcesReadBack(job: Api.Job, device: string)
    requires |job.containers| > 0
    ensures var lines := JobYamlLines(job, device);
      && lines[16] == "        resources:"
      && lines[17] == "          requests:"
      && IntAfter(lines[18], "            " + device + ": ", Bits64) == Some(1)
      && lines[19] == "          limits:"
      && IntAfter(lines[20], "            " + device + ": ", Bits64) == Some(1)
  {
    var lines := JobYamlLines(job, device);
    assert lines[18] == Entry("            " + device + ": ", "1") == lines[20];
    EntryReadsBack("            " + device + ": ", "1");
    assert ParseInt("1", Bits64) == Some(1);
  }

  /**
   * The printed preview, split at its newlines, is those 24 lines and the
   * empty text after the last newline, so each field can be read back from
   * the document itself.
   */
  lemma PreviewReadsBack(job: Api.Job, device: string)
    requires |job.containers| > 0
    requires NewlineFree(job, device)
    requires FieldsInRange(job)
    ensures var lines := Split(JobYaml(job, device), '\n');
      && |lines| == 25 && lines[24] == ""
      && lines[..24] == JobYamlLines(job, device)
      && IntAfter(lines[18], "            " + device + ": ", Bits64) == Some(1)
      && ValueAfter(lines[15], "        command: ") == Some(CommandList(job.containers[0].command))
  {
    PreviewSplitsIntoLines(job, device);
    PreviewResourcesReadBack(job, device);
    var lines := Split(JobYaml(job, device), '\n');
    assert lines[..24] == JobYamlLines(job, device);
  }
}
