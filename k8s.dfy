/**
 * The cluster-facing actions of the plugin (go/k8s.go): the device and job
 * listings, which correlate what the cluster reports with the registry of
 * managed devices, and the guarded creation and deletion of jobs. The
 * answers of the cluster are inputs: a listing is a Fetch value, and the
 * create and delete calls are functions from the request to the answer.
 */
module K8s {
  import opened Wrappers
  import opened Strconv
  import opened Strings
  import opened Api
  import opened Output
  import opened Params
  import Utils

  // ---------------------------------------------------------------------------
  // Time to live (listJobs)

  const NO_TIMEOUT_SET: string := "NoTimeoutSet"
  const TERMINATING: string := "Terminating..."
  /** What the Go runtime reports when listJobs reads the start time of a job that has none. */
  const NIL_DEREFERENCE: string := "invalid memory address or nil pointer dereference"

  /** A running job with an active deadline but no start time: listJobs dereferences a nil pointer. */
  predicate StartMissing(job: JobStatus) {
    job.completionTime.None? && job.activeDeadlineSeconds.Some? && job.startTime.None?
  }

  /**
   * The two variables of listJobs after its three-way branch: the remaining
   * seconds (0 unless a timed branch sets them) and the text (set only when
   * no timeout applies). None when the running-job branch reads a missing
   * start time.
   */
  function Remaining(job: JobStatus, now: int): Option<(int, string)> {
    if job.completionTime.Some? && job.ttlSecondsAfterFinished.Some? then
      Some((job.ttlSecondsAfterFinished.value - (now - job.completionTime.value), ""))
    else if job.completionTime.None? && job.activeDeadlineSeconds.Some? then
      match job.startTime
      case None => None
      case Some(start) => Some((job.activeDeadlineSeconds.value - (now - start), ""))
    else
      Some((0, NO_TIMEOUT_SET))
  }

  /** The text shown: positive seconds in decimal, else the text the branch set, else "Terminating...". */
  function Render(seconds: int, text: string): string {
    if seconds > 0 then Decimal(seconds) else if text == "" then TERMINATING else text
  }

  /** The TIME_TO_LIVE cell listJobs prints for job at time now; None where it panics. */
  function TimeToLive(job: JobStatus, now: int): (ttl: Option<string>)
    ensures ttl.None? <==> StartMissing(job)
  {
    match Remaining(job, now)
    case None => None
    case Some((seconds, text)) => Some(Render(seconds, text))
  }

  /** When a listed job's time runs out, stated from the job's fields alone. */
  datatype Expiry = ExpiresAt(instant: int) | NeverExpires | StartUnknown

  /**
   * A finished job expires its TTL-after-finished seconds after it
   * completed; a running job expires its active deadline after it started;
   * any other job has no timeout.
   */
  function ExpiryOf(job: JobStatus): Expiry {
    match job.completionTime
    case Some(finish) =>
      (match job.ttlSecondsAfterFinished
       case Some(ttl) => ExpiresAt(finish + ttl)
       case None => NeverExpires)
    case None =>
      match job.activeDeadlineSeconds
      case None => NeverExpires
      case Some(deadline) =>
        match job.startTime
        case Some(start) => ExpiresAt(start + deadline)
        case None => StartUnknown
  }

  /**
   * The time to live counts down to the expiry: the seconds left while it
   * lies ahead, "Terminating..." from the expiry on, "NoTimeoutSet" for a
   * job without a timeout, and a panic exactly when the start time is unknown.
   */
  lemma TimeToLiveCountsDown(job: JobStatus, now: int)
    ensures TimeToLive(job, now).None? <==> ExpiryOf(job) == StartUnknown
    ensures ExpiryOf(job).ExpiresAt? && now < ExpiryOf(job).instant ==>
      TimeToLive(job, now) == Some(Decimal(ExpiryOf(job).instant - now))
    ensures ExpiryOf(job).ExpiresAt? && ExpiryOf(job).instant <= now ==>
      TimeToLive(job, now) == Some(TERMINATING)
    ensures ExpiryOf(job) == NeverExpires <==> TimeToLive(job, now) == Some(NO_TIMEOUT_SET)
  {
    if ExpiryOf(job).ExpiresAt? && now < ExpiryOf(job).instant {
      var d := Decimal(ExpiryOf(job).instant - now);
      assert IsDigit(d[0]);
      assert d != NO_TIMEOUT_SET;
    }
    assert TERMINATING != NO_TIMEOUT_SET;
  }

  /** Which of the three branches applies never depends on the clock. */
  lemma NoTimeoutSetWhateverTheTime(job: JobStatus, now: int, later: int)
    ensures TimeToLive(job, now) == Some(NO_TIMEOUT_SET) <==> TimeToLive(job, later) == Some(NO_TIMEOUT_SET)
    ensures TimeToLive(job, now).None? <==> TimeToLive(job, later).None?
  {
    TimeToLiveCountsDown(job, now);
    TimeToLiveCountsDown(job, later);
  }

  /**
   * A job completed at c with TTL-after-finished r shows "1" one second
   * before c + r and "Terminating..." at c + r; a completed job with only an
   * active deadline, and a running job with only a TTL-after-finished, show
   * "NoTimeoutSet".
   */
  lemma TimeToLiveExamples(c: int, r: int, start: int, d: int, now: int)
    ensures TimeToLive(JobStatus("j", "ns", "", Some(start), Some(c), None, Some(r)), c + r - 1) == Some("1")
    ensures TimeToLive(JobStatus("j", "ns", "", Some(start), Some(c), None, Some(r)), c + r) == Some(TERMINATING)
    ensures TimeToLive(JobStatus("j", "ns", "", Some(start), Some(c), Some(d), None), now) == Some(NO_TIMEOUT_SET)
    ensures TimeToLive(JobStatus("j", "ns", "", Some(start), None, None, Some(r)), now) == Some(NO_TIMEOUT_SET)
  {
    assert Decimal(1) == "1";
  }

  // ---------------------------------------------------------------------------
  // Correlation of listed objects with the registry

  /** Something listed: the text searched for device names, and the cells of its row. */
  datatype Item = Item(descriptor: string, owner: string, namespace: string, detail: string)

  /** The row printed for item under device. */
  function RowOf(item: Item, device: string): Line {
    Row(device, item.owner, item.namespace, item.detail)
  }

  /** The rows of item: one per registry entry contained in its descriptor, in registry order. */
  function Matches(item: Item, registry: seq<string>): (rows: seq<Line>)
    ensures |rows| <= |registry|
    decreases |registry|
  {
    if registry == [] then []
    else
      var device := registry[|registry| - 1];
      Matches(item, registry[..|registry| - 1])
        + if Contains(item.descriptor, device) then [RowOf(item, device)] else []
  }

  /** The rows of all items, in item order and, for each item, in registry order. */
  function Correlate(items: seq<Item>, registry: seq<string>): seq<Line>
    decreases |items|
  {
    if items == [] then []
    else Correlate(items[..|items| - 1], registry) + Matches(items[|items| - 1], registry)
  }

  lemma {:induction false} MatchesAppend(item: Item, first: seq<string>, second: seq<string>)
    ensures Matches(item, first + second) == Matches(item, first) + Matches(item, second)
    decreases |second|
  {
    if second == [] {
      assert first + second == first;
    } else {
      var all := first + second;
      assert all[..|all| - 1] == first + second[..|second| - 1];
      MatchesAppend(item, first, second[..|second| - 1]);
    }
  }

  lemma {:induction false} CorrelateAppend(first: seq<Item>, second: seq<Item>, registry: seq<string>)
    ensures Correlate(first + second, registry) == Correlate(first, registry) + Correlate(second, registry)
    decreases |second|
  {
    if second == [] {
      assert first + second == first;
    } else {
      var n := |second| - 1;
      var head := Correlate(first, registry);
      var middle := Correlate(second[..n], registry);
      var last := Matches(second[n], registry);
      calc {
        Correlate(first + second, registry);
        { CorrelateLast(first, second, registry); }
        Correlate(first + second[..n], registry) + last;
        { CorrelateAppend(first, second[..n], registry); }
        head + middle + last;
        head + (middle + last);
        head + Correlate(second, registry);
      }
    }
  }

  /** Correlating a list that ends in second's last item appends that item's rows. */
  lemma CorrelateLast(first: seq<Item>, second: seq<Item>, registry: seq<string>)
    requires second != []
    ensures Correlate(first + second, registry)
      == Correlate(first + second[..|second| - 1], registry) + Matches(second[|second| - 1], registry)
  {
    var all := first + second;
    assert all[..|all| - 1] == first + second[..|second| - 1];
    assert all[|all| - 1] == second[|second| - 1];
  }

  /** Correlating one more item appends that item's rows. */
  lemma CorrelateSnoc(items: seq<Item>, item: Item, registry: seq<string>)
    ensures Correlate(items + [item], registry) == Correlate(items, registry) + Matches(item, registry)
  {
    assert (items + [item])[..|items|] == items;
  }

  /** A line is a row of item exactly when it names a registry entry the descriptor contains. */
  lemma {:induction false} MatchesRows(item: Item, registry: seq<string>, line: Line)
    ensures line in Matches(item, registry) <==>
      line.Row? && line == RowOf(item, line.device) && line.device in registry && Contains(item.descriptor, line.device)
    decreases |registry|
  {
    if registry != [] {
      var n := |registry| - 1;
      MatchesRows(item, registry[..n], line);
      assert registry == registry[..n] + [registry[n]];
    }
  }

  /**
   * A line is printed by the correlation exactly when it is the row, under
   * some registry entry, of an item whose descriptor contains that entry.
   */
  lemma {:induction false} CorrelateRows(items: seq<Item>, registry: seq<string>, line: Line)
    ensures line in Correlate(items, registry) <==>
      line.Row? && line.device in registry &&
      exists item :: item in items && Contains(item.descriptor, line.device) && line == RowOf(item, line.device)
    decreases |items|
  {
    if items != [] {
      var n := |items| - 1;
      CorrelateRows(items[..n], registry, line);
      MatchesRows(items[n], registry, line);
      assert items == items[..n] + [items[n]];
    }
  }

  /**
   * Matching is by substring: a descriptor mentioning only "dev-ab" matches
   * the entry "dev-a"; an entry listed twice gives two rows; the empty entry
   * matches every descriptor.
   */
  lemma MatchingExamples(item: Item)
    ensures Matches(Item("limits: dev-ab", "n", "ns", "p"), ["dev-a"]) == [Row("dev-a", "n", "ns", "p")]
    ensures Matches(Item("limits: dev-ab", "n", "ns", "p"), ["dev-a", "dev-a"])
      == [Row("dev-a", "n", "ns", "p"), Row("dev-a", "n", "ns", "p")]
    ensures Matches(item, [""]) == [RowOf(item, "")]
  {
    var it := Item("limits: dev-ab", "n", "ns", "p");
    assert OccursAt(it.descriptor, "dev-a", 8);
    ContainsIff(it.descriptor, "dev-a");
    ContainsIff(item.descriptor, "");
    assert OccursAt(item.descriptor, "", 0);
    assert ["dev-a", "dev-a"][..1] == ["dev-a"];
  }

  /** The innermost loop of both listings: a row for each registry entry the item mentions. */
  method MatchRows(item: Item, registry: seq<string>) returns (rows: seq<Line>)
    ensures rows == Matches(item, registry)
  {
    rows := [];
    for k := 0 to |registry|
      invariant rows == Matches(item, registry[..k])
    {
      var device := registry[k];
      if Contains(item.descriptor, device) {
        rows := rows + [Row(device, item.owner, item.namespace, item.detail)];
      }
      assert registry[..k + 1][..k] == registry[..k];
    }
    assert registry[..|registry|] == registry;
  }

  // ---------------------------------------------------------------------------
  // listDevices

  const DEVICE_HEADER: Line := Header("NODE", "POD")

  /** A pod on node, correlated by its description and shown as node, namespace and pod name. */
  function PodItem(node: Node, pod: Pod): Item {
    Item(pod.descriptor, node.name, pod.namespace, pod.name)
  }

  function PodItems(node: Node, pods: seq<Pod>): (items: seq<Item>)
    ensures |items| == |pods|
    ensures forall k :: 0 <= k < |pods| ==> items[k] == PodItem(node, pods[k])
    decreases |pods|
  {
    if pods == [] then [] else PodItems(node, pods[..|pods| - 1]) + [PodItem(node, pods[|pods| - 1])]
  }

  /** Every node's pod listing succeeded. */
  predicate AllPodsListed(nodes: seq<Node>) {
    forall k :: 0 <= k < |nodes| ==> nodes[k].pods.Fetched?
  }

  /** The pods of all nodes, node by node. */
  function NodeItems(nodes: seq<Node>): seq<Item>
    requires AllPodsListed(nodes)
    decreases |nodes|
  {
    if nodes == [] then []
    else
      var node := nodes[|nodes| - 1];
      NodeItems(nodes[..|nodes| - 1]) + PodItems(node, node.pods.value)
  }

  /** The first node whose pods could not be listed. */
  function FirstPodFailure(nodes: seq<Node>): (k: Option<nat>)
    ensures k.None? <==> AllPodsListed(nodes)
    ensures k.Some? ==> k.value < |nodes| && nodes[k.value].pods.Failed? && AllPodsListed(nodes[..k.value])
    decreases |nodes|
  {
    if nodes == [] then None
    else if nodes[0].pods.Failed? then Some(0)
    else
      match FirstPodFailure(nodes[1..])
      case None => None
      case Some(k) => assert nodes[..k + 1][1..] == nodes[1..][..k]; Some(k + 1)
  }

  /**
   * What listDevices prints: list help when help is asked or the registry is
   * absent; otherwise the header, then the rows of the pods on the tpm nodes
   * up to the first node whose pods cannot be listed, where it stops with
   * the error.
   */
  function DeviceUsage(p: Parameters, nodes: Fetch<seq<Node>>): Report {
    if p.help || p.config.None? then Report([Help(ListHelp)], EXIT_OK)
    else
      match nodes
      case Failed(message) => Report([DEVICE_HEADER, Failure(message)], EXIT_FAILURE)
      case Fetched(ns) => NodesReport(ns, p.config.value)
  }

  /** The header and the rows of the listed nodes' pods, up to the first node whose pods cannot be listed. */
  function NodesReport(ns: seq<Node>, registry: seq<string>): Report {
    match FirstPodFailure(ns)
    case None => Report([DEVICE_HEADER] + Correlate(NodeItems(ns), registry), EXIT_OK)
    case Some(k) =>
      Report([DEVICE_HEADER] + Correlate(NodeItems(ns[..k]), registry) + [Failure(ns[k].pods.message)], EXIT_FAILURE)
  }

  lemma NodeItemsSnoc(nodes: seq<Node>, node: Node)
    requires AllPodsListed(nodes + [node]) && node.pods.Fetched?
    ensures AllPodsListed(nodes)
    ensures NodeItems(nodes + [node]) == NodeItems(nodes) + PodItems(node, node.pods.value)
  {
    assert (nodes + [node])[..|nodes|] == nodes;
  }

  /** The first failing node is the first node not preceded by a failure. */
  lemma {:induction false} FirstPodFailureAt(nodes: seq<Node>, i: nat)
    requires i < |nodes| && AllPodsListed(nodes[..i]) && nodes[i].pods.Failed?
    ensures FirstPodFailure(nodes) == Some(i)
    decreases i
  {
    if i > 0 {
      assert nodes[..i][0] == nodes[0];
      assert nodes[1..][..i - 1] == nodes[..i][1..];
      FirstPodFailureAt(nodes[1..], i - 1);
    }
  }

  /** One more node whose pods are listed adds the rows of its pods to the listing. */
  lemma NodeStep(ns: seq<Node>, i: nat, registry: seq<string>)
    requires i < |ns| && AllPodsListed(ns[..i]) && ns[i].pods.Fetched?
    ensures AllPodsListed(ns[..i + 1])
    ensures [DEVICE_HEADER] + Correlate(NodeItems(ns[..i + 1]), registry)
      == [DEVICE_HEADER] + Correlate(NodeItems(ns[..i]), registry) + Correlate(PodItems(ns[i], ns[i].pods.value), registry)
  {
    var all := ns[..i + 1];
    assert all == ns[..i] + [ns[i]];
    forall k | 0 <= k < |all|
      ensures all[k].pods.Fetched?
    {
      if k < i {
        assert all[k] == ns[..i][k];
      }
    }
    NodeItemsSnoc(ns[..i], ns[i]);
    var before := Correlate(NodeItems(ns[..i]), registry);
    var added := Correlate(PodItems(ns[i], ns[i].pods.value), registry);
    CorrelateAppend(NodeItems(ns[..i]), PodItems(ns[i], ns[i].pods.value), registry);
    assert [DEVICE_HEADER] + (before + added) == [DEVICE_HEADER] + before + added;
  }

  /** The pods loop of listDevices for one node: the rows of each pod in turn. */
  method PodRows(node: Node, pods: seq<Pod>, registry: seq<string>) returns (rows: seq<Line>)
    ensures rows == Correlate(PodItems(node, pods), registry)
  {
    rows := [];
    for j := 0 to |pods|
      invariant rows == Correlate(PodItems(node, pods[..j]), registry)
    {
      var pod := pods[j];
      var podRows := MatchRows(PodItem(node, pod), registry);
      rows := rows + podRows;
      assert pods[..j + 1][..j] == pods[..j];
      assert PodItems(node, pods[..j + 1]) == PodItems(node, pods[..j]) + [PodItem(node, pod)];
      CorrelateSnoc(PodItems(node, pods[..j]), PodItem(node, pod), registry);
    }
    assert pods[..|pods|] == pods;
  }

  /** listDevices: for each tpm node, each of its pods, each registry entry, a row when the pod mentions it. */
  method ListDevices(p: Parameters, nodes: Fetch<seq<Node>>) returns (report: Report)
    ensures report == DeviceUsage(p, nodes)
  {
    if p.help || p.config.None? {
      return Report([Help(ListHelp)], EXIT_OK);
    }
    if nodes.Failed? {
      return Report([DEVICE_HEADER, Failure(nodes.message)], EXIT_FAILURE);
    }
    report := ListNodes(nodes.value, p.config.value);
  }

  /** The loop of listDevices over the tpm nodes, after the header. */
  method ListNodes(ns: seq<Node>, registry: seq<string>) returns (report: Report)
    ensures report == NodesReport(ns, registry)
  {
    var out := [DEVICE_HEADER];
    var i := 0;
    assert ns[..0] == [];
    while i < |ns|
      invariant 0 <= i <= |ns|
      invariant AllPodsListed(ns[..i])
      invariant out == [DEVICE_HEADER] + Correlate(NodeItems(ns[..i]), registry)
    {
      var node := ns[i];
      if node.pods.Failed? {
        FirstPodFailureAt(ns, i);
        return Report(out + [Failure(node.pods.message)], EXIT_FAILURE);
      }
      var rows := PodRows(node, node.pods.value, registry);
      NodeStep(ns, i, registry);
      out := out + rows;
      i := i + 1;
    }
    assert ns[..i] == ns;
    return Report(out, EXIT_OK);
  }

  /** The items of the listed nodes are the pods of each node, shown under that node. */
  lemma NodeItemsArePods(nodes: seq<Node>, item: Item)
    requires AllPodsListed(nodes)
    ensures item in NodeItems(nodes) <==>
      exists node, pod :: node in nodes && node.pods.Fetched? && pod in node.pods.value && item == PodItem(node, pod)
  {
    if item in NodeItems(nodes) {
      ItemHasPod(nodes, item);
    }
    if exists node, pod :: node in nodes && node.pods.Fetched? && pod in node.pods.value && item == PodItem(node, pod) {
      var node, pod :| node in nodes && node.pods.Fetched? && pod in node.pods.value && item == PodItem(node, pod);
      PodHasItem(nodes, node, pod);
    }
  }

  lemma {:induction false} ItemHasPod(nodes: seq<Node>, item: Item)
    requires AllPodsListed(nodes) && item in NodeItems(nodes)
    ensures exists node, pod :: node in nodes && node.pods.Fetched? && pod in node.pods.value && item == PodItem(node, pod)
    decreases |nodes|
  {
    var n := |nodes| - 1;
    var last := nodes[n];
    assert AllPodsListed(nodes[..n]);
    if item in PodItems(last, last.pods.value) {
      var j :| 0 <= j < |last.pods.value| && PodItems(last, last.pods.value)[j] == item;
      assert last in nodes && last.pods.value[j] in last.pods.value;
    } else {
      ItemHasPod(nodes[..n], item);
      var node, pod :| node in nodes[..n] && node.pods.Fetched? && pod in node.pods.value && item == PodItem(node, pod);
      assert node in nodes;
    }
  }

  lemma {:induction false} PodHasItem(nodes: seq<Node>, node: Node, pod: Pod)
    requires AllPodsListed(nodes) && node in nodes && node.pods.Fetched? && pod in node.pods.value
    ensures PodItem(node, pod) in NodeItems(nodes)
    decreases |nodes|
  {
    var n := |nodes| - 1;
    var last := nodes[n];
    assert AllPodsListed(nodes[..n]);
    var i :| 0 <= i < |nodes| && nodes[i] == node;
    if i < n {
      assert nodes[..n][i] == node;
      PodHasItem(nodes[..n], node, pod);
    } else {
      var j :| 0 <= j < |last.pods.value| && last.pods.value[j] == pod;
      assert PodItems(last, last.pods.value)[j] == PodItem(node, pod);
    }
  }

  /**
   * A complete device listing shows device, node, namespace, pod exactly
   * when that pod runs on that tpm node and its description contains that
   * registry entry.
   */
  lemma DeviceRows(p: Parameters, ns: seq<Node>, device: string, node: string, namespace: string, pod: string)
    requires !p.help && p.config.Some? && AllPodsListed(ns)
    ensures DeviceUsage(p, Fetched(ns)).exit == EXIT_OK
    ensures Row(device, node, namespace, pod) in DeviceUsage(p, Fetched(ns)).lines <==>
      device in p.config.value &&
      exists n, q :: n in ns && n.pods.Fetched? && q in n.pods.value && n.name == node
        && q.namespace == namespace && q.name == pod && Contains(q.descriptor, device)
  {
    var registry := p.config.value;
    var line := Row(device, node, namespace, pod);
    var items := NodeItems(ns);
    CorrelateRows(items, registry, line);
    if exists n, q :: n in ns && n.pods.Fetched? && q in n.pods.value && n.name == node
        && q.namespace == namespace && q.name == pod && Contains(q.descriptor, device)
    {
      var n, q :| n in ns && n.pods.Fetched? && q in n.pods.value && n.name == node
        && q.namespace == namespace && q.name == pod && Contains(q.descriptor, device);
      NodeItemsArePods(ns, PodItem(n, q));
    }
    if line in Correlate(items, registry) {
      var item :| item in items && Contains(item.descriptor, device) && line == RowOf(item, device);
      NodeItemsArePods(ns, item);
    }
  }

  /** With help asked or no registry, the listings print list help and no rows, and ask the cluster nothing. */
  lemma ListingHelp(p: Parameters, nodes: Fetch<seq<Node>>, jobs: Fetch<seq<JobStatus>>, now: int)
    requires p.help || p.config.None?
    ensures DeviceUsage(p, nodes) == JobUsage(p, jobs, now) == Report([Help(ListHelp)], EXIT_OK)
  {
  }

  // ---------------------------------------------------------------------------
  // listJobs

  const JOB_HEADER: Line := Header("JOB", "TIME_TO_LIVE (Seconds)")

  /** A listed job, correlated by its description and shown with its time to live. */
  function JobItem(job: JobStatus, now: int): Item
    requires !StartMissing(job)
  {
    Item(job.descriptor, job.name, job.namespace, TimeToLive(job, now).value)
  }

  /** No listed job lacks the start time listJobs reads. */
  predicate AllStarted(jobs: seq<JobStatus>) {
    forall k :: 0 <= k < |jobs| ==> !StartMissing(jobs[k])
  }

  function JobItems(jobs: seq<JobStatus>, now: int): (items: seq<Item>)
    requires AllStarted(jobs)
    ensures |items| == |jobs|
    ensures forall k :: 0 <= k < |jobs| ==> items[k] == JobItem(jobs[k], now)
    decreases |jobs|
  {
    if jobs == [] then [] else JobItems(jobs[..|jobs| - 1], now) + [JobItem(jobs[|jobs| - 1], now)]
  }

  /** The first listed job whose start time listJobs would dereference while nil. */
  function FirstMissingStart(jobs: seq<JobStatus>): (k: Option<nat>)
    ensures k.None? <==> AllStarted(jobs)
    ensures k.Some? ==> k.value < |jobs| && StartMissing(jobs[k.value]) && AllStarted(jobs[..k.value])
    decreases |jobs|
  {
    if jobs == [] then None
    else if StartMissing(jobs[0]) then Some(0)
    else
      match FirstMissingStart(jobs[1..])
      case None => None
      case Some(k) => assert jobs[..k + 1][1..] == jobs[1..][..k]; Some(k + 1)
  }

  /**
   * What listJobs prints at time now: list help when help is asked or the
   * registry is absent; otherwise the header, then the rows of the listed
   * jobs with their time to live, up to the first job whose missing start
   * time makes it panic.
   */
  function JobUsage(p: Parameters, jobs: Fetch<seq<JobStatus>>, now: int): Report {
    if p.help || p.config.None? then Report([Help(ListHelp)], EXIT_OK)
    else
      match jobs
      case Failed(message) => Report([JOB_HEADER, Failure(message)], EXIT_FAILURE)
      case Fetched(js) => JobsReport(js, p.config.value, now)
  }

  /** The header and the rows of the listed jobs, up to the first job whose missing start time makes it panic. */
  function JobsReport(js: seq<JobStatus>, registry: seq<string>, now: int): Report {
    match FirstMissingStart(js)
    case None => Report([JOB_HEADER] + Correlate(JobItems(js, now), registry), EXIT_OK)
    case Some(k) =>
      Report([JOB_HEADER] + Correlate(JobItems(js[..k], now), registry) + [Panicked(NIL_DEREFERENCE)], EXIT_USAGE)
  }

  lemma JobItemsSnoc(jobs: seq<JobStatus>, job: JobStatus, now: int)
    requires AllStarted(jobs) && !StartMissing(job)
    ensures AllStarted(jobs + [job])
    ensures JobItems(jobs + [job], now) == JobItems(jobs, now) + [JobItem(job, now)]
  {
    var all := jobs + [job];
    forall k | 0 <= k < |all|
      ensures !StartMissing(all[k])
    {
      if k < |jobs| {
        assert all[k] == jobs[k];
      }
    }
    assert all[..|jobs|] == jobs;
  }

  /** The rows after a header, with one more item correlated. */
  lemma HeadedCorrelateSnoc(header: Line, items: seq<Item>, item: Item, registry: seq<string>)
    ensures [header] + Correlate(items + [item], registry) == [header] + Correlate(items, registry) + Matches(item, registry)
  {
    CorrelateSnoc(items, item, registry);
    var before := Correlate(items, registry);
    assert [header] + (before + Matches(item, registry)) == [header] + before + Matches(item, registry);
  }

  /** One more started job adds its rows to the listing. */
  lemma JobStep(js: seq<JobStatus>, i: nat, now: int, registry: seq<string>)
    requires i < |js| && AllStarted(js[..i]) && !StartMissing(js[i])
    ensures AllStarted(js[..i + 1])
    ensures [JOB_HEADER] + Correlate(JobItems(js[..i + 1], now), registry)
      == [JOB_HEADER] + Correlate(JobItems(js[..i], now), registry) + Matches(JobItem(js[i], now), registry)
  {
    var prefix, job := js[..i], js[i];
    assert js[..i + 1] == prefix + [job];
    JobItemsSnoc(prefix, job, now);
    HeadedCorrelateSnoc(JOB_HEADER, JobItems(prefix, now), JobItem(job, now), registry);
  }

  /** The first job missing its start time is the first one not preceded by such a job. */
  lemma {:induction false} FirstMissingStartAt(jobs: seq<JobStatus>, i: nat)
    requires i < |jobs| && AllStarted(jobs[..i]) && StartMissing(jobs[i])
    ensures FirstMissingStart(jobs) == Some(i)
    decreases i
  {
    if i > 0 {
      assert jobs[..i][0] == jobs[0];
      assert jobs[1..][..i - 1] == jobs[..i][1..];
      FirstMissingStartAt(jobs[1..], i - 1);
    }
  }

  /**
   * The body of listJobs' loop up to the printing: the remaining seconds and
   * text of job at time now, set as the three-way branch sets them; panics
   * where the start time is read while missing.
   */
  method RemainingTime(job: JobStatus, now: int) returns (panics: bool, text: string)
    ensures panics <==> StartMissing(job)
    ensures !panics ==> TimeToLive(job, now) == Some(text)
  {
    var remainingTime := 0;
    text := "";
    if job.completionTime.Some? && job.ttlSecondsAfterFinished.Some? {
      remainingTime := job.ttlSecondsAfterFinished.value - (now - job.completionTime.value);
    } else if job.completionTime.None? && job.activeDeadlineSeconds.Some? {
      if job.startTime.None? {
        return true, text;
      }
      remainingTime := job.activeDeadlineSeconds.value - (now - job.startTime.value);
    } else {
      text := NO_TIMEOUT_SET;
    }
    if remainingTime > 0 {
      text := Decimal(remainingTime);
    } else if text == "" {
      text := TERMINATING;
    }
    return false, text;
  }

  /** listJobs: for each listed job, its remaining time, then a row per registry entry the job mentions. */
  method ListJobs(p: Parameters, jobs: Fetch<seq<JobStatus>>, now: int) returns (report: Report)
    ensures report == JobUsage(p, jobs, now)
  {
    if p.help || p.config.None? {
      return Report([Help(ListHelp)], EXIT_OK);
    }
    if jobs.Failed? {
      return Report([JOB_HEADER, Failure(jobs.message)], EXIT_FAILURE);
    }
    report := ListJobItems(jobs.value, p.config.value, now);
  }

  /** The loop of listJobs over the listed jobs, after the header. */
  method ListJobItems(js: seq<JobStatus>, registry: seq<string>, now: int) returns (report: Report)
    ensures report == JobsReport(js, registry, now)
  {
    var out := [JOB_HEADER];
    var i := 0;
    assert js[..0] == [];
    while i < |js|
      invariant 0 <= i <= |js|
      invariant AllStarted(js[..i])
      invariant out == [JOB_HEADER] + Correlate(JobItems(js[..i], now), registry)
    {
      var job := js[i];
      var panics, remainingText := RemainingTime(job, now);
      if panics {
        FirstMissingStartAt(js, i);
        return Report(out + [Panicked(NIL_DEREFERENCE)], EXIT_USAGE);
      }
      var rows := MatchRows(Item(job.descriptor, job.name, job.namespace, remainingText), registry);
      JobStep(js, i, now, registry);
      out := out + rows;
      i := i + 1;
    }
    assert js[..i] == js;
    return Report(out, EXIT_OK);
  }

  /** The item of a listed job is among the items of the listing. */
  lemma JobItemListed(js: seq<JobStatus>, now: int, job: JobStatus)
    requires AllStarted(js) && job in js
    ensures !StartMissing(job) && JobItem(job, now) in JobItems(js, now)
  {
    var i :| 0 <= i < |js| && js[i] == job;
    assert JobItems(js, now)[i] == JobItem(job, now);
  }

  /** Every item of the listing is the item of a listed job. */
  lemma ListedItemJob(js: seq<JobStatus>, now: int, item: Item)
    requires AllStarted(js) && item in JobItems(js, now)
    ensures exists job :: job in js && !StartMissing(job) && item == JobItem(job, now)
  {
    var items := JobItems(js, now);
    var i :| 0 <= i < |items| && items[i] == item;
    assert js[i] in js && item == JobItem(js[i], now);
  }

  /**
   * A complete job listing shows device, job, namespace and time to live
   * exactly when that job is listed, its description contains that registry
   * entry, and the time to live is the job's at time now.
   */
  lemma JobRows(p: Parameters, js: seq<JobStatus>, now: int, device: string, name: string, namespace: string, ttl: string)
    requires !p.help && p.config.Some? && AllStarted(js)
    ensures JobUsage(p, Fetched(js), now).exit == EXIT_OK
    ensures Row(device, name, namespace, ttl) in JobUsage(p, Fetched(js), now).lines <==>
      device in p.config.value &&
      exists job :: job in js && job.name == name && job.namespace == namespace
        && TimeToLive(job, now) == Some(ttl) && Contains(job.descriptor, device)
  {
    var registry := p.config.value;
    var line := Row(device, name, namespace, ttl);
    var items := JobItems(js, now);
    CorrelateRows(items, registry, line);
    if exists job :: job in js && job.name == name && job.namespace == namespace
        && TimeToLive(job, now) == Some(ttl) && Contains(job.descriptor, device)
    {
      var job :| job in js && job.name == name && job.namespace == namespace
        && TimeToLive(job, now) == Some(ttl) && Contains(job.descriptor, device);
      JobItemListed(js, now, job);
    }
    if line in Correlate(items, registry) {
      var item :| item in items && Contains(item.descriptor, device) && line == RowOf(item, device);
      ListedItemJob(js, now, item);
    }
  }

  // ---------------------------------------------------------------------------
  // createJob

  /** What printJobYaml reports when the created job has no container 0. */
  const INDEX_OUT_OF_RANGE: string := "index out of range [0] with length 0"

  /** The request lacks something createJob needs, or asks for help. */
  predicate CreateIncomplete(p: Parameters) {
    p.help || p.config.None? || p.job == "" || p.namespace == "" || p.image == ""
    || p.device == "" || p.command.None?
  }

  /**
   * The job createJob submits: named p.job in p.namespace, with the
   * parameters' deadline, TTL, parallelism, completions, backoff limit and
   * restart policy, and one container, named after the job, asking for one
   * unit of the device as request and as limit.
   */
  function JobDescriptor(p: Parameters): (job: Job)
    requires p.command.Some?
    ensures job.name == p.job && job.namespace == p.namespace && |job.containers| == 1
    ensures job.containers[0].name == p.job && job.containers[0].command == p.command.value
  {
    var resources := map[p.device := 1];
    Job(p.job, p.namespace, p.ttl, p.ttlAfterFinished, p.parallelism, p.completions, p.backoffLimit,
      p.restartPolicy,
      [Container(p.job, p.image, p.command.value, p.imagePullPolicy, resources, resources)])
  }

  /** The options of the create call: server-side dry run of all stages when asked. */
  function CreateOptionsFor(p: Parameters): CreateOptions {
    if p.dryRun then CreateOptions(["All"]) else CreateOptions([])
  }

  datatype CreatePlan =
    | ShowCreateHelp
    | Submit(warnings: seq<Warning>, job: Job, options: CreateOptions)

  /**
   * createJob's decisions before it calls the cluster: create help for an
   * incomplete request; otherwise the warnings to print, the job and the
   * options. The no-configuration warning sits behind a test the guard has
   * already failed.
   */
  function PlanCreate(p: Parameters): CreatePlan {
    if CreateIncomplete(p) then ShowCreateHelp
    else
      var noConfig := if p.config.None? then [NoConfigurationFile] else [];
      var unmanaged := if p.device !in Registry(p) then [DeviceNotManaged] else [];
      Submit(noConfig + unmanaged, JobDescriptor(p), CreateOptionsFor(p))
  }

  function WarningLines(warnings: seq<Warning>): (lines: seq<Line>)
    ensures |lines| == |warnings|
    ensures forall k :: 0 <= k < |warnings| ==> lines[k] == Warn(warnings[k])
  {
    seq(|warnings|, k requires 0 <= k < |warnings| => Warn(warnings[k]))
  }

  /**
   * What createJob prints given the cluster's answer to the create call:
   * the warnings, then the error (exit 1), the "created" line, or for a dry
   * run the preview of the job the server returned, rendered with the
   * requested device; a returned job without containers makes the preview panic.
   */
  function CreateReport(p: Parameters, create: (Job, CreateOptions) -> Fetch<Job>): (report: Report)
    ensures report.exit in {EXIT_OK, EXIT_FAILURE, EXIT_USAGE}
    ensures CreateIncomplete(p) ==> report == Report([Help(CreateHelp)], EXIT_OK)
    ensures !CreateIncomplete(p) ==>
      && |report.lines| == |PlanCreate(p).warnings| + 1
      && report.lines[..|PlanCreate(p).warnings|] == WarningLines(PlanCreate(p).warnings)
  {
    match PlanCreate(p)
    case ShowCreateHelp => Report([Help(CreateHelp)], EXIT_OK)
    case Submit(warnings, job, options) =>
      var shown := WarningLines(warnings);
      match create(job, options)
      case Failed(message) => Report(shown + [Failure(message)], EXIT_FAILURE)
      case Fetched(created) =>
        if !p.dryRun then Report(shown + [Text("job.batch/" + created.name + " created")], EXIT_OK)
        else if created.containers == [] then Report(shown + [Panicked(INDEX_OUT_OF_RANGE)], EXIT_USAGE)
        else Report(shown + [Document(Utils.JobYaml(created, p.device))], EXIT_OK)
  }

  /** createJob: the guard, the two warnings, the job and options, the call and its outcome. */
  method CreateJob(p: Parameters, create: (Job, CreateOptions) -> Fetch<Job>) returns (report: Report)
    ensures report == CreateReport(p, create)
  {
    if CreateIncomplete(p) {
      return Report([Help(CreateHelp)], EXIT_OK);
    }
    var out := [];
    if p.config.None? {
      out := out + [Warn(NoConfigurationFile)];
    }
    var managed := Utils.IsElementExist(p.config.value, p.device);
    if !managed {
      out := out + [Warn(DeviceNotManaged)];
    }
    var job := JobDescriptor(p);
    var options := CreateOptions([]);
    if p.dryRun {
      options := CreateOptions(options.dryRun + ["All"]);
    }
    assert options == CreateOptionsFor(p);
    assert managed <==> p.device in Registry(p);
    assert out == WarningLines(PlanCreate(p).warnings);
    var answer := create(job, options);
    if answer.Failed? {
      return Report(out + [Failure(answer.message)], EXIT_FAILURE);
    } else if !p.dryRun {
      return Report(out + [Text("job.batch/" + answer.value.name + " created")], EXIT_OK);
    } else if answer.value.containers == [] {
      return Report(out + [Panicked(INDEX_OUT_OF_RANGE)], EXIT_USAGE);
    }
    var yaml := Utils.PrintJobYaml(answer.value, p.device);
    return Report(out + [Document(yaml)], EXIT_OK);
  }

  /**
   * Creation shows create help, without calling the cluster, exactly when the
   * request asks for help, the registry is absent, the job, namespace, image
   * or device is empty, or no command was given.
   */
  lemma CreateHelpExactly(p: Parameters, create: (Job, CreateOptions) -> Fetch<Job>)
    ensures PlanCreate(p) == ShowCreateHelp <==>
      p.help || p.config.None? || p.job == "" || p.namespace == "" || p.image == "" || p.device == ""
      || p.command.None?
    ensures PlanCreate(p) == ShowCreateHelp ==> CreateReport(p, create) == Report([Help(CreateHelp)], EXIT_OK)
  {
  }

  /**
   * The missing-configuration warning is never printed, and the
   * unmanaged-device warning is printed exactly when the device is not an
   * entry of the registry; neither stops the job from being submitted.
   */
  lemma CreateWarnings(p: Parameters)
    requires PlanCreate(p).Submit?
    ensures NoConfigurationFile !in PlanCreate(p).warnings
    ensures DeviceNotManaged in PlanCreate(p).warnings <==> !(exists k :: 0 <= k < |Registry(p)| && Registry(p)[k] == p.device)
    ensures PlanCreate(p).job == JobDescriptor(p)
  {
  }

  /**
   * The submitted job has a single container named after the job, running
   * the requested image and command, asking for exactly one unit of the
   * device both as request and as limit; the dry-run option is ["All"]
   * exactly for a dry run and empty otherwise.
   */
  lemma DescriptorShape(p: Parameters)
    requires p.command.Some?
    ensures var job := JobDescriptor(p);
      && job.name == job.containers[0].name == p.job && |job.containers| == 1
      && job.containers[0].image == p.image && job.containers[0].command == p.command.value
      && job.containers[0].requests == job.containers[0].limits
      && job.containers[0].requests.Keys == {p.device} && job.containers[0].requests[p.device] == 1
      && job.activeDeadlineSeconds == p.ttl && job.ttlSecondsAfterFinished == p.ttlAfterFinished
      && job.restartPolicy == p.restartPolicy
      && job.parallelism == p.parallelism && job.completions == p.completions && job.backoffLimit == p.backoffLimit
      && job.containers[0].imagePullPolicy == p.imagePullPolicy
    ensures CreateOptionsFor(p).dryRun == ["All"] <==> p.dryRun
    ensures !p.dryRun ==> CreateOptionsFor(p).dryRun == []
  {
  }

  /**
   * For a complete request, creation fails with exit 1 exactly when the
   * create call does; otherwise a real run reports the created job's name
   * and a dry run prints the preview of the returned job instead.
   */
  lemma CreateOutcome(p: Parameters, create: (Job, CreateOptions) -> Fetch<Job>)
    requires !CreateIncomplete(p)
    ensures var answer := create(JobDescriptor(p), CreateOptionsFor(p));
      var report := CreateReport(p, create);
      && (report.exit == EXIT_FAILURE <==> answer.Failed?)
      && (answer.Failed? ==> Last(report.lines) == Failure(answer.message))
      && (answer.Fetched? && !p.dryRun ==>
            report.exit == EXIT_OK && Last(report.lines) == Text("job.batch/" + answer.value.name + " created"))
      && (answer.Fetched? && p.dryRun && answer.value.containers != [] ==>
            report.exit == EXIT_OK && Last(report.lines) == Document(Utils.JobYaml(answer.value, p.device)))
  {
  }

  /** The last printed line. */
  function Last(lines: seq<Line>): Line
    requires |lines| > 0
  {
    lines[|lines| - 1]
  }

  /**
   * The documented dry run: my-job in namespace default, running busybox
   * with the command "echo Hello!" on one unit of xilinx.com/fpga.
   */
  function SampleRequest(config: Option<seq<string>>): Parameters {
    Defaults(config).(action := "create", job := "my-job", namespace := "default", image := "busybox",
                      command := Some(["echo", "Hello!"]), device := "xilinx.com/fpga", dryRun := true)
  }

  /** The job the documented dry run submits. */
  function SampleJob(config: Option<seq<string>>): Job {
    JobDescriptor(SampleRequest(config))
  }

  lemma SampleMetadata(config: Option<seq<string>>)
    ensures Utils.MetadataLines(SampleJob(config)) ==
      ["apiVersion: batch/v1", "kind: Job", "metadata:", "  name: my-job", "  namespace: default"]
  {
    var job := SampleJob(config);
    assert Utils.Entry("  name: ", job.name) == "  name: my-job";
    assert Utils.Entry("  namespace: ", job.namespace) == "  namespace: default";
  }

  lemma SampleSpec(config: Option<seq<string>>)
    ensures Utils.SpecLines(SampleJob(config)) ==
      ["spec:", "  activeDeadlineSeconds: 7200", "  ttlSecondsAfterFinished: 0", "  parallelism: 1", "  completions: 1"]
  {
    var job := SampleJob(config);
    assert Decimal(7200) == "7200" && Decimal(0) == "0" && Decimal(1) == "1";
    assert Utils.Entry("  activeDeadlineSeconds: ", Decimal(job.activeDeadlineSeconds)) == "  activeDeadlineSeconds: 7200";
    assert Utils.Entry("  ttlSecondsAfterFinished: ", Decimal(job.ttlSecondsAfterFinished)) == "  ttlSecondsAfterFinished: 0";
    assert Utils.Entry("  parallelism: ", Decimal(job.parallelism)) == "  parallelism: 1";
    assert Utils.Entry("  completions: ", Decimal(job.completions)) == "  completions: 1";
  }

  lemma SampleTemplate(config: Option<seq<string>>)
    ensures Utils.TemplateLines(SampleJob(config), SampleJob(config).containers[0]) ==
      ["  template:", "    spec:", "      containers:", "      - name: my-job", "        image: busybox",
       "        command: [\"echo\", \"Hello!\"]"]
  {
    var job := SampleJob(config);
    var c := job.containers[0];
    Utils.CommandListExamples();
    assert Utils.Entry("      - name: ", job.name) == "      - name: my-job";
    assert Utils.Entry("        image: ", c.image) == "        image: busybox";
    assert Utils.Entry("        command: ", Utils.CommandList(c.command)) == "        command: [\"echo\", \"Hello!\"]";
  }

  lemma SampleResources()
    ensures Utils.ResourceLines("xilinx.com/fpga") ==
      ["        resources:", "          requests:", "            xilinx.com/fpga: 1", "          limits:",
       "            xilinx.com/fpga: 1"]
  {
    assert Utils.Entry("            " + "xilinx.com/fpga" + ": ", "1") == "            xilinx.com/fpga: 1";
  }

  lemma SampleTail(config: Option<seq<string>>)
    ensures Utils.TailLines(SampleJob(config), SampleJob(config).containers[0]) ==
      ["        imagePullPolicy: IfNotPresent", "      restartPolicy: OnFailure", "  backoffLimit: 1"]
  {
    var job := SampleJob(config);
    var c := job.containers[0];
    assert Decimal(1) == "1";
    assert Utils.Entry("        imagePullPolicy: ", c.imagePullPolicy) == "        imagePullPolicy: IfNotPresent";
    assert Utils.Entry("      restartPolicy: ", job.restartPolicy) == "      restartPolicy: OnFailure";
    assert Utils.Entry("  backoffLimit: ", Decimal(job.backoffLimit)) == "  backoffLimit: 1";
  }

  /** The preview of the documented dry run, line by line, with every default in place. */
  lemma SamplePreview(config: Option<seq<string>>)
    ensures Utils.JobYamlLines(SampleJob(config), "xilinx.com/fpga") ==
      [ "apiVersion: batch/v1",
        "kind: Job",
        "metadata:",
        "  name: my-job",
        "  namespace: default",
        "spec:",
        "  activeDeadlineSeconds: 7200",
        "  ttlSecondsAfterFinished: 0",
        "  parallelism: 1",
        "  completions: 1",
        "  template:",
        "    spec:",
        "      containers:",
        "      - name: my-job",
        "        image: busybox",
        "        command: [\"echo\", \"Hello!\"]",
        "        resources:",
        "          requests:",
        "            xilinx.com/fpga: 1",
        "          limits:",
        "            xilinx.com/fpga: 1",
        "        imagePullPolicy: IfNotPresent",
        "      restartPolicy: OnFailure",
        "  backoffLimit: 1" ]
  {
    SampleMetadata(config);
    SampleSpec(config);
    SampleTemplate(config);
    SampleResources();
    SampleTail(config);
  }

  /**
   * With xilinx.com/fpga registered and a server that accepts the job as
   * sent, the documented dry run prints no warning, no "created" line and
   * exactly one document, the preview of the job, and exits 0.
   */
  lemma SampleDryRun(create: (Job, CreateOptions) -> Fetch<Job>)
    requires var p := SampleRequest(Some(["xilinx.com/fpga"]));
      create(JobDescriptor(p), CreateOptions(["All"])) == Fetched(JobDescriptor(p))
    ensures var p := SampleRequest(Some(["xilinx.com/fpga"]));
      CreateReport(p, create) == Report([Document(Utils.JobYaml(SampleJob(p.config), "xilinx.com/fpga"))], EXIT_OK)
  {
    var p := SampleRequest(Some(["xilinx.com/fpga"]));
    assert !CreateIncomplete(p);
    assert p.device in Registry(p);
    assert PlanCreate(p) == Submit([], JobDescriptor(p), CreateOptions(["All"]));
  }

  // ---------------------------------------------------------------------------
  // deleteJob

  datatype DeletePlan =
    | ShowDeleteHelp
    | Remove(namespace: string, name: string, options: DeleteOptions)

  /** deleteJob's decision: delete help, or the job to remove in the background at once. */
  function PlanDelete(p: Parameters): (plan: DeletePlan)
    ensures plan == ShowDeleteHelp <==> p.help || p.job == "" || p.namespace == ""
    ensures plan.Remove? ==> plan.namespace == p.namespace && plan.name == p.job
  {
    if p.help || p.job == "" || p.namespace == "" then ShowDeleteHelp
    else Remove(p.namespace, p.job, DeleteOptions(DELETE_PROPAGATION_BACKGROUND, 0))
  }

  /** What deleteJob prints given the cluster's answer to the delete call (None: no error). */
  function DeleteReport(p: Parameters, delete: (string, string, DeleteOptions) -> Option<string>): (report: Report)
    ensures |report.lines| == 1 && report.exit in {EXIT_OK, EXIT_FAILURE}
    ensures report.exit == EXIT_FAILURE <==>
      PlanDelete(p).Remove? && delete(p.namespace, p.job, PlanDelete(p).options).Some?
  {
    match PlanDelete(p)
    case ShowDeleteHelp => Report([Help(DeleteHelp)], EXIT_OK)
    case Remove(namespace, name, options) =>
      match delete(namespace, name, options)
      case Some(message) => Report([Failure(message)], EXIT_FAILURE)
      case None => Report([Text("job.batch " + name + " deleted")], EXIT_OK)
  }

  /**
   * Deletion shows delete help, without calling the cluster, exactly when
   * help is asked or the job or namespace is empty; otherwise it deletes
   * p.job in p.namespace with background propagation and no grace period,
   * and reports the job deleted exactly when the call succeeds.
   */
  lemma DeleteOutcome(p: Parameters, delete: (string, string, DeleteOptions) -> Option<string>)
    ensures PlanDelete(p) == ShowDeleteHelp <==> p.help || p.job == "" || p.namespace == ""
    ensures PlanDelete(p) == ShowDeleteHelp ==> DeleteReport(p, delete) == Report([Help(DeleteHelp)], EXIT_OK)
    ensures PlanDelete(p).Remove? ==>
      && PlanDelete(p).options.propagationPolicy == "Background"
      && PlanDelete(p).options.gracePeriodSeconds == 0
      && (DeleteReport(p, delete).exit == EXIT_OK <==> delete(p.namespace, p.job, PlanDelete(p).options).None?)
      && (DeleteReport(p, delete).exit == EXIT_OK ==> DeleteReport(p, delete).lines == [Text("job.batch " + p.job + " deleted")])
  {
  }
}
