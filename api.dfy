/**
 * The few Kubernetes API fields the plugin reads or writes, as plain records.
 * Objects the plugin only prints or searches as text (pods, listed jobs) carry
 * their fmt.Sprint rendering as an opaque descriptor string.
 */
module Api {
  import opened Wrappers

  /** What one call to the cluster API gives back: the value, or the error it failed with. */
  datatype Fetch<+T> = Fetched(value: T) | Failed(message: string)

  const RESTART_POLICY_ON_FAILURE: string := "OnFailure"
  const RESTART_POLICY_NEVER: string := "Never"
  const PULL_IF_NOT_PRESENT: string := "IfNotPresent"
  const DELETE_PROPAGATION_BACKGROUND: string := "Background"

  /** A container of a job's pod template; resource quantities are whole units. */
  datatype Container = Container(
    name: string,
    image: string,
    command: seq<string>,
    imagePullPolicy: string,
    requests: map<string, int>,
    limits: map<string, int>)

  /** A batch/v1 Job as the plugin submits it and as the server returns it. */
  datatype Job = Job(
    name: string,
    namespace: string,
    activeDeadlineSeconds: int,
    ttlSecondsAfterFinished: int,
    parallelism: int,
    completions: int,
    backoffLimit: int,
    restartPolicy: string,
    containers: seq<Container>)

  /** metav1.CreateOptions: only its DryRun list is set. */
  datatype CreateOptions = CreateOptions(dryRun: seq<string>)

  /** metav1.DeleteOptions: propagation policy and grace period. */
  datatype DeleteOptions = DeleteOptions(propagationPolicy: string, gracePeriodSeconds: int)

  /** A pod listed on a node; descriptor is fmt.Sprint of the whole pod. */
  datatype Pod = Pod(name: string, namespace: string, descriptor: string)

  /** A node carrying the tpm label, with the answer to listing the pods scheduled on it. */
  datatype Node = Node(name: string, pods: Fetch<seq<Pod>>)

  /**
   * A job as listed cluster-wide: descriptor is fmt.Sprint of the whole job;
   * times are Unix seconds; None is a nil pointer in the Go object.
   */
  datatype JobStatus = JobStatus(
    name: string,
    namespace: string,
    descriptor: string,
    startTime: Option<int>,
    completionTime: Option<int>,
    activeDeadlineSeconds: Option<int>,
    ttlSecondsAfterFinished: Option<int>)
}
