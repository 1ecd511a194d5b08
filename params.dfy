/** The request record every operation receives, and its defaults. */
module Params {
  import opened Wrappers
  import Api

  /**
   * One invocation's request. command and config are Go slices: None is nil.
   * ttl is an int64; ttlAfterFinished, parallelism, completions and
   * backoffLimit are int32 values.
   */
  datatype Parameters = Parameters(
    action: string,
    subaction: string,
    job: string,
    namespace: string,
    image: string,
    command: Option<seq<string>>,
    device: string,
    ttl: int,
    ttlAfterFinished: int,
    parallelism: int,
    completions: int,
    backoffLimit: int,
    restartPolicy: string,
    imagePullPolicy: string,
    dryRun: bool,
    config: Option<seq<string>>,
    help: bool)

  /** The package-level record before any argument is read; config is what was loaded. */
  function Defaults(config: Option<seq<string>>): (p: Parameters)
    ensures p.config == config && p.command.None? && !p.dryRun && !p.help
    ensures p.action == p.subaction == p.job == p.namespace == p.image == p.device == ""
    ensures p.ttl == 7200 && p.ttlAfterFinished == 0 && p.parallelism == p.completions == p.backoffLimit == 1
    ensures p.restartPolicy == Api.RESTART_POLICY_ON_FAILURE && p.imagePullPolicy == Api.PULL_IF_NOT_PRESENT
  {
    Parameters(
      action := "",
      subaction := "",
      job := "",
      namespace := "",
      image := "",
      command := None,
      device := "",
      ttl := 7200,
      ttlAfterFinished := 0,
      parallelism := 1,
      completions := 1,
      backoffLimit := 1,
      restartPolicy := Api.RESTART_POLICY_ON_FAILURE,
      imagePullPolicy := Api.PULL_IF_NOT_PRESENT,
      dryRun := false,
      config := config,
      help := false)
  }

  /** The registry as the Go slice p.config: nil ranges over nothing. */
  function Registry(p: Parameters): seq<string> {
    p.config.GetOr([])
  }
}
