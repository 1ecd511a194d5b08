/**
 * What an invocation shows the operator, one event per printed item, and the
 * status the process exits with.
 */
module Output {

  /**
   * The fixed help and usage texts; their wording is not modelled.
   * FlagDefaults is the flag package's usage, which lists -kubeconfig.
   */
  datatype HelpTopic = GeneralHelp | ListHelp | CreateHelp | DeleteHelp | FlagDefaults

  /** The non-fatal warnings of job creation (each printed as two lines and "---"). */
  datatype Warning = NoConfigurationFile | DeviceNotManaged

  datatype Line =
    | Help(topic: HelpTopic)
      /** the table header "DEVICE | <owner> | NAMESPACE | <detail>" */
    | Header(owner: string, detail: string)
      /** one table row: device, node or job, namespace, pod or time to live */
    | Row(device: string, owner: string, namespace: string, detail: string)
    | Warn(warning: Warning)
      /** an error from the cluster, printed verbatim before exiting */
    | Failure(message: string)
      /** a Go runtime panic (index out of range, nil dereference, a bad number) */
    | Panicked(reason: string)
      /** one line of plain text, without its newline */
    | Text(text: string)
      /** a multi-line document printed as is */
    | Document(text: string)
      /** the listing of the configuration file printed by the config action */
    | ConfigListing

  datatype Report = Report(lines: seq<Line>, exit: int)

  const EXIT_OK: int := 0
  /** os.Exit(1): the client could not be built, a cluster call failed, or the action is unknown */
  const EXIT_FAILURE: int := 1
  /** os.Exit(2) on an unknown option or a flag the flag package rejects; also the status of a Go panic */
  const EXIT_USAGE: int := 2
}
