/** One row of the run table, as the risk and the workload queries read it
    (autosys/db/schema.py). */
module RunHistory {
  import opened Options

  /** Instants are in seconds.  `source` says where the row came from. */
  datatype RunRow = RunRow(jobName: string, status: string, retryCount: int,
                           startTime: Option<int>, endTime: Option<int>, source: string)
}
