/** The policy rule read from the configuration file (pkg/config/config.go). */
module Config {
  /** One `MixedRes`: the workload it names, whether it is mixed, and its priority.
      Priority is a mathematical integer (see README, "Left out"). */
  datatype Rule = Rule(namespace: string, name: string, mixed: bool, priority: int)
}
