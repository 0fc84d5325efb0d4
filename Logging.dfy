/** The numeric severities of Python's standard logging module, which is what
    the monitor hands to every alarm handler. */
module Logging {
  const NOTSET: int := 0
  const DEBUG: int := 10
  const INFO: int := 20
  const WARNING: int := 30
  const ERROR: int := 40
  const CRITICAL: int := 50

  /** The six levels that the logging module gives a name to. */
  predicate IsNamedLevel(severity: int)
  {
    severity == NOTSET || severity == DEBUG || severity == INFO ||
    severity == WARNING || severity == ERROR || severity == CRITICAL
  }
}
