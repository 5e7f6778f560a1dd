/** The logger collaborator, reduced to what the callers observe of it. */
module Logging {

  /**
   * A logger that counts its error-level calls. The text and arguments of
   * each message are not modelled: callers only rely on how many times
   * `Errorf` was called.
   */
  class Logger {
    var errorfCalls: nat

    constructor ()
      ensures errorfCalls == 0
    {
      errorfCalls := 0;
    }

    /** Logs one message at error severity. */
    method Errorf()
      modifies this
      ensures errorfCalls == old(errorfCalls) + 1
    {
      errorfCalls := errorfCalls + 1;
    }
  }
}
