/** Opening the serial port with a bounded number of immediate retries, as both
    the flash session and the debug stream do before anything else. */
module Connect {

  /** The retry budget: the loop gives up once this many opens have failed. */
  const RETRY_LIMIT: nat := 30000

  /** Whether open attempt `k` (counting from 0) succeeds. The outcomes are
      fixed up front; attempts past the end of `opens` fail. */
  predicate OpenSucceeds(opens: seq<bool>, k: nat) {
    k < |opens| && opens[k]
  }

  /** Every attempt within the budget fails. */
  predicate GivesUp(opens: seq<bool>) {
    forall k :: 0 <= k < RETRY_LIMIT ==> !OpenSucceeds(opens, k)
  }

  /** The port is open after exactly `attempts` tries: the last one succeeded
      and every earlier one failed. */
  predicate ConnectsAfter(opens: seq<bool>, attempts: nat) {
    && 1 <= attempts <= RETRY_LIMIT
    && OpenSucceeds(opens, attempts - 1)
    && forall k :: 0 <= k < attempts - 1 ==> !OpenSucceeds(opens, k)
  }

  /** The retry loop: count failures and give up when the count reaches the
      budget. Returns whether the port is open and how many opens were tried. */
  method OpenWithRetry(opens: seq<bool>) returns (connected: bool, attempts: nat)
    ensures connected <==> !GivesUp(opens)
    ensures connected ==> ConnectsAfter(opens, attempts)
    ensures !connected ==> attempts == RETRY_LIMIT
  {
    var retry := 0;
    while true
      invariant 0 <= retry < RETRY_LIMIT
      invariant forall k :: 0 <= k < retry ==> !OpenSucceeds(opens, k)
      decreases RETRY_LIMIT - retry
    {
      if OpenSucceeds(opens, retry) {
        return true, retry + 1;
      }
      retry := retry + 1;
      if retry >= RETRY_LIMIT {
        return false, retry;
      }
    }
  }
}
