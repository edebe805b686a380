/** Promise settlement as values, and the deadline wrapper `withTimeout`
    (server.js:13-16). Time itself is not modelled: whether an operation
    settled before its timer fired is an input. */
module Async {
  import opened JsText

  /** A synchronous step that either yields a value or fails with a message. */
  datatype Result<T> = Success(value: T) | Failure(error: string)

  /** How a promise settled: fulfilled with a value, or rejected with an
      error whose `message` is given. */
  datatype Settlement<T> = Fulfilled(value: T) | Rejected(message: string)

  /** Where a promise stands when a deadline timer fires: already settled,
      or still pending. */
  datatype Progress<T> = SettledBy(result: Settlement<T>) | StillPending

  /** The rejection message of the deadline timer. */
  function TimeoutMessage(name: string, ms: int): string {
    name + " timed out after " + IntToString(ms) + " ms"
  }

  /** `withTimeout(p, ms, name)`: the race between `p` and a timer that
      rejects after `ms` milliseconds. A promise that settled first keeps
      its own result; one still pending loses to the timer. */
  function WithTimeout<T>(p: Progress<T>, ms: int, name: string): (s: Settlement<T>)
    ensures p.SettledBy? ==> s == p.result
    ensures p.StillPending? ==> s.Rejected? && s.message == TimeoutMessage(name, ms)
  {
    match p
    case SettledBy(r) => r
    case StillPending => Rejected(TimeoutMessage(name, ms))
  }

  /** The timeout message names the deadline: two different deadlines for
      the same label give two different messages. */
  lemma {:induction false} TimeoutMessageNamesDeadline(name: string, a: int, b: int)
    ensures TimeoutMessage(name, a) == TimeoutMessage(name, b) ==> a == b
  {
    if TimeoutMessage(name, a) == TimeoutMessage(name, b) {
      var prefix := name + " timed out after ";
      var sa := IntToString(a);
      var sb := IntToString(b);
      assert TimeoutMessage(name, a) == prefix + (sa + " ms");
      assert TimeoutMessage(name, b) == prefix + (sb + " ms");
      assert (sa + " ms")[..|sa|] == sa;
      assert (sb + " ms")[..|sb|] == sb;
      assert |sa| == |sb|;
      assert (prefix + (sa + " ms"))[|prefix|..] == sa + " ms";
      assert (prefix + (sb + " ms"))[|prefix|..] == sb + " ms";
      IntToStringInjective(a, b);
    }
  }
}
