/** The five severities of `LogLevel` and its membership check `LogLevel.assert`. */
module LogLevels {
  import opened JsValues

  /** A severity; consumers rely only on the integer order. */
  type LogLevel = n: int | 0 <= n <= 4

  const Debug: LogLevel := 0
  const Info: LogLevel := 1
  const Warn: LogLevel := 2
  const Error: LogLevel := 3
  const Critical: LogLevel := 4

  /** The list that `LogLevel.assert` searches with `includes`. */
  const AllLevels: seq<LogLevel> := [Debug, Info, Warn, Error, Critical]

  /** `LogLevel.assert(v)`: passes (true) or throws (false). `includes`
      compares by identity, so only the five numbers themselves pass. */
  function AssertLevel(v: JsValue): (ok: bool)
    ensures ok <==> v.JNumber? && 0 <= v.n <= 4
  {
    v.JNumber? && v.n in AllLevels
  }

  /** The constants are the integers 0 to 4, so severity order is integer order. */
  lemma SeverityOrder()
    ensures Debug < Info < Warn < Error < Critical
    ensures forall k :: 0 <= k < |AllLevels| ==> AllLevels[k] == k
  {
  }

  /** Look-alikes of a level are rejected: a numeric string, or a number one past the end. */
  lemma LookalikesRejected()
    ensures !AssertLevel(JString("1"))
    ensures !AssertLevel(JNumber(5))
    ensures !AssertLevel(JNumber(-1))
    ensures !AssertLevel(JOther(false))
  {
  }
}
