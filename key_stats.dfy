/** Per-key press statistics that the typing area records and the keyboard heat map reads. */
module KeyStats {
  import opened Basics

  /** One key's entry: presses, presses that raised the error count, and press times. */
  datatype KeyData = KeyData(total: int, errors: int, times: seq<int>, lastPressed: Option<int>)

  /** The record `{ total: 0, errors: 0, times: [] }` used for a key seen for the first time. */
  const Unseen: KeyData := KeyData(0, 0, [], None)

  /** Every entry the typing area builds: one time per press, errors among the presses. */
  predicate WellFormed(d: KeyData) {
    |d.times| == d.total && 0 <= d.errors <= d.total
  }

  /** The entry after one more press at `now`; `isNewError` says the press raised the error count. */
  function Pressed(prev: Option<KeyData>, isNewError: bool, now: int): (d: KeyData)
    ensures var base := if prev.Some? then prev.value else Unseen;
      && d.total == base.total + 1
      && d.errors == base.errors + (if isNewError then 1 else 0)
      && d.times == base.times + [now]
      && d.lastPressed == Some(now)
    ensures (prev.None? || WellFormed(prev.value)) ==> WellFormed(d) && d.total >= 1
  {
    var base := if prev.Some? then prev.value else Unseen;
    KeyData(base.total + 1, base.errors + (if isNewError then 1 else 0), base.times + [now], Some(now))
  }
}
