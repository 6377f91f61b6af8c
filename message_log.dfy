/**
 * The bounded chat log: `messages.push(message)` followed by one
 * `messages.shift()` when the log grew past 100 entries.
 */
module MessageLog {
  const MaxMessages: nat := 100

  /** The log after appending `m`. */
  function Append<T>(log: seq<T>, m: T): (r: seq<T>)
    ensures |log| <= MaxMessages ==> |r| <= MaxMessages
    ensures |r| > 0 && r[|r| - 1] == m
    ensures |log| < MaxMessages ==> r == log + [m]
    ensures |log| >= MaxMessages ==> r == log[1..] + [m]
  {
    var grown := log + [m];
    if |grown| > MaxMessages then grown[1..] else grown
  }

  /** The log after appending each of `ms` in turn. */
  function AppendAll<T>(log: seq<T>, ms: seq<T>): seq<T>
    decreases |ms|
  {
    if ms == [] then log else AppendAll(Append(log, ms[0]), ms[1..])
  }

  /** The newest `MaxMessages` entries of `s`, in order. */
  function Newest<T>(s: seq<T>): (r: seq<T>)
    ensures |r| <= MaxMessages
  {
    if |s| <= MaxMessages then s else s[|s| - MaxMessages..]
  }

  /**
   * FIFO eviction: whatever is sent, the log holds exactly the newest 100
   * messages of the history, in their original order.
   */
  lemma {:induction false} AppendAllKeepsNewest<T>(log: seq<T>, ms: seq<T>)
    requires |log| <= MaxMessages
    ensures AppendAll(log, ms) == Newest(log + ms)
    decreases |ms|
  {
    if ms == [] {
      assert log + ms == log;
    } else {
      var next := Append(log, ms[0]);
      AppendAllKeepsNewest(next, ms[1..]);
      var s := log + [ms[0]];
      assert log + ms == s + ms[1..];
      if |s| > MaxMessages {
        assert next == s[1..];
        var t := s + ms[1..];
        assert next + ms[1..] == t[1..];
      } else {
        assert next == s;
      }
    }
  }

  /** The 101st message evicts the first; messages 2..101 stay, in order. */
  lemma OneHundredFirst<T>(ms: seq<T>)
    requires |ms| == MaxMessages + 1
    ensures AppendAll([], ms) == ms[1..]
  {
    AppendAllKeepsNewest([], ms);
    assert [] + ms == ms;
  }
}
