/** The connection lifecycle: what `onopen`, `onclose`, `onerror`, the
    reconnect timer and the unmount cleanup do to the socket state and the
    reconnection refs. */
module Lifecycle {
  import opened Wrappers
  import opened Messages
  import Backoff

  /** `readyState` of the current socket. */
  datatype SocketState = Connecting | Open | Closing | Closed

  /** The current socket's state, `retryCountRef`, `shouldReconnectRef`, and
      the delay of the reconnect timer still pending, if any. */
  datatype Conn = Conn(socket: SocketState, retryCount: nat, shouldReconnect: bool, timer: Option<nat>)

  const WelcomeText: string := "こんにちは！ AIコードドクターです。お手伝いできることはありますか？"
  const ReconnectedText: string := "⚡ 再接続しました。続きからどうぞ。"

  /** After mount: the first connection attempt is under way. */
  const Mounted: Conn := Conn(Connecting, 0, true, None)

  /** A reconnect timer is pending only while reconnecting is still allowed
      and the socket it replaces is closed; in particular no timer survives
      the cleanup. */
  predicate Consistent(c: Conn) {
    c.timer.Some? ==> c.shouldReconnect && c.socket == Closed
  }

  /** `connect()`, run by the reconnect timer: a fresh socket, connecting;
      the timer has fired and is no longer pending. */
  function Connect(c: Conn): (r: Conn)
    ensures r.socket == Connecting && r.timer.None?
    ensures r.retryCount == c.retryCount && r.shouldReconnect == c.shouldReconnect
  {
    c.(socket := Connecting, timer := None)
  }

  /** `onclose`: after the cleanup nothing is scheduled; otherwise the wait
      is computed from the retry count before it is incremented. */
  function OnClose(c: Conn): (r: Conn)
    ensures r.socket == Closed && r.shouldReconnect == c.shouldReconnect
    ensures c.shouldReconnect ==>
      r.retryCount == c.retryCount + 1 && r.timer == Some(Backoff.Delay(c.retryCount))
    ensures !c.shouldReconnect ==> r.retryCount == c.retryCount && r.timer == c.timer
  {
    if !c.shouldReconnect then c.(socket := Closed)
    else c.(socket := Closed, retryCount := c.retryCount + 1, timer := Some(Backoff.Delay(c.retryCount)))
  }

  /** `onopen`: the retry count restarts at zero whatever it was, so the next
      close waits the base delay again. */
  function OnOpen(c: Conn): (r: Conn)
    ensures r.socket == Open && r.retryCount == 0
    ensures r.shouldReconnect == c.shouldReconnect && r.timer == c.timer
    ensures c.shouldReconnect ==> OnClose(r).timer == Some(Backoff.BaseDelayMs)
  {
    c.(socket := Open, retryCount := 0)
  }

  /** `onerror`: `socket.close()`, which starts closing a connecting or open
      socket and does nothing to one already closing or closed; the close
      event that follows goes through `onclose`. */
  function OnError(c: Conn): (r: Conn)
    ensures r.retryCount == c.retryCount && r.shouldReconnect == c.shouldReconnect && r.timer == c.timer
    ensures r.socket != Open && r.socket != Connecting
    ensures c.socket == Connecting || c.socket == Open ==> r.socket == Closing
    ensures c.socket == Closing || c.socket == Closed ==> r == c
  {
    if c.socket == Connecting || c.socket == Open then c.(socket := Closing) else c
  }

  /** The unmount cleanup: latch reconnection off, cancel the pending timer,
      close the socket if it is open. */
  function Cleanup(c: Conn): (r: Conn)
    ensures !r.shouldReconnect && r.timer.None? && r.retryCount == c.retryCount
    ensures r.socket == (if c.socket == Open then Closing else c.socket)
  {
    c.(shouldReconnect := false, timer := None, socket := if c.socket == Open then Closing else c.socket)
  }

  /** The message `onopen` adds: the welcome text on an empty log, the
      reconnected notice otherwise; earlier messages are kept. */
  function Greet(log: seq<Message>): (r: seq<Message>)
    ensures |r| == |log| + 1 && r[..|log|] == log
    ensures r[|log|] == AiText(if log == [] then WelcomeText else ReconnectedText)
    ensures StreamCount(r) == StreamCount(log)
  {
    StreamCountConcat(log, [AiText(if log == [] then WelcomeText else ReconnectedText)]);
    assert (log + [AiText(if log == [] then WelcomeText else ReconnectedText)])[..|log|] == log;
    if log == [] then [AiText(WelcomeText)] else log + [AiText(ReconnectedText)]
  }

  // ---------------------------------------------------------------- lemmas

  /** Every handler keeps Consistent, given what the transport guarantees:
      open fires on a connecting socket, close fires on a socket not yet
      closed, and the timer fires only while pending. */
  lemma HandlersKeepConsistent(c: Conn)
    requires Consistent(c)
    ensures c.socket == Connecting ==> Consistent(OnOpen(c))
    ensures c.socket != Closed ==> Consistent(OnClose(c))
    ensures Consistent(OnError(c))
    ensures c.timer.Some? ==> Consistent(Connect(c))
    ensures Consistent(Cleanup(c))
  {
  }

  /** After the cleanup, a close schedules nothing and leaves the retry
      count untouched, and so does every later close. */
  lemma CleanupStopsRetry(c: Conn)
    ensures var r := OnClose(Cleanup(c));
      r.timer.None? && r.retryCount == c.retryCount && !r.shouldReconnect
    ensures OnClose(OnClose(Cleanup(c))) == OnClose(Cleanup(c))
  {
  }

  /** The waits scheduled by `n` closes, each followed by the timer's
      reconnection attempt, with no successful open in between. */
  function CloseCycles(c: Conn, n: nat): (delays: seq<nat>)
    requires c.shouldReconnect
    ensures |delays| == n
    ensures forall i :: 0 <= i < n ==> delays[i] == Backoff.Delay(c.retryCount + i)
    decreases n
  {
    if n == 0 then []
    else [OnClose(c).timer.value] + CloseCycles(Connect(OnClose(c)), n - 1)
  }

  /** Those waits never decrease and never exceed the cap. */
  lemma CloseCyclesOrdered(c: Conn, n: nat)
    requires c.shouldReconnect
    ensures forall i, j :: 0 <= i <= j < n ==> CloseCycles(c, n)[i] <= CloseCycles(c, n)[j]
    ensures forall i :: 0 <= i < n ==> CloseCycles(c, n)[i] <= Backoff.MaxRetryDelayMs
  {
    forall i, j | 0 <= i <= j < n ensures CloseCycles(c, n)[i] <= CloseCycles(c, n)[j] {
      Backoff.DelayMonotone(c.retryCount + i, c.retryCount + j);
    }
  }

  /** Three closes after mount, with no open in between, wait 1000, 2000
      and 4000 ms. */
  lemma ThreeClosesBackoff()
    ensures CloseCycles(Mounted, 3) == [1000, 2000, 4000]
  {
    Backoff.DelaySchedule();
  }

  /** A second open always greets with the reconnected notice. */
  lemma ReopenSaysReconnected(log: seq<Message>)
    ensures Greet(Greet(log))[|log| + 1] == AiText(ReconnectedText)
  {
  }
}
