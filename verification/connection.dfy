/** The stream connector: up to three dial attempts with a linearly growing pause after
    each failure, then a fatal panic carrying the last dial error. */
module Connection {

  /** An open stream connection, as an opaque handle. */
  datatype Conn = Conn(id: nat)

  /** What one dial attempt produced. */
  datatype DialOutcome = Dialed(conn: Conn) | DialFailed(err: string)

  /** The dialer, abstracted as a function of the URL and the zero-based attempt index, so
      every pattern of successes and failures over the attempts is one dialer. */
  type Dialer = (string, nat) -> DialOutcome

  /** How many dial attempts are made at most. */
  const MaxAttempts: nat := 3

  /** The pause unit: attempt i (zero-based) is followed, on failure, by (i + 1) units. */
  const RetryUnitSeconds: nat := 1

  /** The outcome of connecting: the connection with the number of dials it took and the
      pauses (in seconds) taken before it, or the panic with the last error and all pauses. */
  datatype ConnectResult =
    | Connected(conn: Conn, attempts: nat, sleeps: seq<nat>)
    | Panicked(err: string, sleeps: seq<nat>)

  /** The pause schedule after n failed attempts: 1, 2, ..., n units. */
  function Backoff(n: nat): (s: seq<nat>)
    ensures |s| == n
    ensures n > 0 ==> s[0] == RetryUnitSeconds
    ensures forall i :: 0 < i < n ==> s[i] == s[i - 1] + RetryUnitSeconds
  {
    seq(n, i => (i + 1) * RetryUnitSeconds)
  }

  /** The number of dials a result stands for. */
  function DialsMade(r: ConnectResult): nat
  {
    if r.Connected? then r.attempts else MaxAttempts
  }

  /** The retry loop from attempt `i` on, with the pauses taken so far. */
  function ConnectLoop(dial: Dialer, url: string, i: nat, slept: seq<nat>): (r: ConnectResult)
    requires i < MaxAttempts && slept == Backoff(i)
    ensures r.Connected? ==>
      && i < r.attempts <= MaxAttempts
      && dial(url, r.attempts - 1) == Dialed(r.conn)
      && (forall k :: i <= k < r.attempts - 1 ==> dial(url, k).DialFailed?)
      && r.sleeps == Backoff(r.attempts - 1)
    ensures r.Panicked? <==> forall k :: i <= k < MaxAttempts ==> dial(url, k).DialFailed?
    ensures r.Panicked? ==> r.err == dial(url, MaxAttempts - 1).err && r.sleeps == Backoff(MaxAttempts)
    decreases MaxAttempts - i
  {
    var retryDuration := (i + 1) * RetryUnitSeconds;
    match dial(url, i)
    case Dialed(c) => Connected(c, i + 1, slept)
    case DialFailed(e) =>
      var slept' := slept + [retryDuration];
      assert slept' == Backoff(i + 1);
      if i + 1 < MaxAttempts then ConnectLoop(dial, url, i + 1, slept')
      else Panicked(e, slept')
  }

  /** Connecting to `url`: the first successful dial is returned at once, after the pauses of
      the failed dials before it; if all three dials fail, the result is a panic with the
      third dial's error, after pauses of 1, 2 and 3 seconds. */
  function CreateWebsocketConnection(dial: Dialer, url: string): (r: ConnectResult)
    ensures r.Connected? ==>
      && 1 <= r.attempts <= MaxAttempts
      && dial(url, r.attempts - 1) == Dialed(r.conn)
      && (forall k :: 0 <= k < r.attempts - 1 ==> dial(url, k).DialFailed?)
      && r.sleeps == Backoff(r.attempts - 1)
    ensures r.Panicked? <==> forall k :: 0 <= k < MaxAttempts ==> dial(url, k).DialFailed?
    ensures r.Panicked? ==> r.err == dial(url, MaxAttempts - 1).err && r.sleeps == [1, 2, 3]
  {
    ConnectLoop(dial, url, 0, [])
  }

  /** Only the dials the result accounts for are made: two dialers that agree on those
      attempts give the same result, so nothing is dialled after a success or after the
      third failure. */
  lemma {:induction false} ConnectLoopUsesOnlyItsDials(dial1: Dialer, dial2: Dialer, url: string, i: nat, slept: seq<nat>)
    requires i < MaxAttempts && slept == Backoff(i)
    requires forall k :: i <= k < DialsMade(ConnectLoop(dial1, url, i, slept)) ==> dial1(url, k) == dial2(url, k)
    ensures ConnectLoop(dial2, url, i, slept) == ConnectLoop(dial1, url, i, slept)
    decreases MaxAttempts - i
  {
    var r := ConnectLoop(dial1, url, i, slept);
    assert i < DialsMade(r);
    assert dial1(url, i) == dial2(url, i);
    if dial1(url, i).DialFailed? && i + 1 < MaxAttempts {
      var slept' := slept + [(i + 1) * RetryUnitSeconds];
      assert slept' == Backoff(i + 1);
      ConnectLoopUsesOnlyItsDials(dial1, dial2, url, i + 1, slept');
    }
  }

  /** At most three dials, and none after the first success. */
  lemma NoDialAfterResult(dial1: Dialer, dial2: Dialer, url: string)
    requires forall k :: 0 <= k < DialsMade(CreateWebsocketConnection(dial1, url)) ==> dial1(url, k) == dial2(url, k)
    ensures CreateWebsocketConnection(dial2, url) == CreateWebsocketConnection(dial1, url)
    ensures DialsMade(CreateWebsocketConnection(dial1, url)) <= MaxAttempts
  {
    ConnectLoopUsesOnlyItsDials(dial1, dial2, url, 0, []);
  }

  /** The pause after each failed attempt is strictly longer than the one before. */
  lemma BackoffStrictlyIncreasing(n: nat)
    ensures forall j, k :: 0 <= j < k < n ==> Backoff(n)[j] < Backoff(n)[k]
  {
  }

  /** The total of a schedule of pauses. */
  function Sum(s: seq<nat>): nat
  {
    if |s| == 0 then 0 else Sum(s[..|s| - 1]) + s[|s| - 1]
  }

  /** After n failures the pauses add up to 1 + 2 + ... + n units. */
  lemma {:induction false} BackoffTotal(n: nat)
    ensures 2 * Sum(Backoff(n)) == n * (n + 1) * RetryUnitSeconds
  {
    if n > 0 {
      BackoffTotal(n - 1);
      assert Backoff(n)[..n - 1] == Backoff(n - 1);
    }
  }

  /** Total time slept: 1 + ... + (k - 1) seconds before a success on attempt k, and six
      seconds before the panic. */
  lemma ConnectSleepTotal(dial: Dialer, url: string)
    ensures var r := CreateWebsocketConnection(dial, url);
      (r.Connected? ==> 2 * Sum(r.sleeps) == (r.attempts - 1) * r.attempts) &&
      (r.Panicked? ==> Sum(r.sleeps) == 6)
  {
    var r := CreateWebsocketConnection(dial, url);
    if r.Connected? {
      BackoffTotal(r.attempts - 1);
    } else {
      BackoffTotal(MaxAttempts);
      assert r.sleeps == Backoff(MaxAttempts);
    }
  }
}
