/** `VirtualDevice.connect`: one initial connection attempt, then further attempts
    while not connected and fewer than eleven attempts have returned. An attempt
    that raises is logged and does not advance the counter, so the loop ends only
    because of what the client's `connect` does; the attempts are therefore given
    as a finite script of outcomes. The five-second sleep between retries is left out. */
module ConnectRetry {

  /** What one call of the client's `connect` did. */
  datatype Attempt = Raises | Returns(ok: bool)

  /** `Done(connected, used)`: the loop ended after `used` attempts and `connect`
      returned `connected`. `OutOfAttempts`: the script ended while the source
      would still be calling `connect`. */
  datatype ConnectResult = Done(connected: bool, used: nat) | OutOfAttempts

  /** The bound in `while(not r and connect_count <= 10)`. */
  const MaxConnectCount: nat := 10

  /** Number of attempts in `s` that returned instead of raising. */
  function Returned(s: seq<Attempt>): nat
  {
    if s == [] then 0 else (if s[0].Returns? then 1 else 0) + Returned(s[1..])
  }

  /** The retry loop entered at script position `i` with loop variables `r` and `count`. */
  function Retry(attempts: seq<Attempt>, i: nat, r: bool, count: nat): ConnectResult
    requires i <= |attempts|
    decreases |attempts| - i
  {
    if r || count > MaxConnectCount then Done(r, i)
    else if i == |attempts| then OutOfAttempts
    else match attempts[i]
      case Raises => Retry(attempts, i + 1, r, count)
      case Returns(b) => Retry(attempts, i + 1, b, count + 1)
  }

  /** The initial attempt (a raise leaves `r` falsy), then the retry loop. */
  function ConnectSpec(attempts: seq<Attempt>): ConnectResult
  {
    if attempts == [] then OutOfAttempts
    else Retry(attempts, 1, attempts[0] == Returns(true), 0)
  }

  /** The loop of the source, over the attempt script. */
  method Connect(attempts: seq<Attempt>) returns (result: ConnectResult)
    ensures result == ConnectSpec(attempts)
  {
    if |attempts| == 0 {
      return OutOfAttempts;
    }
    var connectCount := 0;
    var r := false;
    match attempts[0] {
      case Raises =>
      case Returns(b) => r := b;
    }
    var i := 1;
    while !r && connectCount <= MaxConnectCount
      invariant 1 <= i <= |attempts|
      invariant Retry(attempts, i, r, connectCount) == ConnectSpec(attempts)
      decreases |attempts| - i
    {
      if i == |attempts| {
        return OutOfAttempts;
      }
      match attempts[i] {
        case Raises =>
        case Returns(b) =>
          r := b;
          connectCount := connectCount + 1;
      }
      i := i + 1;
    }
    result := Done(r, i);
  }

  lemma {:induction false} ReturnedStep(a: seq<Attempt>, i: nat, j: nat)
    requires i < j <= |a|
    ensures Returned(a[i..j]) == (if a[i].Returns? then 1 else 0) + Returned(a[i + 1..j])
  {
    assert a[i..j][1..] == a[i + 1..j];
  }

  /** What the loop guarantees from any state it can be in. */
  lemma {:induction false} RetryOutcome(a: seq<Attempt>, i: nat, r: bool, count: nat)
    requires i <= |a| && count <= MaxConnectCount + 1
    ensures match Retry(a, i, r, count)
      case OutOfAttempts => true
      case Done(c, used) =>
        && i <= used <= |a|
        && count + Returned(a[i..used]) <= MaxConnectCount + 1
        && (!c ==> count + Returned(a[i..used]) == MaxConnectCount + 1)
        && (used == i ==> c == r)
        && (used > i ==> a[used - 1] == Returns(c))
    decreases |a| - i
  {
    if r || count > MaxConnectCount {
      assert a[i..i] == [];
    } else if i < |a| {
      match a[i] {
        case Raises => RetryOutcome(a, i + 1, r, count);
        case Returns(b) => RetryOutcome(a, i + 1, b, count + 1);
      }
      match Retry(a, i, r, count) {
        case OutOfAttempts =>
        case Done(c, used) => ReturnedStep(a, i, used);
      }
    }
  }

  /** `connect` returns true exactly when the last attempt it made returned
      true, and that last attempt is always one that returned. */
  lemma {:induction false} ConnectedIffLastAttemptSucceeded(a: seq<Attempt>)
    requires ConnectSpec(a).Done?
    ensures 1 <= ConnectSpec(a).used <= |a|
    ensures a[ConnectSpec(a).used - 1] == Returns(ConnectSpec(a).connected)
  {
    RetryOutcome(a, 1, a[0] == Returns(true), 0);
  }

  /** At most eleven retries return after the initial attempt, and exactly
      eleven returned (all false) when the device ends up not connected. */
  lemma {:induction false} RetriesAreBounded(a: seq<Attempt>)
    requires ConnectSpec(a).Done?
    ensures 1 <= ConnectSpec(a).used <= |a|
    ensures Returned(a[1..ConnectSpec(a).used]) <= MaxConnectCount + 1
    ensures !ConnectSpec(a).connected ==> Returned(a[1..ConnectSpec(a).used]) == MaxConnectCount + 1
  {
    RetryOutcome(a, 1, a[0] == Returns(true), 0);
  }

  /** From any loop state, a script holding enough returning attempts ends the loop. */
  lemma {:induction false} RetryEnds(a: seq<Attempt>, i: nat, r: bool, count: nat)
    requires i <= |a| && count <= MaxConnectCount + 1
    requires count + Returned(a[i..]) > MaxConnectCount
    ensures Retry(a, i, r, count).Done?
    decreases |a| - i
  {
    if !r && count <= MaxConnectCount && i < |a| {
      ReturnedStep(a, i, |a|);
      match a[i] {
        case Raises => RetryEnds(a, i + 1, r, count);
        case Returns(b) => RetryEnds(a, i + 1, b, count + 1);
      }
    }
  }

  /** A script whose retries include eleven that return always lets `connect` finish. */
  lemma {:induction false} ConnectEnds(a: seq<Attempt>)
    requires |a| >= 1 && Returned(a[1..]) > MaxConnectCount
    ensures ConnectSpec(a).Done?
  {
    RetryEnds(a, 1, a[0] == Returns(true), 0);
  }
}
