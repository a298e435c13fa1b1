/** `waitForServer`, with sockets and timers replaced by the sequence of ways the successive
    connection attempts end. */
module Readiness {

  /** How one attempt to connect to the render server's port ends. */
  datatype Attempt = Connected | Errored | TimedOut

  /** The probe's promise after a run of attempts: resolved by attempt number `attempts`
      (counting from 1), or still pending. `reject` is never called, so nothing else can happen. */
  datatype ProbeState = Ready(attempts: nat) | Pending

  /** The probe as one chain of attempts: each attempt that errors or times out ends the socket
      and schedules the next attempt, and the first attempt that connects resolves the promise.
      An attempt that times out and later also errors schedules a second chain; that is not
      modelled. */
  function Probe(outcomes: seq<Attempt>): (r: ProbeState)
    ensures r.Pending? <==> forall i :: 0 <= i < |outcomes| ==> outcomes[i] != Connected
    ensures r.Ready? ==> && 1 <= r.attempts <= |outcomes|
                         && outcomes[r.attempts - 1] == Connected
                         && forall i :: 0 <= i < r.attempts - 1 ==> outcomes[i] != Connected
  {
    if outcomes == [] then Pending
    else if outcomes[0] == Connected then Ready(1)
    else
      match Probe(outcomes[1..])
      case Ready(n) => Ready(n + 1)
      case Pending => Pending
  }

  /** A run of attempts that has not resolved just delays the next ones: the attempts after it
      are probed as if from the start, shifted by its length. */
  lemma {:induction false} ProbeShiftsPastFailures(failures: seq<Attempt>, later: seq<Attempt>)
    requires Probe(failures).Pending?
    ensures Probe(failures + later) == match Probe(later)
                                       case Ready(n) => Ready(|failures| + n)
                                       case Pending => Pending
  {
    if failures != [] {
      var all := failures + later;
      assert all[0] == failures[0] != Connected;
      assert all[1..] == failures[1..] + later;
      assert Probe(failures[1..]).Pending?;
      ProbeShiftsPastFailures(failures[1..], later);
    } else {
      assert failures + later == later;
    }
  }

  /** There is no bound on the number of retries: a server that starts listening after any
      number `N` of failed attempts is found on attempt `N + 1`, and never before. */
  lemma ProbeFindsLateServer(failures: seq<Attempt>, rest: seq<Attempt>)
    requires forall i :: 0 <= i < |failures| ==> failures[i] != Connected
    ensures Probe(failures + [Connected] + rest) == Ready(|failures| + 1)
  {
    ProbeShiftsPastFailures(failures, [Connected] + rest);
    assert failures + [Connected] + rest == failures + ([Connected] + rest);
  }

  /** Once the probe has resolved, later attempt outcomes change nothing. */
  lemma {:induction false} ProbeIgnoresLaterAttempts(outcomes: seq<Attempt>, later: seq<Attempt>)
    requires Probe(outcomes).Ready?
    ensures Probe(outcomes + later) == Probe(outcomes)
  {
    if outcomes[0] != Connected {
      ProbeIgnoresLaterAttempts(outcomes[1..], later);
      assert (outcomes + later)[1..] == outcomes[1..] + later;
    }
  }

  /** An error and a timeout are handled alike: swapping one for the other changes nothing. */
  lemma ErrorAndTimeoutAlike(outcomes: seq<Attempt>, k: nat)
    requires k < |outcomes|
    ensures Probe(outcomes[k := Errored]) == Probe(outcomes[k := TimedOut])
  {
    var e := outcomes[k := Errored];
    var t := outcomes[k := TimedOut];
    assert forall i :: 0 <= i < |e| ==> (e[i] == Connected <==> t[i] == Connected);
    if Probe(e).Ready? {
      assert Probe(t).Ready?;
      var n, m := Probe(e).attempts, Probe(t).attempts;
      assert !(n < m) && !(m < n);
    }
  }
}
