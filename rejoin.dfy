/**
 * The availability poll that runs after the provisioning request is
 * acknowledged (checkAvailability in data/setup.js), as a pure machine.
 *
 * Each response to a poll of the device's status endpoint is either an error
 * (the device is unreachable while it reboots, or the reply does not parse)
 * or a parsed status. A parsed status cancels the poll whatever it says:
 * `connectedToSsid` true redirects to the device's home page, false hides the
 * loading screen and alerts the user. An error changes nothing.
 */
module Rejoin {

  datatype PollResponse = Unreachable | Status(connectedToSsid: bool)

  datatype Phase = Idle | Polling | Connected | Failed

  /** The phase after one poll response; a redirect is final. */
  function PollStep(p: Phase, r: PollResponse): Phase {
    match r
    case Unreachable => p
    case Status(connected) =>
      if p == Connected || connected then Connected else Failed
  }

  /** The phase after a series of poll responses, in arrival order. */
  function Steps(p: Phase, rs: seq<PollResponse>): Phase
    decreases |rs|
  {
    if rs == [] then p else Steps(PollStep(p, rs[0]), rs[1..])
  }

  /** One more response steps on from wherever the earlier ones left the machine. */
  lemma {:induction false} StepsAppended(p: Phase, rs: seq<PollResponse>, r: PollResponse)
    ensures Steps(p, rs + [r]) == PollStep(Steps(p, rs), r)
    decreases |rs|
  {
    if rs != [] {
      assert (rs + [r])[1..] == rs[1..] + [r];
      StepsAppended(PollStep(p, rs[0]), rs[1..], r);
    }
  }

  /**
   * A single handshake: the timer yields one response per tick until a parsed
   * status cancels it, so responses after that one are never consumed.
   * Returns the resulting phase and how many responses were consumed.
   */
  function Handshake(rs: seq<PollResponse>): (result: (Phase, nat))
    ensures result.1 <= |rs|
    ensures result.0 != Idle
    decreases |rs|
  {
    if rs == [] then (Polling, 0)
    else match rs[0]
      case Status(connected) => (if connected then Connected else Failed, 1)
      case Unreachable =>
        var (p, used) := Handshake(rs[1..]);
        (p, used + 1)
  }

  /** Once redirected, no response changes the phase. */
  lemma {:induction false} ConnectedIsFinal(rs: seq<PollResponse>)
    ensures Steps(Connected, rs) == Connected
    decreases |rs|
  {
    if rs != [] {
      ConnectedIsFinal(rs[1..]);
    }
  }

  /** Errors alone never end the poll. */
  lemma {:induction false} ErrorsKeepPolling(rs: seq<PollResponse>)
    requires forall j :: 0 <= j < |rs| ==> rs[j] == Unreachable
    ensures Handshake(rs) == (Polling, |rs|)
    ensures Steps(Polling, rs) == Polling
    decreases |rs|
  {
    if rs != [] {
      ErrorsKeepPolling(rs[1..]);
    }
  }

  /**
   * The first parsed response ends the handshake, right there: after `k`
   * errors, a status at position `k` yields Connected or Failed by its flag,
   * with `k + 1` responses consumed.
   */
  lemma {:induction false} FirstStatusDecides(rs: seq<PollResponse>, k: nat)
    requires k < |rs| && rs[k].Status?
    requires forall j :: 0 <= j < k ==> rs[j] == Unreachable
    ensures Handshake(rs) == (if rs[k].connectedToSsid then Connected else Failed, k + 1)
    decreases k
  {
    if k > 0 {
      FirstStatusDecides(rs[1..], k - 1);
    }
  }

  /** The handshake's outcome is what the single-step machine gives on the responses it consumed. */
  lemma {:induction false} HandshakeFollowsSteps(rs: seq<PollResponse>)
    ensures Handshake(rs).0 == Steps(Polling, rs[..Handshake(rs).1])
    decreases |rs|
  {
    if rs != [] {
      match rs[0]
      case Status(connected) =>
        assert rs[..1] == [rs[0]];
      case Unreachable =>
        HandshakeFollowsSteps(rs[1..]);
        var used := Handshake(rs[1..]).1;
        assert rs[..used + 1][1..] == rs[1..][..used];
    }
  }

  /** [error, error, {false}] fails at the third response; [error, {true}] redirects at the second. */
  lemma ScriptedHandshakes()
    ensures Handshake([Unreachable, Unreachable, Status(false)]) == (Failed, 3)
    ensures Handshake([Unreachable, Status(true)]) == (Connected, 2)
  {
    FirstStatusDecides([Unreachable, Unreachable, Status(false)], 2);
    FirstStatusDecides([Unreachable, Status(true)], 1);
  }
}
