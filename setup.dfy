/**
 * The Alraune provisioning page (data/setup.js) as an event-driven state machine.
 *
 * The page scans for wireless networks, lists them in a drop-down, enables the
 * password field only for an encrypted network, submits the device's new
 * configuration and then polls the device under its new host name until it
 * reports whether it joined the network. Completions of requests and ticks of
 * timers are methods of their own; requests are recorded in `sent`.
 */
module Setup {
  import opened Dropdown
  import opened Rejoin

  datatype Option<T> = None | Some(value: T)

  /** One entry of a `/wlan/scan` response. */
  datatype Wlan = Wlan(ssid: string, encryption: bool)

  /** The birthday field's date, as day of month and zero-based month. */
  datatype Birthday = Birthday(day: int, month: int)

  /** The JSON body of the `/wlan/setup` request. */
  datatype SetupRequest = SetupRequest(
    name: string, ssid: string, password: string, birthdayDay: int, birthdayMonth: int)

  datatype Request =
    | ScanRequest               // GET /wlan/scan
    | SetupPost(body: SetupRequest)  // POST /wlan/setup
    | StatusPoll                // GET http://alraune.local/wlan/status

  const LockedGlyph: string := "\U{1F510}"
  const UnlockedGlyph: string := "\U{1F513}"

  /**
   * The `networks` object after the scan loop over `data`: entries are
   * stored in response order, so a later duplicate ssid overwrites an earlier one.
   */
  function NetworkMap(data: seq<Wlan>): map<string, bool>
    decreases |data|
  {
    if data == [] then map[]
    else NetworkMap(data[..|data| - 1])[data[|data| - 1].ssid := data[|data| - 1].encryption]
  }

  /** The drop-down entry for one scanned network: a lock glyph and the ssid. */
  function ChoiceFor(w: Wlan): Choice {
    Choice((if w.encryption then LockedGlyph else UnlockedGlyph) + " " + w.ssid, w.ssid)
  }

  /** The entries added for a scan response, in response order. */
  function ChoicesFor(data: seq<Wlan>): seq<Choice> {
    seq(|data|, i requires 0 <= i < |data| => ChoiceFor(data[i]))
  }

  /** The password field's disabled flag, `!networks[ssid]`. */
  predicate PasswordDisabled(networks: map<string, bool>, ssid: string) {
    !(ssid in networks && networks[ssid])
  }

  /**
   * The options the removal loop leaves: it calls `remove(i)` with a rising
   * `i` while the list shrinks, so it removes the options at even positions
   * and keeps those at odd positions.
   */
  function Survivors(s: seq<Choice>): seq<Choice>
    decreases |s|
  {
    if |s| < 2 then [] else [s[1]] + Survivors(s[2..])
  }

  /**
   * Selected index after `i` rounds of the removal loop on `n` options whose
   * selected index was `s`: an option ahead of the loop has moved down by
   * `i`; a kept option sits at half its old index; when the selected option
   * was removed, the first remaining option is selected.
   */
  function SelectedDuringRemoval(s: int, i: int, n: int): int {
    if s < 0 then -1
    else if s >= 2 * i then s - i
    else if s % 2 == 1 then s / 2
    else if n >= 2 then 0
    else -1
  }

  /**
   * The options after `i` rounds of the removal loop on `orig`: the first `i`
   * are the kept odd-indexed ones, the rest are the options not yet reached.
   */
  ghost function PartlyRemoved(orig: seq<Choice>, i: nat): seq<Choice>
    requires i <= |orig| && 2 * i <= |orig| + 1
  {
    seq(|orig| - i, k requires 0 <= k < |orig| - i => if k < i then orig[2 * k + 1] else orig[k + i])
  }

  /** One round of the removal loop: `remove(i)` takes out the option at old position `2 i`. */
  lemma RemovalRound(orig: seq<Choice>, i: nat)
    requires 2 * i < |orig|
    ensures |PartlyRemoved(orig, i)| == |orig| - i
    ensures PartlyRemoved(orig, i)[..i] + PartlyRemoved(orig, i)[i + 1..] == PartlyRemoved(orig, i + 1)
  {
    var cur := PartlyRemoved(orig, i);
    var next := PartlyRemoved(orig, i + 1);
    var after := cur[..i] + cur[i + 1..];
    assert |after| == |next|;
    forall k | 0 <= k < |next| ensures after[k] == next[k] {
      if k < i {
        assert after[k] == cur[k];
      } else {
        assert after[k] == cur[k + 1];
      }
    }
  }

  /** The selection follows the same round. */
  lemma SelectionRound(s: int, i: nat, n: int)
    requires -1 <= s < n && 2 * i < n
    ensures IndexAfterRemove(SelectedDuringRemoval(s, i, n), i, n - i) == SelectedDuringRemoval(s, i + 1, n)
  {
  }

  /** When the loop stops, the kept options are the survivors. */
  lemma RemovalDone(orig: seq<Choice>, i: nat)
    requires |orig| <= 2 * i <= |orig| + 1
    ensures PartlyRemoved(orig, i) == Survivors(orig)
  {
    SurvivorsAt(orig);
    var kept := PartlyRemoved(orig, i);
    assert |kept| == |orig| / 2;
    forall k | 0 <= k < |kept| ensures kept[k] == Survivors(orig)[k] {
      assert k < i;
    }
  }

  /** Selected index when the removal loop is done. */
  function SelectedAfterRemoval(s: int, n: int): int {
    if s < 0 then -1
    else if s % 2 == 1 then s / 2
    else if n >= 2 then 0
    else -1
  }

  /** Selected index after a scan adds `added` entries to the options the removal loop left. */
  function SelectedAfterScan(s: int, n: int, added: nat): int {
    var kept := SelectedAfterRemoval(s, n);
    if kept == -1 && added > 0 then 0 else kept
  }

  /** The removal loop keeps exactly the odd-indexed options, in order, and removes ceil(n/2) of them. */
  lemma {:induction false} SurvivorsAt(s: seq<Choice>)
    ensures |Survivors(s)| == |s| / 2
    ensures |s| - |Survivors(s)| == (|s| + 1) / 2
    ensures forall k :: 0 <= k < |s| / 2 ==> Survivors(s)[k] == s[2 * k + 1]
    decreases |s|
  {
    if |s| >= 2 {
      SurvivorsAt(s[2..]);
      assert Survivors(s) == [s[1]] + Survivors(s[2..]);
      forall k | 0 < k < |s| / 2
        ensures Survivors(s)[k] == s[2 * k + 1]
      {
        assert Survivors(s)[k] == Survivors(s[2..])[k - 1];
        assert s[2..][2 * (k - 1) + 1] == s[2 * k + 1];
      }
    }
  }

  /** After a scan, the map's keys are exactly the ssids of the response. */
  lemma {:induction false} NetworkMapKeys(data: seq<Wlan>)
    ensures NetworkMap(data).Keys == set i | 0 <= i < |data| :: data[i].ssid
    decreases |data|
  {
    if data != [] {
      var init := data[..|data| - 1];
      NetworkMapKeys(init);
      var keys := set i | 0 <= i < |data| :: data[i].ssid;
      var initKeys := set i | 0 <= i < |init| :: init[i].ssid;
      assert keys == initKeys + {data[|data| - 1].ssid} by {
        forall x | x in keys ensures x in initKeys + {data[|data| - 1].ssid} {
          var i :| 0 <= i < |data| && data[i].ssid == x;
          if i < |init| {
            assert init[i].ssid == x;
          }
        }
        forall x | x in initKeys ensures x in keys {
          var i :| 0 <= i < |init| && init[i].ssid == x;
          assert data[i].ssid == x;
        }
      }
    }
  }

  /** An entry that no later entry duplicates decides its ssid's value. */
  lemma {:induction false} NetworkMapLastWins(data: seq<Wlan>, i: nat)
    requires i < |data|
    requires forall j :: i < j < |data| ==> data[j].ssid != data[i].ssid
    ensures data[i].ssid in NetworkMap(data)
    ensures NetworkMap(data)[data[i].ssid] == data[i].encryption
    decreases |data|
  {
    if i < |data| - 1 {
      var init := data[..|data| - 1];
      NetworkMapLastWins(init, i);
    }
  }

  /**
   * After a scan, the password field is enabled for `ssid` exactly when the
   * last entry of the response with that ssid is encrypted.
   */
  lemma {:induction false} PasswordEnabledIff(data: seq<Wlan>, ssid: string)
    ensures !PasswordDisabled(NetworkMap(data), ssid) <==>
      exists i :: 0 <= i < |data| && data[i].ssid == ssid && data[i].encryption &&
        forall j :: i < j < |data| ==> data[j].ssid != ssid
    decreases |data|
  {
    if data != [] {
      var last := |data| - 1;
      var init := data[..last];
      PasswordEnabledIff(init, ssid);
      if data[last].ssid == ssid {
        if data[last].encryption {
          assert data[last].ssid == ssid && data[last].encryption;
        } else {
          forall i | 0 <= i < |data| && data[i].ssid == ssid && data[i].encryption
            ensures exists j :: i < j < |data| && data[j].ssid == ssid
          {
            assert i < last;
          }
        }
      } else {
        if !PasswordDisabled(NetworkMap(data), ssid) {
          var i :| 0 <= i < |init| && init[i].ssid == ssid && init[i].encryption &&
            forall j :: i < j < |init| ==> init[j].ssid != ssid;
          assert data[i] == init[i];
          assert forall j :: i < j < |data| ==> data[j].ssid != ssid by {
            forall j | i < j < |data| ensures data[j].ssid != ssid {
              if j < last {
                assert data[j] == init[j];
              }
            }
          }
        }
        forall i | 0 <= i < |data| && data[i].ssid == ssid && data[i].encryption &&
            (forall j :: i < j < |data| ==> data[j].ssid != ssid)
          ensures !PasswordDisabled(NetworkMap(data), ssid)
        {
          assert init[i] == data[i];
          assert forall j :: i < j < |init| ==> init[j].ssid != ssid;
        }
      }
    }
  }

  /**
   * An entry that survived the removal loop but is missing from the new
   * scan leaves the password field disabled while it is selected.
   */
  lemma StaleSelectionDisablesPassword(data: seq<Wlan>, ssid: string)
    requires forall i :: 0 <= i < |data| ==> data[i].ssid != ssid
    ensures ssid !in NetworkMap(data) && PasswordDisabled(NetworkMap(data), ssid)
  {
    NetworkMapKeys(data);
  }

  /** Each added entry carries the ssid as its value and a label of lock glyph and ssid. */
  lemma ChoicesForLabels(data: seq<Wlan>, i: nat)
    requires i < |data|
    ensures |ChoicesFor(data)| == |data|
    ensures ChoicesFor(data)[i].value == data[i].ssid
    ensures ChoicesFor(data)[i].text ==
      (if data[i].encryption then LockedGlyph else UnlockedGlyph) + " " + data[i].ssid
  {
  }

  /** The page's mutable state: the scanned networks, the form, the poll timer and the request log. */
  class SetupPage {
    /** The module-level `networks`; None while it is still `undefined`. */
    var networks: Option<map<string, bool>>
    /** The network drop-down. */
    const select: Select
    var passwordDisabled: bool
    var passwordText: string
    /** Whether the loading screen is shown. */
    var loading: bool
    /** The module-level `interval` handle; 0 while it is still `undefined`. */
    var interval: nat
    /** Handles of the poll timers that are still running. */
    var activeTimers: set<nat>
    /** Handle the next timer will get. */
    var nextTimer: nat
    /** Whether the browser was sent to the home page. */
    var redirected: bool
    /** Number of failure alerts raised. */
    var alerts: nat
    /** Every request the page has issued, oldest first. */
    var sent: seq<Request>
    var pendingScans: nat
    var pendingSetups: nat
    var pendingPolls: nat

    ghost predicate Valid()
      reads this, select
    {
      && select.Valid()
      && 0 < nextTimer
      && interval < nextTimer
      && (forall t :: t in activeTimers ==> 0 < t < nextTimer)
    }

    /** Where the rejoin handshake stands, as seen from the page. */
    function Phase(): Phase
      reads this
    {
      if redirected then Connected
      else if interval in activeTimers then Polling
      else if alerts > 0 then Failed
      else Idle
    }

    /** The poll-related state, for saying that an operation leaves it alone. */
    ghost function PollState(): (bool, nat, set<nat>, nat, bool, nat, nat)
      reads this
    {
      (loading, interval, activeTimers, nextTimer, redirected, alerts, pendingPolls)
    }

    /** The form-related state, for saying that an operation leaves it alone. */
    ghost function FormState(): (Option<map<string, bool>>, bool, string)
      reads this
    {
      (networks, passwordDisabled, passwordText)
    }

    /** Page load: nothing scanned yet, no timer, and the first scan goes out. */
    constructor (template: seq<Choice>, templatePasswordDisabled: bool)
      ensures Valid() && fresh(select)
      ensures networks == None && select.options == template
      ensures passwordDisabled == templatePasswordDisabled && passwordText == ""
      ensures !loading && interval == 0 && activeTimers == {} && nextTimer == 1
      ensures !redirected && alerts == 0
      ensures Phase() == Idle
      ensures sent == [ScanRequest] && pendingScans == 1 && pendingSetups == 0 && pendingPolls == 0
    {
      networks := None;
      select := new Select(template);
      passwordDisabled := templatePasswordDisabled;
      passwordText := "";
      loading := false;
      interval := 0;
      activeTimers := {};
      nextTimer := 1;
      redirected := false;
      alerts := 0;
      sent := [ScanRequest];
      pendingScans := 1;
      pendingSetups := 0;
      pendingPolls := 0;
    }

    /** The user asks for a new scan. */
    method Scan()
      requires Valid()
      modifies this
      ensures Valid()
      ensures sent == old(sent) + [ScanRequest] && pendingScans == old(pendingScans) + 1
      ensures pendingSetups == old(pendingSetups) && unchanged(select)
      ensures FormState() == old(FormState()) && PollState() == old(PollState())
    {
      sent := sent + [ScanRequest];
      pendingScans := pendingScans + 1;
    }

    /** A scan failed in transport or its reply did not parse: only logged. */
    method ScanFailed()
      requires Valid() && pendingScans > 0
      modifies this
      ensures Valid()
      ensures pendingScans == old(pendingScans) - 1
      ensures sent == old(sent) && pendingSetups == old(pendingSetups) && unchanged(select)
      ensures FormState() == old(FormState()) && PollState() == old(PollState())
    {
      pendingScans := pendingScans - 1;
    }

    /** The removal loop: `remove(i)` for rising `i` while `i < select.length`. */
    method RemoveOldOptions()
      requires Valid()
      modifies select
      ensures Valid()
      ensures select.options == Survivors(old(select.options))
      ensures select.selectedIndex == SelectedAfterRemoval(old(select.selectedIndex), |old(select.options)|)
    {
      ghost var orig := select.options;
      ghost var s := select.selectedIndex;
      ghost var n := |orig|;
      var i := 0;
      while i < |select.options|
        invariant select.Valid()
        invariant i <= n && 2 * i <= n + 1
        invariant select.options == PartlyRemoved(orig, i)
        invariant select.selectedIndex == SelectedDuringRemoval(s, i, n)
        decreases n - 2 * i
      {
        RemovalRound(orig, i);
        SelectionRound(s, i, n);
        select.Remove(i);
        i := i + 1;
      }
      RemovalDone(orig, i);
    }

    /**
     * A scan reply that parses but is not a list: the removal loop has run and
     * `networks` is emptied before iterating the reply throws, so the password
     * field is not re-evaluated.
     */
    method ScanResolvedNotList()
      requires Valid() && pendingScans > 0
      modifies this, select
      ensures Valid()
      ensures networks == Some(map[])
      ensures select.options == Survivors(old(select.options))
      ensures select.selectedIndex == SelectedAfterRemoval(old(select.selectedIndex), |old(select.options)|)
      ensures passwordDisabled == old(passwordDisabled) && passwordText == old(passwordText)
      ensures pendingScans == old(pendingScans) - 1
      ensures sent == old(sent) && pendingSetups == old(pendingSetups) && PollState() == old(PollState())
    {
      pendingScans := pendingScans - 1;
      RemoveOldOptions();
      networks := Some(map[]);
    }

    /**
     * The `forEach` over a scan reply: each network is stored in the map
     * (a later duplicate overwriting an earlier one) and gets one entry
     * appended to the drop-down.
     */
    method AddScanned(data: seq<Wlan>) returns (nets: map<string, bool>)
      requires select.Valid()
      modifies select
      ensures select.Valid()
      ensures nets == NetworkMap(data)
      ensures select.options == old(select.options) + ChoicesFor(data)
      ensures select.selectedIndex ==
        if old(select.selectedIndex) == -1 && data != [] then 0 else old(select.selectedIndex)
    {
      nets := map[];
      var k := 0;
      while k < |data|
        invariant 0 <= k <= |data|
        invariant select.Valid()
        invariant nets == NetworkMap(data[..k])
        invariant select.options == old(select.options) + ChoicesFor(data[..k])
        invariant select.selectedIndex ==
          if old(select.selectedIndex) == -1 && k > 0 then 0 else old(select.selectedIndex)
      {
        var wlan := data[k];
        nets := nets[wlan.ssid := wlan.encryption];
        select.Add(ChoiceFor(wlan));
        assert data[..k + 1][..k] == data[..k];
        assert ChoicesFor(data[..k + 1]) == ChoicesFor(data[..k]) + [ChoiceFor(wlan)];
        k := k + 1;
      }
      assert data[..|data|] == data;
    }

    /**
     * A scan reply `data`: the removal loop runs, `networks` is rebuilt from
     * `data` alone, one entry per network is appended, and the password field
     * is re-evaluated against the selected entry.
     */
    method ScanResolved(data: seq<Wlan>)
      requires Valid() && pendingScans > 0
      modifies this, select
      ensures Valid()
      ensures networks == Some(NetworkMap(data))
      ensures select.options == Survivors(old(select.options)) + ChoicesFor(data)
      ensures select.selectedIndex ==
        SelectedAfterScan(old(select.selectedIndex), |old(select.options)|, |data|)
      ensures passwordDisabled == PasswordDisabled(NetworkMap(data), select.Value())
      ensures passwordText == old(passwordText)
      ensures pendingScans == old(pendingScans) - 1
      ensures sent == old(sent) && pendingSetups == old(pendingSetups) && PollState() == old(PollState())
    {
      pendingScans := pendingScans - 1;
      RemoveOldOptions();
      var nets := AddScanned(data);
      networks := Some(nets);
      passwordDisabled := PasswordDisabled(nets, select.Value());
    }

    /**
     * The user picks entry `i`: the password field follows the chosen
     * network; before any scan has filled `networks` the handler throws and
     * the field keeps its state.
     */
    method ChooseNetwork(i: int)
      requires Valid() && 0 <= i < |select.options|
      modifies this, select
      ensures Valid()
      ensures select.options == old(select.options) && select.selectedIndex == i
      ensures passwordDisabled ==
        if networks.Some? then PasswordDisabled(networks.value, select.Value()) else old(passwordDisabled)
      ensures networks == old(networks) && passwordText == old(passwordText)
      ensures sent == old(sent) && pendingScans == old(pendingScans) && pendingSetups == old(pendingSetups)
      ensures PollState() == old(PollState())
    {
      select.Choose(i);
      if networks.Some? {
        passwordDisabled := PasswordDisabled(networks.value, select.Value());
      }
    }

    /** The user types into the password field; a disabled field takes no input. */
    method EnterPassword(p: string)
      requires Valid()
      modifies this
      ensures Valid()
      ensures passwordText == if old(passwordDisabled) then old(passwordText) else p
      ensures networks == old(networks) && passwordDisabled == old(passwordDisabled) && unchanged(select)
      ensures sent == old(sent) && pendingScans == old(pendingScans) && pendingSetups == old(pendingSetups)
      ensures PollState() == old(PollState())
    {
      if !passwordDisabled {
        passwordText := p;
      }
    }

    /**
     * The user submits the form. The body takes name and ssid from the form
     * and sends an empty password whenever the field is disabled. Without a
     * date in the birthday field, reading it throws and nothing is sent.
     */
    method DoSetup(name: string, birthday: Option<Birthday>)
      requires Valid()
      modifies this
      ensures Valid()
      ensures birthday.None? ==> sent == old(sent) && pendingSetups == old(pendingSetups)
      ensures birthday.Some? ==>
        && sent == old(sent) + [SetupPost(SetupRequest(
             name, select.Value(), if passwordDisabled then "" else passwordText,
             birthday.value.day, birthday.value.month))]
        && pendingSetups == old(pendingSetups) + 1
      ensures pendingScans == old(pendingScans) && unchanged(select)
      ensures FormState() == old(FormState()) && PollState() == old(PollState())
    {
      if birthday.Some? {
        var body := SetupRequest(
          name, select.Value(), if passwordDisabled then "" else passwordText,
          birthday.value.day, birthday.value.month);
        sent := sent + [SetupPost(body)];
        pendingSetups := pendingSetups + 1;
      }
    }

    /**
     * The setup POST got an HTTP response, whatever its status: the loading
     * screen shows and a new poll timer starts, its handle overwriting
     * `interval` (an earlier timer keeps running, no longer reachable).
     */
    method SetupResolved()
      requires Valid() && pendingSetups > 0
      modifies this
      ensures Valid()
      ensures loading
      ensures interval == old(nextTimer) && interval !in old(activeTimers)
      ensures activeTimers == old(activeTimers) + {interval}
      ensures Phase() == if old(Phase()) == Connected then Connected else Polling
      ensures redirected == old(redirected) && alerts == old(alerts) && pendingPolls == old(pendingPolls)
      ensures pendingSetups == old(pendingSetups) - 1 && nextTimer == old(nextTimer) + 1
      ensures sent == old(sent) && pendingScans == old(pendingScans) && unchanged(select)
      ensures FormState() == old(FormState())
    {
      pendingSetups := pendingSetups - 1;
      loading := true;
      interval := nextTimer;
      activeTimers := activeTimers + {nextTimer};
      nextTimer := nextTimer + 1;
    }

    /** The setup POST failed in transport: no loading screen, no poll. */
    method SetupFailed()
      requires Valid() && pendingSetups > 0
      modifies this
      ensures Valid()
      ensures pendingSetups == old(pendingSetups) - 1
      ensures sent == old(sent) && pendingScans == old(pendingScans) && unchanged(select)
      ensures FormState() == old(FormState()) && PollState() == old(PollState())
    {
      pendingSetups := pendingSetups - 1;
    }

    /** A running poll timer `t` fires: one status request. */
    method Tick(t: nat)
      requires Valid() && t in activeTimers
      modifies this
      ensures Valid()
      ensures sent == old(sent) + [StatusPoll] && pendingPolls == old(pendingPolls) + 1
      ensures loading == old(loading) && interval == old(interval) && activeTimers == old(activeTimers)
      ensures nextTimer == old(nextTimer) && redirected == old(redirected) && alerts == old(alerts)
      ensures Phase() == old(Phase())
      ensures pendingScans == old(pendingScans) && pendingSetups == old(pendingSetups) && unchanged(select)
      ensures FormState() == old(FormState())
    {
      sent := sent + [StatusPoll];
      pendingPolls := pendingPolls + 1;
    }

    /**
     * A status request completed with `r`. A parsed status clears the timer
     * held in `interval`, then redirects on `connectedToSsid` or else hides
     * the loading screen and raises one alert; an error changes nothing else.
     */
    method PollCompleted(r: PollResponse)
      requires Valid() && pendingPolls > 0
      modifies this
      ensures Valid()
      ensures Phase() == PollStep(old(Phase()), r)
      ensures pendingPolls == old(pendingPolls) - 1
      ensures r.Unreachable? ==>
        && loading == old(loading) && activeTimers == old(activeTimers)
        && redirected == old(redirected) && alerts == old(alerts)
      ensures r.Status? ==> activeTimers == old(activeTimers) - {old(interval)}
      ensures r.Status? && r.connectedToSsid ==> redirected && loading == old(loading) && alerts == old(alerts)
      ensures r.Status? && !r.connectedToSsid ==>
        !loading && alerts == old(alerts) + 1 && redirected == old(redirected)
      ensures interval == old(interval) && nextTimer == old(nextTimer)
      ensures sent == old(sent) && pendingScans == old(pendingScans) && pendingSetups == old(pendingSetups)
      ensures unchanged(select) && FormState() == old(FormState())
    {
      pendingPolls := pendingPolls - 1;
      match r
      case Unreachable =>
      case Status(connected) =>
        activeTimers := activeTimers - {interval};
        if connected {
          redirected := true;
        } else {
          loading := false;
          alerts := alerts + 1;
        }
    }

    /**
     * A status reply that parses to `null`: the timer held in `interval` is
     * cleared, then reading `connectedToSsid` throws and the error is only
     * logged, so there is no redirect, no alert, and the loading screen stays.
     */
    method PollResolvedNull()
      requires Valid() && pendingPolls > 0
      modifies this
      ensures Valid()
      ensures activeTimers == old(activeTimers) - {old(interval)}
      ensures old(Phase()) == Polling ==> Phase() != Polling && Phase() != Connected
      ensures loading == old(loading) && redirected == old(redirected) && alerts == old(alerts)
      ensures pendingPolls == old(pendingPolls) - 1
      ensures interval == old(interval) && nextTimer == old(nextTimer)
      ensures sent == old(sent) && pendingScans == old(pendingScans) && pendingSetups == old(pendingSetups)
      ensures unchanged(select) && FormState() == old(FormState())
    {
      pendingPolls := pendingPolls - 1;
      activeTimers := activeTimers - {interval};
    }
  }

  /**
   * Poll replies arriving one after another on the page, in the order given:
   * the page's phase follows the single-step machine over all of them, and
   * nothing outside the poll state changes.
   */
  method PollAll(page: SetupPage, rs: seq<PollResponse>)
    requires page.Valid() && page.pendingPolls >= |rs|
    modifies page
    ensures page.Valid()
    ensures page.Phase() == Steps(old(page.Phase()), rs)
    ensures page.pendingPolls == old(page.pendingPolls) - |rs|
    ensures page.interval == old(page.interval) && page.nextTimer == old(page.nextTimer)
    ensures page.sent == old(page.sent) && page.pendingScans == old(page.pendingScans)
    ensures page.pendingSetups == old(page.pendingSetups)
    ensures unchanged(page.select) && page.FormState() == old(page.FormState())
  {
    ghost var p0 := page.Phase();
    var k := 0;
    while k < |rs|
      invariant 0 <= k <= |rs|
      invariant page.Valid()
      invariant page.Phase() == Steps(p0, rs[..k])
      invariant page.pendingPolls == old(page.pendingPolls) - k
      invariant page.interval == old(page.interval) && page.nextTimer == old(page.nextTimer)
      invariant page.sent == old(page.sent) && page.pendingScans == old(page.pendingScans)
      invariant page.pendingSetups == old(page.pendingSetups)
      invariant unchanged(page.select) && page.FormState() == old(page.FormState())
    {
      page.PollCompleted(rs[k]);
      assert rs[..k + 1] == rs[..k] + [rs[k]];
      StepsAppended(p0, rs[..k], rs[k]);
      k := k + 1;
    }
    assert rs[..k] == rs;
  }

  /**
   * Submit, then the poll sees [error, error, {connectedToSsid: false}]: the
   * third response ends it with one alert, the loading screen hidden and no
   * timer left to poll again.
   */
  method ErrorsThenFailure() returns (phase: Phase, loading: bool, alerts: nat, timers: set<nat>)
    ensures phase == Failed && !loading && alerts == 1 && timers == {}
  {
    var page := new SetupPage([], true);
    page.DoSetup("Alraune", Some(Birthday(24, 11)));
    page.SetupResolved();
    var t := page.interval;
    page.Tick(t);
    page.PollCompleted(Unreachable);
    page.Tick(t);
    page.PollCompleted(Unreachable);
    page.Tick(t);
    page.PollCompleted(Status(false));
    phase, loading, alerts, timers := page.Phase(), page.loading, page.alerts, page.activeTimers;
  }

  /** Submit, then the poll sees [error, {connectedToSsid: true}]: the second response redirects. */
  method ErrorThenConnected() returns (phase: Phase, redirected: bool, alerts: nat, timers: set<nat>)
    ensures phase == Connected && redirected && alerts == 0 && timers == {}
  {
    var page := new SetupPage([], true);
    page.DoSetup("Alraune", Some(Birthday(24, 11)));
    page.SetupResolved();
    var t := page.interval;
    page.Tick(t);
    page.PollCompleted(Unreachable);
    page.Tick(t);
    page.PollCompleted(Status(true));
    phase, redirected, alerts, timers := page.Phase(), page.redirected, page.alerts, page.activeTimers;
  }

  /**
   * Two acknowledged submissions start two timers, but `interval` holds only
   * the second: after a parsed failure the first timer still runs and keeps
   * sending status requests.
   */
  method TwoSubmissionsLeakATimer() returns (phase: Phase, timers: set<nat>, polls: nat)
    ensures phase == Failed && timers == {1} && polls == 2
  {
    var page := new SetupPage([], true);
    page.DoSetup("Alraune", Some(Birthday(24, 11)));
    page.DoSetup("Alraune", Some(Birthday(24, 11)));
    page.SetupResolved();
    page.SetupResolved();
    page.Tick(1);
    page.PollCompleted(Status(false));
    page.Tick(1);
    phase, timers := page.Phase(), page.activeTimers;
    polls := |page.sent| - 3;
  }

  /**
   * A rescan over the options [a, b] with `a` selected: the loop removes `a`
   * only, so `b` survives ahead of the new entry and becomes the selection,
   * and since `b` is not in the new scan the password field is disabled.
   */
  method RescanKeepsStaleOption() returns (options: seq<Choice>, value: string, disabled: bool)
    ensures options == [Choice("b", "b"), Choice(LockedGlyph + " home", "home")]
    ensures value == "b" && disabled
  {
    var page := new SetupPage([Choice("a", "a"), Choice("b", "b")], false);
    page.ScanResolved([Wlan("home", true)]);
    assert Survivors([Choice("a", "a"), Choice("b", "b")]) == [Choice("b", "b")];
    assert LockedGlyph + " " + "home" == LockedGlyph + " home";
    assert ChoicesFor([Wlan("home", true)]) == [Choice(LockedGlyph + " home", "home")];
    options, value, disabled := page.select.options, page.select.Value(), page.passwordDisabled;
  }

  /** With the field disabled, the setup body's password is empty whatever was typed before. */
  method OpenNetworkSendsNoPassword() returns (body: Request)
    ensures body == SetupPost(SetupRequest("Alraune", "cafe", "", 24, 11))
  {
    var page := new SetupPage([], false);
    page.EnterPassword("secret");
    page.ScanResolved([Wlan("cafe", false)]);
    page.DoSetup("Alraune", Some(Birthday(24, 11)));
    body := page.sent[|page.sent| - 1];
  }
}
