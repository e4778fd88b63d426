/**
 * The Alraune control page (data/alraune.js) as an event-driven state machine.
 *
 * The page keeps one module-level `volume`, renders the last telemetry
 * snapshot and the volume slider, and sends fire-and-forget JSON commands to
 * the device. Every asynchronous completion (a POST that resolves or is
 * rejected, a telemetry GET that resolves with data or fails) and every tick
 * of the 60-second timer is a method of its own; the requests the page sends
 * are recorded in `sent`, in order.
 */
module Control {

  /** Largest volume the buttons produce. */
  const MaxVolume: int := 30
  /** Amount one quieter/louder click moves the volume. */
  const VolumeStep: int := 3

  const VolumePath: string := "/volume"
  const PlayPath: string := "/play"
  const RecalibratePath: string := "/recalibrate"
  const TelemetryPath: string := "/json"

  /** The three families of test sounds the device can play. */
  datatype Sound = Water | Birthday | Christmas

  /** The `sound` field sent for a test sound button. */
  function SoundName(s: Sound): string {
    match s
    case Water => "water"
    case Birthday => "birthday"
    case Christmas => "christmas"
  }

  /** JSON bodies of the commands: `{volume: v}`, `{sound: s}` and `{}`. */
  datatype Body = VolumeBody(volume: int) | SoundBody(sound: string) | EmptyBody

  datatype Request = Get(path: string) | Post(path: string, body: Body)

  /** The fields of a `/json` telemetry response that the page consumes. */
  datatype DeviceStatus = DeviceStatus(
    title: string, moisture: int, sensorThreshold: int, memory: int,
    needsWater: bool, needsRefill: bool, volume: int)

  /** The rendered telemetry slots of the page, apart from the slider. */
  datatype Display = Display(
    title: string, moisture: int, threshold: int, memory: int,
    needsWater: bool, needsRefill: bool)

  datatype VolumeButton = Mute | Quieter | Louder

  predicate InRange(v: int) {
    0 <= v <= MaxVolume
  }

  function Min(a: int, b: int): int {
    if a < b then a else b
  }

  function Max(a: int, b: int): int {
    if a < b then b else a
  }

  /** New volume after the quieter button: one step down, but never below 0. */
  function QuieterVolume(v: int): (r: int)
    ensures r == Max(v - VolumeStep, 0)
  {
    if v > 3 then v - 3 else 0
  }

  /** New volume after the louder button: one step up, but never above 30. */
  function LouderVolume(v: int): (r: int)
    ensures r == Min(v + VolumeStep, MaxVolume)
  {
    if v < 28 then v + 3 else 30
  }

  /** New volume after pressing button `b` with current volume `v`. */
  function Pressed(b: VolumeButton, v: int): int {
    match b
    case Mute => 0
    case Quieter => QuieterVolume(v)
    case Louder => LouderVolume(v)
  }

  /**
   * The volumes carried by the `/volume` commands that the presses `bs` send,
   * one per press, when they start from volume `v` and no telemetry arrives
   * in between.
   */
  function SentVolumes(v: int, bs: seq<VolumeButton>): (r: seq<int>)
    ensures |r| == |bs|
    ensures |bs| > 0 ==> r[0] == Pressed(bs[0], v)
    decreases |bs|
  {
    if bs == [] then [] else [Pressed(bs[0], v)] + SentVolumes(Pressed(bs[0], v), bs[1..])
  }

  lemma LouderKeepsRange(v: int)
    requires InRange(v)
    ensures InRange(LouderVolume(v)) && LouderVolume(v) >= v
    ensures v == MaxVolume ==> LouderVolume(v) == MaxVolume
  {
  }

  lemma QuieterKeepsRange(v: int)
    requires InRange(v)
    ensures InRange(QuieterVolume(v)) && QuieterVolume(v) <= v
    ensures v <= VolumeStep ==> QuieterVolume(v) == 0
  {
  }

  /** Muting twice leaves the volume where muting once does. */
  lemma MuteIdempotent(v: int)
    ensures Pressed(Mute, Pressed(Mute, v)) == Pressed(Mute, v) == 0
  {
  }

  /**
   * The clamps only keep the volume in range if it starts in range: a server
   * value above the range is not clamped by the quieter button (40 gives 37),
   * while the louder button pulls any value above 27 down to 30.
   */
  lemma ClampIsOneSided(v: int)
    requires v > MaxVolume + VolumeStep
    ensures QuieterVolume(v) == v - VolumeStep && !InRange(QuieterVolume(v))
    ensures LouderVolume(v) == MaxVolume
  {
  }

  /** From a volume in range, every command a sequence of presses sends is in range. */
  lemma {:induction false} SentVolumesInRange(v: int, bs: seq<VolumeButton>)
    requires InRange(v)
    ensures forall k :: 0 <= k < |bs| ==> InRange(SentVolumes(v, bs)[k])
    decreases |bs|
  {
    if bs != [] {
      var w := Pressed(bs[0], v);
      assert InRange(w) by {
        LouderKeepsRange(v);
        QuieterKeepsRange(v);
      }
      SentVolumesInRange(w, bs[1..]);
      assert SentVolumes(v, bs) == [w] + SentVolumes(w, bs[1..]);
    }
  }

  /** Louder clicks from 27 or above all send 30: the clamp holds at the ceiling. */
  lemma {:induction false} LouderAtCeiling(v: int, n: nat)
    requires v >= MaxVolume - VolumeStep
    ensures SentVolumes(v, seq(n, _ => Louder)) == seq(n, _ => MaxVolume)
    decreases n
  {
    if n > 0 {
      var bs := seq(n, _ => Louder);
      assert bs[0] == Louder && bs[1..] == seq(n - 1, _ => Louder);
      LouderAtCeiling(MaxVolume, n - 1);
    }
  }

  /** Volume after the presses `bs`, starting from `v` with no telemetry in between. */
  function VolumeAfter(v: int, bs: seq<VolumeButton>): int
    decreases |bs|
  {
    if bs == [] then v else VolumeAfter(Pressed(bs[0], v), bs[1..])
  }

  /** The `/volume` commands carrying the volumes `vs`, in order. */
  function VolumePosts(vs: seq<int>): seq<Request> {
    seq(|vs|, i requires 0 <= i < |vs| => Post(VolumePath, VolumeBody(vs[i])))
  }

  /** One more press appends the volume it computes from the volume so far. */
  lemma {:induction false} PressAppended(v: int, bs: seq<VolumeButton>, b: VolumeButton)
    ensures VolumeAfter(v, bs + [b]) == Pressed(b, VolumeAfter(v, bs))
    ensures SentVolumes(v, bs + [b]) == SentVolumes(v, bs) + [Pressed(b, VolumeAfter(v, bs))]
    decreases |bs|
  {
    if bs != [] {
      assert (bs + [b])[1..] == bs[1..] + [b];
      PressAppended(Pressed(bs[0], v), bs[1..], b);
    }
  }

  /** The page's mutable state: the global `volume`, the rendered slots and the request log. */
  class ControlPage {
    /** The module-level `volume` of the script. */
    var volume: int
    /** The value of the `loudness` slider. */
    var slider: int
    var display: Display
    /** Every request the page has issued, oldest first. */
    var sent: seq<Request>
    /** POSTs issued and not yet resolved or rejected. */
    var pendingPosts: nat
    /** Telemetry GETs issued and not yet completed. */
    var pendingFetches: nat

    /**
     * Page load: `volume` starts at 0, the slots hold the template's values,
     * and the first telemetry request goes out at once.
     */
    constructor (template: Display, templateSlider: int)
      ensures volume == 0 && slider == templateSlider && display == template
      ensures sent == [Get(TelemetryPath)]
      ensures pendingFetches == 1 && pendingPosts == 0
    {
      volume := 0;
      slider := templateSlider;
      display := template;
      sent := [Get(TelemetryPath)];
      pendingFetches := 1;
      pendingPosts := 0;
    }

    /** Issues a POST of `body` to `path`; nothing is rendered until it completes. */
    method PostJson(path: string, body: Body)
      modifies this
      ensures sent == old(sent) + [Post(path, body)]
      ensures pendingPosts == old(pendingPosts) + 1
      ensures volume == old(volume) && slider == old(slider) && display == old(display)
      ensures pendingFetches == old(pendingFetches)
    {
      sent := sent + [Post(path, body)];
      pendingPosts := pendingPosts + 1;
    }

    method Mute()
      modifies this
      ensures volume == 0
      ensures sent == old(sent) + [Post(VolumePath, VolumeBody(0))]
      ensures pendingPosts == old(pendingPosts) + 1
      ensures slider == old(slider) && display == old(display)
      ensures pendingFetches == old(pendingFetches)
    {
      volume := 0;
      PostJson(VolumePath, VolumeBody(volume));
    }

    method Quieter()
      modifies this
      ensures volume == QuieterVolume(old(volume))
      ensures sent == old(sent) + [Post(VolumePath, VolumeBody(volume))]
      ensures pendingPosts == old(pendingPosts) + 1
      ensures slider == old(slider) && display == old(display)
      ensures pendingFetches == old(pendingFetches)
    {
      if volume > 3 {
        volume := volume - 3;
      } else {
        volume := 0;
      }
      PostJson(VolumePath, VolumeBody(volume));
    }

    method Louder()
      modifies this
      ensures volume == LouderVolume(old(volume))
      ensures sent == old(sent) + [Post(VolumePath, VolumeBody(volume))]
      ensures pendingPosts == old(pendingPosts) + 1
      ensures slider == old(slider) && display == old(display)
      ensures pendingFetches == old(pendingFetches)
    {
      if volume < 28 {
        volume := volume + 3;
      } else {
        volume := 30;
      }
      PostJson(VolumePath, VolumeBody(volume));
    }

    /** One of the three test-sound buttons. */
    method PlayTestSound(s: Sound)
      modifies this
      ensures sent == old(sent) + [Post(PlayPath, SoundBody(SoundName(s)))]
      ensures pendingPosts == old(pendingPosts) + 1
      ensures volume == old(volume) && slider == old(slider) && display == old(display)
      ensures pendingFetches == old(pendingFetches)
    {
      PostJson(PlayPath, SoundBody(SoundName(s)));
    }

    method Recalibrate()
      modifies this
      ensures sent == old(sent) + [Post(RecalibratePath, EmptyBody)]
      ensures pendingPosts == old(pendingPosts) + 1
      ensures volume == old(volume) && slider == old(slider) && display == old(display)
      ensures pendingFetches == old(pendingFetches)
    {
      PostJson(RecalibratePath, EmptyBody);
    }

    /**
     * A POST got an HTTP response (any status): the slider shows the global
     * `volume` as it is NOW, which need not be the value that POST carried.
     */
    method PostResolved()
      requires pendingPosts > 0
      modifies this
      ensures slider == volume == old(volume)
      ensures pendingPosts == old(pendingPosts) - 1
      ensures sent == old(sent) && display == old(display)
      ensures pendingFetches == old(pendingFetches)
    {
      pendingPosts := pendingPosts - 1;
      slider := volume;
    }

    /** A POST failed in transport: only logged. */
    method PostRejected()
      requires pendingPosts > 0
      modifies this
      ensures pendingPosts == old(pendingPosts) - 1
      ensures volume == old(volume) && slider == old(slider) && display == old(display)
      ensures sent == old(sent) && pendingFetches == old(pendingFetches)
    {
      pendingPosts := pendingPosts - 1;
    }

    /** The 60-second timer fires: another telemetry request. */
    method Tick()
      modifies this
      ensures sent == old(sent) + [Get(TelemetryPath)]
      ensures pendingFetches == old(pendingFetches) + 1
      ensures volume == old(volume) && slider == old(slider) && display == old(display)
      ensures pendingPosts == old(pendingPosts)
    {
      sent := sent + [Get(TelemetryPath)];
      pendingFetches := pendingFetches + 1;
    }

    /**
     * Telemetry arrived and parsed: every slot, the global `volume` and the
     * slider take the server's values; the volume is taken unvalidated.
     */
    method FetchResolved(data: DeviceStatus)
      requires pendingFetches > 0
      modifies this
      ensures display == Display(data.title, data.moisture, data.sensorThreshold, data.memory,
                                 data.needsWater, data.needsRefill)
      ensures volume == data.volume && slider == data.volume
      ensures pendingFetches == old(pendingFetches) - 1
      ensures sent == old(sent) && pendingPosts == old(pendingPosts)
    {
      pendingFetches := pendingFetches - 1;
      display := Display(data.title, data.moisture, data.sensorThreshold, data.memory,
                         data.needsWater, data.needsRefill);
      volume := data.volume;
      slider := volume;
    }

    /** Telemetry failed in transport or did not parse: only logged. */
    method FetchFailed()
      requires pendingFetches > 0
      modifies this
      ensures pendingFetches == old(pendingFetches) - 1
      ensures volume == old(volume) && slider == old(slider) && display == old(display)
      ensures sent == old(sent) && pendingPosts == old(pendingPosts)
    {
      pendingFetches := pendingFetches - 1;
    }
  }

  /**
   * A user clicks the volume buttons `bs` one after another, with no
   * telemetry arriving in between: the page sends exactly the `/volume`
   * commands that `SentVolumes` describes, so `SentVolumesInRange` and
   * `LouderAtCeiling` hold of the page's log.
   */
  method PressAll(page: ControlPage, bs: seq<VolumeButton>)
    modifies page
    ensures page.sent == old(page.sent) + VolumePosts(SentVolumes(old(page.volume), bs))
    ensures page.volume == VolumeAfter(old(page.volume), bs)
    ensures page.pendingPosts == old(page.pendingPosts) + |bs|
    ensures page.slider == old(page.slider) && page.display == old(page.display)
    ensures page.pendingFetches == old(page.pendingFetches)
  {
    ghost var v0 := page.volume;
    ghost var s0 := page.sent;
    var k := 0;
    while k < |bs|
      invariant 0 <= k <= |bs|
      invariant page.sent == s0 + VolumePosts(SentVolumes(v0, bs[..k]))
      invariant page.volume == VolumeAfter(v0, bs[..k])
      invariant page.pendingPosts == old(page.pendingPosts) + k
      invariant page.slider == old(page.slider) && page.display == old(page.display)
      invariant page.pendingFetches == old(page.pendingFetches)
    {
      match bs[k] {
        case Mute => page.Mute();
        case Quieter => page.Quieter();
        case Louder => page.Louder();
      }
      assert bs[..k + 1] == bs[..k] + [bs[k]];
      PressAppended(v0, bs[..k], bs[k]);
      assert VolumePosts(SentVolumes(v0, bs[..k + 1]))
          == VolumePosts(SentVolumes(v0, bs[..k])) + [Post(VolumePath, VolumeBody(page.volume))];
      k := k + 1;
    }
    assert bs[..|bs|] == bs;
  }

  /**
   * Telemetry reports volume 27, then the user clicks louder three times:
   * the three `/volume` commands all carry 30.
   */
  method LouderThreeTimesFrom27() returns (commands: seq<Request>, volume: int)
    ensures commands == [Post(VolumePath, VolumeBody(30)), Post(VolumePath, VolumeBody(30)),
                         Post(VolumePath, VolumeBody(30))]
    ensures volume == 30
  {
    var page := new ControlPage(Display("", 0, 0, 0, false, false), 0);
    page.FetchResolved(DeviceStatus("Alraune", 42, 30, 80, true, false, 27));
    var before := |page.sent|;
    page.Louder();
    page.Louder();
    page.Louder();
    commands := page.sent[before..];
    volume := page.volume;
  }

  /**
   * Telemetry `{title: "Alraune", moisture: 42, sensorThreshold: 30, memory: 80,
   * needsWater: true, needsRefill: false, volume: 9}` renders 9 on the slider,
   * `true` for needs-water, and sets the global volume to 9.
   */
  method TelemetryScenario() returns (slider: int, needsWater: bool, volume: int)
    ensures slider == 9 && needsWater && volume == 9
  {
    var page := new ControlPage(Display("", 0, 0, 0, false, false), 0);
    page.FetchResolved(DeviceStatus("Alraune", 42, 30, 80, true, false, 9));
    slider, needsWater, volume := page.slider, page.display.needsWater, page.volume;
  }

  /**
   * The slider follows the global volume, not the body of the POST that
   * resolves: click louder (posting 3), let telemetry report 20, then the
   * first POST resolves and the slider shows 20.
   */
  method SliderShowsCurrentVolume() returns (posted: Body, slider: int)
    ensures posted == VolumeBody(3) && slider == 20
  {
    var page := new ControlPage(Display("", 0, 0, 0, false, false), 0);
    page.Louder();
    posted := page.sent[|page.sent| - 1].body;
    page.FetchResolved(DeviceStatus("Alraune", 42, 30, 80, false, false, 20));
    page.PostResolved();
    slider := page.slider;
  }
}
