/** What the guest does when it reboots, powers off or crashes (TermPolicy), and its
    clock (ClockDef). */
module Clock {
  import opened Text

  /** The policy every event starts with. */
  const DefaultPolicy := "destroy"

  class TermPolicy {
    var reboot: Option<string>
    var powerOff: Option<string>
    var crash: Option<string>

    constructor ()
      ensures reboot == powerOff == crash == Some(DefaultPolicy)
    {
      reboot, powerOff, crash := Some(DefaultPolicy), Some(DefaultPolicy), Some(DefaultPolicy);
    }

    method SetRebootPolicy(p: Option<string>)
      modifies this`reboot
      ensures reboot == p
    {
      reboot := p;
    }

    method SetPowerOffPolicy(p: Option<string>)
      modifies this`powerOff
      ensures powerOff == p
    {
      powerOff := p;
    }

    /** Records the crash policy, which the rendering never shows. */
    method SetCrashPolicy(p: Option<string>)
      modifies this`crash
      ensures crash == p
      ensures Xml() == old(Xml())
    {
      crash := p;
    }

    /** The on_crash element repeats the power-off policy. */
    function Lines(): seq<string>
      reads this
    {
      [TextElement("on_reboot", OrNull(reboot)),
       TextElement("on_poweroff", OrNull(powerOff)),
       TextElement("on_crash", OrNull(powerOff))]
    }

    function Xml(): string
      reads this
    {
      Join(Lines())
    }
  }

  /** The three event elements differ at their fifth character (r, p, c). */
  lemma EventShapes(x: string, y: string, z: string)
    ensures TextElement("on_reboot", x)[4] == 'r'
    ensures TextElement("on_poweroff", y)[4] == 'p'
    ensures TextElement("on_crash", z)[4] == 'c'
  {
  }

  /** Which policy each event shows: reboot and power-off their own, crash the power-off
      policy, so the crash policy set on the descriptor never appears. */
  lemma PolicyShown(t: TermPolicy, p: string)
    ensures TextElement("on_reboot", p) in t.Lines() <==> p == OrNull(t.reboot)
    ensures TextElement("on_poweroff", p) in t.Lines() <==> p == OrNull(t.powerOff)
    ensures TextElement("on_crash", p) in t.Lines() <==> p == OrNull(t.powerOff)
  {
    var l := t.Lines();
    EventShapes(p, OrNull(t.powerOff), OrNull(t.powerOff));
    EventShapes(OrNull(t.reboot), p, p);
    EventShapes(OrNull(t.reboot), OrNull(t.powerOff), p);
    if TextElement("on_reboot", p) in l {
      TextElementInjective("on_reboot", p, OrNull(t.reboot));
    }
    if TextElement("on_poweroff", p) in l {
      TextElementInjective("on_poweroff", p, OrNull(t.powerOff));
    }
    if TextElement("on_crash", p) in l {
      TextElementInjective("on_crash", p, OrNull(t.powerOff));
    }
  }

  /*** The clock ***/

  datatype ClockOffset = Utc | LocalTime | Timezone | Variable {
    function Name(): string {
      match this
      case Utc => "utc"
      case LocalTime => "localtime"
      case Timezone => "timezone"
      case Variable => "variable"
    }
  }

  /** The timer that can be switched off instead of tuned. */
  const KvmClock := "kvmclock"

  /** The tick policy attribute, when one is set. */
  function TickAttribute(tickPolicy: Option<string>): string {
    if tickPolicy.Some? then "tickpolicy='" + tickPolicy.value + "' " else ""
  }

  /** The track attribute, when one is set. */
  function TrackAttribute(track: Option<string>): string {
    if track.Some? then "track='" + track.value + "' " else ""
  }

  /** How a timer that is present ends. */
  const TimerEnd := ">\n</timer>\n"

  /** What follows the tick policy. */
  function TimerRest(track: Option<string>): string {
    TrackAttribute(track) + TimerEnd
  }

  /** The text between a timer's name and its end. */
  function TimerBody(name: string, tickPolicy: Option<string>, track: Option<string>, noKvmClock: bool): string {
    if name == KvmClock && noKvmClock then "present='no' />"
    else TickAttribute(tickPolicy) + TimerRest(track)
  }

  function TimerLine(name: string, tickPolicy: Option<string>, track: Option<string>, noKvmClock: bool): string {
    "<timer name='" + name + "' " + TimerBody(name, tickPolicy, track, noKvmClock)
  }

  class ClockDef {
    var offset: Option<ClockOffset>
    var timerName: Option<string>
    var tickPolicy: Option<string>
    var track: Option<string>
    var noKvmClock: bool

    constructor ()
      ensures offset == Some(Utc) && timerName.None? && tickPolicy.None? && track.None? && !noKvmClock
    {
      offset := Some(Utc);
      timerName, tickPolicy, track := None, None, None;
      noKvmClock := false;
    }

    method SetClockOffset(o: Option<ClockOffset>)
      modifies this`offset
      ensures offset == o
    {
      offset := o;
    }

    /** The three-argument setTimer leaves the kvmclock switch as it was. */
    method SetTimer(name: Option<string>, tick: Option<string>, trk: Option<string>)
      modifies this`timerName, this`tickPolicy, this`track
      ensures timerName == name && tickPolicy == tick && track == trk
    {
      timerName, tickPolicy, track := name, tick, trk;
    }

    method SetTimerWithKvmClock(name: Option<string>, tick: Option<string>, trk: Option<string>, noKvm: bool)
      modifies this`timerName, this`tickPolicy, this`track, this`noKvmClock
      ensures timerName == name && tickPolicy == tick && track == trk && noKvmClock == noKvm
    {
      noKvmClock := noKvm;
      SetTimer(name, tick, trk);
    }

    function TimerLines(): seq<string>
      reads this
    {
      if timerName.Some? then [TimerLine(timerName.value, tickPolicy, track, noKvmClock)] else []
    }

    function Lines(): seq<string>
      requires offset.Some?
      reads this
    {
      ["<clock offset='" + offset.value.Name() + "'>\n"] + TimerLines() + ["</clock>\n"]
    }

    /** The rendering needs an offset: a null offset fails (there is no text). */
    function Xml(): (r: Option<string>)
      reads this
      ensures r.Some? <==> offset.Some?
    {
      if offset.None? then None else Some(Join(Lines()))
    }
  }

  /** A kvmclock timer asked to be absent renders as present='no' with no tuning. */
  lemma KvmClockAbsentIff(name: string, tick: Option<string>, track: Option<string>, noKvm: bool)
    ensures TimerBody(name, tick, track, noKvm) == "present='no' />" <==> name == KvmClock && noKvm
  {
    var b := TimerBody(name, tick, track, noKvm);
    if !(name == KvmClock && noKvm) {
      assert b[|b| - 1] == '\n';
    }
  }

  /** What follows the tick policy opens with the track attribute or ends the timer. */
  lemma TimerRestStart(track: Option<string>)
    ensures track.Some? ==> StartsWith(TimerRest(track), "tr")
    ensures track.None? ==> StartsWith(TimerRest(track), ">")
  {
    if track.Some? {
      assert "track='" == "tr" + "ack='";
      StartsWithConcat("tr", "ack='");
      StartsWithExtend("track='", "tr", track.value);
      StartsWithExtend("track='" + track.value, "tr", "' ");
      StartsWithExtend(TrackAttribute(track), "tr", TimerEnd);
    } else {
      assert TimerRest(track) == ">" + "\n</timer>\n";
      StartsWithConcat(">", "\n</timer>\n");
    }
  }

  /** Otherwise the tick policy is rendered, first, exactly when it is set, and shows the
      policy set. */
  lemma TickPolicyIff(name: string, tick: Option<string>, track: Option<string>, noKvm: bool, t: string)
    requires !(name == KvmClock && noKvm)
    ensures StartsWith(TimerBody(name, tick, track, noKvm), "tickpolicy='") <==> tick.Some?
    ensures TimerBody(name, tick, track, noKvm) == "tickpolicy='" + t + "' " + TimerRest(track) <==> tick == Some(t)
  {
    var b := TimerBody(name, tick, track, noKvm);
    var r := TimerRest(track);
    var shown := "tickpolicy='" + t + "' " + r;
    assert b == TickAttribute(tick) + r;
    if tick.Some? {
      StartsWithConcat("tickpolicy='", tick.value);
      StartsWithExtend("tickpolicy='" + tick.value, "tickpolicy='", "' ");
      StartsWithExtend("tickpolicy='" + tick.value + "' ", "tickpolicy='", r);
      if b == shown {
        FieldUnique("tickpolicy='", tick.value, t, "' ", r);
      }
    } else {
      assert b == r;
      assert |b| < |shown|;
      if StartsWith(b, "tickpolicy='") && track.Some? {
        // Without a track attribute the rest is shorter than the attribute name.
        TimerRestStart(track);
        StartsWithAt(b, "tickpolicy='", 1);
        StartsWithAt(b, "tr", 1);
      }
    }
  }

  /** The track attribute follows the tick policy exactly when it is set, and shows the
      mode set. */
  lemma TrackIff(name: string, tick: Option<string>, track: Option<string>, noKvm: bool, t: string)
    requires !(name == KvmClock && noKvm)
    ensures track.None? <==> TimerBody(name, tick, track, noKvm) == TickAttribute(tick) + TimerEnd
    ensures TimerBody(name, tick, track, noKvm) == TickAttribute(tick) + ("track='" + t + "' ") + TimerEnd
            <==> track == Some(t)
  {
    var b := TimerBody(name, tick, track, noKvm);
    var tk := TickAttribute(tick);
    var shown := tk + ("track='" + t + "' ") + TimerEnd;
    Assoc(tk, TrackAttribute(track), TimerEnd);
    assert b == tk + TrackAttribute(track) + TimerEnd;
    if track.Some? {
      assert |b| > |tk + TimerEnd|;
      if b == shown {
        MiddleUnique(tk, TrackAttribute(track), "track='" + t + "' ", TimerEnd);
        MiddleUnique("track='", track.value, t, "' ");
      }
    } else {
      assert b == tk + TimerEnd;
      assert |b| < |shown|;
    }
  }

  /** A body ends in '>' exactly when it marks the timer absent. */
  lemma TimerBodyLast(name: string, tick: Option<string>, track: Option<string>, noKvm: bool)
    ensures var b := TimerBody(name, tick, track, noKvm);
            |b| > 0 && (b[|b| - 1] == '>' <==> name == KvmClock && noKvm)
  {
    if !(name == KvmClock && noKvm) {
      LastOfConcat(TrackAttribute(track), TimerEnd);
      LastOfConcat(TickAttribute(tick), TimerRest(track));
    }
  }

  /** A timer line names its timer: two timer lines with the same settings are equal only
      for the same name. */
  lemma TimerLineInjective(n: string, m: string, tick: Option<string>, track: Option<string>, noKvm: bool)
    ensures TimerLine(n, tick, track, noKvm) == TimerLine(m, tick, track, noKvm) <==> n == m
  {
    var ln := TimerLine(n, tick, track, noKvm);
    var lm := TimerLine(m, tick, track, noKvm);
    if ln == lm && n != m {
      var bn := TimerBody(n, tick, track, noKvm);
      var bm := TimerBody(m, tick, track, noKvm);
      TimerBodyLast(n, tick, track, noKvm);
      TimerBodyLast(m, tick, track, noKvm);
      LastOfConcat("<timer name='" + n + "' ", bn);
      LastOfConcat("<timer name='" + m + "' ", bm);
      assert bn == bm;
      FieldUnique("<timer name='", n, m, "' ", bn);
    }
  }

  lemma TimerLineStart(name: string, tick: Option<string>, track: Option<string>, noKvm: bool)
    ensures StartsWith(TimerLine(name, tick, track, noKvm), "<timer ")
  {
    assert "<timer name='" == "<timer " + "name='";
    StartsWithConcat("<timer ", "name='");
    StartsWithExtend("<timer name='", "<timer ", name);
    StartsWithExtend("<timer name='" + name, "<timer ", "' ");
    StartsWithExtend("<timer name='" + name + "' ", "<timer ", TimerBody(name, tick, track, noKvm));
  }

  /** The clock shows a timer element exactly when a timer is set, and the one it shows is
      the timer set, with its tuning. */
  lemma TimerShownIff(c: ClockDef, name: string)
    requires c.offset.Some?
    ensures HasElement(c.Lines(), "<timer ") <==> c.timerName.Some?
    ensures TimerLine(name, c.tickPolicy, c.track, c.noKvmClock) in c.Lines() <==> c.timerName == Some(name)
  {
    var open := "<clock offset='" + c.offset.value.Name() + "'>\n";
    StartsWithConcat("<c", "lock offset='");
    assert "<c" + "lock offset='" == "<clock offset='";
    StartsWithExtend("<clock offset='", "<c", c.offset.value.Name());
    StartsWithExtend("<clock offset='" + c.offset.value.Name(), "<c", "'>\n");
    StartsWithAt(open, "<c", 1);
    assert "</clock>\n"[1] == '/';
    forall l | l in c.Lines() && StartsWith(l, "<timer ")
      ensures l in c.TimerLines()
    {
      StartsWithAt(l, "<timer ", 1);
    }
    if c.timerName.Some? {
      var l := TimerLine(c.timerName.value, c.tickPolicy, c.track, c.noKvmClock);
      TimerLineStart(c.timerName.value, c.tickPolicy, c.track, c.noKvmClock);
      assert l in c.Lines();
      TimerLineInjective(name, c.timerName.value, c.tickPolicy, c.track, c.noKvmClock);
    }
    TimerLineStart(name, c.tickPolicy, c.track, c.noKvmClock);
  }

  /** The kvmclock switch changes nothing for any other timer. */
  lemma KvmClockSwitchOnlyKvmClock(name: string, tick: Option<string>, track: Option<string>)
    requires name != KvmClock
    ensures TimerBody(name, tick, track, true) == TimerBody(name, tick, track, false)
  {
  }
}
