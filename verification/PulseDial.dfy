/** Pulse dialling: the sender that opens and closes the line once per pulse, and the far
    end that counts the pulses back into digits. Both count time in chunks. */
module PulseDial {
  const CHUNKSIZE := 8
  const MINPULSETIME := 120

  datatype TxState = Idle | PulseBreak | PulseMake | PulseAfter
  datatype Hook = OnHook | OffHook
  datatype Event =
    DialComplete | PulseStart | PulseDigit(digit: char) | WinkFlash | WentOnHook | RingOffHook

  /** Times in chunks: the sender's break, make and after times, the receiver's longest
      flash, and the receiver's longest pulse in samples. */
  datatype Config = Config(brk: int, make: int, after: int, flash: int, maxpulse: int) {
    predicate Valid() {
      brk > 0 && make > 0 && after > 0 && flash > 0 && maxpulse >= 0
    }

    function PulseTimeout(): int {
      maxpulse / 8 + 50
    }

    /** A break the receiver counts as a pulse. */
    predicate Window() {
      brk < flash && MINPULSETIME <= brk * CHUNKSIZE <= maxpulse
    }
  }

  // ---------- the sender ----------

  datatype Tx = Tx(state: TxState, otimer: int, hook: Hook, pdialcount: nat, dialbuf: string,
                   dialing: bool, line: seq<Hook>, events: seq<Event>)

  /** dahdi_rbs_sethook: the line is told when its state changes. */
  function SetHook(tx: Tx, hook: Hook, state: TxState, timeout: int): Tx {
    tx.(state := state, hook := hook, otimer := timeout * CHUNKSIZE,
        line := if tx.hook != hook then tx.line + [hook] else tx.line)
  }

  predicate Digit(c: char) { '0' <= c <= '9' }

  function Pulses(c: char): nat
    requires Digit(c)
  {
    if c == '0' then 10 else c as int - '0' as int
  }

  /** A dial string that stays in pulse mode: nothing switches to tones or asks for a pause. */
  predicate PulseOnly(s: string) {
    forall k :: 0 <= k < |s| ==> s[k] !in "TMORW" && s[k] != 0 as char
  }

  /** __do_dtmf in pulse mode: other characters, and digits while on hook, are passed over. */
  function DoDtmf(cfg: Config, tx: Tx): Tx
    decreases |tx.dialbuf|
  {
    if tx.dialbuf == "" then tx.(dialing := false, events := tx.events + [DialComplete])
    else
      var c := tx.dialbuf[0];
      var rest := tx.(dialbuf := tx.dialbuf[1..]);
      if Digit(c) && tx.hook == OffHook then
        SetHook(rest.(pdialcount := Pulses(c)), OnHook, PulseBreak, cfg.brk)
      else DoDtmf(cfg, rest)
  }

  /** __rbs_otimer_expire. */
  function Expire(cfg: Config, tx0: Tx): Tx {
    var tx := tx0.(otimer := 0);
    match tx.state
    case PulseBreak => SetHook(tx, OffHook, PulseMake, cfg.make)
    case PulseMake =>
      var left := if tx.pdialcount > 0 then tx.pdialcount - 1 else 0;
      if left > 0 then SetHook(tx.(pdialcount := left), OnHook, PulseBreak, cfg.brk)
      else tx.(pdialcount := left, state := PulseAfter, otimer := cfg.after * CHUNKSIZE)
    case PulseAfter => DoDtmf(cfg, tx.(state := Idle))
    case Idle => tx
  }

  /** The timer part of dahdi_transmit. */
  function TxTick(cfg: Config, tx: Tx): Tx {
    if tx.otimer == 0 then tx
    else if tx.otimer - CHUNKSIZE <= 0 then Expire(cfg, tx.(otimer := tx.otimer - CHUNKSIZE))
    else tx.(otimer := tx.otimer - CHUNKSIZE)
  }

  // ---------- the receiver ----------

  datatype Rx = Rx(hook: Hook, itimer: int, itimerset: int, pulsecount: nat, pulsetimer: int,
                   gotgs: bool, events: seq<Event>)

  /** __dahdi_hooksig_pvt on an FXO channel outside its debounce and battery-drop states. */
  function RxHook(cfg: Config, rx0: Rx, hook: Hook): Rx {
    if rx0.hook == hook then rx0
    else
      var rx := rx0.(hook := hook);
      match hook
      case OnHook => rx.(itimer := cfg.flash * CHUNKSIZE, itimerset := cfg.flash * CHUNKSIZE)
      case OffHook =>
        var plen := rx.itimerset - rx.itimer;
        var heard :=
          if rx.itimer != 0 then
            if plen > cfg.maxpulse then rx.(events := rx.events + [WinkFlash])
            else if plen >= MINPULSETIME then
              rx.(pulsecount := rx.pulsecount + 1, pulsetimer := cfg.PulseTimeout(),
                  events := if rx.pulsecount == 0 then rx.events + [PulseStart] else rx.events)
            else rx
          else if !rx.gotgs then rx.(gotgs := true, events := rx.events + [RingOffHook])
          else rx;
        heard.(itimer := 0, itimerset := 0)
  }

  /** How a number of pulses is reported: ten are '0', eleven and twelve '*' and '#'; more are not. */
  function Name(n: nat): string {
    if n == 0 || n > 12 then ""
    else if n == 12 then "#"
    else if n == 11 then "*"
    else if n == 10 then "0"
    else [('0' as int + n) as char]
  }

  function DigitEvents(name: string): seq<Event> {
    if name == "" then [] else [PulseDigit(name[0])]
  }

  function FlashTick(rx: Rx): Rx {
    if rx.itimer == 0 then rx
    else if rx.itimer - CHUNKSIZE <= 0 then
      rx.(itimer := rx.itimer - CHUNKSIZE, gotgs := false, events := rx.events + [WentOnHook])
    else rx.(itimer := rx.itimer - CHUNKSIZE)
  }

  function PulseTick(rx: Rx): Rx {
    if rx.pulsetimer == 0 then rx
    else if rx.pulsetimer - 1 <= 0 then
      rx.(pulsetimer := rx.pulsetimer - 1, pulsecount := 0, events := rx.events + DigitEvents(Name(rx.pulsecount)))
    else rx.(pulsetimer := rx.pulsetimer - 1)
  }

  /** The timer part of dahdi_receive. */
  function RxTick(rx: Rx): Rx {
    PulseTick(FlashTick(rx))
  }

  /** The digits among the events. */
  function Reported(events: seq<Event>): string {
    if events == [] then ""
    else
      var e := events[|events| - 1];
      Reported(events[..|events| - 1]) + if e.PulseDigit? then [e.digit] else ""
  }

  // ---------- what the receiver makes of one break ----------

  /** `k` chunks without a change on the line. */
  function Held(rx: Rx, k: nat): Rx {
    if k == 0 then rx else RxTick(Held(rx, k - 1))
  }

  /** The events other than digits. */
  function Signals(events: seq<Event>): seq<Event> {
    if events == [] then []
    else
      var e := events[|events| - 1];
      Signals(events[..|events| - 1]) + if e.PulseDigit? then [] else [e]
  }

  lemma {:induction false} OneMoreEvent(events: seq<Event>, e: Event)
    ensures Signals(events + [e]) == Signals(events) + if e.PulseDigit? then [] else [e]
  {
    assert (events + [e])[..|events|] == events;
  }

  lemma {:induction false} NameIs(n: nat)
    ensures Name(n) == if 0 < n <= 12 then ["1234567890*#"[n - 1]] else ""
  {
  }

  lemma {:induction false} FlashTimerIs(rx: Rx)
    ensures var r := FlashTick(rx);
      && r.hook == rx.hook && r.itimerset == rx.itimerset
      && r.pulsetimer == rx.pulsetimer && r.pulsecount == rx.pulsecount
      && r.itimer == (if rx.itimer == 0 then 0 else rx.itimer - 8)
      && r.gotgs == (rx.gotgs && (rx.itimer == 0 || rx.itimer > 8))
      && Signals(r.events) == Signals(rx.events) + (if rx.itimer != 0 && rx.itimer <= 8 then [WentOnHook] else [])
      && Reported(r.events) == Reported(rx.events)
  {
    OneMoreEvent(rx.events, WentOnHook);
    ReportedOne(rx.events, WentOnHook);
    hide Signals, Reported;
    assert Signals(rx.events) + [] == Signals(rx.events);
    assert Reported(rx.events) + "" == Reported(rx.events);
  }

  lemma {:induction false} PulseTimerIs(rx: Rx)
    ensures var r, n := PulseTick(rx), rx.pulsecount;
      && r.hook == rx.hook && r.itimerset == rx.itimerset && r.itimer == rx.itimer && r.gotgs == rx.gotgs
      && Signals(r.events) == Signals(rx.events)
      && r.pulsetimer == (if rx.pulsetimer == 0 then 0 else rx.pulsetimer - 1)
      && r.pulsecount == (if rx.pulsetimer != 0 && rx.pulsetimer <= 1 then 0 else n)
      && Reported(r.events) == Reported(rx.events) +
           if rx.pulsetimer != 0 && rx.pulsetimer <= 1 && 0 < n <= 12 then ["1234567890*#"[n - 1]] else ""
  {
    var name := Name(rx.pulsecount);
    NameIs(rx.pulsecount);
    hide Signals, Reported, Name;
    if name != "" {
      assert DigitEvents(name) == [PulseDigit(name[0])];
      OneMoreEvent(rx.events, PulseDigit(name[0]));
      ReportedOne(rx.events, PulseDigit(name[0]));
    }
    assert rx.events + [] == rx.events && Signals(rx.events) + [] == Signals(rx.events);
    assert Reported(rx.events) + "" == Reported(rx.events);
  }

  /** One chunk, by what it does to either timer. */
  lemma {:induction false} ReceiveIs(rx: Rx)
    ensures var r := RxTick(rx);
      && r.hook == rx.hook && r.itimerset == rx.itimerset
      && r.itimer == (if rx.itimer == 0 then 0 else rx.itimer - 8)
      && r.gotgs == (rx.gotgs && (rx.itimer == 0 || rx.itimer > 8))
      && Signals(r.events) == Signals(rx.events) + (if rx.itimer != 0 && rx.itimer <= 8 then [WentOnHook] else [])
    ensures var r, n := RxTick(rx), rx.pulsecount;
      && r.pulsetimer == (if rx.pulsetimer == 0 then 0 else rx.pulsetimer - 1)
      && r.pulsecount == (if rx.pulsetimer != 0 && rx.pulsetimer <= 1 then 0 else n)
      && Reported(r.events) == Reported(rx.events) +
           if rx.pulsetimer != 0 && rx.pulsetimer <= 1 && 0 < n <= 12 then ["1234567890*#"[n - 1]] else ""
  {
    FlashTimerIs(rx);
    PulseTimerIs(FlashTick(rx));
    hide Signals, Reported, FlashTick, PulseTick;
  }

  lemma {:induction false} HeldFlash(rx: Rx, f: nat, k: nat)
    requires rx.itimer == 8 * f && f > 0
    ensures var r := Held(rx, k);
      && r.hook == rx.hook && r.itimerset == rx.itimerset
      && r.itimer == (if k < f then 8 * (f - k) else 0)
      && r.gotgs == (rx.gotgs && k < f)
      && Signals(r.events) == Signals(rx.events) + if k < f then [] else [WentOnHook]
  {
    hide RxTick, Signals;
    if k > 0 {
      HeldFlash(rx, f, k - 1);
      ReceiveIs(Held(rx, k - 1));
    }
  }

  /** A break of `k` chunks on a line that was closed: shorter than the flash time it is nothing, a
      pulse or a flash, by its length in samples; otherwise the other end has hung up, and comes back.
      The first pulse of a train is announced. */
  lemma {:induction false} BreakIs(cfg: Config, rx: Rx, k: nat)
    requires cfg.Valid() && rx.hook == OffHook
    ensures var b := Held(RxHook(cfg, rx, OnHook), k);
      var r := RxHook(cfg, b, OffHook);
      var pulse := k < cfg.flash && 120 <= 8 * k <= cfg.maxpulse;
      && r.hook == OffHook && r.itimer == 0
      && r.gotgs == (rx.gotgs || k >= cfg.flash)
      && r.pulsecount == (if pulse then b.pulsecount + 1 else b.pulsecount)
      && r.pulsetimer == (if pulse then cfg.maxpulse / 8 + 50 else b.pulsetimer)
      && Signals(r.events) == Signals(rx.events) +
           if k >= cfg.flash then [WentOnHook, RingOffHook]
           else if 8 * k > cfg.maxpulse then [WinkFlash]
           else if pulse && b.pulsecount == 0 then [PulseStart] else []
  {
    hide RxTick, Signals;
    var on := RxHook(cfg, rx, OnHook);
    HeldFlash(on, cfg.flash, k);
    var b := Held(on, k);
    OneMoreEvent(b.events, WinkFlash);
    OneMoreEvent(b.events, PulseStart);
    OneMoreEvent(b.events, RingOffHook);
    assert [WentOnHook] + [RingOffHook] == [WentOnHook, RingOffHook];
  }

  /** A train of `rx.pulsecount` pulses is reported when its timer runs out, and not before: one to
      nine and ten as the digits, eleven and twelve as star and pound, more as nothing. */
  lemma {:induction false} TrainIsReported(rx: Rx, k: nat)
    requires rx.pulsetimer > 0
    ensures var r, n := Held(rx, k), rx.pulsecount;
      && r.pulsetimer == (if k < rx.pulsetimer then rx.pulsetimer - k else 0)
      && r.pulsecount == (if k < rx.pulsetimer then n else 0)
      && Reported(r.events) == Reported(rx.events) +
           if k >= rx.pulsetimer && 0 < n <= 12 then ["1234567890*#"[n - 1]] else ""
  {
    hide RxTick, Reported;
    if k > 0 {
      TrainIsReported(rx, k - 1);
      ReceiveIs(Held(rx, k - 1));
    }
  }

  // ---------- both ends of a line ----------

  datatype Line = Line(tx: Tx, rx: Rx)

  /** DAHDI_DIAL with a new string. */
  function Dial(cfg: Config, l: Line, s: string): Line {
    var tx := DoDtmf(cfg, l.tx.(dialbuf := s, dialing := true));
    Line(tx, RxHook(cfg, l.rx, tx.hook))
  }

  /** One chunk: the receiver's interrupt, then the sender's, whose hook changes arrive at once. */
  function Tick(cfg: Config, l: Line): Line {
    var tx := TxTick(cfg, l.tx);
    Line(tx, RxHook(cfg, RxTick(l.rx), tx.hook))
  }

  function Run(cfg: Config, l: Line, n: nat): Line
    decreases n
  {
    if n == 0 then l else Run(cfg, Tick(cfg, l), n - 1)
  }

  lemma {:induction false} RunTwice(cfg: Config, l: Line, a: nat, b: nat)
    ensures Run(cfg, Run(cfg, l, a), b) == Run(cfg, l, a + b)
    decreases a
  {
    if a > 0 {
      RunTwice(cfg, Tick(cfg, l), a - 1, b);
    }
  }

  // ---------- counting pulses ----------

  /** What the receiver's counter amounts to: pulses so far, time left, digits reported. */
  datatype Counter = Counter(count: nat, left: nat, digits: string)

  /** `k` chunks without a pulse. */
  function Wait(c: Counter, k: nat): Counter {
    if c.left == 0 || k < c.left then c.(left := if c.left == 0 then 0 else c.left - k)
    else Counter(0, 0, c.digits + Name(c.count))
  }

  function Pulse(cfg: Config, c: Counter): Counter
    requires cfg.Valid()
  {
    if cfg.Window() then c.(count := c.count + 1, left := cfg.PulseTimeout()) else c
  }

  /** `n` pulses, each a break and a make. */
  function Train(cfg: Config, c: Counter, n: nat): Counter
    requires cfg.Valid()
    decreases n
  {
    if n == 0 then c else Train(cfg, Wait(Pulse(cfg, Wait(c, cfg.brk)), cfg.make), n - 1)
  }

  /** A digit string, each digit followed by the after time. */
  function Dialled(cfg: Config, c: Counter, s: string): Counter
    requires cfg.Valid()
    decreases |s|
  {
    if s == "" then c
    else if !Digit(s[0]) then Dialled(cfg, c, s[1..])
    else Dialled(cfg, Wait(Train(cfg, c, Pulses(s[0])), cfg.after), s[1..])
  }

  /** The digits reported in the end. */
  function Heard(cfg: Config, c: Counter): string {
    c.digits + if c.left == 0 then "" else Name(c.count)
  }

  function Digits(s: string): string {
    if s == "" then "" else (if Digit(s[0]) then [s[0]] else "") + Digits(s[1..])
  }

  /** The counter holds pulses only while its timer runs. */
  predicate Sane(c: Counter) {
    c.left == 0 ==> c.count == 0
  }

  function Ones(n: nat): string {
    if n == 0 then "" else "1" + Ones(n - 1)
  }

  function Total(s: string): nat {
    if s == "" then 0 else (if Digit(s[0]) then Pulses(s[0]) else 0) + Total(s[1..])
  }

  lemma {:induction false} NameOfPulses(c: char)
    requires Digit(c)
    ensures Name(Pulses(c)) == [c] && 0 < Pulses(c) <= 10
  {
  }

  /** Pulses closer together than the timeout are counted as one train. */
  lemma {:induction false} TrainTogether(cfg: Config, c: Counter, n: nat)
    requires cfg.Valid() && cfg.Window() && cfg.make + cfg.brk < cfg.PulseTimeout() && n > 0
    ensures var w := Wait(c, cfg.brk);
      Train(cfg, c, n) == Counter(w.count + n, cfg.PulseTimeout() - cfg.make, w.digits)
    decreases n
  {
    if n > 1 {
      TrainTogether(cfg, Wait(Pulse(cfg, Wait(c, cfg.brk)), cfg.make), n - 1);
    } else {
      var c' := Wait(Pulse(cfg, Wait(c, cfg.brk)), cfg.make);
      assert Train(cfg, c', 0) == c';
    }
  }

  /** Pulses further apart are reported one by one. */
  lemma {:induction false} TrainApart(cfg: Config, c: Counter, n: nat)
    requires cfg.Valid() && cfg.Window() && cfg.make + cfg.brk >= cfg.PulseTimeout() && Sane(c) && c.left <= cfg.brk
    ensures var t := Train(cfg, c, n);
      Sane(t) && t.left <= cfg.brk && Heard(cfg, t) == Heard(cfg, c) + Ones(n)
    decreases n
  {
    if n > 0 {
      var c' := Wait(Pulse(cfg, Wait(c, cfg.brk)), cfg.make);
      assert Name(1) == "1";
      TrainApart(cfg, c', n - 1);
      assert Heard(cfg, c') == Heard(cfg, c) + "1";
      Assoc(Heard(cfg, c), "1", Ones(n - 1));
    } else {
      assert Heard(cfg, c) + "" == Heard(cfg, c);
    }
  }

  lemma {:induction false} OnesAdd(a: nat, b: nat)
    ensures Ones(a + b) == Ones(a) + Ones(b)
    decreases a
  {
    if a > 0 {
      OnesAdd(a - 1, b);
      assert Ones(a) == "1" + Ones(a - 1) && Ones(a + b) == "1" + Ones(a - 1 + b);
      hide Ones;
      Assoc("1", Ones(a - 1), Ones(b));
    } else {
      assert "" + Ones(b) == Ones(b);
    }
  }

  lemma {:induction false} Assoc(a: string, b: string, c: string)
    ensures a + b + c == a + (b + c)
  {
  }

  lemma {:induction false} NothingDialled(cfg: Config, c: Counter)
    requires cfg.Valid()
    ensures Dialled(cfg, c, "") == c && Total("") == 0 && Heard(cfg, c) + Ones(0) == Heard(cfg, c)
  {
  }

  lemma {:induction false} DialledTurn(cfg: Config, c: Counter, s: string)
    requires cfg.Valid() && s != ""
    ensures Digit(s[0]) ==> Dialled(cfg, c, s) == Dialled(cfg, Wait(Train(cfg, c, Pulses(s[0])), cfg.after), s[1..])
    ensures !Digit(s[0]) ==> Dialled(cfg, c, s) == Dialled(cfg, c, s[1..])
    ensures Total(s) == (if Digit(s[0]) then Pulses(s[0]) else 0) + Total(s[1..])
  {
  }

  lemma {:induction false} WaitKeeps(cfg: Config, c: Counter, k: nat)
    requires Sane(c)
    ensures Sane(Wait(c, k)) && Wait(c, k).left <= c.left && Heard(cfg, Wait(c, k)) == Heard(cfg, c)
  {
  }

  lemma {:induction false} DialledApart(cfg: Config, c: Counter, s: string)
    requires cfg.Valid() && cfg.Window() && cfg.make + cfg.brk >= cfg.PulseTimeout() && Sane(c) && c.left <= cfg.brk
    ensures Heard(cfg, Dialled(cfg, c, s)) == Heard(cfg, c) + Ones(Total(s))
    decreases |s|
  {
    hide Ones, Train, Dialled, Total, Heard, Wait, Pulses;
    if s == "" {
      NothingDialled(cfg, c);
    } else {
      DialledTurn(cfg, c, s);
      if Digit(s[0]) {
        var n := Pulses(s[0]);
        var t := Train(cfg, c, n);
        TrainApart(cfg, c, n);
        WaitKeeps(cfg, t, cfg.after);
        DialledApart(cfg, Wait(t, cfg.after), s[1..]);
        OnesAdd(n, Total(s[1..]));
        Assoc(Heard(cfg, c), Ones(n), Ones(Total(s[1..])));
      } else {
        DialledApart(cfg, c, s[1..]);
      }
    }
  }

  lemma {:induction false} OneDigitHeard(cfg: Config, c: Counter, d: char)
    requires cfg.Valid() && cfg.Window() && Sane(c) && c.left <= cfg.brk && Digit(d)
    requires cfg.make + cfg.brk < cfg.PulseTimeout() <= cfg.make + cfg.after + cfg.brk
    ensures var t := Wait(Train(cfg, c, Pulses(d)), cfg.after);
      Sane(t) && t.left <= cfg.brk && Heard(cfg, t) == Heard(cfg, c) + [d]
  {
    NameOfPulses(d);
    TrainTogether(cfg, c, Pulses(d));
    hide Train;
  }

  /** Trains within the timeout, digits outside it: every digit is reported. */
  lemma {:induction false} DialledWell(cfg: Config, c: Counter, s: string)
    requires cfg.Valid() && cfg.Window() && Sane(c) && c.left <= cfg.brk
    requires cfg.make + cfg.brk < cfg.PulseTimeout() <= cfg.make + cfg.after + cfg.brk
    ensures Heard(cfg, Dialled(cfg, c, s)) == Heard(cfg, c) + Digits(s)
    decreases |s|
  {
    hide Train, Dialled, Heard, Wait, Pulses, Total;
    if s == "" {
      NothingDialled(cfg, c);
      assert Digits(s) == "";
    } else {
      DialledTurn(cfg, c, s);
      if Digit(s[0]) {
        OneDigitHeard(cfg, c, s[0]);
        DialledWell(cfg, Wait(Train(cfg, c, Pulses(s[0])), cfg.after), s[1..]);
        Assoc(Heard(cfg, c), [s[0]], Digits(s[1..]));
      } else {
        DialledWell(cfg, c, s[1..]);
      }
    }
  }

  /** Digits within the timeout of each other run together. */
  lemma {:induction false} DialledTogether(cfg: Config, c: Counter, s: string)
    requires cfg.Valid() && cfg.Window() && cfg.make + cfg.after + cfg.brk < cfg.PulseTimeout()
    requires Sane(c) && (c.left == 0 || c.left > cfg.brk)
    ensures Heard(cfg, Dialled(cfg, c, s)) == c.digits + Name(c.count + Total(s))
    decreases |s|
  {
    if s != "" {
      if Digit(s[0]) {
        NameOfPulses(s[0]);
        TrainTogether(cfg, c, Pulses(s[0]));
        DialledTogether(cfg, Wait(Train(cfg, c, Pulses(s[0])), cfg.after), s[1..]);
      } else {
        DialledTogether(cfg, c, s[1..]);
      }
    }
  }

  /** Breaks outside the window are not counted at all. */
  lemma {:induction false} TrainUnheard(cfg: Config, c: Counter, n: nat)
    requires cfg.Valid() && !cfg.Window() && c.left == 0
    ensures Train(cfg, c, n) == c
    decreases n
  {
    if n > 0 {
      TrainUnheard(cfg, c, n - 1);
    }
  }

  lemma {:induction false} DialledUnheard(cfg: Config, c: Counter, s: string)
    requires cfg.Valid() && !cfg.Window() && c.left == 0
    ensures Dialled(cfg, c, s) == c
    decreases |s|
  {
    if s != "" {
      if Digit(s[0]) {
        TrainUnheard(cfg, c, Pulses(s[0]));
      }
      DialledUnheard(cfg, c, s[1..]);
    }
  }

  ghost predicate AllOnes(d: string) {
    forall k :: 0 <= k < |d| ==> d[k] == '1'
  }

  lemma {:induction false} OnesAreOnes(n: nat)
    ensures |Ones(n)| == n && AllOnes(Ones(n))
  {
    if n > 0 {
      OnesAreOnes(n - 1);
    }
  }

  lemma {:induction false} TotalOfOnes(s: string)
    ensures |Digits(s)| <= Total(s) && (AllOnes(Digits(s)) <==> Total(s) == |Digits(s)|)
    ensures |Digits(s)| == 1 ==> Name(Total(s)) == Digits(s)
    ensures Digits(s) == "" ==> Total(s) == 0
    decreases |s|
  {
    if s != "" {
      TotalOfOnes(s[1..]);
      var rest := Digits(s[1..]);
      if Digit(s[0]) {
        NameOfPulses(s[0]);
        assert Pulses(s[0]) == 1 <==> s[0] == '1';
        assert Digits(s) == [s[0]] + rest;
        AllOnesCons(s[0], rest);
      } else {
        assert Digits(s) == rest;
      }
    }
  }

  lemma {:induction false} AllOnesCons(c: char, rest: string)
    ensures AllOnes([c] + rest) <==> c == '1' && AllOnes(rest)
  {
    var d := [c] + rest;
    assert d[0] == c && forall k :: 0 < k < |d| ==> d[k] == rest[k - 1];
    if AllOnes(d) {
      forall k | 0 <= k < |rest| ensures rest[k] == '1' {
        assert d[k + 1] == '1';
      }
    }
  }

  /** When a dialled string is understood: the breaks fit the receiver's window; one break
      and make stay below its timeout, unless only ones are dialled; and the after time
      brings the next digit beyond it, unless there is only one. */
  predicate Understood(cfg: Config, d: string) {
    d == "" || (
      && cfg.Window()
      && (cfg.make + cfg.brk < cfg.PulseTimeout() || forall k :: 0 <= k < |d| ==> d[k] == '1')
      && (cfg.make + cfg.after + cfg.brk >= cfg.PulseTimeout() || |d| == 1))
  }

  /** The receiver reports exactly the digits that were dialled if and only if the timings suit them. */
  lemma {:induction false} HeardIffUnderstood(cfg: Config, s: string)
    requires cfg.Valid()
    ensures Heard(cfg, Dialled(cfg, Counter(0, 0, ""), s)) == Digits(s) <==> Understood(cfg, Digits(s))
  {
    var c := Counter(0, 0, "");
    TotalOfOnes(s);
    assert Heard(cfg, c) == "";
    hide Dialled, Digits, Total, Ones, Heard, Wait, Train;
    if !cfg.Window() {
      DialledUnheard(cfg, c, s);
    } else if cfg.make + cfg.brk >= cfg.PulseTimeout() {
      DialledApart(cfg, c, s);
      AllOnesHeard(Digits(s), Total(s));
    } else if cfg.make + cfg.after + cfg.brk >= cfg.PulseTimeout() {
      DialledWell(cfg, c, s);
    } else {
      DialledTogether(cfg, c, s);
      assert |Name(Total(s))| <= 1;
    }
  }

  lemma {:induction false} AllOnesHeard(d: string, n: nat)
    requires AllOnes(d) <==> n == |d|
    ensures "" + Ones(n) == d <==> AllOnes(d)
  {
    OnesAreOnes(n);
    if AllOnes(d) {
      SameOnes(d, Ones(n));
    }
  }

  lemma {:induction false} SameOnes(a: string, b: string)
    requires AllOnes(a) && AllOnes(b) && |a| == |b|
    ensures a == b
  {
  }

  // ---------- the ticks between two changes of the line ----------

  function CounterOf(rx: Rx): Counter
    requires rx.pulsetimer >= 0
  {
    Counter(rx.pulsecount, rx.pulsetimer, Reported(rx.events))
  }

  function RxTicks(rx: Rx, k: nat): Rx
    decreases k
  {
    if k == 0 then rx else RxTicks(RxTick(rx), k - 1)
  }

  lemma {:induction false} ReportedOne(events: seq<Event>, e: Event)
    ensures Reported(events + [e]) == Reported(events) + if e.PulseDigit? then [e.digit] else ""
  {
    assert (events + [e])[..|events|] == events;
  }

  lemma {:induction false} ReportedName(events: seq<Event>, n: nat)
    ensures Reported(events + DigitEvents(Name(n))) == Reported(events) + Name(n)
  {
    if Name(n) == "" {
      assert events + [] == events;
    } else {
      ReportedOne(events, PulseDigit(Name(n)[0]));
    }
  }

  lemma {:induction false} FlashTickIs(rx: Rx)
    requires rx.itimer >= 0 && rx.itimer % CHUNKSIZE == 0 && rx.pulsetimer >= 0
    ensures var r := FlashTick(rx);
      && r.hook == rx.hook && r.itimerset == rx.itimerset && r.pulsetimer == rx.pulsetimer
      && r.itimer == (if rx.itimer < CHUNKSIZE then 0 else rx.itimer - CHUNKSIZE)
      && CounterOf(r) == CounterOf(rx)
  {
    ReportedOne(rx.events, WentOnHook);
    assert Reported(rx.events) + "" == Reported(rx.events);
    hide Reported;
  }

  lemma {:induction false} PulseTickIs(rx: Rx)
    requires rx.pulsetimer >= 0
    ensures var r := PulseTick(rx);
      && r.hook == rx.hook && r.itimerset == rx.itimerset && r.itimer == rx.itimer && r.pulsetimer >= 0
      && CounterOf(r) == Wait(CounterOf(rx), 1)
  {
    ReportedName(rx.events, rx.pulsecount);
    hide Reported, Name, DigitEvents;
  }

  lemma {:induction false} RxTickIs(rx: Rx)
    requires rx.itimer >= 0 && rx.itimer % CHUNKSIZE == 0 && rx.pulsetimer >= 0
    ensures var r := RxTick(rx);
      && r.hook == rx.hook && r.itimerset == rx.itimerset && r.pulsetimer >= 0
      && r.itimer == (if rx.itimer < CHUNKSIZE then 0 else rx.itimer - CHUNKSIZE)
      && CounterOf(r) == Wait(CounterOf(rx), 1)
  {
    FlashTickIs(rx);
    PulseTickIs(FlashTick(rx));
    hide FlashTick, PulseTick, CounterOf, Wait;
  }

  lemma {:induction false} WaitAdds(c: Counter, j: nat, k: nat)
    ensures Wait(Wait(c, j), k) == Wait(c, j + k)
  {
  }

  lemma {:induction false} RxTicksAre(rx: Rx, k: nat)
    requires rx.itimer >= 0 && rx.itimer % CHUNKSIZE == 0 && rx.pulsetimer >= 0
    ensures var r := RxTicks(rx, k);
      && r.hook == rx.hook && r.itimerset == rx.itimerset && r.pulsetimer >= 0
      && r.itimer == (if rx.itimer < k * CHUNKSIZE then 0 else rx.itimer - k * CHUNKSIZE)
      && CounterOf(r) == Wait(CounterOf(rx), k)
    decreases k
  {
    if k > 0 {
      RxTickIs(rx);
      WaitAdds(CounterOf(rx), 1, k - 1);
      hide Reported, RxTick, Wait;
      RxTicksAre(RxTick(rx), k - 1);
    }
  }

  /** A timer of `k` chunks runs out: until then only the receiver's timers move. */
  lemma {:induction false} Phase(cfg: Config, l: Line, k: nat)
    requires k > 0 && l.tx.otimer == k * CHUNKSIZE && l.rx.hook == l.tx.hook
    ensures var tx := Expire(cfg, l.tx);
      Run(cfg, l, k) == Line(tx, RxHook(cfg, RxTicks(l.rx, k), tx.hook))
    decreases k
  {
    var t := Tick(cfg, l);
    assert Run(cfg, l, k) == Run(cfg, t, k - 1);
    if k == 1 {
      assert Run(cfg, t, 0) == t;
      assert RxTicks(RxTick(l.rx), 0) == RxTick(l.rx);
    } else {
      assert t.tx == l.tx.(otimer := (k - 1) * CHUNKSIZE) && t.rx == RxTick(l.rx);
      Phase(cfg, t, k - 1);
      assert Expire(cfg, t.tx) == Expire(cfg, l.tx);
    }
  }

  // ---------- one digit ----------

  /** A break has just begun, with `p` pulses to go. */
  ghost predicate AtBreak(cfg: Config, l: Line, p: nat) {
    && l.tx.state == PulseBreak && l.tx.otimer == cfg.brk * CHUNKSIZE && l.tx.hook == OnHook
    && l.tx.pdialcount == p > 0
    && l.rx.hook == OnHook && l.rx.itimer == l.rx.itimerset == cfg.flash * CHUNKSIZE && l.rx.pulsetimer >= 0
  }

  /** The make is over: the receiver has counted the pulse or not. */
  lemma {:induction false} BreakEnds(cfg: Config, l: Line, p: nat)
    requires cfg.Valid() && AtBreak(cfg, l, p)
    ensures var r := Run(cfg, l, cfg.brk);
      && r.tx ==
         l.tx.(state := PulseMake, otimer := cfg.make * CHUNKSIZE, hook := OffHook, line := l.tx.line + [OffHook])
      && r.rx.hook == OffHook && r.rx.itimer == r.rx.itimerset == 0 && r.rx.pulsetimer >= 0
      && CounterOf(r.rx) == Pulse(cfg, Wait(CounterOf(l.rx), cfg.brk))
  {
    Phase(cfg, l, cfg.brk);
    RxTicksAre(l.rx, cfg.brk);
    var rx := RxTicks(l.rx, cfg.brk);
    hide Run, RxTicks, Wait;
    CountPulse(cfg, rx);
    HookReportsNothing(cfg, rx, OffHook);
    hide Reported, RxHook;
  }

  /** A hook change reports no digit. */
  lemma {:induction false} HookReportsNothing(cfg: Config, rx: Rx, hook: Hook)
    ensures Reported(RxHook(cfg, rx, hook).events) == Reported(rx.events)
  {
    ReportedOne(rx.events, PulseStart);
    ReportedOne(rx.events, WinkFlash);
    ReportedOne(rx.events, RingOffHook);
    assert Reported(rx.events) + "" == Reported(rx.events);
    hide Reported;
  }

  lemma {:induction false} CountPulse(cfg: Config, rx: Rx)
    requires cfg.Valid() && rx.hook == OnHook && rx.pulsetimer >= 0 && rx.itimerset == cfg.flash * CHUNKSIZE
    requires rx.itimer == if cfg.flash < cfg.brk then 0 else (cfg.flash - cfg.brk) * CHUNKSIZE
    ensures var r := RxHook(cfg, rx, OffHook);
      && r.hook == OffHook && r.itimer == r.itimerset == 0
      && r.pulsecount == (if cfg.Window() then rx.pulsecount + 1 else rx.pulsecount)
      && r.pulsetimer == (if cfg.Window() then cfg.PulseTimeout() else rx.pulsetimer)
  {
  }

  function Cycles(p: nat): seq<Hook> {
    if p == 0 then [] else [OnHook, OffHook] + Cycles(p - 1)
  }

  function TrainTime(cfg: Config, p: nat): nat
    requires cfg.Valid()
  {
    if p == 0 then 0 else cfg.brk + cfg.make + TrainTime(cfg, p - 1)
  }

  /** One break and one make, and the next break or the end of the digit. */
  lemma {:induction false} OnePulse(cfg: Config, l: Line, p: nat)
    requires cfg.Valid() && AtBreak(cfg, l, p)
    ensures var r := Run(cfg, l, cfg.brk + cfg.make);
      && r.rx.pulsetimer >= 0
      && CounterOf(r.rx) == Wait(Pulse(cfg, Wait(CounterOf(l.rx), cfg.brk)), cfg.make)
      && (p > 1 ==> AtBreak(cfg, r, p - 1) && r.tx == l.tx.(pdialcount := p - 1, line := l.tx.line + [OffHook, OnHook]))
      && (p == 1 ==>
        && r.tx == l.tx.(state := PulseAfter, otimer := cfg.after * CHUNKSIZE, hook := OffHook, pdialcount := 0,
                         line := l.tx.line + [OffHook])
        && r.rx.hook == OffHook && r.rx.itimer == 0 && r.rx.itimerset == 0)
  {
    BreakEnds(cfg, l, p);
    var m := Run(cfg, l, cfg.brk);
    RunTwice(cfg, l, cfg.brk, cfg.make);
    Phase(cfg, m, cfg.make);
    RxTicksAre(m.rx, cfg.make);
    hide Run, RxTicks, Wait, Pulse, Reported;
    assert l.tx.line + [OffHook] + [OnHook] == l.tx.line + [OffHook, OnHook];
  }

  /** A whole digit: `p` breaks on the line, `p` pulses for the counter. */
  lemma {:induction false} WholeTrain(cfg: Config, l: Line, p: nat, base: seq<Hook>)
    requires cfg.Valid() && AtBreak(cfg, l, p) && l.tx.line == base + [OnHook]
    ensures var r := Run(cfg, l, TrainTime(cfg, p));
      && r.tx == l.tx.(state := PulseAfter, otimer := cfg.after * CHUNKSIZE, hook := OffHook, pdialcount := 0,
                       line := base + Cycles(p))
      && r.rx.hook == OffHook && r.rx.itimer == 0 && r.rx.itimerset == 0 && r.rx.pulsetimer >= 0
      && CounterOf(r.rx) == Train(cfg, CounterOf(l.rx), p)
    decreases p
  {
    hide Run, Train, Wait, Pulse, Reported, CounterOf;
    OnePulse(cfg, l, p);
    var m := Run(cfg, l, cfg.brk + cfg.make);
    RunTwice(cfg, l, cfg.brk + cfg.make, TrainTime(cfg, p - 1));
    TrainTurn(cfg, CounterOf(l.rx), p);
    hide TrainTime, Cycles;
    if p == 1 {
      NoTrain(cfg, m, CounterOf(m.rx));
      assert base + [OnHook] + [OffHook] == base + ([OnHook, OffHook] + []);
    } else {
      assert base + [OnHook] + [OffHook, OnHook] == (base + [OnHook, OffHook]) + [OnHook];
      WholeTrain(cfg, m, p - 1, base + [OnHook, OffHook]);
      assert base + [OnHook, OffHook] + Cycles(p - 1) == base + ([OnHook, OffHook] + Cycles(p - 1));
    }
  }

  lemma {:induction false} TrainTurn(cfg: Config, c: Counter, p: nat)
    requires cfg.Valid() && p > 0
    ensures Train(cfg, c, p) == Train(cfg, Wait(Pulse(cfg, Wait(c, cfg.brk)), cfg.make), p - 1)
    ensures TrainTime(cfg, p) == cfg.brk + cfg.make + TrainTime(cfg, p - 1)
    ensures Cycles(p) == [OnHook, OffHook] + Cycles(p - 1)
  {
  }

  lemma {:induction false} NoTrain(cfg: Config, l: Line, c: Counter)
    requires cfg.Valid()
    ensures Run(cfg, l, 0) == l && TrainTime(cfg, 0) == 0 && Train(cfg, c, 0) == c && Cycles(0) == []
  {
  }

  // ---------- a whole string ----------

  /** The line's changes for a dial string: a break and a make for every pulse of every digit. */
  function Breaks(s: string): seq<Hook> {
    if s == "" then [] else (if Digit(s[0]) then Cycles(Pulses(s[0])) else []) + Breaks(s[1..])
  }

  function Time(cfg: Config, s: string): nat
    requires cfg.Valid()
  {
    if s == "" then 0
    else (if Digit(s[0]) then TrainTime(cfg, Pulses(s[0])) + cfg.after else 0) + Time(cfg, s[1..])
  }

  /** Off hook at both ends, with nothing under way at the sender. */
  ghost predicate Ready(l: Line) {
    && l.tx.state == Idle && l.tx.otimer == 0 && l.tx.hook == OffHook && l.tx.pdialcount == 0
    && l.rx.hook == OffHook && l.rx.itimer == 0 && l.rx.itimerset == 0 && l.rx.pulsetimer >= 0
  }

  /** The sender starts on its buffer; the receiver sees what becomes of the line. */
  function Start(cfg: Config, l: Line): Line {
    var tx := DoDtmf(cfg, l.tx);
    Line(tx, RxHook(cfg, l.rx, tx.hook))
  }

  /** What a digit at the front of the buffer starts. */
  lemma {:induction false} StartDigit(cfg: Config, l: Line)
    requires cfg.Valid() && Ready(l) && l.tx.dialbuf != "" && Digit(l.tx.dialbuf[0])
    ensures var b := Start(cfg, l);
      && AtBreak(cfg, b, Pulses(l.tx.dialbuf[0])) && CounterOf(b.rx) == CounterOf(l.rx)
      && b.tx.line == l.tx.line + [OnHook] && b.tx.dialbuf == l.tx.dialbuf[1..]
      && b.tx.dialing == l.tx.dialing && b.tx.events == l.tx.events
  {
  }

  /** The after time ends with the next digit's start. */
  lemma {:induction false} AfterEnds(cfg: Config, m: Line)
    requires cfg.Valid() && m.tx.state == PulseAfter && m.tx.otimer == cfg.after * CHUNKSIZE && m.tx.hook == OffHook
    requires m.rx.hook == OffHook && m.rx.itimer == 0 && m.rx.itimerset == 0 && m.rx.pulsetimer >= 0
    requires m.tx.pdialcount == 0
    ensures exists rx: Rx :: AfterIs(cfg, m, rx)
  {
    Phase(cfg, m, cfg.after);
    RxTicksAre(m.rx, cfg.after);
    hide Run, RxTicks, Wait, Reported, DoDtmf;
    assert AfterIs(cfg, m, RxTicks(m.rx, cfg.after));
  }

  ghost predicate AfterIs(cfg: Config, m: Line, rx: Rx)
    requires cfg.Valid() && m.rx.pulsetimer >= 0
  {
    var next := Line(m.tx.(state := Idle, otimer := 0), rx);
    && Ready(next) && Run(cfg, m, cfg.after) == Start(cfg, next)
    && CounterOf(rx) == Wait(CounterOf(m.rx), cfg.after)
  }

  /** Once started, the sender emits every digit of its buffer as breaks, says once that it
      is done, and the receiver's counter has followed. */
  lemma {:induction false} WholeString(cfg: Config, l: Line)
    requires cfg.Valid() && Ready(l)
    ensures var r := Run(cfg, Start(cfg, l), Time(cfg, l.tx.dialbuf));
      && Ready(r)
      && r.tx == l.tx.(dialbuf := "", dialing := false, line := l.tx.line + Breaks(l.tx.dialbuf),
                       events := l.tx.events + [DialComplete])
      && CounterOf(r.rx) == Dialled(cfg, CounterOf(l.rx), l.tx.dialbuf)
    decreases |l.tx.dialbuf|
  {
    hide Run, DoDtmf, Train, Wait, Reported, Dialled, Breaks, Time, Start, Pulses, RxHook;
    var s := l.tx.dialbuf;
    if s == "" {
      StartNothing(cfg, l);
    } else {
      StringTurn(cfg, CounterOf(l.rx), s);
      if Digit(s[0]) {
        StartDigit(cfg, l);
        var b, p := Start(cfg, l), Pulses(s[0]);
        WholeTrain(cfg, b, p, l.tx.line);
        var m := Run(cfg, b, TrainTime(cfg, p));
        AfterEnds(cfg, m);
        var rx: Rx :| AfterIs(cfg, m, rx);
        var next := Line(m.tx.(state := Idle, otimer := 0), rx);
        WholeString(cfg, next);
        RunTwice(cfg, b, TrainTime(cfg, p), cfg.after);
        RunTwice(cfg, b, TrainTime(cfg, p) + cfg.after, Time(cfg, s[1..]));
        assert l.tx.line + Cycles(p) + Breaks(s[1..]) == l.tx.line + (Cycles(p) + Breaks(s[1..]));
      } else {
        StartSkips(cfg, l);
        WholeString(cfg, Line(l.tx.(dialbuf := s[1..]), l.rx));
      }
    }
  }

  lemma {:induction false} StartNothing(cfg: Config, l: Line)
    requires cfg.Valid() && Ready(l) && l.tx.dialbuf == ""
    ensures Time(cfg, "") == 0 && Run(cfg, Start(cfg, l), 0) == Start(cfg, l)
    ensures Start(cfg, l) == Line(l.tx.(dialing := false, events := l.tx.events + [DialComplete]), l.rx)
    ensures l.tx.line + Breaks("") == l.tx.line && Dialled(cfg, CounterOf(l.rx), "") == CounterOf(l.rx)
  {
  }

  lemma {:induction false} StartSkips(cfg: Config, l: Line)
    requires cfg.Valid() && Ready(l) && l.tx.dialbuf != "" && !Digit(l.tx.dialbuf[0])
    ensures Start(cfg, Line(l.tx.(dialbuf := l.tx.dialbuf[1..]), l.rx)) == Start(cfg, l)
  {
  }

  lemma {:induction false} StringTurn(cfg: Config, c: Counter, s: string)
    requires cfg.Valid() && s != ""
    ensures Digit(s[0]) ==>
      && Dialled(cfg, c, s) == Dialled(cfg, Wait(Train(cfg, c, Pulses(s[0])), cfg.after), s[1..])
      && Time(cfg, s) == TrainTime(cfg, Pulses(s[0])) + cfg.after + Time(cfg, s[1..])
      && Breaks(s) == Cycles(Pulses(s[0])) + Breaks(s[1..])
    ensures !Digit(s[0]) ==>
      Dialled(cfg, c, s) == Dialled(cfg, c, s[1..]) && Time(cfg, s) == Time(cfg, s[1..]) && Breaks(s) == Breaks(s[1..])
  {
  }

  // ---------- the whole call ----------

  lemma {:induction false} IdleRun(cfg: Config, l: Line, k: nat)
    requires Ready(l)
    ensures Run(cfg, l, k) == Line(l.tx, RxTicks(l.rx, k))
    decreases k
  {
    if k > 0 {
      RxTickIs(l.rx);
      IdleRun(cfg, Tick(cfg, l), k - 1);
    }
  }

  lemma {:induction false} TrainLeft(cfg: Config, c: Counter, n: nat)
    requires cfg.Valid() && c.left <= cfg.PulseTimeout()
    ensures Train(cfg, c, n).left <= cfg.PulseTimeout()
    decreases n
  {
    if n > 0 {
      TrainLeft(cfg, Wait(Pulse(cfg, Wait(c, cfg.brk)), cfg.make), n - 1);
    }
  }

  lemma {:induction false} DialledLeft(cfg: Config, c: Counter, s: string)
    requires cfg.Valid() && c.left <= cfg.PulseTimeout()
    ensures Dialled(cfg, c, s).left <= cfg.PulseTimeout()
    decreases |s|
  {
    if s != "" {
      if Digit(s[0]) {
        TrainLeft(cfg, c, Pulses(s[0]));
        DialledLeft(cfg, Wait(Train(cfg, c, Pulses(s[0])), cfg.after), s[1..]);
      } else {
        DialledLeft(cfg, c, s[1..]);
      }
    }
  }

  /** Dialling a string on a quiet line, and waiting until the receiver's last timeout: the
      line saw one break per pulse, ten for '0'; completion was reported once; and the
      receiver reported the dialled digits exactly when the timings suit them. */
  lemma {:induction false} DialledIsReported(cfg: Config, l: Line, s: string, n: nat)
    requires cfg.Valid() && PulseOnly(s)
    requires Ready(l) && l.rx.pulsecount == 0 && l.rx.pulsetimer == 0 && Reported(l.rx.events) == ""
    requires n >= Time(cfg, s) + cfg.PulseTimeout()
    ensures var r := Run(cfg, Dial(cfg, l, s), n);
      && r.tx == l.tx.(dialbuf := "", dialing := false, line := l.tx.line + Breaks(s),
                       events := l.tx.events + [DialComplete])
      && (Reported(r.rx.events) == Digits(s) <==> Understood(cfg, Digits(s)))
  {
    var d := Line(l.tx.(dialbuf := s, dialing := true), l.rx);
    assert Start(cfg, d) == Dial(cfg, l, s);
    assert Time(cfg, d.tx.dialbuf) == Time(cfg, s);
    hide Run, DoDtmf, Train, Dialled, Breaks, Time, Start, RxHook, RxTicks, Digits, Reported, Understood;
    WholeString(cfg, d);
    var done, k: nat := Run(cfg, Dial(cfg, l, s), Time(cfg, s)), n - Time(cfg, s);
    RunTwice(cfg, Dial(cfg, l, s), Time(cfg, s), k);
    IdleRun(cfg, done, k);
    RxTicksAre(done.rx, k);
    DialledLeft(cfg, Counter(0, 0, ""), s);
    HeardIffUnderstood(cfg, s);
    assert Wait(CounterOf(done.rx), k).digits == Heard(cfg, CounterOf(done.rx)) by {
      LateDigits(cfg, CounterOf(done.rx), k);
    }
  }

  lemma {:induction false} LateDigits(cfg: Config, c: Counter, k: nat)
    requires c.left <= k
    ensures Wait(c, k).digits == Heard(cfg, c)
  {
    assert c.digits + "" == c.digits;
  }

  // ---------- the two state machines ----------

  /** The dialling side of a channel in pulse digit mode. */
  class Dialler {
    const cfg: Config
    var txstate: TxState
    /** The transmit timer, in samples. */
    var otimer: int
    var txhooksig: Hook
    var pdialcount: nat
    var txdialbuf: string
    var dialing: bool
    var line: seq<Hook>
    var events: seq<Event>

    ghost function Sender(): Tx
      reads this
    {
      Tx(txstate, otimer, txhooksig, pdialcount, txdialbuf, dialing, line, events)
    }

    constructor (cfg: Config)
      ensures this.cfg == cfg && Sender() == Tx(Idle, 0, OffHook, 0, "", false, [], [])
    {
      this.cfg := cfg;
      txstate, otimer, txhooksig, pdialcount := Idle, 0, OffHook, 0;
      txdialbuf, dialing, line, events := "", false, [], [];
    }

    method RbsSethook(txsig: Hook, state: TxState, timeout: int)
      modifies this
      ensures Sender() == SetHook(old(Sender()), txsig, state, timeout)
    {
      txstate := state;
      if txhooksig != txsig {
        txhooksig := txsig;
        line := line + [txsig];
      }
      otimer := timeout * CHUNKSIZE;
    }

    /** __do_dtmf: takes characters off the buffer until one starts a digit. */
    method DoDtmfLoop()
      requires PulseOnly(txdialbuf)
      modifies this
      ensures Sender() == DoDtmf(cfg, old(Sender())) && PulseOnly(txdialbuf)
    {
      ghost var goal := DoDtmf(cfg, Sender());
      while txdialbuf != ""
        invariant DoDtmf(cfg, Sender()) == goal && PulseOnly(txdialbuf)
        decreases |txdialbuf|
      {
        var c := txdialbuf[0];
        txdialbuf := txdialbuf[1..];
        if Digit(c) && txhooksig == OffHook {
          pdialcount := if c == '0' then 10 else c as int - '0' as int;
          RbsSethook(OnHook, PulseBreak, cfg.brk);
          return;
        }
      }
      dialing := false;
      events := events + [DialComplete];
    }

    /** __rbs_otimer_expire. */
    method OtimerExpire()
      requires PulseOnly(txdialbuf)
      modifies this
      ensures Sender() == Expire(cfg, old(Sender())) && PulseOnly(txdialbuf)
    {
      otimer := 0;
      match txstate
      case PulseBreak =>
        RbsSethook(OffHook, PulseMake, cfg.make);
      case PulseMake =>
        if pdialcount > 0 {
          pdialcount := pdialcount - 1;
        }
        if pdialcount > 0 {
          RbsSethook(OnHook, PulseBreak, cfg.brk);
        } else {
          txstate := PulseAfter;
          otimer := cfg.after * CHUNKSIZE;
        }
      case PulseAfter =>
        txstate := Idle;
        DoDtmfLoop();
      case Idle =>
    }

    /** The timer part of dahdi_transmit. */
    method Transmit()
      requires PulseOnly(txdialbuf)
      modifies this
      ensures Sender() == TxTick(cfg, old(Sender())) && PulseOnly(txdialbuf)
    {
      if otimer != 0 {
        otimer := otimer - CHUNKSIZE;
        if otimer <= 0 {
          OtimerExpire();
        }
      }
    }
  }

  /** The listening side of an FXO channel. */
  class Listener {
    const cfg: Config
    var rxhooksig: Hook
    var itimer: int
    var itimerset: int
    var pulsecount: nat
    var pulsetimer: int
    var gotgs: bool
    var events: seq<Event>

    ghost function Receiver(): Rx
      reads this
    {
      Rx(rxhooksig, itimer, itimerset, pulsecount, pulsetimer, gotgs, events)
    }

    constructor (cfg: Config)
      ensures this.cfg == cfg && Receiver() == Rx(OffHook, 0, 0, 0, 0, true, [])
    {
      this.cfg := cfg;
      rxhooksig, itimer, itimerset, pulsecount, pulsetimer, gotgs, events := OffHook, 0, 0, 0, 0, true, [];
    }

    /** __dahdi_hooksig_pvt. */
    method Hooksig(rxsig: Hook)
      modifies this
      ensures Receiver() == RxHook(cfg, old(Receiver()), rxsig)
    {
      if rxhooksig == rxsig {
        return;
      }
      rxhooksig := rxsig;
      match rxsig
      case OffHook =>
        if itimer != 0 {
          var plen := itimerset - itimer;
          if plen <= cfg.maxpulse {
            if plen >= MINPULSETIME {
              pulsecount := pulsecount + 1;
              pulsetimer := cfg.PulseTimeout();
              itimer := itimerset;
              if pulsecount == 1 {
                events := events + [PulseStart];
              }
            }
          } else {
            events := events + [WinkFlash];
          }
        } else if !gotgs {
          events := events + [RingOffHook];
          gotgs := true;
          itimer, itimerset := 0, 0;
        }
        itimer, itimerset := 0, 0;
      case OnHook =>
        itimer, itimerset := cfg.flash * CHUNKSIZE, cfg.flash * CHUNKSIZE;
    }

    /** The timer part of dahdi_receive. */
    method Receive()
      modifies this
      ensures Receiver() == RxTick(old(Receiver()))
    {
      if itimer != 0 {
        itimer := itimer - CHUNKSIZE;
        if itimer <= 0 {
          events := events + [WentOnHook];
          gotgs := false;
        }
      }
      if pulsetimer != 0 {
        pulsetimer := pulsetimer - 1;
        if pulsetimer <= 0 {
          if pulsecount > 0 {
            if pulsecount > 12 {
            } else if pulsecount > 11 {
              events := events + [PulseDigit('#')];
            } else if pulsecount > 10 {
              events := events + [PulseDigit('*')];
            } else if pulsecount > 9 {
              events := events + [PulseDigit('0')];
            } else {
              events := events + [PulseDigit(('0' as int + pulsecount) as char)];
            }
            pulsecount := 0;
          }
        }
      }
    }
  }
}
