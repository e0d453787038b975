/**
 The capture loop: read a frame, draw the detected hands on it, show it, then
 poll one key and dispatch it to the render configuration. The camera,
 detector and window are outside the model; each iteration is an event that
 either reports a failed read or carries the frame, the hands detected in it
 and the raw key code that was polled after showing it.
 */
module CaptureLoop {
  import opened Palette
  import opened RenderConfig
  import opened Render

  /** Key codes, as character ordinals, of the recognised keys. */
  const KeyQuit: int := 113     // 'q'
  const KeyVibrant: int := 49   // '1'
  const KeyPastel: int := 50    // '2'
  const KeyMono: int := 51      // '3'
  const KeyThicker: int := 43   // '+'
  const KeyThinner: int := 45   // '-'

  /** The raw code the key poll reports when no key was pressed. */
  const NoKey: int := -1

  datatype Command = Quit | SelectScheme(name: string) | Thicker | Thinner | Ignore

  /** The low byte of a raw key code, as a bitwise and with 0xFF on an unbounded
      two's-complement integer gives it. */
  function LowByte(raw: int): (k: int)
    ensures 0 <= k < 256
    ensures 0 <= raw < 256 ==> k == raw
    ensures (k - raw) % 256 == 0
  {
    raw % 256
  }

  /** The command a masked key code selects: the inverse of the key assignment on the six
      recognised keys, and Ignore on every other code. */
  function Decode(key: int): (cmd: Command)
    ensures cmd == Ignore <==> key !in {KeyQuit, KeyVibrant, KeyPastel, KeyMono, KeyThicker, KeyThinner}
    ensures cmd != Ignore ==> IsKeyCommand(cmd) && KeyOf(cmd) == key
  {
    if key == KeyQuit then Quit
    else if key == KeyVibrant then SelectScheme(Vibrant)
    else if key == KeyPastel then SelectScheme(Pastel)
    else if key == KeyMono then SelectScheme(Mono)
    else if key == KeyThicker then Thicker
    else if key == KeyThinner then Thinner
    else Ignore
  }

  /** The commands a key can produce. */
  predicate IsKeyCommand(cmd: Command) {
    match cmd
    case SelectScheme(name) => name == Vibrant || name == Pastel || name == Mono
    case Ignore => false
    case _ => true
  }

  /** The key that produces a command. */
  function KeyOf(cmd: Command): (key: int)
    requires IsKeyCommand(cmd)
    ensures 0 <= key < 256
  {
    match cmd
    case Quit => KeyQuit
    case SelectScheme(name) => if name == Vibrant then KeyVibrant else if name == Pastel then KeyPastel else KeyMono
    case Thicker => KeyThicker
    case Thinner => KeyThinner
  }

  /** Decoding inverts the key assignment, and every key outside the six recognised ones is ignored. */
  lemma DecodeKeyOf(cmd: Command, key: int)
    ensures IsKeyCommand(cmd) ==> Decode(KeyOf(cmd)) == cmd
    ensures Decode(key) != Ignore <==> key in {KeyQuit, KeyVibrant, KeyPastel, KeyMono, KeyThicker, KeyThinner}
    ensures Decode(key) != Ignore ==> IsKeyCommand(Decode(key)) && KeyOf(Decode(key)) == key
  {
  }

  /** A poll that saw no key is ignored. */
  lemma NoKeyIgnored()
    ensures LowByte(NoKey) == 255
    ensures Decode(LowByte(NoKey)) == Ignore
  {
  }

  /** The configuration change a command makes; quitting changes nothing. */
  function Dispatch(cfg: Config, cmd: Command): (cfg': Config)
    ensures Valid(cfg) ==> Valid(cfg')
    ensures cmd.SelectScheme? && IsScheme(cmd.name) ==> cfg' == cfg.(colorScheme := cmd.name)
    ensures Valid(cfg) && cmd.Thicker? ==> cfg' == cfg.(lineThickness := Min(cfg.lineThickness + 1, MaxThickness))
    ensures Valid(cfg) && cmd.Thinner? ==> cfg' == cfg.(lineThickness := Max(cfg.lineThickness - 1, MinThickness))
    ensures cmd.Quit? || cmd.Ignore? ==> cfg' == cfg
  {
    match cmd
    case SelectScheme(name) => SetColorScheme(cfg, name)
    case Thicker => SetLineThickness(cfg, cfg.lineThickness + 1)
    case Thinner => SetLineThickness(cfg, cfg.lineThickness - 1)
    case _ => cfg
  }

  datatype Event =
    | ReadFailed
    | Captured(frame: Frame, hands: seq<Hand>, rawKey: int)

  datatype State = Running(cfg: Config) | Stopped(cfg: Config)

  /** The outcome of some iterations: the state reached and the frames shown, in order. */
  datatype Outcome = Outcome(state: State, shown: seq<Frame>)

  /** One iteration of the loop. */
  function Step(s: State, e: Event): (o: Outcome)
    requires Valid(s.cfg)
    ensures Valid(o.state.cfg)
    ensures s.Stopped? ==> o == Outcome(s, [])
    ensures s.Running? && e.ReadFailed? ==> o == Outcome(Stopped(s.cfg), [])
    ensures s.Running? && e.Captured? ==>
      (|o.shown| == 1 && o.shown[0].width == e.frame.width && o.shown[0].height == e.frame.height)
    ensures s.Running? && e.Captured? ==>
      (o.state.Stopped? <==> LowByte(e.rawKey) == KeyQuit)
    ensures s.Running? && e.Captured? ==> o.shown == [ProcessFrame(s.cfg, e.frame, e.hands)]
    ensures s.Running? && e.Captured? && LowByte(e.rawKey) != KeyQuit ==>
      o.state == Running(Dispatch(s.cfg, Decode(LowByte(e.rawKey))))
  {
    match s
    case Stopped(_) => Outcome(s, [])
    case Running(cfg) =>
      match e
      case ReadFailed => Outcome(Stopped(cfg), [])
      case Captured(frame, hands, rawKey) =>
        var shown := ProcessFrame(cfg, frame, hands);
        var cmd := Decode(LowByte(rawKey));
        if cmd.Quit? then Outcome(Stopped(cfg), [shown])
        else Outcome(Running(Dispatch(cfg, cmd)), [shown])
  }

  /** A sequence of iterations, the later ones having no effect once the loop has stopped. */
  function Run(s: State, events: seq<Event>): (o: Outcome)
    requires Valid(s.cfg)
    ensures o.state.Running? ==> s.Running? && |o.shown| == |events|
    ensures o.state.Running? ==> forall k :: 0 <= k < |events| ==> events[k].Captured?
    decreases |events|
  {
    if |events| == 0 then Outcome(s, [])
    else
      var first := Step(s, events[0]);
      var rest := Run(first.state, events[1..]);
      assert forall k :: 1 <= k < |events| ==> events[k] == events[1..][k - 1];
      Outcome(rest.state, first.shown + rest.shown)
  }

  /** Whatever the keys and reads, the configuration stays valid: a known scheme and a
      thickness in [1, 5]; at most one frame is shown per iteration. */
  lemma {:induction false} RunKeepsConfigValid(s: State, events: seq<Event>)
    requires Valid(s.cfg)
    ensures Valid(Run(s, events).state.cfg)
    ensures MinThickness <= Run(s, events).state.cfg.lineThickness <= MaxThickness
    ensures |Run(s, events).shown| <= |events|
    decreases |events|
  {
    if |events| > 0 {
      RunKeepsConfigValid(Step(s, events[0]).state, events[1..]);
    }
  }

  /** Once stopped, the loop stays stopped and shows nothing more. */
  lemma {:induction false} StoppedIsFinal(cfg: Config, events: seq<Event>)
    requires Valid(cfg)
    ensures Run(Stopped(cfg), events) == Outcome(Stopped(cfg), [])
    decreases |events|
  {
    if |events| > 0 {
      StoppedIsFinal(cfg, events[1..]);
    }
  }

  /** A failed read ends the loop at once with the configuration unchanged. */
  lemma ReadFailureStops(cfg: Config, events: seq<Event>)
    requires Valid(cfg) && |events| > 0 && events[0].ReadFailed?
    ensures Run(Running(cfg), events) == Outcome(Stopped(cfg), [])
  {
    StoppedIsFinal(cfg, events[1..]);
  }

  /** Quitting still shows the frame just drawn, then ends the loop. */
  lemma QuitShowsThenStops(cfg: Config, events: seq<Event>)
    requires Valid(cfg) && |events| > 0 && events[0].Captured? && LowByte(events[0].rawKey) == KeyQuit
    ensures Run(Running(cfg), events) ==
      Outcome(Stopped(cfg), [ProcessFrame(cfg, events[0].frame, events[0].hands)])
  {
    StoppedIsFinal(cfg, events[1..]);
  }

  /** An event whose key is `key`. */
  predicate HasKey(e: Event, key: int) {
    e.Captured? && LowByte(e.rawKey) == key
  }

  /** n presses of '+' raise the thickness by n, saturating at 5. */
  lemma {:induction false} RepeatedThicker(cfg: Config, events: seq<Event>)
    requires Valid(cfg)
    requires forall k :: 0 <= k < |events| ==> HasKey(events[k], KeyThicker)
    ensures Run(Running(cfg), events).state ==
      Running(cfg.(lineThickness := Min(cfg.lineThickness + |events|, MaxThickness)))
    decreases |events|
  {
    if |events| > 0 {
      var next := cfg.(lineThickness := Min(cfg.lineThickness + 1, MaxThickness));
      assert Step(Running(cfg), events[0]).state == Running(next);
      RepeatedThicker(next, events[1..]);
    }
  }

  /** n presses of '-' lower the thickness by n, saturating at 1. */
  lemma {:induction false} RepeatedThinner(cfg: Config, events: seq<Event>)
    requires Valid(cfg)
    requires forall k :: 0 <= k < |events| ==> HasKey(events[k], KeyThinner)
    ensures Run(Running(cfg), events).state ==
      Running(cfg.(lineThickness := Max(cfg.lineThickness - |events|, MinThickness)))
    decreases |events|
  {
    if |events| > 0 {
      var next := cfg.(lineThickness := Max(cfg.lineThickness - 1, MinThickness));
      assert Step(Running(cfg), events[0]).state == Running(next);
      RepeatedThinner(next, events[1..]);
    }
  }

  lemma RunUnfold(s: State, events: seq<Event>, i: nat)
    requires Valid(s.cfg) && i < |events|
    ensures var first := Step(s, events[i]);
      var rest := Run(first.state, events[i + 1..]);
      Run(s, events[i..]) == Outcome(rest.state, first.shown + rest.shown)
  {
    assert events[i..][0] == events[i];
    assert events[i..][1..] == events[i + 1..];
  }

  /** The body of the main loop as written: draw and show the frame, then dispatch the polled key. */
  method Iteration(cfg: Config, e: Event) returns (next: State, output: seq<Frame>)
    requires Valid(cfg)
    ensures Outcome(next, output) == Step(Running(cfg), e)
  {
    match e {
      case ReadFailed =>
        return Stopped(cfg), [];
      case Captured(frame, hands, rawKey) =>
        var drawn := DrawHands(cfg, frame, hands);
        output := [drawn];
        var key := rawKey % 256;
        var c := cfg;
        if key == KeyQuit {
          return Stopped(cfg), output;
        } else if key == KeyVibrant {
          c := SetColorScheme(cfg, Vibrant);
        } else if key == KeyPastel {
          c := SetColorScheme(cfg, Pastel);
        } else if key == KeyMono {
          c := SetColorScheme(cfg, Mono);
        } else if key == KeyThicker {
          c := SetLineThickness(cfg, cfg.lineThickness + 1);
        } else if key == KeyThinner {
          c := SetLineThickness(cfg, cfg.lineThickness - 1);
        }
        next := Running(c);
    }
  }

  /** The main loop as written: start from the initial configuration and iterate until the
      events run out, a read fails or 'q' is pressed. */
  method Session(events: seq<Event>) returns (final: State, shown: seq<Frame>)
    ensures Run(Running(Initial()), events) == Outcome(final, shown)
    ensures Valid(final.cfg)
  {
    final := Running(Initial());
    shown := [];
    var i := 0;
    while i < |events| && final.Running?
      invariant 0 <= i <= |events|
      invariant Valid(final.cfg)
      invariant var rest := Run(final, events[i..]);
        Outcome(rest.state, shown + rest.shown) == Run(Running(Initial()), events)
    {
      ghost var before := final;
      var output;
      final, output := Iteration(final.cfg, events[i]);
      RunUnfold(before, events, i);
      shown := shown + output;
      i := i + 1;
    }
    if final.Stopped? {
      StoppedIsFinal(final.cfg, events[i..]);
    } else {
      assert events[i..] == [];
    }
  }
}
