/** The control thread's message pump in `main` (cgol_compute/main.cpp:319-345): each turn it
    polls GLFW, pushes an Exit event when the window should close and a Resize event when the
    window's size has changed. What GLFW reports is a parameter: a sequence of polls. */
module ControlThread {
  import opened Events
  import opened View
  import opened Channel

  /** What a GLFW input callback is called with while `glfwPollEvents` runs: the key callback
      (cgol_compute/main.cpp:112-118) or the scroll callback (cgol_compute/main.cpp:120-125). */
  datatype Input =
    | KeyInput(key: I32, scancode: I32, action: I32, mods: I32)
    | ScrollInput(xoffset: real, yoffset: real)

  /** The event a callback pushes: the key and the action of a key, the horizontal offset of
      a scroll. */
  function Callback(i: Input): (e: Event)
    ensures e.Key? <==> i.KeyInput?
    ensures e.Key? || e.Scroll?
  {
    match i
    case KeyInput(key, _, action, _) => Key(key, action)
    case ScrollInput(x, _) => Scroll(x)
  }

  /** The events that come from the input callbacks rather than from the pump's own checks. */
  predicate FromInput(e: Event) {
    e.Key? || e.Scroll?
  }

  /** The events the callbacks push during one poll, one per input, in the order GLFW reports
      the input. */
  function Callbacks(input: seq<Input>): (es: seq<Event>)
    ensures |es| == |input|
    decreases |input|
  {
    if input == [] then [] else Callbacks(input[..|input| - 1]) + [Callback(input[|input| - 1])]
  }

  /** The callbacks push Key and Scroll events only. */
  lemma {:induction false} CallbacksFromInput(input: seq<Input>)
    ensures forall e :: e in Callbacks(input) ==> FromInput(e)
    decreases |input|
  {
    if input != [] {
      CallbacksFromInput(input[..|input| - 1]);
    }
  }

  /** What one turn of the pump learns from GLFW: the input its callbacks report during
      `glfwPollEvents`, then `glfwWindowShouldClose` and `glfwGetWindowSize`. */
  datatype Poll = Poll(input: seq<Input>, shouldClose: bool, width: I32, height: I32)

  /** The events a turn's own checks push, given the size the previous turn saw: Exit when
      the window should close, then Resize when the size differs. */
  function Checks(width: I32, height: I32, p: Poll): seq<Event> {
    (if p.shouldClose then [Exit] else [])
    + (if p.width != width || p.height != height then [Resize(ToU32(p.width), ToU32(p.height))] else [])
  }

  /** The events one turn pushes: the callbacks' events first, then those of the checks. */
  function TurnEvents(width: I32, height: I32, p: Poll): (es: seq<Event>)
    ensures |p.input| <= |es| <= |p.input| + 2
  {
    Callbacks(p.input) + Checks(width, height, p)
  }

  /** A turn pushes Exit exactly when the window should close, and resets the surface exactly
      when the size differs from the previous turn's, to the new size. */
  lemma TurnEventsSpec(width: I32, height: I32, p: Poll)
    ensures Exit in TurnEvents(width, height, p) <==> p.shouldClose
    ensures Resets(TurnEvents(width, height, p))
            == if p.width != width || p.height != height then [SizeOf(p.width, p.height)] else []
  {
    var inputs := Callbacks(p.input);
    var close: seq<Event> := if p.shouldClose then [Exit] else [];
    var resize := if p.width != width || p.height != height then [Resize(ToU32(p.width), ToU32(p.height))] else [];
    assert TurnEvents(width, height, p) == (inputs + close) + resize;
    CallbacksFromInput(p.input);
    NoResizeNoReset(inputs + close);
    ResetsAppend(inputs + close, resize);
    assert Exit !in inputs;
  }

  /** The input the callbacks report during the turns the pump runs: every poll up to and
      including the first that sees the close request. */
  function PolledInput(polls: seq<Poll>): seq<Input>
    decreases polls
  {
    if polls == [] then []
    else polls[0].input + (if polls[0].shouldClose then [] else PolledInput(polls[1..]))
  }

  /** The events the pump pushes, given the size it saw last. A turn that sees the close
      request still runs its resize check, and is the last turn. */
  function PumpEvents(width: I32, height: I32, polls: seq<Poll>): seq<Event>
    decreases polls
  {
    if polls == [] then []
    else
      var p := polls[0];
      TurnEvents(width, height, p) + (if p.shouldClose then [] else PumpEvents(p.width, p.height, polls[1..]))
  }

  /** The size the pump saw last when its loop ends. */
  function FinalSize(width: I32, height: I32, polls: seq<Poll>): (I32, I32)
    decreases polls
  {
    if polls == [] then (width, height)
    else if polls[0].shouldClose then (polls[0].width, polls[0].height)
    else FinalSize(polls[0].width, polls[0].height, polls[1..])
  }

  /** Some poll reports that the window should close. */
  predicate Closes(polls: seq<Poll>) {
    exists k :: 0 <= k < |polls| && polls[k].shouldClose
  }

  /** A GLFW input callback: allocates the event and pushes it onto the queue. */
  method RunCallback(channel: EventChannel, i: Input)
    modifies channel
    ensures channel.pending == old(channel.pending) + [Callback(i)]
  {
    match i {
      case KeyInput(key, _, action, _) =>
        channel.Push(Key(key, action));
      case ScrollInput(x, _) =>
        channel.Push(Scroll(x));
    }
  }

  /** One turn of the pump loop, given the size the previous turn saw and what GLFW reports;
      returns whether the loop ends. */
  method Turn(channel: EventChannel, width: I32, height: I32, p: Poll) returns (exit: bool)
    modifies channel
    ensures channel.pending == old(channel.pending) + TurnEvents(width, height, p)
    ensures exit == p.shouldClose
  {
    // glfwPollEvents: the callbacks run for each input, in order
    for k := 0 to |p.input|
      invariant channel.pending == old(channel.pending) + Callbacks(p.input[..k])
    {
      RunCallback(channel, p.input[k]);
      assert p.input[..k + 1][..k] == p.input[..k];
    }
    assert p.input[..|p.input|] == p.input;
    exit := false;
    if p.shouldClose {
      channel.Push(Exit);
      exit := true;
    }
    if p.width != width || p.height != height {
      channel.Push(Resize(ToU32(p.width), ToU32(p.height)));
    }
  }

  /** The size the pump saw before turn `k`. */
  function SizeBefore(width: I32, height: I32, polls: seq<Poll>, k: nat): (I32, I32)
    requires k <= |polls|
  {
    if k == 0 then (width, height) else (polls[k - 1].width, polls[k - 1].height)
  }

  /** The events the first `k` turns push. */
  function PushedBy(width: I32, height: I32, polls: seq<Poll>, k: nat): seq<Event>
    requires k <= |polls|
    decreases k
  {
    if k == 0 then []
    else
      var (w, h) := SizeBefore(width, height, polls, k - 1);
      PushedBy(width, height, polls, k - 1) + TurnEvents(w, h, polls[k - 1])
  }

  /** No turn before turn `k` sees the close request. */
  predicate OpenBefore(polls: seq<Poll>, k: nat)
    requires k <= |polls|
  {
    k == 0 || (OpenBefore(polls, k - 1) && !polls[k - 1].shouldClose)
  }

  lemma {:induction false} OpenBeforeMeans(polls: seq<Poll>, k: nat)
    requires k <= |polls|
    ensures OpenBefore(polls, k) <==> forall j :: 0 <= j < k ==> !polls[j].shouldClose
  {
    if k > 0 {
      OpenBeforeMeans(polls, k - 1);
    }
  }

  /** The pump loop, run until the window should close or the polls run out. Returns how many
      turns it ran and the size it saw last. */
  method Pump(channel: EventChannel, width: I32, height: I32, polls: seq<Poll>)
    returns (turns: nat, lastWidth: I32, lastHeight: I32)
    modifies channel
    ensures channel.pending == old(channel.pending) + PumpEvents(width, height, polls)
    ensures (lastWidth, lastHeight) == FinalSize(width, height, polls)
    ensures turns <= |polls|
    ensures forall k :: 0 <= k < turns - 1 ==> !polls[k].shouldClose
    ensures turns == |polls| || (0 < turns && polls[turns - 1].shouldClose)
  {
    var exit := false;
    var w, h := width, height;
    turns := 0;
    while !exit && turns < |polls|
      invariant turns <= |polls|
      invariant channel.pending == old(channel.pending) + PushedBy(width, height, polls, turns)
      invariant (w, h) == SizeBefore(width, height, polls, turns)
      invariant exit ==> turns > 0 && polls[turns - 1].shouldClose && OpenBefore(polls, turns - 1)
      invariant !exit ==> OpenBefore(polls, turns)
      decreases |polls| - turns
    {
      var p := polls[turns];
      exit := Turn(channel, w, h, p);
      ConcatAssoc(old(channel.pending), PushedBy(width, height, polls, turns), TurnEvents(w, h, p));
      w, h := p.width, p.height;
      turns := turns + 1;
    }
    PumpEnds(width, height, polls, turns);
    OpenBeforeMeans(polls, if exit then turns - 1 else turns);
    lastWidth, lastHeight := w, h;
  }

  // ---------------------------------------------------------------- lemmas

  /** One turn of `PumpEvents`: the callbacks' events, the checks' events, then those of the
      turns after it unless this one sees the close request. */
  lemma PumpStep(width: I32, height: I32, polls: seq<Poll>)
    requires polls != []
    ensures var p := polls[0];
      PumpEvents(width, height, polls)
      == (Callbacks(p.input) + Checks(width, height, p))
         + (if p.shouldClose then [] else PumpEvents(p.width, p.height, polls[1..]))
  {
  }

  /** While no turn has seen the close request, the pump's events are those the turns so far
      pushed followed by those the remaining turns push. */
  lemma {:induction false} PumpUnrolls(width: I32, height: I32, polls: seq<Poll>, k: nat)
    requires k <= |polls|
    requires OpenBefore(polls, k)
    ensures PumpEvents(width, height, polls)
            == PushedBy(width, height, polls, k)
               + PumpEvents(SizeBefore(width, height, polls, k).0, SizeBefore(width, height, polls, k).1, polls[k..])
    decreases k
  {
    if k == 0 {
      assert polls[0..] == polls;
    } else {
      PumpUnrolls(width, height, polls, k - 1);
      var s := SizeBefore(width, height, polls, k - 1);
      var p := polls[k - 1];
      assert polls[k - 1..][1..] == polls[k..];
      PumpStep(s.0, s.1, polls[k - 1..]);
      ConcatAssoc(PushedBy(width, height, polls, k - 1), TurnEvents(s.0, s.1, p), PumpEvents(p.width, p.height, polls[k..]));
    }
  }

  /** Concatenation is associative. */
  lemma ConcatAssoc<T>(a: seq<T>, b: seq<T>, c: seq<T>)
    ensures (a + b) + c == a + (b + c)
  {
  }

  /** While no turn has seen the close request, the size the pump sees last is the one the
      remaining turns end with. */
  lemma {:induction false} FinalSizeUnrolls(width: I32, height: I32, polls: seq<Poll>, k: nat)
    requires k <= |polls|
    requires OpenBefore(polls, k)
    ensures FinalSize(width, height, polls)
            == FinalSize(SizeBefore(width, height, polls, k).0, SizeBefore(width, height, polls, k).1, polls[k..])
    decreases k
  {
    if k == 0 {
      assert polls[0..] == polls;
    } else {
      FinalSizeUnrolls(width, height, polls, k - 1);
      assert polls[k - 1..][1..] == polls[k..];
    }
  }

  /** When the loop stops, the turns it ran pushed exactly `PumpEvents`, and the size it saw
      last is `FinalSize`. */
  lemma PumpEnds(width: I32, height: I32, polls: seq<Poll>, t: nat)
    requires t <= |polls|
    requires 0 < t && polls[t - 1].shouldClose ==> OpenBefore(polls, t - 1)
    requires !(0 < t && polls[t - 1].shouldClose) ==> t == |polls| && OpenBefore(polls, t)
    ensures PumpEvents(width, height, polls) == PushedBy(width, height, polls, t)
    ensures FinalSize(width, height, polls) == SizeBefore(width, height, polls, t)
  {
    if 0 < t && polls[t - 1].shouldClose {
      PumpUnrolls(width, height, polls, t - 1);
      FinalSizeUnrolls(width, height, polls, t - 1);
      var s := SizeBefore(width, height, polls, t - 1);
      assert polls[t - 1..][0] == polls[t - 1];
      PumpStep(s.0, s.1, polls[t - 1..]);
    } else {
      PumpUnrolls(width, height, polls, t);
      FinalSizeUnrolls(width, height, polls, t);
      assert polls[t..] == [];
    }
  }

  /** An Exit event is pushed exactly when some poll reports that the window should close. */
  lemma {:induction false} ExitPushedIffClose(width: I32, height: I32, polls: seq<Poll>)
    ensures Exit in PumpEvents(width, height, polls) <==> Closes(polls)
    decreases polls
  {
    if polls != [] {
      var p := polls[0];
      TurnEventsSpec(width, height, p);
      PumpStep(width, height, polls);
      ClosesStep(polls);
      if !p.shouldClose {
        ExitPushedIffClose(p.width, p.height, polls[1..]);
      }
    }
  }

  /** A nonempty run of polls closes when its first poll does or the rest close. */
  lemma ClosesStep(polls: seq<Poll>)
    requires polls != []
    ensures Closes(polls) <==> polls[0].shouldClose || Closes(polls[1..])
  {
    if Closes(polls) {
      var k :| 0 <= k < |polls| && polls[k].shouldClose;
      if k > 0 {
        assert polls[1..][k - 1].shouldClose;
      }
    }
    if Closes(polls[1..]) {
      var k :| 0 <= k < |polls[1..]| && polls[1..][k].shouldClose;
      assert polls[k + 1].shouldClose;
    }
  }

  /** Every Exit in `es` is its last event, or is followed only by a Resize. */
  predicate ExitLast(es: seq<Event>) {
    forall i :: 0 <= i < |es| && es[i] == Exit ==> i + 2 >= |es| && (i + 2 == |es| ==> es[|es| - 1].Resize?)
  }

  /** The Exit event comes last, or is followed only by the Resize of the same turn; so there
      is at most one. */
  lemma {:induction false} ExitComesLast(width: I32, height: I32, polls: seq<Poll>)
    ensures ExitLast(PumpEvents(width, height, polls))
    decreases polls
  {
    if polls != [] {
      var p := polls[0];
      var n := |p.input|;
      var turn := TurnEvents(width, height, p);
      var rest := if p.shouldClose then [] else PumpEvents(p.width, p.height, polls[1..]);
      var es := turn + rest;
      PumpStep(width, height, polls);
      assert PumpEvents(width, height, polls) == es;
      if p.shouldClose {
        ExitLastOfClosingTurn(width, height, p);
      } else {
        ExitComesLast(p.width, p.height, polls[1..]);
        TurnEventsSpec(width, height, p);
        forall i | 0 <= i < |es| && es[i] == Exit
          ensures i + 2 >= |es| && (i + 2 == |es| ==> es[|es| - 1].Resize?)
        {
          assert i >= |turn| by {
            if i < |turn| {
              assert false;
            }
          }
          var j := i - |turn|;
          assert 0 <= j < |rest| && rest[j] == Exit;
          assert es[|es| - 1] == rest[|rest| - 1];
        }
      }
    }
  }

  /** In the turn that sees the close request, only that turn's Resize can follow the Exit. */
  lemma ExitLastOfClosingTurn(width: I32, height: I32, p: Poll)
    requires p.shouldClose
    ensures ExitLast(TurnEvents(width, height, p))
  {
    var n := |p.input|;
    var cbs := Callbacks(p.input);
    var es := TurnEvents(width, height, p);
    CallbacksFromInput(p.input);
    assert es == cbs + Checks(width, height, p);
    forall k | 0 <= k < n
      ensures es[k] != Exit
    {
      assert es[k] == cbs[k] && cbs[k] in cbs;
    }
    assert forall k :: n < k < |es| ==> es[k].Resize?;
  }

  /** Each size in `rs` differs from the one before it, the first from `start`. */
  predicate NoRepeats(rs: seq<Size>, start: Size) {
    (|rs| > 0 ==> rs[0] != start) &&
    forall i, j :: 0 <= i < |rs| && j == i + 1 && j < |rs| ==> rs[i] != rs[j]
  }

  /** A size different from `start`, followed by sizes without repeats starting from it. */
  lemma NoRepeatsCons(s: Size, later: seq<Size>, start: Size)
    requires s != start && NoRepeats(later, s)
    ensures NoRepeats([s] + later, start)
  {
    var rs := [s] + later;
    forall i, j | 0 <= i < |rs| && j == i + 1 && j < |rs|
      ensures rs[i] != rs[j]
    {
      assert rs[j] == later[j - 1];
      if i > 0 {
        assert rs[i] == later[i - 1];
      }
    }
  }

  /** Every Resize the pump pushes carries a size different from the one before it (the first
      from the size the pump started with): a turn whose size did not change pushes nothing. */
  lemma {:induction false} NoRedundantResize(width: I32, height: I32, polls: seq<Poll>)
    ensures NoRepeats(Resets(PumpEvents(width, height, polls)), SizeOf(width, height))
    decreases polls
  {
    if polls != [] {
      var p := polls[0];
      var turn := TurnEvents(width, height, p);
      var rest := if p.shouldClose then [] else PumpEvents(p.width, p.height, polls[1..]);
      PumpStep(width, height, polls);
      assert PumpEvents(width, height, polls) == turn + rest;
      ResetsAppend(turn, rest);
      TurnEventsSpec(width, height, p);
      if !p.shouldClose {
        NoRedundantResize(p.width, p.height, polls[1..]);
      } else {
        assert Resets(rest) == [];
      }
      if p.width != width || p.height != height {
        SizeOfInjective(width, height, p.width, p.height);
        NoRepeatsCons(SizeOf(p.width, p.height), Resets(rest), SizeOf(width, height));
      } else {
        assert Resets(turn) + Resets(rest) == Resets(rest);
      }
    }
  }

  /** `LastSize` of a concatenation. */
  lemma {:induction false} LastSizeAppend(a: seq<Event>, b: seq<Event>, current: Size)
    ensures LastSize(a + b, current) == LastSize(b, LastSize(a, current))
    decreases |b|
  {
    if b == [] {
      assert a + b == a;
    } else {
      assert (a + b)[..|a + b| - 1] == a + b[..|b| - 1];
      LastSizeAppend(a, b[..|b| - 1], current);
    }
  }

  /** The callbacks' events leave the size as it was. */
  lemma {:induction false} CallbacksKeepSize(input: seq<Input>, current: Size)
    ensures LastSize(Callbacks(input), current) == current
    decreases |input|
  {
    if input != [] {
      var init := input[..|input| - 1];
      assert Callbacks(input)[..|input| - 1] == Callbacks(init);
      assert Callbacks(input)[|input| - 1] == Callback(input[|input| - 1]);
      CallbacksKeepSize(init, current);
    }
  }

  /** The last Resize the pump pushes carries the last size it saw. */
  lemma {:induction false} LastResizeIsFinalSize(width: I32, height: I32, polls: seq<Poll>)
    ensures LastSize(PumpEvents(width, height, polls), SizeOf(width, height))
            == SizeOf(FinalSize(width, height, polls).0, FinalSize(width, height, polls).1)
    decreases polls
  {
    if polls != [] {
      var p := polls[0];
      var start := SizeOf(width, height);
      var changed := p.width != width || p.height != height;
      var close: seq<Event> := if p.shouldClose then [Exit] else [];
      var resize := if changed then [Resize(ToU32(p.width), ToU32(p.height))] else [];
      var rest := if p.shouldClose then [] else PumpEvents(p.width, p.height, polls[1..]);
      var inputs := Callbacks(p.input);
      assert PumpEvents(width, height, polls) == ((inputs + close) + resize) + rest;
      LastSizeAppend((inputs + close) + resize, rest, start);
      LastSizeAppend(inputs + close, resize, start);
      LastSizeAppend(inputs, close, start);
      CallbacksKeepSize(p.input, start);
      assert LastSize(close, start) == start by {
        if p.shouldClose {
          assert close[..0] == [];
        }
      }
      assert resize != [] ==> resize[..0] == [];
      assert LastSize((inputs + close) + resize, start) == SizeOf(p.width, p.height);
      if !p.shouldClose {
        LastResizeIsFinalSize(p.width, p.height, polls[1..]);
      }
    }
  }

  /** The events among `es` that come from the input callbacks, in order. */
  function InputEvents(es: seq<Event>): seq<Event>
    decreases es
  {
    if es == [] then [] else (if FromInput(es[0]) then [es[0]] else []) + InputEvents(es[1..])
  }

  /** An event survives the filter exactly when it is among the events and comes from a
      callback. */
  lemma {:induction false} InputEventsMembers(es: seq<Event>)
    ensures forall e :: e in InputEvents(es) <==> e in es && FromInput(e)
    decreases es
  {
    if es != [] {
      InputEventsMembers(es[1..]);
      assert forall e :: e in es <==> e == es[0] || e in es[1..];
    }
  }

  /** `InputEvents` of a concatenation. */
  lemma {:induction false} InputEventsAppend(a: seq<Event>, b: seq<Event>)
    ensures InputEvents(a + b) == InputEvents(a) + InputEvents(b)
    decreases a
  {
    if a != [] {
      assert (a + b)[0] == a[0];
      assert (a + b)[1..] == a[1..] + b;
      InputEventsAppend(a[1..], b);
    } else {
      assert a + b == b;
    }
  }

  /** Events none of which comes from a callback leave nothing after the filter. */
  lemma {:induction false} InputEventsNone(es: seq<Event>)
    requires forall e :: e in es ==> !FromInput(e)
    ensures InputEvents(es) == []
    decreases es
  {
    if es != [] {
      assert es[0] in es;
      assert forall e :: e in es[1..] ==> e in es;
      InputEventsNone(es[1..]);
    }
  }

  /** `Callbacks` of a concatenation. */
  lemma {:induction false} CallbacksAppend(a: seq<Input>, b: seq<Input>)
    ensures Callbacks(a + b) == Callbacks(a) + Callbacks(b)
    decreases |b|
  {
    if b == [] {
      assert a + b == a;
    } else {
      var init := b[..|b| - 1];
      assert (a + b)[..|a + b| - 1] == a + init;
      CallbacksAppend(a, init);
    }
  }

  /** Every event a callback pushes survives the filter. */
  lemma {:induction false} InputEventsOfCallbacks(input: seq<Input>)
    ensures InputEvents(Callbacks(input)) == Callbacks(input)
    decreases |input|
  {
    if input != [] {
      var init, c := Callbacks(input[..|input| - 1]), Callback(input[|input| - 1]);
      InputEventsOfCallbacks(input[..|input| - 1]);
      InputEventsAppend(init, [c]);
      assert [c][1..] == [];
    }
  }

  /** The callbacks' events reach the queue in the order GLFW reported the input, and none is
      lost or added, up to the turn that sees the close request. */
  lemma {:induction false} InputPassesThrough(width: I32, height: I32, polls: seq<Poll>)
    ensures InputEvents(PumpEvents(width, height, polls)) == Callbacks(PolledInput(polls))
    decreases polls
  {
    if polls != [] {
      var p := polls[0];
      var cbs, checks := Callbacks(p.input), Checks(width, height, p);
      var rest := if p.shouldClose then [] else PumpEvents(p.width, p.height, polls[1..]);
      var later := if p.shouldClose then [] else PolledInput(polls[1..]);
      PumpStep(width, height, polls);
      InputEventsAppend(cbs + checks, rest);
      InputEventsAppend(cbs, checks);
      InputEventsOfCallbacks(p.input);
      InputEventsNone(checks);
      assert InputEvents(cbs + checks) == cbs;
      if !p.shouldClose {
        InputPassesThrough(p.width, p.height, polls[1..]);
      }
      assert InputEvents(rest) == Callbacks(later);
      assert PolledInput(polls) == p.input + later;
      CallbacksAppend(p.input, later);
    }
  }

  /** The two threads together, when the API thread drains everything the pump pushed: if it
      starts from the size the window had when it was launched, it then holds the last size the
      pump saw, and `exit` is set exactly when the window was asked to close or Escape was
      released. The API thread need not get that far (`ClosingResizeCanBeLost`). */
  lemma PumpThenDrain(width: I32, height: I32, polls: seq<Poll>)
    ensures var v := Drain(Initial(ToU32(width), ToU32(height)), PumpEvents(width, height, polls));
      (v.width, v.height) == SizeOf(FinalSize(width, height, polls).0, FinalSize(width, height, polls).1)
      && (v.exit <==> Closes(polls) || EscapeRelease in Callbacks(PolledInput(polls)))
  {
    var es := PumpEvents(width, height, polls);
    var v0 := Initial(ToU32(width), ToU32(height));
    DrainSize(v0, es);
    LastResizeIsFinalSize(width, height, polls);
    DrainExit(v0, es);
    ExitPushedIffClose(width, height, polls);
    InputPassesThrough(width, height, polls);
    InputEventsMembers(es);
    assert EscapeRelease in Callbacks(PolledInput(polls)) <==> EscapeRelease in es;
    if exists i :: 0 <= i < |es| && RequestsExit(es[i]) {
      var i :| 0 <= i < |es| && RequestsExit(es[i]);
      assert es[i] in es;
    }
    if Exit in es {
      var i :| 0 <= i < |es| && es[i] == Exit;
      assert RequestsExit(es[i]);
    }
    if EscapeRelease in es {
      var i :| 0 <= i < |es| && es[i] == EscapeRelease;
      assert RequestsExit(es[i]);
    }
  }

  /** Releasing Escape ends the API thread's loop although the window was not asked to close,
      so the pump goes on polling: the two loops stop on different conditions. */
  lemma EscapeStopsOnlyTheApiThread(width: I32, height: I32)
    ensures var polls := [Poll([KeyInput(KeyEscape, 0, Release, 0)], false, width, height)];
      !Closes(polls) && Drain(Initial(ToU32(width), ToU32(height)), PumpEvents(width, height, polls)).exit
  {
    var polls := [Poll([KeyInput(KeyEscape, 0, Release, 0)], false, width, height)];
    PumpThenDrain(width, height, polls);
    assert Callbacks(PolledInput(polls))[0] == EscapeRelease;
  }

  /** The API thread stops after the first frame whose drain sets `exit`. When that drain pops
      the closing turn's Exit before the same turn's Resize arrives, the Resize is never
      handled: the thread ends without the last size the pump saw. */
  lemma ClosingResizeCanBeLost()
    ensures var polls := [Poll([], true, 1, 2)];
      var batches := [[Exit], [Resize(1, 2)]];
      var v := ViewAfter(Initial(0, 0), batches, 1);
      Flatten(batches) == PumpEvents(0, 0, polls)
      && v.exit
      && (v.width, v.height) != SizeOf(FinalSize(0, 0, polls).0, FinalSize(0, 0, polls).1)
  {
    var batches := [[Exit], [Resize(1, 2)]];
    assert batches[..1] == [[Exit]];
    assert Flatten(batches) == [Exit] + [Resize(1, 2)];
  }
}
