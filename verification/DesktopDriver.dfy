/** One shared desktop: operations run one after another, and a mutating one must quote the
    screenshot its bot has just taken. Steps are the stretches between awaits. */
module DesktopDriver {
  import opened Options

  type Bot = string

  datatype Operation =
    | Screenshot
    | Click(x: int, y: int)
    | Type(text: string)
    | Key(keys: seq<string>, valid: bool)
    | Scroll(known: bool, amount: int)

  /** `actor` is the bot id; `blank`: it is empty after trimming. */
  datatype Request = Request(operation: Operation, actor: Bot, blank: bool, expected: Option<nat>)

  /** What the running operation awaits: nothing is running, its turn is granted but not looked at, the
      caller's check, the screen size, the screenshot, or the action itself. */
  datatype Phase = Idle | Asserting | Sizing | Shooting | Acting

  /** What the SDK and the callers see. */
  datatype Entry =
    | Start(operation: Operation)
    | Finish
    | Shot(bot: Bot, revision: nat)
    | Act(bot: Bot, quoted: nat)
    | CloseResolved

  /** `requests`: every call so far, in the order of the tail chain; the first `released` have ended.
      `closing`: for each unresolved close, the number of calls whose end it awaits. */
  datatype State = State(
    requests: seq<Request>, released: nat, phase: Phase, revision: nat, observer: Option<Bot>, closed: bool,
    closing: set<nat>, log: seq<Entry>)

  const START := State([], 0, Idle, 0, None, false, {}, [])

  const TEXT_MAX_LENGTH := 4000
  const SCROLL_MAX_AMOUNT := 10
  const SCREEN_MAX_DIMENSION := 4096

  datatype Event =
    | Execute(request: Request)
    | Granted
    | Asserted(ok: bool)
    | Sized(ok: bool, width: int, height: int)
    | Screenshotted(ok: bool)
    | Acted(ok: bool)
    | Close
    | ResolveClose(calls: nat)

  predicate Mutating(r: Request) {
    !r.operation.Screenshot?
  }

  /** The checks made when the previous operation has ended. */
  predicate Refused(s: State, r: Request) {
    || s.closed || r.blank
    || (r.expected.Some? && r.expected.value != s.revision)
    || (Mutating(r) && (r.expected.None? || s.observer != Some(r.actor)))
  }

  predicate Within(value: int, low: int, high: int) {
    low <= value <= high
  }

  predicate ArgumentsValid(operation: Operation) {
    match operation
    case Type(text) => 0 < |text| <= TEXT_MAX_LENGTH
    case Key(keys, valid) => 0 < |keys| <= 3 && valid
    case Scroll(known, amount) => known && Within(amount, 1, SCROLL_MAX_AMOUNT)
    case _ => true
  }

  predicate OnScreen(operation: Operation, width: int, height: int)
    requires operation.Click?
  {
    && Within(width, 1, SCREEN_MAX_DIMENSION) && Within(height, 1, SCREEN_MAX_DIMENSION)
    && Within(operation.x, 0, width - 1) && Within(operation.y, 0, height - 1)
  }

  /** The finally block: the next call's turn. */
  function Ended(s: State): State {
    s.(phase := Idle, released := s.released + 1)
  }

  /** `markAttempted` and the SDK call it guards. */
  function Attempt(s: State, r: Request): State
    requires r.expected.Some?
  {
    s.(phase := Acting, log := s.log + [Act(r.actor, r.expected.value), Start(r.operation)])
  }

  function OnGranted(s: State): State {
    if s.phase != Idle || s.released >= |s.requests| then s
    else if Refused(s, s.requests[s.released]) then Ended(s)
    else s.(phase := Asserting)
  }

  function OnAsserted(s: State, ok: bool): State {
    if s.phase != Asserting || s.released >= |s.requests| then s
    else
      var r := s.requests[s.released];
      if !ok then Ended(s)
      else if r.operation.Screenshot? then s.(phase := Shooting, log := s.log + [Start(r.operation)])
      else if r.operation.Click? then s.(phase := Sizing, log := s.log + [Start(r.operation)])
      else if ArgumentsValid(r.operation) && r.expected.Some? then Attempt(s, r)
      else Ended(s)
  }

  function OnSized(s: State, ok: bool, width: int, height: int): State {
    if s.phase != Sizing || s.released >= |s.requests| then s
    else
      var r, measured := s.requests[s.released], s.(log := s.log + [Finish]);
      if ok && r.operation.Click? && OnScreen(r.operation, width, height) && r.expected.Some? then Attempt(measured, r) else Ended(measured)
  }

  function OnScreenshotted(s: State, ok: bool): State {
    if s.phase != Shooting || s.released >= |s.requests| then s
    else
      var r, taken := s.requests[s.released], s.(log := s.log + [Finish]);
      if ok then Ended(taken.(revision := s.revision + 1, observer := Some(r.actor), log := taken.log + [Shot(r.actor, s.revision + 1)]))
      else Ended(taken)
  }

  /** Attempted: the revision moves on whether or not the action succeeded. */
  function OnActed(s: State, ok: bool): State {
    if s.phase != Acting then s
    else Ended(s.(revision := s.revision + 1, observer := None, log := s.log + [Finish]))
  }

  function Step(s: State, e: Event): State {
    match e
    case Execute(request) => s.(requests := s.requests + [request])
    case Granted => OnGranted(s)
    case Asserted(ok) => OnAsserted(s, ok)
    case Sized(ok, width, height) => OnSized(s, ok, width, height)
    case Screenshotted(ok) => OnScreenshotted(s, ok)
    case Acted(ok) => OnActed(s, ok)
    case Close => s.(closed := true, closing := s.closing + {|s.requests|})
    case ResolveClose(calls) =>
      if calls in s.closing && s.released >= calls then s.(closing := s.closing - {calls}, log := s.log + [CloseResolved]) else s
  }

  class E2BDesktopDriver {
    var requests: seq<Request>
    var released: nat
    var phase: Phase
    var revision: nat
    var observationBotId: Option<Bot>
    var closed: bool
    var closing: set<nat>
    ghost var log: seq<Entry>

    ghost function Now(): State
      reads this
    {
      State(requests, released, phase, revision, observationBotId, closed, closing, log)
    }

    constructor ()
      ensures Now() == START
    {
      requests, released, phase, revision, observationBotId, closed, closing, log := [], 0, Idle, 0, None, false, {}, [];
    }

    /** `execute` up to `await previous`. */
    method Execute(request: Request)
      modifies this`requests
      ensures Now() == Step(old(Now()), Event.Execute(request))
    {
      requests := requests + [request];
    }

    /** The finally block. */
    method Release()
      modifies this`phase, this`released
      ensures Now() == Ended(old(Now()))
    {
      phase := Idle;
      released := released + 1;
    }

    method Proceed()
      requires phase == Idle && released < |requests|
      modifies this`phase, this`released
      ensures Now() == Step(old(Now()), Granted)
    {
      var r := requests[released];
      if closed || r.blank || (r.expected.Some? && r.expected.value != revision) { Release(); return; }
      if !r.operation.Screenshot? {
        if r.expected.None? || observationBotId != Some(r.actor) { Release(); return; }
      }
      phase := Asserting;
    }

    method MarkAttempted()
      requires released < |requests| && requests[released].expected.Some?
      modifies this`phase, this`log
      ensures Now() == Attempt(old(Now()), requests[released])
    {
      phase := Acting;
      log := log + [Act(requests[released].actor, requests[released].expected.value), Start(requests[released].operation)];
    }

    method ExecuteOperation(ok: bool)
      requires phase == Asserting && released < |requests| && (Mutating(requests[released]) ==> requests[released].expected.Some?)
      modifies this`phase, this`released, this`log
      ensures Now() == Step(old(Now()), Asserted(ok))
    {
      var r := requests[released];
      if !ok { Release(); return; }
      match r.operation {
        case Screenshot =>
          phase := Shooting;
          log := log + [Start(r.operation)];
        case Click(_, _) =>
          phase := Sizing;
          log := log + [Start(r.operation)];
        case Type(text) => if |text| == 0 || |text| > TEXT_MAX_LENGTH { Release(); } else { MarkAttempted(); }
        case Key(keys, valid) => if |keys| == 0 || |keys| > 3 || !valid { Release(); } else { MarkAttempted(); }
        case Scroll(known, amount) => if !known || !Within(amount, 1, SCROLL_MAX_AMOUNT) { Release(); } else { MarkAttempted(); }
      }
    }

    method MeasuredScreen(ok: bool, width: int, height: int)
      requires phase == Sizing && released < |requests| && requests[released].operation.Click? && requests[released].expected.Some?
      modifies this`phase, this`released, this`log
      ensures Now() == Step(old(Now()), Sized(ok, width, height))
    {
      log := log + [Finish];
      if ok && OnScreen(requests[released].operation, width, height) { MarkAttempted(); } else { Release(); }
    }

    method ScreenshotReturned(ok: bool)
      requires phase == Shooting && released < |requests|
      modifies this
      ensures Now() == Step(old(Now()), Screenshotted(ok))
    {
      log := log + [Finish];
      if ok {
        revision := revision + 1;
        observationBotId := Some(requests[released].actor);
        log := log + [Shot(requests[released].actor, revision)];
      }
      Release();
    }

    method ActionReturned(ok: bool)
      requires phase == Acting
      modifies this
      ensures Now() == Step(old(Now()), Acted(ok))
    {
      log := log + [Finish];
      revision := revision + 1;
      observationBotId := None;
      Release();
    }

    method CloseDriver()
      modifies this`closed, this`closing
      ensures Now() == Step(old(Now()), Close)
    {
      closed := true;
      closing := closing + {|requests|};
    }
  }
}
