/** The application model of the checkbox example: two groups of three
    checkboxes, one group of independent toggles and one group of mutually
    exclusive options, and the event handler that updates them. */
module Checkbox {

  /** Rust's `u32`, the payload type of both event variants. */
  newtype u32 = x: int | 0 <= x < 0x1_0000_0000

  /** The `Options` record: three booleans, copied by value inside `AppData`. */
  datatype Options = Options(option1: bool, option2: bool, option3: bool)

  /** `Options::default()`, as `#[derive(Default)]` builds it. */
  const DefaultOptions: Options := Options(false, false, false)

  /** Field `k` of an `Options` record, for `k` in {0, 1, 2}. */
  function Field(o: Options, k: nat): bool
    requires k < 3
  {
    if k == 0 then o.option1 else if k == 1 then o.option2 else o.option3
  }

  /** The number of checked fields of an `Options` record. */
  function CheckedCount(o: Options): (n: nat)
    ensures n <= 3
  {
    (if o.option1 then 1 else 0) + (if o.option2 then 1 else 0) + (if o.option3 then 1 else 0)
  }

  /** The rule of the exclusive group: exactly one checkbox is checked. */
  predicate ExactlyOne(o: Options) {
    CheckedCount(o) == 1
  }

  predicate AtMostOne(o: Options) {
    CheckedCount(o) <= 1
  }

  /** The record whose only checked field is field `k`. */
  function OnlyChecked(k: nat): (o: Options)
    requires k < 3
    ensures forall j :: 0 <= j < 3 ==> Field(o, j) == (j == k)
    ensures ExactlyOne(o)
  {
    Options(k == 0, k == 1, k == 2)
  }

  /** The two event variants of `AppEvent`. */
  datatype AppEvent = ToggleOption(index: u32) | ToggleExclusiveOption(index: u32)

  /** The payload of an event handed to a model: either an `AppEvent` or
      something else, which the handler's typed `map` does not match. */
  datatype Payload = AppPayload(app: AppEvent) | OtherPayload

  datatype Option<T> = None | Some(value: T)

  /** The value held by an `AppData`. */
  datatype AppState = AppState(options: Options, exclusiveOptions: Options)

  /** The state `main` builds: the first option of each group checked. */
  const Initial: AppState := AppState(Options(true, false, false), Options(true, false, false))

  /** `ToggleOption(index)` applied to `options`: the field at a known
      index is flipped, every other field is kept; an unknown index is ignored. */
  function Toggled(o: Options, index: u32): (r: Options)
    ensures index < 3 ==> forall k :: 0 <= k < 3 ==> Field(r, k) == (Field(o, k) != (k == index as int))
    ensures index >= 3 ==> r == o
  {
    if index == 0 then o.(option1 := !o.option1)
    else if index == 1 then o.(option2 := !o.option2)
    else if index == 2 then o.(option3 := !o.option3)
    else o
  }

  /** `ToggleExclusiveOption(index)` applied to `exclusive_options`: a known
      index becomes the only checked field whatever was checked before; an
      unknown index is ignored. */
  function Selected(o: Options, index: u32): (r: Options)
    ensures index < 3 ==> forall k :: 0 <= k < 3 ==> Field(r, k) == (k == index as int)
    ensures index < 3 ==> ExactlyOne(r)
    ensures index >= 3 ==> r == o
  {
    if index < 3 then OnlyChecked(index as nat) else o
  }

  /** The effect of one call of the handler on the model's value. */
  function Step(s: AppState, event: Payload): (r: AppState)
    ensures event.OtherPayload? ==> r == s
    ensures event.AppPayload? && event.app.ToggleOption? ==>
              r.exclusiveOptions == s.exclusiveOptions && r.options == Toggled(s.options, event.app.index)
    ensures event.AppPayload? && event.app.ToggleExclusiveOption? ==>
              r.options == s.options && r.exclusiveOptions == Selected(s.exclusiveOptions, event.app.index)
  {
    match event
    case OtherPayload => s
    case AppPayload(ToggleOption(i)) => s.(options := Toggled(s.options, i))
    case AppPayload(ToggleExclusiveOption(i)) => s.(exclusiveOptions := Selected(s.exclusiveOptions, i))
  }

  /** The value after the handler has seen each event of `events` in order. */
  function Run(s: AppState, events: seq<Payload>): AppState
    decreases |events|
  {
    if events == [] then s else Run(Step(s, events[0]), events[1..])
  }

  /** How many events of `events` are `ToggleOption(k)`. */
  function ToggleCount(events: seq<Payload>, k: nat): nat
    decreases |events|
  {
    if events == [] then 0
    else (if k < 3 && events[0] == AppPayload(ToggleOption(k as u32)) then 1 else 0) + ToggleCount(events[1..], k)
  }

  /** The index of the last `ToggleExclusiveOption` of `events` whose index
      the handler knows, if there is one. */
  function LastSelection(events: seq<Payload>): (r: Option<nat>)
    ensures r.Some? ==> r.value < 3
    decreases |events|
  {
    if events == [] then None
    else
      var later := LastSelection(events[1..]);
      if later.Some? then later
      else if events[0].AppPayload? && events[0].app.ToggleExclusiveOption? && events[0].app.index < 3
      then Some(events[0].app.index as nat)
      else None
  }

  /** Handing the model two batches of events one after the other is the
      same as handing it their concatenation: events are seen in order. */
  lemma {:induction false} RunAppend(s: AppState, first: seq<Payload>, second: seq<Payload>)
    ensures Run(s, first + second) == Run(Run(s, first), second)
    decreases |first|
  {
    if first != [] {
      assert (first + second)[1..] == first[1..] + second;
      RunAppend(Step(s, first[0]), first[1..], second);
    } else {
      assert first + second == second;
    }
  }

  /** Toggling the same option twice restores the state. */
  lemma ToggleInvolution(s: AppState, index: u32)
    ensures Step(Step(s, AppPayload(ToggleOption(index))), AppPayload(ToggleOption(index))) == s
  {
  }

  /** Selecting the same exclusive option twice is the same as selecting it
      once; in particular a checked exclusive option cannot be unchecked. */
  lemma SelectIdempotent(s: AppState, index: u32)
    ensures Step(Step(s, AppPayload(ToggleExclusiveOption(index))), AppPayload(ToggleExclusiveOption(index)))
         == Step(s, AppPayload(ToggleExclusiveOption(index)))
    ensures index < 3 ==> Field(Step(s, AppPayload(ToggleExclusiveOption(index))).exclusiveOptions, index as nat)
  {
  }

  /** No single event breaks the exclusive rule, nor lets more than one
      exclusive option be checked. */
  lemma StepKeepsExclusive(s: AppState, event: Payload)
    ensures ExactlyOne(s.exclusiveOptions) ==> ExactlyOne(Step(s, event).exclusiveOptions)
    ensures AtMostOne(s.exclusiveOptions) ==> AtMostOne(Step(s, event).exclusiveOptions)
  {
  }

  /** Every sequence of events keeps exactly one exclusive option checked
      once exactly one is. */
  lemma {:induction false} RunKeepsExactlyOne(s: AppState, events: seq<Payload>)
    requires ExactlyOne(s.exclusiveOptions)
    ensures ExactlyOne(Run(s, events).exclusiveOptions)
    decreases |events|
  {
    if events != [] {
      StepKeepsExclusive(s, events[0]);
      RunKeepsExactlyOne(Step(s, events[0]), events[1..]);
    }
  }

  /** Every sequence of events keeps at most one exclusive option checked,
      starting from any state where at most one is. */
  lemma {:induction false} RunKeepsAtMostOne(s: AppState, events: seq<Payload>)
    requires AtMostOne(s.exclusiveOptions)
    ensures AtMostOne(Run(s, events).exclusiveOptions)
    decreases |events|
  {
    if events != [] {
      StepKeepsExclusive(s, events[0]);
      RunKeepsAtMostOne(Step(s, events[0]), events[1..]);
    }
  }

  /** From the state `main` builds, exactly one exclusive option is checked
      after every sequence of events. */
  lemma FromInitialExactlyOne(events: seq<Payload>)
    ensures ExactlyOne(Run(Initial, events).exclusiveOptions)
  {
    RunKeepsExactlyOne(Initial, events);
  }

  /** From the derived default state no exclusive option is checked, so
      "exactly one" needs a first selection; "at most one" holds throughout. */
  lemma FromDefaultAtMostOne(events: seq<Payload>)
    ensures !ExactlyOne(DefaultOptions)
    ensures AtMostOne(Run(AppState(DefaultOptions, DefaultOptions), events).exclusiveOptions)
  {
    RunKeepsAtMostOne(AppState(DefaultOptions, DefaultOptions), events);
  }

  /** After any sequence of events, option `k` of the independent group is
      flipped exactly when `ToggleOption(k)` occurred an odd number of times. */
  lemma {:induction false} RunTogglesByParity(s: AppState, events: seq<Payload>, k: nat)
    requires k < 3
    ensures Field(Run(s, events).options, k) == (Field(s.options, k) != (ToggleCount(events, k) % 2 == 1))
    decreases |events|
  {
    if events != [] {
      RunTogglesByParity(Step(s, events[0]), events[1..], k);
    }
  }

  /** After any sequence of events, the exclusive group is decided by the
      last known selection alone, and is untouched when there was none. */
  lemma {:induction false} RunSelectsLast(s: AppState, events: seq<Payload>)
    ensures Run(s, events).exclusiveOptions ==
              match LastSelection(events)
              case None => s.exclusiveOptions
              case Some(k) => OnlyChecked(k)
    decreases |events|
  {
    if events != [] {
      RunSelectsLast(Step(s, events[0]), events[1..]);
    }
  }

  /** `AppData`, whose handler updates its two records in place. */
  class AppData {
    var options: Options
    var exclusiveOptions: Options

    constructor (options: Options, exclusiveOptions: Options)
      ensures this.options == options && this.exclusiveOptions == exclusiveOptions
    {
      this.options := options;
      this.exclusiveOptions := exclusiveOptions;
    }

    function State(): AppState
      reads this
    {
      AppState(options, exclusiveOptions)
    }

    /** The handler `event`: a `ToggleOption` flips one field of `options`,
        a `ToggleExclusiveOption` makes one field of `exclusiveOptions` the
        only checked one; unknown indices and other payloads change nothing. */
    method Event(event: Payload)
      modifies this
      ensures State() == Step(old(State()), event)
      ensures ExactlyOne(old(exclusiveOptions)) ==> ExactlyOne(exclusiveOptions)
    {
      match event {
      case OtherPayload =>
      case AppPayload(ToggleOption(index)) =>
        // `^= true` negates the field.
        if index == 0 {
          options := options.(option1 := options.option1 != true);
        } else if index == 1 {
          options := options.(option2 := options.option2 != true);
        } else if index == 2 {
          options := options.(option3 := options.option3 != true);
        }
      case AppPayload(ToggleExclusiveOption(index)) =>
        if index == 0 {
          exclusiveOptions := exclusiveOptions.(option1 := true);
          exclusiveOptions := exclusiveOptions.(option2 := false);
          exclusiveOptions := exclusiveOptions.(option3 := false);
        } else if index == 1 {
          exclusiveOptions := exclusiveOptions.(option1 := false);
          exclusiveOptions := exclusiveOptions.(option2 := true);
          exclusiveOptions := exclusiveOptions.(option3 := false);
        } else if index == 2 {
          exclusiveOptions := exclusiveOptions.(option1 := false);
          exclusiveOptions := exclusiveOptions.(option2 := false);
          exclusiveOptions := exclusiveOptions.(option3 := true);
        }
      }
      StepKeepsExclusive(old(State()), event);
    }
  }

  /** What a caller can conclude from `Event`'s contract alone. */
  method Scenario()
  {
    var app := new AppData(DefaultOptions, Options(true, false, false));
    app.Event(AppPayload(ToggleOption(1)));
    assert app.options == Options(false, true, false);
    app.Event(AppPayload(ToggleExclusiveOption(2)));
    assert app.exclusiveOptions == Options(false, false, true);
    assert app.options == Options(false, true, false);
    app.Event(AppPayload(ToggleExclusiveOption(2)));
    assert app.exclusiveOptions == Options(false, false, true);
    app.Event(AppPayload(ToggleOption(7)));
    app.Event(OtherPayload);
    assert app.State() == AppState(Options(false, true, false), Options(false, false, true));
  }
}
