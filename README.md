# Checkbox application model and keyboard modifier flags (vizia)

This project models two small parts of the vizia GUI toolkit in Dafny.

The first part is the application model of the checkbox example. `AppData` holds two `Options` records of three booleans each:

- `options` is a group of independent checkboxes;
- `exclusiveOptions` is a group where only one box can be checked and a checked box cannot be unchecked.

The model's `event` handler reacts to two events:

- `ToggleOption(i)` flips field `i` of `options`;
- `ToggleExclusiveOption(i)` makes field `i` of `exclusiveOptions` the only checked one.

Any index other than 0, 1 or 2 is ignored. So is a payload that is not an `AppEvent`.

How it is modelled:

- `AppData` is a class whose method `Event` updates its two fields in place, field by field, as the handler does.
- `Options` is a datatype, because the Rust struct is held by value.
- The method is proved against the pure function `Step`. `Run` folds `Step` over a sequence of events.
- Lemmas over `Step` and `Run` show involution, idempotence, the exclusive rule, and what any event sequence leaves behind.

The second part is the `Modifiers` flag set: SHIFT, CTRL, ALT and LOGO as single bits of a `u8` (`bv8` here). It includes the encoding of a set of modifier keys into a byte, which is proved injective.

## Model

| member | source | states |
|---|---|---|
| `Checkbox.Toggled` | examples/views/checkbox.rs:27-32 | for an index in {0,1,2} exactly that field of `options` is flipped and the other two are kept; any other index leaves the record unchanged |
| `Checkbox.Selected` | examples/views/checkbox.rs:34-53 | for an index in {0,1,2} that field is the only checked one of `exclusive_options`, whatever was checked before; any other index leaves the record unchanged |
| `Checkbox.OnlyChecked` | examples/views/checkbox.rs:35-51 | each of the three assignment blocks leaves exactly field `k` true and the others false |
| `Checkbox.Step` | examples/views/checkbox.rs:25-55 | a non-`AppEvent` payload changes nothing; `ToggleOption` never changes `exclusive_options`; `ToggleExclusiveOption` never changes `options` |
| `Checkbox.AppData.Event` | examples/views/checkbox.rs:24-56 | the handler's new state is `Step` of its old state, and it keeps "exactly one exclusive option checked" |
| `Checkbox.AppData.constructor` | examples/views/checkbox.rs:12-16 | builds an `AppData` holding the two given records |
| `Checkbox.RunAppend` | examples/views/checkbox.rs:24-56 | `Run` hands the events to the handler in order: running two batches one after the other equals running their concatenation |
| `Checkbox.ToggleInvolution` | examples/views/checkbox.rs:28-30 | applying `ToggleOption(i)` twice restores the whole state, for every index |
| `Checkbox.SelectIdempotent` | examples/views/checkbox.rs:34-53 | applying `ToggleExclusiveOption(i)` twice equals applying it once; selecting an option leaves it checked, so it cannot be unchecked |
| `Checkbox.StepKeepsExclusive` | examples/views/checkbox.rs:34-53 | no single event breaks "exactly one exclusive option checked" or "at most one checked" |
| `Checkbox.RunKeepsExactlyOne` | examples/views/checkbox.rs:25-55 | every event sequence keeps exactly one exclusive option checked, if exactly one is checked at the start |
| `Checkbox.RunKeepsAtMostOne` | examples/views/checkbox.rs:25-55 | every event sequence keeps at most one exclusive option checked, if at most one is checked at the start |
| `Checkbox.FromInitialExactlyOne` | examples/views/checkbox.rs:60-64 | from the state `main` builds, exactly one exclusive option is checked after every event sequence |
| `Checkbox.FromDefaultAtMostOne` | examples/views/checkbox.rs:3-16 | the derived default has no exclusive option checked, yet at most one stays checked over every event sequence |
| `Checkbox.RunTogglesByParity` | examples/views/checkbox.rs:27-32 | after any event sequence, option `k` of `options` has flipped exactly when `ToggleOption(k)` occurred an odd number of times |
| `Checkbox.RunSelectsLast` | examples/views/checkbox.rs:34-53 | after any event sequence, `exclusive_options` is decided by the last `ToggleExclusiveOption` with a known index alone; it is untouched if there was none |
| `Modifiers.Bit` | core/src/input/modifiers.rs:6-10 | each modifier's flag is a single bit of the `u8` and lies in bits 0-3 |
| `Modifiers.FlagValues` | core/src/input/modifiers.rs:7-10 | SHIFT, CTRL, ALT and LOGO are 1, 2, 4 and 8, each a single bit |
| `Modifiers.FlagsDisjoint` | core/src/input/modifiers.rs:7-10 | the AND of two flags is 0 exactly when the keys differ |
| `Modifiers.AllFlags` | core/src/input/modifiers.rs:6-10 | the OR of all four flags is 15, so bits 4-7 carry no modifier |
| `Modifiers.Encode` | core/src/input/modifiers.rs:6-10 | the byte of a set of keys has a key's bit set exactly when the key is in the set, and no bit in 4-7 |
| `Modifiers.Decode` | core/src/input/modifiers.rs:6-10 | the keys of a byte are exactly those whose flag bit is set; undefined bits are ignored |
| `Modifiers.DecodeEncode` | core/src/input/modifiers.rs:6-10 | decoding the byte of a set of keys gives back that set |
| `Modifiers.EncodeDecode` | core/src/input/modifiers.rs:6-10 | encoding the keys of a byte gives back the byte with its undefined bits cleared |
| `Modifiers.EncodeInjective` | core/src/input/modifiers.rs:6-10 | two sets of keys have the same byte if and only if they are equal |

## Left out

- `main` in examples/views/checkbox.rs is left out. It covers window creation, the `Label`/`HStack`/`VStack`/`Checkbox` view tree, float styling and the `on_toggle` callbacks that only emit events. This is UI and floating point. Only the initial state `main` builds is kept, as `Checkbox.Initial`.
- examples/custom_view.rs is not part of this model. It only builds views through shared builder closures.
- The `Context` handle, the event queue and its drain passes, lenses and binding rebuilds are left out. They are part of vizia's runtime, which this model does not cover. `Run` stands for handing the model a sequence of events in order.
- The typed payload match `event.map` is reduced to a closed datatype `Payload`. A payload is either an `AppEvent` or is not, and the second kind is ignored. Event propagation and consumption flags are not modelled.
- The empty `impl Model for Options {}` is left out. It has no behaviour.
- The union, intersection, `contains` and bits-from-raw conversions of `Modifiers` are left out. They are generated by the external `bitflags` crate, which is not modelled. `Encode` and `Decode` only describe which byte stands for which set of keys.
- The `u32` event index cannot wrap. The handler only compares it with 0, 1 and 2.
- The "exactly one exclusive option checked" rule needs a starting state where it already holds. `#[derive(Default)]` makes every exclusive option false. The rule then holds only after the first `ToggleExclusiveOption` with a known index (`Checkbox.FromDefaultAtMostOne`, `Checkbox.RunSelectsLast`). `main` avoids this by starting with option 1 checked.
