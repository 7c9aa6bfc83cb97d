# DatePickerInput text/value synchronisation, in Dafny

This project models the text input of the react-widgets date picker
(`DatePickerInput`). The input keeps a free-text buffer that the user edits,
and reconciles it with a controlled `Date | null` value. The model keeps:

- the canonical text derived from the props (`nextTextValue`): `""` for a
  missing value, a value that is not a `Date`, or an invalid `Date`, and
  otherwise the localizer's `formatDate` with the edit format or the display
  format, depending on `editing`;
- the three pieces of state kept across render passes: the `needsFlush` ref,
  the `prevValue` state (the last canonical text seen, or null) and the
  `textValue` state (the displayed buffer);
- the four transitions: mount, a render pass (re-sync when the canonical
  text changed), a text change (`handleChange`) and a blur (`handleBlur`).

Files:

- `wrappers.dfy`: `Option`, standing for `T | null`.
- `dates.dfy`: `Date` as `ValidDate(epochMs) | InvalidDate`, `IsValid`
  (`!isNaN(d.getTime())`) and `IsNullOrInvalid`.
- `date_picker.dfy`: the props, the canonical text, the state machine as pure
  step functions (`Mount`, `RenderStep`, `ChangeStep`, `BlurStep`, fold
  `Run`), and the class `DatePickerInput`. Its fields are `prevValue`,
  `textValue` and `needsFlush`. Its constructor and its methods `Render`,
  `Change` and `Blur` update those fields. Each is proved equal to the
  matching step function.
- `sync_properties.dfy`: lemmas about single steps and about whole runs of
  events, and a client method that drives the class.

The collaborators are fields of the `Props` record, with function types:
`formatDate(date, formatter, format)` and `parse(text)`. They are left
uninterpreted. `hasOnBlur` says whether an `onBlur` handler was passed.
Calls made to collaborators are returned as a list of effects, in order:
`OnBlurCalled`, `ParseCalled(text)` and `OnChangeCalled(date, raw)`.
The text a blur parses and reports is the buffer `textValue`. The component
binds the field's `value` to `textValue`, so `event.target.value` is that
text when the blur fires.

A render pass is one atomic step. `setPrevValue`/`setTextValue` during
render make React re-render at once with the new state; the model applies
the update and returns the text shown.

A pending edit is not protected. One might expect `needsFlush` to keep an
edited buffer from being overwritten before the next commit, for instance
when `editing` is switched mid-edit. The code does not do that: its re-sync
(`DatePickerInput.tsx:57-60`) does not look at `needsFlush`. When the
canonical text changes, it overwrites the buffer even while an edit is
pending, and `needsFlush` stays up. The next blur then parses and reports
the canonical text that replaced the typed text, not the typed text. The
model follows the code. `SyncProperties.MidEditModeSwitchOverwrites` shows
the overwrite on a concrete input, and `SyncProperties.OverwrittenEditIsCommitted`
the commit that follows it.

`isNullOrInvalid` is imported from the `./dates` module, which is not part of this
model. Going by its name and its use, it is modelled as "null, or a date
that is not valid".

## Model

| member | source | states |
|---|---|---|
| `DatePicker.CanonicalText` | packages/react-widgets/src/DatePickerInput.tsx:42-52 | `""` when the value is missing, not a `Date`, or an invalid `Date`; otherwise `formatDate(value, formatter, editing ? editFormat : displayFormat)` |
| `Dates.IsValid` | packages/react-widgets/src/DatePickerInput.tsx:104-106 | a date is valid exactly when it is not an Invalid Date (NaN time) |
| `DatePicker.Mount` | packages/react-widgets/src/DatePickerInput.tsx:40-55 | on mount both `prevValue` and `textValue` hold the initial canonical text, `needsFlush` is false, and the invariant holds |
| `DatePicker.RenderStep` | packages/react-widgets/src/DatePickerInput.tsx:57-60 | afterwards `prevValue` is the current canonical text; the buffer is kept when `prevValue` already equalled it and replaced by it otherwise; `needsFlush` is untouched; the invariant is preserved |
| `DatePicker.ChangeStep` | packages/react-widgets/src/DatePickerInput.tsx:79-82 | the raw text becomes the buffer verbatim, `needsFlush` is set, `prevValue` is untouched (and the step has no effects) |
| `DatePicker.BlurStep` | packages/react-widgets/src/DatePickerInput.tsx:62-77 | `onBlur` comes first exactly when a handler was passed, and is called at most once (the call list has one entry for `onBlur` if passed plus two for a commit); `parse` and `onChange` are each called once when `needsFlush` was up and never otherwise; the last two calls are `parse(text)` then `onChange(parse(text), text)`; `needsFlush` ends false; a clean blur changes nothing; a commit sets `prevValue` to null; only non-empty text whose parse is null or invalid clears the buffer |
| `DatePicker.DatePickerInput.constructor` | packages/react-widgets/src/DatePickerInput.tsx:40-55 | the fields hold the mount state |
| `DatePicker.DatePickerInput.Render` | packages/react-widgets/src/DatePickerInput.tsx:57-60 | the fields change as `RenderStep` says; the text shown is the buffer, which is the canonical text whenever no edit is pending |
| `DatePicker.DatePickerInput.Change` | packages/react-widgets/src/DatePickerInput.tsx:79-82 | the fields change as `ChangeStep` says |
| `DatePicker.DatePickerInput.Blur` | packages/react-widgets/src/DatePickerInput.tsx:62-77 | the fields and the returned calls are those of `BlurStep`; a clean blur returns only the `onBlur` notice and leaves the object unchanged |
| `SyncProperties.RenderIdempotent` | packages/react-widgets/src/DatePickerInput.tsx:57-60 | a second render with unchanged props changes nothing |
| `SyncProperties.CleanRenderShowsCanonical` | packages/react-widgets/src/DatePickerInput.tsx:54-60 | with no edit pending, a render leaves the buffer equal to the canonical text |
| `SyncProperties.RenderAfterCommitOverwrites` | packages/react-widgets/src/DatePickerInput.tsx:57-75 | after a committing blur `prevValue` is null, so the next render always sets the buffer to its canonical text, `""` included |
| `SyncProperties.RunPreservesInv` | packages/react-widgets/src/DatePickerInput.tsx:54-82 | every sequence of renders, changes and blurs keeps the invariant "flag down and canonical text recorded implies the buffer shows it" |
| `SyncProperties.MountedCleanRenderShowsCanonical` | packages/react-widgets/src/DatePickerInput.tsx:54-82 | after mount and any run of events, a render with no edit pending shows the canonical text |
| `SyncProperties.OnChangeBoundedByKeystrokes` | packages/react-widgets/src/DatePickerInput.tsx:62-82 | over any run, the `onChange` calls plus the edit still pending never exceed the keystrokes plus the edit pending at the start |
| `SyncProperties.ParseOncePerOnChange` | packages/react-widgets/src/DatePickerInput.tsx:65-75 | over any run, `parse` is called exactly as often as `onChange` |
| `SyncProperties.NoKeystrokeNoCommit` | packages/react-widgets/src/DatePickerInput.tsx:40-75 | from mount, a run with no keystroke never calls `parse` or `onChange` |
| `SyncProperties.TypeThenBlur` | packages/react-widgets/src/DatePickerInput.tsx:62-82 | typing a text then blurring calls `onBlur` (if passed), then `parse(text)`, then `onChange(parse(text), text)`; the buffer keeps the text unless it is non-empty and does not parse to a valid date, in which case it becomes `""` |
| `SyncProperties.MidEditModeSwitchOverwrites` | packages/react-widgets/src/DatePickerInput.tsx:42-60 | typing "Jan" and then rendering in display mode replaces the typed text by the display text and the flag stays up; a render with unchanged props keeps "Jan" |
| `SyncProperties.OverwrittenEditIsCommitted` | packages/react-widgets/src/DatePickerInput.tsx:57-75 | when a render overwrites a pending edit, the next blur parses and reports the canonical text that replaced it, not the typed text |

## Left out

- React mechanics: `useMemo` dependency tracking, `useState` batching, `forwardRef` and the JSX at `DatePickerInput.tsx:84-96`. A render pass is one atomic step, and the canonical text is recomputed on every render (memoisation does not change its value).
- `localizer.formatDate`, `parse` and `isNullOrInvalid` are not implemented. The first two are uninterpreted function parameters. The third is "null or not valid", because the `./dates` module is not part of this model.
- The round trip `parse(format(d)) == d` is a property of the caller's collaborators, which are uninterpreted here, so it is not stated.
- JavaScript `Date`/`getTime()` floating-point semantics: validity is a constructor tag, not a NaN test.
- `event.target.value`: a blur reads the buffer `textValue` instead, which is the value the controlled input displays.
- What the caller does inside `onChange`/`onBlur`, such as passing a new `value`. Those changes arrive as the props of the next `Render` event.
- `disabled`, `readOnly` and the other props forwarded to the rendered input: they do not affect the state machine.
- `Input.tsx`, `CalendarButton.tsx` and `InputAddon.tsx`: stateless presentation wrappers with no logic to verify.
