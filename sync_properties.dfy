/** Properties of the synchronisation state machine over single transitions
    and over whole runs of render, change and blur events. */
module SyncProperties {
  import opened Wrappers
  import opened Dates
  import opened DatePicker

  /** Number of text-change events in a run. */
  function CountChanges<Fmt, Fmtr>(events: seq<Event<Fmt, Fmtr>>): nat {
    if events == [] then 0
    else (if events[0].ChangeEv? then 1 else 0) + CountChanges(events[1..])
  }

  /** Rendering twice with the same props is rendering once. */
  lemma RenderIdempotent<Fmt, Fmtr>(s: State, p: Props<Fmt, Fmtr>)
    ensures RenderStep(RenderStep(s, p), p) == RenderStep(s, p)
  {
  }

  /** In a state that keeps the invariant and has no pending edit, a render
      pass leaves the buffer showing the canonical text. */
  lemma CleanRenderShowsCanonical<Fmt, Fmtr>(s: State, p: Props<Fmt, Fmtr>)
    requires Inv(s) && !s.needsFlush
    ensures RenderStep(s, p).textValue == CanonicalText(p)
  {
  }

  /** After a committing blur the recorded canonical text is forgotten, so the
      next render overwrites the buffer with the canonical text of whatever
      props it sees, even when that text is "" and equals a cleared buffer. */
  lemma RenderAfterCommitOverwrites<Fmt, Fmtr>(s: State, p: Props<Fmt, Fmtr>, q: Props<Fmt, Fmtr>)
    requires s.needsFlush
    ensures BlurStep(s, p).next.prevValue == None
    ensures RenderStep(BlurStep(s, p).next, q) == State(Some(CanonicalText(q)), CanonicalText(q), false)
  {
  }

  lemma ApplyPreservesInv<Fmt, Fmtr>(s: State, e: Event<Fmt, Fmtr>)
    requires Inv(s)
    ensures Inv(Apply(s, e).next)
  {
  }

  /** Every run keeps the invariant. */
  lemma {:induction false} RunPreservesInv<Fmt, Fmtr>(s: State, events: seq<Event<Fmt, Fmtr>>)
    requires Inv(s)
    ensures Inv(Run(s, events).next)
    decreases |events|
  {
    if events != [] {
      ApplyPreservesInv(s, events[0]);
      RunPreservesInv(Apply(s, events[0]).next, events[1..]);
    }
  }

  /** From mount, whatever happened before, a render while no edit is pending
      shows the canonical text. */
  lemma MountedCleanRenderShowsCanonical<Fmt, Fmtr>(p0: Props<Fmt, Fmtr>, events: seq<Event<Fmt, Fmtr>>, p: Props<Fmt, Fmtr>)
    requires !Run(Mount(p0), events).next.needsFlush
    ensures RenderStep(Run(Mount(p0), events).next, p).textValue == CanonicalText(p)
  {
    RunPreservesInv(Mount(p0), events);
    CleanRenderShowsCanonical(Run(Mount(p0), events).next, p);
  }

  lemma ApplyCounts<Fmt, Fmtr>(s: State, e: Event<Fmt, Fmtr>)
    ensures CountOnChange(Apply(s, e).effects) == CountParse(Apply(s, e).effects)
    ensures CountOnChange(Apply(s, e).effects) + Flag(Apply(s, e).next.needsFlush)
            <= (if e.ChangeEv? then 1 else 0) + Flag(s.needsFlush)
  {
  }

  /** `onChange` fires only for an edit: over any run, the commits emitted
      plus the edit still pending at the end never exceed the keystrokes
      plus the edit pending at the start. */
  lemma {:induction false} OnChangeBoundedByKeystrokes<Fmt, Fmtr>(s: State, events: seq<Event<Fmt, Fmtr>>)
    ensures CountOnChange(Run(s, events).effects) + Flag(Run(s, events).next.needsFlush)
            <= CountChanges(events) + Flag(s.needsFlush)
    decreases |events|
  {
    if events != [] {
      var first := Apply(s, events[0]);
      var rest := Run(first.next, events[1..]);
      ApplyCounts(s, events[0]);
      OnChangeBoundedByKeystrokes(first.next, events[1..]);
      CountAppend(first.effects, rest.effects);
    }
  }

  /** Over any run, `parse` is called exactly as often as `onChange`. */
  lemma {:induction false} ParseOncePerOnChange<Fmt, Fmtr>(s: State, events: seq<Event<Fmt, Fmtr>>)
    ensures CountParse(Run(s, events).effects) == CountOnChange(Run(s, events).effects)
    decreases |events|
  {
    if events != [] {
      var first := Apply(s, events[0]);
      var rest := Run(first.next, events[1..]);
      ApplyCounts(s, events[0]);
      ParseOncePerOnChange(first.next, events[1..]);
      CountAppend(first.effects, rest.effects);
    }
  }

  /** Tabbing through a freshly mounted input, with any number of renders and
      blurs but no keystroke, never emits `onChange` nor calls `parse`. */
  lemma NoKeystrokeNoCommit<Fmt, Fmtr>(p0: Props<Fmt, Fmtr>, events: seq<Event<Fmt, Fmtr>>)
    requires CountChanges(events) == 0
    ensures CountOnChange(Run(Mount(p0), events).effects) == 0
    ensures CountParse(Run(Mount(p0), events).effects) == 0
  {
    OnChangeBoundedByKeystrokes(Mount(p0), events);
    ParseOncePerOnChange(Mount(p0), events);
  }

  /** A run of two events is the two transitions one after the other. */
  lemma RunTwo<Fmt, Fmtr>(s: State, e1: Event<Fmt, Fmtr>, e2: Event<Fmt, Fmtr>)
    ensures Run(s, [e1, e2]) ==
      Step(Apply(Apply(s, e1).next, e2).next, Apply(s, e1).effects + Apply(Apply(s, e1).next, e2).effects)
  {
    var events := [e1, e2];
    var mid := Apply(s, e1);
    assert events[1..] == [e2];
    assert events[1..][1..] == [];
    assert Run(mid.next, events[1..]) == Step(Apply(mid.next, e2).next, Apply(mid.next, e2).effects + []);
    assert Apply(mid.next, e2).effects + [] == Apply(mid.next, e2).effects;
  }

  /** Typing a text and leaving the field: `onBlur`, then one `parse` of the
      typed text, then `onChange(parsed, typed)`; the buffer keeps the text
      unless it is non-empty and does not parse to a valid date. */
  lemma TypeThenBlur<Fmt, Fmtr>(s: State, text: string, p: Props<Fmt, Fmtr>)
    ensures Run(s, [ChangeEv(text), BlurEv(p)]) ==
      Step(State(None, if text != "" && IsNullOrInvalid(p.parse(text)) then "" else text, false),
           BlurNotice(p) + [ParseCalled(text), OnChangeCalled(p.parse(text), text)])
  {
    RunTwo(s, ChangeEv(text), BlurEv(p));
    assert [] + BlurStep(ChangeStep(s, text), p).effects == BlurStep(ChangeStep(s, text), p).effects;
  }

  /** The buffer can be overwritten while an edit is pending: typing "Jan" in
      editing mode and then rendering in display mode replaces the typed text
      by the display-format text, and the flush flag stays up. Rendering with
      unchanged props instead keeps "Jan". */
  lemma MidEditModeSwitchOverwrites()
    ensures
      var p := Props(ADate(ValidDate(0)), (), true, "edit", "display",
                     (d: Date, f: (), fmt: string) => fmt, (t: string) => None, false);
      && Run(Mount(p), [ChangeEv("Jan"), RenderEv(p)]).next.textValue == "Jan"
      && Run(Mount(p), [ChangeEv("Jan"), RenderEv(p.(editing := false))]).next
         == State(Some("display"), "display", true)
  {
    var p := Props(ADate(ValidDate(0)), (), true, "edit", "display",
                   (d: Date, f: (), fmt: string) => fmt, (t: string) => None, false);
    var q := p.(editing := false);
    assert CanonicalText(p) == "edit";
    assert CanonicalText(q) == "display";
    RunTwo(Mount(p), ChangeEv("Jan"), RenderEv(p));
    RunTwo(Mount(p), ChangeEv("Jan"), RenderEv(q));
  }

  /** When a render overwrites a pending edit, the flag stays up, so the next
      blur parses and reports the canonical text that replaced the typed text,
      not the typed text. */
  lemma OverwrittenEditIsCommitted<Fmt, Fmtr>(s: State, q: Props<Fmt, Fmtr>)
    requires s.needsFlush && s.prevValue != Some(CanonicalText(q))
    ensures BlurStep(RenderStep(s, q), q).effects ==
      BlurNotice(q) + [ParseCalled(CanonicalText(q)), OnChangeCalled(q.parse(CanonicalText(q)), CanonicalText(q))]
  {
  }

  /** A client of the class: text that does not parse is reported to the
      caller with its raw text, the buffer is cleared, and the next render
      shows the canonical text again. */
  method RejectedTextScenario()
  {
    var p := Props(Missing, (), false, "edit", "display",
                   (d: Date, f: (), fmt: string) => fmt, (t: string) => None, true);
    var input := new DatePickerInput(p);
    var shown := input.Render(p);
    assert shown == "";
    input.Change("not a date");
    shown := input.Render(p);
    assert shown == "not a date";
    var effects := input.Blur(p);
    assert effects == [OnBlurCalled, ParseCalled("not a date"), OnChangeCalled(None, "not a date")];
    assert input.textValue == "" && input.prevValue == None;
    effects := input.Blur(p);
    assert effects == [OnBlurCalled];
    shown := input.Render(p);
    assert shown == "" && input.prevValue == Some("");
  }
}
