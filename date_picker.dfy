/** The text/value synchronisation of the date picker's text input: a text
    buffer the user edits, reconciled with a controlled `Date | null` value. */
module DatePicker {
  import opened Wrappers
  import opened Dates

  /** The `value` prop: absent (`null` or `undefined`), something that is not
      a `Date` instance, or a `Date`. */
  datatype DateProp = Missing | NotADate | ADate(date: Date)

  /** The props the state machine reads. `Fmt` is the localizer's format type
      and `Fmtr` the formatter capability, both opaque here. The localizer's
      `formatDate` and the caller's `parse` are uninterpreted functions;
      `hasOnBlur` says whether an `onBlur` handler was passed. */
  datatype Props<!Fmt, !Fmtr> = Props(
    value: DateProp,
    formatter: Fmtr,
    editing: bool,
    editFormat: Fmt,
    displayFormat: Fmt,
    formatDate: (Date, Fmtr, Fmt) -> string,
    parse: string -> Option<Date>,
    hasOnBlur: bool)

  /** The format that is canonical in the current mode. */
  function SelectedFormat<Fmt, Fmtr>(p: Props<Fmt, Fmtr>): Fmt {
    if p.editing then p.editFormat else p.displayFormat
  }

  /** `value instanceof Date && isValid(value)`. */
  predicate HoldsValidDate(v: DateProp) {
    v.ADate? && IsValid(v.date)
  }

  /** The canonical text derived from the props (`nextTextValue`). */
  function CanonicalText<Fmt, Fmtr>(p: Props<Fmt, Fmtr>): (r: string)
    ensures !HoldsValidDate(p.value) ==> r == ""
    ensures HoldsValidDate(p.value) ==> r == p.formatDate(p.value.date, p.formatter, SelectedFormat(p))
  {
    match p.value
    case ADate(d) =>
      if IsValid(d) then p.formatDate(d, p.formatter, SelectedFormat(p))
      else ""
    case _ => ""
  }

  /** The persistent state of one mounted input: the `prevValue` and
      `textValue` state hooks and the `needsFlush` ref. */
  datatype State = State(prevValue: Option<string>, textValue: string, needsFlush: bool)

  /** What the machine does to its collaborators, in order. */
  datatype Effect =
    | OnBlurCalled
    | ParseCalled(input: string)
    | OnChangeCalled(date: Option<Date>, rawValue: string)

  /** A new state together with the effects the transition produced. */
  datatype Step = Step(next: State, effects: seq<Effect>)

  /** The external events that drive the machine. A blur carries the props of
      the render whose handler is attached to the input. */
  datatype Event<!Fmt, !Fmtr> =
    | RenderEv(props: Props<Fmt, Fmtr>)
    | ChangeEv(text: string)
    | BlurEv(props: Props<Fmt, Fmtr>)

  function CountOnChange(effects: seq<Effect>): nat {
    if effects == [] then 0
    else (if effects[0].OnChangeCalled? then 1 else 0) + CountOnChange(effects[1..])
  }

  function CountParse(effects: seq<Effect>): nat {
    if effects == [] then 0
    else (if effects[0].ParseCalled? then 1 else 0) + CountParse(effects[1..])
  }

  lemma {:induction false} CountAppend(a: seq<Effect>, b: seq<Effect>)
    ensures CountOnChange(a + b) == CountOnChange(a) + CountOnChange(b)
    ensures CountParse(a + b) == CountParse(a) + CountParse(b)
  {
    if a == [] {
      assert a + b == b;
    } else {
      assert (a + b)[1..] == a[1..] + b;
      CountAppend(a[1..], b);
    }
  }

  function Flag(b: bool): nat {
    if b then 1 else 0
  }

  /** Whenever the flush flag is down and a canonical text has been recorded,
      the buffer shows that text. */
  ghost predicate Inv(s: State) {
    !s.needsFlush && s.prevValue.Some? ==> s.textValue == s.prevValue.value
  }

  /** The state on mount: both state hooks start at the canonical text and the
      ref starts at `false`. */
  function Mount<Fmt, Fmtr>(p: Props<Fmt, Fmtr>): (s: State)
    ensures !s.needsFlush && Inv(s)
    ensures s.prevValue == Some(s.textValue) && s.textValue == CanonicalText(p)
  {
    var text := CanonicalText(p);
    State(Some(text), text, false)
  }

  /** A render pass: when the recorded canonical text differs from the current
      one, both state hooks are reset to it. The flush flag is not consulted,
      so a buffer being edited is overwritten as well. */
  function RenderStep<Fmt, Fmtr>(s: State, p: Props<Fmt, Fmtr>): (t: State)
    ensures t.prevValue == Some(CanonicalText(p))
    ensures s.prevValue == Some(CanonicalText(p)) ==> t.textValue == s.textValue
    ensures s.prevValue != Some(CanonicalText(p)) ==> t.textValue == CanonicalText(p)
    ensures t.needsFlush == s.needsFlush
    ensures Inv(s) ==> Inv(t)
  {
    var next := CanonicalText(p);
    if s.prevValue != Some(next) then s.(prevValue := Some(next), textValue := next) else s
  }

  /** A text-change event: the raw text goes into the buffer verbatim and the
      flush flag goes up; nothing is parsed and nothing is emitted. */
  function ChangeStep(s: State, text: string): (t: State)
    ensures t.textValue == text && t.needsFlush
    ensures t.prevValue == s.prevValue
  {
    s.(needsFlush := true, textValue := text)
  }

  function BlurNotice<Fmt, Fmtr>(p: Props<Fmt, Fmtr>): seq<Effect> {
    if p.hasOnBlur then [OnBlurCalled] else []
  }

  /** A blur event. `onBlur` is forwarded first. With the flush flag up, the
      buffer is parsed once, a non-empty text whose parse is null or invalid
      clears the buffer, the flag goes down, the recorded canonical text is
      forgotten and `onChange(parsed, raw)` is emitted whatever the parse
      gave. With the flag down nothing else happens. The text handed to
      `parse` is the buffer, which the controlled input displays. */
  function BlurStep<Fmt, Fmtr>(s: State, p: Props<Fmt, Fmtr>): (r: Step)
    ensures p.hasOnBlur <==> |r.effects| > 0 && r.effects[0] == OnBlurCalled
    ensures |r.effects| == Flag(p.hasOnBlur) + 2 * Flag(s.needsFlush)
    ensures CountOnChange(r.effects) == Flag(s.needsFlush)
    ensures CountParse(r.effects) == Flag(s.needsFlush)
    ensures !r.next.needsFlush
    ensures !s.needsFlush ==> r.next == s
    ensures s.needsFlush ==>
      && |r.effects| >= 2
      && r.effects[|r.effects| - 1] == OnChangeCalled(p.parse(s.textValue), s.textValue)
      && r.effects[|r.effects| - 2] == ParseCalled(s.textValue)
      && r.next.prevValue == None
    ensures s.needsFlush && s.textValue != "" && IsNullOrInvalid(p.parse(s.textValue)) ==> r.next.textValue == ""
    ensures !(s.textValue != "" && IsNullOrInvalid(p.parse(s.textValue))) ==> r.next.textValue == s.textValue
  {
    var notice := BlurNotice(p);
    if !s.needsFlush then
      Step(s, notice)
    else
      var raw := s.textValue;
      var date := p.parse(raw);
      var dateIsInvalid := raw != "" && IsNullOrInvalid(date);
      var text := if dateIsInvalid then "" else raw;
      var calls := [ParseCalled(raw), OnChangeCalled(date, raw)];
      CountAppend(notice, calls);
      assert CountOnChange(calls) == 1 && CountParse(calls) == 1 by {
        assert calls[1..][1..] == [];
      }
      Step(State(None, text, false), notice + calls)
  }

  /** One event applied to a state. */
  function Apply<Fmt, Fmtr>(s: State, e: Event<Fmt, Fmtr>): Step {
    match e
    case RenderEv(p) => Step(RenderStep(s, p), [])
    case ChangeEv(text) => Step(ChangeStep(s, text), [])
    case BlurEv(p) => BlurStep(s, p)
  }

  /** A sequence of events applied in order; the effects are concatenated. */
  function Run<Fmt, Fmtr>(s: State, events: seq<Event<Fmt, Fmtr>>): Step
    decreases |events|
  {
    if events == [] then Step(s, [])
    else
      var first := Apply(s, events[0]);
      var rest := Run(first.next, events[1..]);
      Step(rest.next, first.effects + rest.effects)
  }

  /** The mounted component. Its three fields are the state the source keeps
      across render passes. */
  class DatePickerInput<Fmt, Fmtr> {
    var prevValue: Option<string>
    var textValue: string
    var needsFlush: bool

    function Snapshot(): State
      reads this
    {
      State(prevValue, textValue, needsFlush)
    }

    ghost predicate Valid()
      reads this
    {
      Inv(Snapshot())
    }

    constructor (p: Props<Fmt, Fmtr>)
      ensures Valid()
      ensures Snapshot() == Mount(p)
      ensures prevValue == Some(CanonicalText(p)) && textValue == CanonicalText(p) && !needsFlush
    {
      var text := CanonicalText(p);
      needsFlush := false;
      prevValue := Some(text);
      textValue := text;
    }

    /** A render pass; `shown` is the value bound to the text field. */
    method Render(p: Props<Fmt, Fmtr>) returns (shown: string)
      requires Valid()
      modifies this
      ensures Valid()
      ensures Snapshot() == RenderStep(old(Snapshot()), p)
      ensures prevValue == Some(CanonicalText(p))
      ensures textValue == if old(prevValue) == Some(CanonicalText(p)) then old(textValue) else CanonicalText(p)
      ensures needsFlush == old(needsFlush)
      ensures shown == textValue
      ensures !needsFlush ==> shown == CanonicalText(p)
    {
      var next := CanonicalText(p);
      if prevValue != Some(next) {
        prevValue := Some(next);
        textValue := next;
      }
      shown := textValue;
    }

    /** `handleChange`. */
    method Change(text: string)
      requires Valid()
      modifies this
      ensures Valid()
      ensures Snapshot() == ChangeStep(old(Snapshot()), text)
      ensures textValue == text && needsFlush && prevValue == old(prevValue)
    {
      needsFlush := true;
      textValue := text;
    }

    /** `handleBlur`; `effects` lists the calls made, in order. */
    method Blur(p: Props<Fmt, Fmtr>) returns (effects: seq<Effect>)
      requires Valid()
      modifies this
      ensures Valid()
      ensures Step(Snapshot(), effects) == BlurStep(old(Snapshot()), p)
      ensures !old(needsFlush) ==> effects == BlurNotice(p) && unchanged(this)
      ensures old(needsFlush) ==>
        && effects == BlurNotice(p) + [ParseCalled(old(textValue)), OnChangeCalled(p.parse(old(textValue)), old(textValue))]
        && !needsFlush && prevValue == None
        && textValue == (if old(textValue) != "" && IsNullOrInvalid(p.parse(old(textValue))) then "" else old(textValue))
    {
      effects := BlurNotice(p);
      if needsFlush {
        var raw := textValue;
        var date := p.parse(raw);
        var dateIsInvalid := raw != "" && IsNullOrInvalid(date);
        if dateIsInvalid {
          textValue := "";
        }
        needsFlush := false;
        prevValue := None;
        effects := effects + [ParseCalled(raw), OnChangeCalled(date, raw)];
      }
    }
  }
}
