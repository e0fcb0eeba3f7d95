/** The state logic of a controller (filter) widget: which values it offers, how a submitted
    form value becomes the widget's `controllerValues`, how a date pick becomes its
    `controllerDate`, how each change is committed to the board, and which input control
    its facade type selects, with the value the form starts from. */
module ControllerWidgetCore {
  import opened Options
  import opened JsValues
  import opened Widgets
  import opened Board

  // ---------------------------------------------------------------------------
  // Option resolution

  /** `rows?.flat(2) || []`: the query result rows flattened two levels deep. */
  function DataRows(rows: Option<seq<JsValue>>): (r: seq<JsValue>)
    ensures rows.None? ==> r == []
    ensures rows.Some? ==> Leaves(r) == Leaves(rows.value)
  {
    match rows
    case None => []
    case Some(xs) => FlatKeepsLeaves(xs, 2); Flat(xs, 2)
  }

  /** The selectable options: one `{key: v, label: v}` per flattened row value in "common"
      mode, the configured list in "custom" mode, none otherwise. */
  function OptionRows(valueOptionType: string, valueOptions: seq<FilterValueOption>,
                      rows: Option<seq<JsValue>>): (r: seq<FilterValueOption>)
    ensures valueOptionType == "common" ==>
              |r| == |DataRows(rows)| &&
              forall i :: 0 <= i < |r| ==> r[i].key == DataRows(rows)[i] && r[i].caption == DataRows(rows)[i]
    ensures valueOptionType == "custom" ==> r == valueOptions
    ensures valueOptionType != "common" && valueOptionType != "custom" ==> r == []
  {
    var dataRows := DataRows(rows);
    if valueOptionType == "common" then
      seq(|dataRows|, i requires 0 <= i < |dataRows| => FilterValueOption(dataRows[i], dataRows[i]))
    else if valueOptionType == "custom" then
      valueOptions
    else
      []
  }

  function Keys(options: seq<FilterValueOption>): (r: seq<JsValue>)
    ensures |r| == |options| && forall i :: 0 <= i < |r| ==> r[i] == options[i].key
  {
    seq(|options|, i requires 0 <= i < |options| => options[i].key)
  }

  /** In "common" mode, when rows nest no deeper than two levels (rows of cells, possibly
      with array cells), the option keys are exactly the scalars of the rows, left to right,
      duplicates kept; absent rows give no options. */
  lemma CommonOptionsAreRowScalars(valueOptions: seq<FilterValueOption>, rows: Option<seq<JsValue>>)
    requires rows.Some? ==> NestedAtMost(rows.value, 2)
    ensures Keys(OptionRows("common", valueOptions, rows)) == (if rows.Some? then Leaves(rows.value) else [])
  {
    if rows.Some? {
      FlatCompletes(rows.value, 2);
    }
  }

  /** In "custom" mode the query rows play no part. */
  lemma CustomOptionsIgnoreRows(valueOptions: seq<FilterValueOption>, rows1: Option<seq<JsValue>>,
                                rows2: Option<seq<JsValue>>)
    ensures OptionRows("custom", valueOptions, rows1) == OptionRows("custom", valueOptions, rows2) == valueOptions
  { }

  // ---------------------------------------------------------------------------
  // Submission normalisation and commits

  /** `onFinish`'s treatment of the submitted field value: `None` when it is rejected. */
  function Normalise(submitted: JsValue): (r: Option<seq<JsValue>>)
    ensures r.None? <==> submitted.Obj?
    ensures submitted.Arr? ==> r == Some(submitted.items)
    ensures Truthy(submitted) && !submitted.Arr? && !submitted.Obj? ==> r == Some([submitted])
    ensures !Truthy(submitted) ==> r == Some([])
  {
    if Truthy(submitted) && TypeOf(submitted) == "object" && !submitted.Arr? then None
    else if Truthy(submitted) then (if submitted.Arr? then Some(submitted.items) else Some([submitted]))
    else Some([])
  }

  /** Normalising is idempotent: re-submitting a committed list as an array gives it back. */
  lemma NormaliseIdempotent(submitted: JsValue)
    requires Normalise(submitted).Some?
    ensures Normalise(Arr(Normalise(submitted).value)) == Normalise(submitted)
  { }

  /** The widget `onFinish` commits, or `None` when the submission is rejected. */
  function FinishedWidget(widget: Widget, submitted: JsValue): (r: Option<Widget>)
    requires IsControllerWidget(widget)
    ensures r.None? <==> submitted.Obj?
    ensures r.Some? ==> IsControllerWidget(r.value) && SameOutsideConfig(widget, r.value)
    ensures r.Some? ==>
              ControllerConfigOf(r.value) == ControllerConfigOf(widget).(controllerValues := Normalise(submitted).value)
  {
    match Normalise(submitted)
    case None => None
    case Some(values) => Some(WithControllerValues(widget, values))
  }

  /** Persist `next`, then refresh the widgets that depend on its filter. */
  method Commit(board: BoardActions, next: Widget)
    modifies board
    ensures board.calls == old(board.calls) + CommitCalls(next)
  {
    board.WidgetUpdate(next);
    board.RefreshWidgetsByFilter(next);
  }

  /** `onFinish`: a rejected submission makes no call at all; any other commits the widget
      with its new `controllerValues`. */
  method OnFinish(board: BoardActions, widget: Widget, submitted: JsValue)
    requires IsControllerWidget(widget)
    modifies board
    ensures submitted.Obj? ==> board.calls == old(board.calls)
    ensures !submitted.Obj? ==> board.calls == old(board.calls) + CommitCalls(FinishedWidget(widget, submitted).value)
  {
    var values := Normalise(submitted);
    if values.None? {
      return;
    }
    var nextWidget := WithControllerValues(widget, values.value);
    Commit(board, nextWidget);
  }

  /** A bound set to an exact value; any relative expression is dropped. */
  function ExactBound(value: Option<string>): (b: TimeBound)
    ensures b.relativeOrExact == Exact && b.exactValue == value && b.relativeValue.None?
  {
    TimeBound(Exact, value, None)
  }

  /** `{...controllerDate}`: spreading an absent date gives an empty object. */
  function SpreadDate(date: Option<ControllerDate>): (r: ControllerDate)
    ensures date.Some? ==> r == date.value
    ensures date.None? ==> r.pickerType.None? && r.startTime.None? && r.endTime.None?
  {
    date.GetOr(ControllerDate(None, None, None))
  }

  /** `timeValues?.[i]`. */
  function TimeAt(timeValues: Option<seq<string>>, i: nat): (r: Option<string>)
    ensures r.Some? <==> timeValues.Some? && i < |timeValues.value|
    ensures r.Some? ==> r.value == timeValues.value[i]
  {
    if timeValues.Some? && i < |timeValues.value| then Some(timeValues.value[i]) else None
  }

  /** The date a range-time pick produces: both bounds exact, the picker type kept. */
  function RangeTimeDate(date: Option<ControllerDate>, timeValues: Option<seq<string>>): (r: ControllerDate)
    ensures r.pickerType == SpreadDate(date).pickerType
    ensures r.startTime == Some(ExactBound(TimeAt(timeValues, 0)))
    ensures r.endTime == Some(ExactBound(TimeAt(timeValues, 1)))
  {
    SpreadDate(date).(startTime := Some(ExactBound(TimeAt(timeValues, 0))),
                      endTime := Some(ExactBound(TimeAt(timeValues, 1))))
  }

  /** The date a single-time pick produces: only the start bound changes, to exact. */
  function TimeDate(date: Option<ControllerDate>, value: Option<string>): (r: ControllerDate)
    ensures r.(startTime := SpreadDate(date).startTime) == SpreadDate(date)
    ensures r.startTime == Some(ExactBound(value))
  {
    SpreadDate(date).(startTime := Some(ExactBound(value)))
  }

  /** `onRangeTimeChange`: commits the widget with its new range date. */
  method OnRangeTimeChange(board: BoardActions, widget: Widget, timeValues: Option<seq<string>>)
    requires IsControllerWidget(widget)
    modifies board
    ensures board.calls == old(board.calls) +
              CommitCalls(WithControllerDate(widget, Some(RangeTimeDate(ControllerConfigOf(widget).controllerDate, timeValues))))
  {
    var nextFilterDate := RangeTimeDate(ControllerConfigOf(widget).controllerDate, timeValues);
    var nextWidget := WithControllerDate(widget, Some(nextFilterDate));
    Commit(board, nextWidget);
  }

  /** `onTimeChange`: commits the widget with its new start date. */
  method OnTimeChange(board: BoardActions, widget: Widget, value: Option<string>)
    requires IsControllerWidget(widget)
    modifies board
    ensures board.calls == old(board.calls) +
              CommitCalls(WithControllerDate(widget, Some(TimeDate(ControllerConfigOf(widget).controllerDate, value))))
  {
    var nextFilterDate := TimeDate(ControllerConfigOf(widget).controllerDate, value);
    var nextWidget := WithControllerDate(widget, Some(nextFilterDate));
    Commit(board, nextWidget);
  }

  // ---------------------------------------------------------------------------
  // Slider defaults

  /** `sliderConfig?.step || 1`. */
  function SliderStep(sliderConfig: Option<SliderConfig>): (r: JsValue)
    ensures Truthy(r)
    ensures sliderConfig.Some? && Truthy(sliderConfig.value.step) ==> r == sliderConfig.value.step
    ensures !(sliderConfig.Some? && Truthy(sliderConfig.value.step)) ==> r == Num(1.0)
  {
    Or(if sliderConfig.Some? then sliderConfig.value.step else Undefined, Num(1.0))
  }

  /** `sliderConfig?.showMarks || false`. */
  function SliderShowMarks(sliderConfig: Option<SliderConfig>): (r: JsValue)
    ensures Truthy(r) || r == Bool(false)
    ensures sliderConfig.Some? && Truthy(sliderConfig.value.showMarks) ==> r == sliderConfig.value.showMarks
    ensures !(sliderConfig.Some? && Truthy(sliderConfig.value.showMarks)) ==> r == Bool(false)
  {
    Or(if sliderConfig.Some? then sliderConfig.value.showMarks else Undefined, Bool(false))
  }

  /** `v === 0 ? 0 : v || fallback`: zero is kept, any other falsy value is replaced. */
  function BoundOr(v: JsValue, fallback: real): (r: JsValue)
    ensures v == Num(0.0) ==> r == Num(0.0)
    ensures Truthy(v) ==> r == v
    ensures !Truthy(v) && v != Num(0.0) ==> r == Num(fallback)
  {
    if v == Num(0.0) then Num(0.0) else Or(v, Num(fallback))
  }

  /** The slider's minimum: a configured 0 is kept, any other falsy value becomes 1. */
  function SliderMin(config: ControllerConfig): (r: JsValue)
    ensures r == Num(0.0) || Truthy(r)
    ensures config.minValue == Num(0.0) || Truthy(config.minValue) ==> r == config.minValue
    ensures !Truthy(config.minValue) && config.minValue != Num(0.0) ==> r == Num(1.0)
  {
    BoundOr(config.minValue, 1.0)
  }

  /** The slider's maximum: a configured 0 is kept, any other falsy value becomes 100. */
  function SliderMax(config: ControllerConfig): (r: JsValue)
    ensures r == Num(0.0) || Truthy(r)
    ensures config.maxValue == Num(0.0) || Truthy(config.maxValue) ==> r == config.maxValue
    ensures !Truthy(config.maxValue) && config.maxValue != Num(0.0) ==> r == Num(100.0)
  {
    BoundOr(config.maxValue, 100.0)
  }

  // ---------------------------------------------------------------------------
  // Facade dispatch

  /** `{value, label}` for an input primitive (`caption` is the TypeScript `label`). */
  datatype ControlOption = ControlOption(value: JsValue, caption: JsValue)

  /** Which callback the control reports changes to. */
  datatype ChangeHandler = SubmitForm | RangeTimeChange | TimeChange

  /** The input control rendered, with the props the controller widget passes it. */
  datatype ControlForm =
    | SelectControllerForm(options: seq<ControlOption>)
    | MultiSelectControllerForm(options: seq<ControlOption>)
    | SlideControllerForm(minValue: JsValue, maxValue: JsValue, step: JsValue, showMarks: JsValue)
    | NumberControllerForm
    | RangeNumberControllerForm
    | TextControllerForm
    | RadioGroupControllerForm(radioButtonType: JsValue, options: seq<ControlOption>)
    | RangeTimeControllerForm(pickerType: Option<string>)
    | TimeControllerForm(pickerType: Option<string>)

  /** A control, the handler it reports to, and the value the form field is set to. */
  datatype Control = Control(form: ControlForm, onChange: ChangeHandler, fieldValue: JsValue)

  /** `options.map(o => ({value: o.key, label: o.label}))`. */
  function ToControlOptions(options: seq<FilterValueOption>): (r: seq<ControlOption>)
    ensures |r| == |options|
    ensures forall i :: 0 <= i < |r| ==> r[i].value == options[i].key && r[i].caption == options[i].caption
  {
    seq(|options|, i requires 0 <= i < |options| => ControlOption(options[i].key, options[i].caption))
  }

  predicate IsDateFacade(facadeType: FacadeType) {
    facadeType.RangeTime? || facadeType.Time?
  }

  predicate IsSingleValueFacade(facadeType: FacadeType) {
    facadeType.DropdownList? || facadeType.Slider? || facadeType.Value? || facadeType.Text? || facadeType.RadioGroup?
  }

  predicate IsMultiValueFacade(facadeType: FacadeType) {
    facadeType.MultiDropdownList? || facadeType.RangeValue?
  }

  /** The input primitive that serves each known facade type. */
  predicate Serves(form: ControlForm, facadeType: FacadeType) {
    match form
    case SelectControllerForm(_) => facadeType.DropdownList?
    case MultiSelectControllerForm(_) => facadeType.MultiDropdownList?
    case SlideControllerForm(_, _, _, _) => facadeType.Slider?
    case NumberControllerForm => facadeType.Value?
    case RangeNumberControllerForm => facadeType.RangeValue?
    case TextControllerForm => facadeType.Text?
    case RadioGroupControllerForm(_, _) => facadeType.RadioGroup?
    case RangeTimeControllerForm(_) => facadeType.RangeTime?
    case TimeControllerForm(_) => facadeType.Time?
  }

  /** The `control` switch. `dateValuesOf` is the date resolver the widget calls for date
      facades (its definition is not part of this model); those facades need a date. */
  function DeriveControl(facadeType: FacadeType, config: ControllerConfig, optionRows: seq<FilterValueOption>,
                         dateValuesOf: (string, ControllerDate) -> seq<JsValue>): (r: Option<Control>)
    requires IsDateFacade(facadeType) ==> config.controllerDate.Some?
    ensures r.None? <==> facadeType.OtherFacade?
    ensures r.Some? ==> Serves(r.value.form, facadeType)
    ensures IsSingleValueFacade(facadeType) ==> r.Some? && r.value.fieldValue == At(config.controllerValues, 0)
    ensures IsMultiValueFacade(facadeType) ==> r.Some? && r.value.fieldValue == Arr(config.controllerValues)
    ensures r.Some? ==> (r.value.onChange == SubmitForm <==> !IsDateFacade(facadeType))
    ensures facadeType.RangeTime? ==> r.Some? && r.value.onChange == RangeTimeChange
    ensures facadeType.Time? ==> r.Some? && r.value.onChange == TimeChange
    ensures r.Some? && (r.value.form.SelectControllerForm? || r.value.form.MultiSelectControllerForm?
                        || r.value.form.RadioGroupControllerForm?) ==>
              r.value.form.options == ToControlOptions(optionRows)
    ensures facadeType.RadioGroup? ==> r.Some? && r.value.form.radioButtonType == config.radioButtonType
    ensures facadeType.Slider? ==>
              r.Some? && r.value.form == SlideControllerForm(SliderMin(config), SliderMax(config),
                                                             SliderStep(config.sliderConfig),
                                                             SliderShowMarks(config.sliderConfig))
    ensures facadeType.RangeTime? ==>
              r.Some? && r.value.form == RangeTimeControllerForm(config.controllerDate.value.pickerType)
    ensures facadeType.Time? ==>
              r.Some? && r.value.form == TimeControllerForm(config.controllerDate.value.pickerType)
    ensures facadeType.RangeTime? ==>
              r.Some? && r.value.fieldValue == Arr(dateValuesOf(config.valueOptionType, config.controllerDate.value))
    ensures facadeType.Time? ==>
              r.Some? && r.value.fieldValue == At(dateValuesOf(config.valueOptionType, config.controllerDate.value), 0)
  {
    var selectOptions := ToControlOptions(optionRows);
    var first := At(config.controllerValues, 0);
    match facadeType
    case DropdownList => Some(Control(SelectControllerForm(selectOptions), SubmitForm, first))
    case MultiDropdownList =>
      Some(Control(MultiSelectControllerForm(selectOptions), SubmitForm, Arr(config.controllerValues)))
    case Slider =>
      var form := SlideControllerForm(SliderMin(config), SliderMax(config),
                                      SliderStep(config.sliderConfig), SliderShowMarks(config.sliderConfig));
      Some(Control(form, SubmitForm, first))
    case Value => Some(Control(NumberControllerForm, SubmitForm, first))
    case RangeValue => Some(Control(RangeNumberControllerForm, SubmitForm, Arr(config.controllerValues)))
    case Text => Some(Control(TextControllerForm, SubmitForm, first))
    case RadioGroup =>
      Some(Control(RadioGroupControllerForm(config.radioButtonType, selectOptions), SubmitForm, first))
    case RangeTime =>
      var date := config.controllerDate.value;
      var rangeTimeValues := dateValuesOf(config.valueOptionType, date);
      Some(Control(RangeTimeControllerForm(date.pickerType), RangeTimeChange, Arr(rangeTimeValues)))
    case Time =>
      var date := config.controllerDate.value;
      var timeValues := dateValuesOf(config.valueOptionType, date);
      Some(Control(TimeControllerForm(date.pickerType), TimeChange, At(timeValues, 0)))
    case OtherFacade(_) => None
  }

  /** The form the controls live in; `fieldValue` is its field named "value". */
  class FormStore {
    var fieldValue: JsValue

    constructor ()
      ensures fieldValue == Undefined
    {
      fieldValue := Undefined;
    }

    method SetFieldsValue(v: JsValue)
      modifies this
      ensures fieldValue == v
    {
      fieldValue := v;
    }
  }

  /** Renders the control of a controller widget: sets the form's field to the control's
      starting value and returns the control; an unknown facade renders nothing and leaves
      the form alone. */
  method RenderControl(form: FormStore, widget: Widget, optionRows: seq<FilterValueOption>,
                       dateValuesOf: (string, ControllerDate) -> seq<JsValue>) returns (control: Option<Control>)
    requires IsControllerWidget(widget)
    requires IsDateFacade(widget.config.content.facadeType) ==> ControllerConfigOf(widget).controllerDate.Some?
    modifies form
    ensures control == DeriveControl(widget.config.content.facadeType, ControllerConfigOf(widget), optionRows, dateValuesOf)
    ensures control.Some? ==> form.fieldValue == control.value.fieldValue
    ensures control.None? ==> form.fieldValue == old(form.fieldValue)
  {
    control := DeriveControl(widget.config.content.facadeType, ControllerConfigOf(widget), optionRows, dateValuesOf);
    if control.Some? {
      form.SetFieldsValue(control.value.fieldValue);
    }
  }

  // ---------------------------------------------------------------------------
  // Properties across operations

  /** For a multi-value control, submitting the value the form was seeded with leaves the
      widget as it was: the commit is a no-op on its configuration. */
  lemma MultiValueSeedRoundTrip(widget: Widget, optionRows: seq<FilterValueOption>,
                                dateValuesOf: (string, ControllerDate) -> seq<JsValue>)
    requires IsControllerWidget(widget) && IsMultiValueFacade(widget.config.content.facadeType)
    ensures var c := DeriveControl(widget.config.content.facadeType, ControllerConfigOf(widget), optionRows, dateValuesOf);
            FinishedWidget(widget, c.value.fieldValue) == Some(widget)
  { }

  /** For a single-value control holding a truthy scalar, or holding nothing, submitting the
      seeded value leaves the widget as it was. A falsy scalar is excluded because it does
      not survive the round trip: see `FalsySeedClearsFilter`. */
  lemma SingleValueSeedRoundTrip(widget: Widget, optionRows: seq<FilterValueOption>,
                                 dateValuesOf: (string, ControllerDate) -> seq<JsValue>)
    requires IsControllerWidget(widget) && IsSingleValueFacade(widget.config.content.facadeType)
    requires var vs := ControllerConfigOf(widget).controllerValues;
             vs == [] || (|vs| == 1 && Truthy(vs[0]) && !vs[0].Arr? && !vs[0].Obj?)
    ensures var c := DeriveControl(widget.config.content.facadeType, ControllerConfigOf(widget), optionRows, dateValuesOf);
            FinishedWidget(widget, c.value.fieldValue) == Some(widget)
  {
    var vs := ControllerConfigOf(widget).controllerValues;
    if vs == [] {
      assert WithControllerValues(widget, []) == widget;
    } else {
      assert [vs[0]] == vs;
    }
  }

  /** A single-value control holding one falsy scalar (a slider or number at `0`, a text
      box holding `''`) re-submits its seeded value as `[]`: `onFinish` maps every falsy
      value to the empty list, so the filter is cleared rather than kept. */
  lemma FalsySeedClearsFilter(widget: Widget, optionRows: seq<FilterValueOption>,
                              dateValuesOf: (string, ControllerDate) -> seq<JsValue>)
    requires IsControllerWidget(widget) && IsSingleValueFacade(widget.config.content.facadeType)
    requires var vs := ControllerConfigOf(widget).controllerValues; |vs| == 1 && !Truthy(vs[0])
    ensures var c := DeriveControl(widget.config.content.facadeType, ControllerConfigOf(widget), optionRows, dateValuesOf);
            var next := FinishedWidget(widget, c.value.fieldValue);
            next.Some? && ControllerConfigOf(next.value).controllerValues == [] && next != Some(widget)
  { }

  /** In "common" mode a dropdown offers one option per flattened row value, in row order,
      with the value as both the option's value and its label. */
  lemma DropdownOffersRowValues(config: ControllerConfig, rows: Option<seq<JsValue>>,
                                dateValuesOf: (string, ControllerDate) -> seq<JsValue>)
    requires config.valueOptionType == "common"
    ensures var c := DeriveControl(DropdownList, config, OptionRows("common", config.valueOptions, rows), dateValuesOf);
            |c.value.form.options| == |DataRows(rows)| &&
            forall i :: 0 <= i < |DataRows(rows)| ==>
              c.value.form.options[i] == ControlOption(DataRows(rows)[i], DataRows(rows)[i])
  { }
}
