/** The dashboard's widget record and the controller configuration held inside it, with the
    copy-on-write updates the controller widget commits: each returns a new widget that
    differs from the old one in exactly one field of the controller configuration. */
module Widgets {
  import opened Options
  import opened JsValues

  datatype RelativeOrExact = Relative | Exact

  /** A relative time expression such as "7 days before now". */
  datatype RelativeTime = RelativeTime(amount: int, unit: string, direction: string)

  /** One bound of a date filter. */
  datatype TimeBound = TimeBound(
    relativeOrExact: RelativeOrExact,
    exactValue: Option<string>,
    relativeValue: Option<RelativeTime>)

  /** The date state of a time or time-range controller. */
  datatype ControllerDate = ControllerDate(
    pickerType: Option<string>,
    startTime: Option<TimeBound>,
    endTime: Option<TimeBound>)

  /** A selectable filter value: `key` is what is filtered on, `caption` (the TypeScript `label`) what is shown. */
  datatype FilterValueOption = FilterValueOption(key: JsValue, caption: JsValue)

  datatype SliderConfig = SliderConfig(step: JsValue, showMarks: JsValue)

  datatype ControllerConfig = ControllerConfig(
    controllerValues: seq<JsValue>,
    valueOptionType: string,
    valueOptions: seq<FilterValueOption>,
    controllerDate: Option<ControllerDate>,
    sqlOperator: string,
    minValue: JsValue,
    maxValue: JsValue,
    sliderConfig: Option<SliderConfig>,
    radioButtonType: JsValue)

  /** The input control a controller widget shows; `OtherFacade` is any facade type the
      controller widget has no case for. */
  datatype FacadeType =
    | DropdownList
    | MultiDropdownList
    | Slider
    | Value
    | RangeValue
    | Text
    | RadioGroup
    | RangeTime
    | Time
    | OtherFacade(name: string)

  /** `config.content`: a controller's facade type and configuration, or the content of any
      other widget, of which only its `type` string (the media sub-type, for media) is read. */
  datatype WidgetContent =
    | ControllerContent(facadeType: FacadeType, config: ControllerConfig)
    | OtherContent(contentType: string)

  datatype WidgetConfig = WidgetConfig(widgetType: string, name: string, content: WidgetContent)

  datatype Widget = Widget(id: string, dashboardId: string, config: WidgetConfig)

  predicate IsControllerWidget(w: Widget) {
    w.config.content.ControllerContent?
  }

  function ControllerConfigOf(w: Widget): ControllerConfig
    requires IsControllerWidget(w)
  {
    w.config.content.config
  }

  /** Two controller widgets that agree on everything outside the controller configuration. */
  predicate SameOutsideConfig(a: Widget, b: Widget)
    requires IsControllerWidget(a) && IsControllerWidget(b)
  {
    a.id == b.id && a.dashboardId == b.dashboardId &&
    a.config.widgetType == b.config.widgetType && a.config.name == b.config.name &&
    a.config.content.facadeType == b.config.content.facadeType
  }

  /** The widget with `config.content.config.controllerValues` replaced; nothing else changes:
      putting the old values back gives the original configuration. */
  function WithControllerValues(w: Widget, values: seq<JsValue>): (r: Widget)
    requires IsControllerWidget(w)
    ensures IsControllerWidget(r)
    ensures ControllerConfigOf(r).controllerValues == values
    ensures SameOutsideConfig(w, r)
    ensures ControllerConfigOf(r).(controllerValues := ControllerConfigOf(w).controllerValues) == ControllerConfigOf(w)
  {
    var content := w.config.content;
    w.(config := w.config.(content := content.(config := content.config.(controllerValues := values))))
  }

  /** The widget with `config.content.config.controllerDate` replaced; nothing else changes:
      putting the old date back gives the original configuration. */
  function WithControllerDate(w: Widget, date: Option<ControllerDate>): (r: Widget)
    requires IsControllerWidget(w)
    ensures IsControllerWidget(r)
    ensures ControllerConfigOf(r).controllerDate == date
    ensures SameOutsideConfig(w, r)
    ensures ControllerConfigOf(r).(controllerDate := ControllerConfigOf(w).controllerDate) == ControllerConfigOf(w)
  {
    var content := w.config.content;
    w.(config := w.config.(content := content.(config := content.config.(controllerDate := date))))
  }
}
