# Datart dashboard: controller widget state and full-screen widget dispatch

This project models two pieces of the Datart dashboard front end in Dafny. It proves what they promise.

- **The controller (filter) widget core.** This covers several steps:
  - resolving the options the widget offers from query rows or from a configured list;
  - normalising a submitted form value into the widget's `controllerValues`, or rejecting it;
  - turning a date pick into an exact `controllerDate`;
  - committing each change copy-on-write;
  - choosing the input control for the widget's facade type and the value its form field starts from.

  Each commit calls the board's `widgetUpdate` and then its `refreshWidgetsByFilter`. The board is a class that logs these calls, and the order of the log is proved.
- **The full-screen widget mapper.** It routes a widget by its `config.type` to one of four targets:
  - a chart inside its data provider;
  - one of five media widgets, chosen by the media sub-type;
  - the tab container;
  - a placeholder.

Modules:

- `Options` and `JsValues` (`js_values.dfy`) hold the JavaScript values the widget handles. They define:
  - truthiness, `typeof` and `||`;
  - `Array.prototype.flat` (`Flat`), with a reference "flatten completely" (`Leaves`) to check it against.
- `Widgets` (`widgets.dfy`) holds the widget record, the controller configuration and the two copy-on-write updates.
- `Board` (`board.dfy`) holds the board action context as a class with a call log, and the ordering lemmas about commits.
- `ControllerWidgetCore` (`controller_widget_core.dfy`) holds option resolution, normalisation, date updates, the commit methods, the slider defaults and the facade dispatch. It also holds the form whose field the dispatch sets.
- `FullScreenWidgetMapper` (`full_screen_widget_mapper.dfy`) holds `MediaMapper` and the primary-type switch (`Map`).

Three behaviours of Datart's code worth knowing:

- In the full-screen mapper, `'controller'` falls through to the "default widget" placeholder (`ControllerFallsBack`).
- `onFinish` normalises the same way for every facade type: an array passes through, a truthy scalar is wrapped and a falsy value becomes `[]`.
- `widgetUpdate` and `refreshWidgetsByFilter` receive only the new widget.

Naming: `label` is a reserved word in Dafny, so the `label` field of an option is called `caption` here.

## Model

| member | source | states |
|---|---|---|
| JsValues.TypeOf | frontend/src/app/pages/DashBoardPage/components/WidgetCore/ControllerWIdget/ControllerWidgetCore.tsx:105 | `typeof` reports "object" exactly for null, arrays and objects |
| JsValues.Or | frontend/src/app/pages/DashBoardPage/components/WidgetCore/ControllerWIdget/ControllerWidgetCore.tsx:202-205 | `a \|\| b` is `a` when `a` is truthy, else `b` |
| JsValues.At | frontend/src/app/pages/DashBoardPage/components/WidgetCore/ControllerWIdget/ControllerWidgetCore.tsx:181 | `xs?.[i]` is the element when in range, `undefined` past the end |
| JsValues.Truthy | frontend/src/app/pages/DashBoardPage/components/WidgetCore/ControllerWIdget/ControllerWidgetCore.tsx:105-108 | arrays and objects are truthy; `undefined`, `null`, `NaN`, `false`, `0` and `''` are falsy |
| JsValues.Flat | frontend/src/app/pages/DashBoardPage/components/WidgetCore/ControllerWIdget/ControllerWidgetCore.tsx:78 | `flat(0)` and flattening a list without arrays change nothing |
| JsValues.Leaves | frontend/src/app/pages/DashBoardPage/components/WidgetCore/ControllerWIdget/ControllerWidgetCore.tsx:78 | the complete flattening of rows never contains an array |
| JsValues.FlatAppend | frontend/src/app/pages/DashBoardPage/components/WidgetCore/ControllerWIdget/ControllerWidgetCore.tsx:78 | `flat(d)` distributes over concatenation of row lists |
| JsValues.LeavesAppend | frontend/src/app/pages/DashBoardPage/components/WidgetCore/ControllerWIdget/ControllerWidgetCore.tsx:78 | complete flattening distributes over concatenation |
| JsValues.FlatKeepsLeaves | frontend/src/app/pages/DashBoardPage/components/WidgetCore/ControllerWIdget/ControllerWidgetCore.tsx:78 | `flat(d)` drops, duplicates and reorders no scalar of the rows, for every depth |
| JsValues.FlatCompletes | frontend/src/app/pages/DashBoardPage/components/WidgetCore/ControllerWIdget/ControllerWidgetCore.tsx:78 | rows nested at most `d` deep are flattened completely by `flat(d)` |
| Widgets.WithControllerValues | frontend/src/app/pages/DashBoardPage/components/WidgetCore/ControllerWIdget/ControllerWidgetCore.tsx:109-113 | the new widget has the new `controllerValues`; identity, type, name, facade and every other config field are the old ones |
| Widgets.WithControllerDate | frontend/src/app/pages/DashBoardPage/components/WidgetCore/ControllerWIdget/ControllerWidgetCore.tsx:144-148 | the new widget has the new `controllerDate`; everything else is the old widget's |
| Board.CommitLogShape | frontend/src/app/pages/DashBoardPage/components/WidgetCore/ControllerWIdget/ControllerWidgetCore.tsx:114-115 | a run of commits calls `widgetUpdate` exactly once per commit, each immediately followed by `refreshWidgetsByFilter` with the same widget |
| Board.CommitPreservesOrder | frontend/src/app/pages/DashBoardPage/components/WidgetCore/ControllerWIdget/ControllerWidgetCore.tsx:149-150 | appending one commit to a log where each refresh follows the update of its widget keeps that property |
| Board.CommitLogOrdered | frontend/src/app/pages/DashBoardPage/components/WidgetCore/ControllerWIdget/ControllerWidgetCore.tsx:169-170 | in any run of commits, every refresh comes right after persisting the same widget |
| Board.BoardActions.WidgetUpdate | frontend/src/app/pages/DashBoardPage/components/WidgetCore/ControllerWIdget/ControllerWidgetCore.tsx:114 | persisting a widget appends exactly that call to the log |
| Board.BoardActions.RefreshWidgetsByFilter | frontend/src/app/pages/DashBoardPage/components/WidgetCore/ControllerWIdget/ControllerWidgetCore.tsx:115 | refreshing dependents appends exactly that call to the log |
| ControllerWidgetCore.DataRows | frontend/src/app/pages/DashBoardPage/components/WidgetCore/ControllerWIdget/ControllerWidgetCore.tsx:78 | absent rows give `[]`; present rows give `rows.flat(2)`, which keeps every scalar of the rows in order |
| ControllerWidgetCore.OptionRows | frontend/src/app/pages/DashBoardPage/components/WidgetCore/ControllerWIdget/ControllerWidgetCore.tsx:77-93 | "common": one option per value of `rows.flat(2)` (absent rows: none), key = label = the value, same order and length; "custom": `valueOptions` verbatim; other modes: empty |
| ControllerWidgetCore.CommonOptionsAreRowScalars | frontend/src/app/pages/DashBoardPage/components/WidgetCore/ControllerWIdget/ControllerWidgetCore.tsx:78-87 | for rows at most two levels deep, the "common" option keys are exactly the row scalars left to right, duplicates kept |
| ControllerWidgetCore.CustomOptionsIgnoreRows | frontend/src/app/pages/DashBoardPage/components/WidgetCore/ControllerWIdget/ControllerWidgetCore.tsx:88-89 | in "custom" mode the options are the same whatever the rows |
| ControllerWidgetCore.Normalise | frontend/src/app/pages/DashBoardPage/components/WidgetCore/ControllerWIdget/ControllerWidgetCore.tsx:104-108 | rejected iff a non-array object; an array passes through; a truthy scalar becomes `[v]`; a falsy value becomes `[]` |
| ControllerWidgetCore.NormaliseIdempotent | frontend/src/app/pages/DashBoardPage/components/WidgetCore/ControllerWIdget/ControllerWidgetCore.tsx:108 | re-submitting a normalised list as an array yields the same list |
| ControllerWidgetCore.FinishedWidget | frontend/src/app/pages/DashBoardPage/components/WidgetCore/ControllerWIdget/ControllerWidgetCore.tsx:103-113 | no widget iff the submission is rejected; otherwise only `controllerValues` differs, holding the normalised list |
| ControllerWidgetCore.Commit | frontend/src/app/pages/DashBoardPage/components/WidgetCore/ControllerWIdget/ControllerWidgetCore.tsx:114-115 | appends `widgetUpdate(next)` then `refreshWidgetsByFilter(next)` and nothing else |
| ControllerWidgetCore.OnFinish | frontend/src/app/pages/DashBoardPage/components/WidgetCore/ControllerWIdget/ControllerWidgetCore.tsx:103-116 | a rejected submission makes no board call; any other commits exactly the finished widget |
| ControllerWidgetCore.ExactBound | frontend/src/app/pages/DashBoardPage/components/WidgetCore/ControllerWIdget/ControllerWidgetCore.tsx:135-142 | a committed bound is `Exact` with the picked value and carries no relative expression |
| ControllerWidgetCore.SpreadDate | frontend/src/app/pages/DashBoardPage/components/WidgetCore/ControllerWIdget/ControllerWidgetCore.tsx:134 | spreading a present date copies it; spreading an absent one gives a date with no picker type and no bounds |
| ControllerWidgetCore.TimeAt | frontend/src/app/pages/DashBoardPage/components/WidgetCore/ControllerWIdget/ControllerWidgetCore.tsx:137-141 | `timeValues?.[i]` is present iff the list is and is long enough, and is then its element |
| ControllerWidgetCore.RangeTimeDate | frontend/src/app/pages/DashBoardPage/components/WidgetCore/ControllerWIdget/ControllerWidgetCore.tsx:133-143 | both bounds become `Exact` with `timeValues[0]` and `timeValues[1]` (absent for null); the picker type is kept |
| ControllerWidgetCore.TimeDate | frontend/src/app/pages/DashBoardPage/components/WidgetCore/ControllerWIdget/ControllerWidgetCore.tsx:157-163 | only `startTime` changes, to `Exact` with the picked value; picker type and end bound are kept |
| ControllerWidgetCore.OnRangeTimeChange | frontend/src/app/pages/DashBoardPage/components/WidgetCore/ControllerWIdget/ControllerWidgetCore.tsx:131-153 | commits the widget whose only change is the new range date |
| ControllerWidgetCore.OnTimeChange | frontend/src/app/pages/DashBoardPage/components/WidgetCore/ControllerWIdget/ControllerWidgetCore.tsx:155-173 | commits the widget whose only change is the new start date |
| ControllerWidgetCore.SliderStep | frontend/src/app/pages/DashBoardPage/components/WidgetCore/ControllerWIdget/ControllerWidgetCore.tsx:202 | the step is always truthy: the configured step if truthy, else 1 |
| ControllerWidgetCore.SliderShowMarks | frontend/src/app/pages/DashBoardPage/components/WidgetCore/ControllerWIdget/ControllerWidgetCore.tsx:203 | the configured flag if truthy; an absent or falsy flag becomes `false` |
| ControllerWidgetCore.BoundOr | frontend/src/app/pages/DashBoardPage/components/WidgetCore/ControllerWIdget/ControllerWidgetCore.tsx:204-205 | zero is kept, a truthy bound is kept, any other falsy bound takes the fallback |
| ControllerWidgetCore.SliderMin | frontend/src/app/pages/DashBoardPage/components/WidgetCore/ControllerWIdget/ControllerWidgetCore.tsx:204 | minimum: 0 kept, truthy kept, other falsy values become 1 |
| ControllerWidgetCore.SliderMax | frontend/src/app/pages/DashBoardPage/components/WidgetCore/ControllerWIdget/ControllerWidgetCore.tsx:205 | maximum: 0 kept, truthy kept, other falsy values become 100 |
| ControllerWidgetCore.ToControlOptions | frontend/src/app/pages/DashBoardPage/components/WidgetCore/ControllerWIdget/ControllerWidgetCore.tsx:176-178 | one control option per option, `key` becomes `value`, label kept |
| ControllerWidgetCore.DeriveControl | frontend/src/app/pages/DashBoardPage/components/WidgetCore/ControllerWIdget/ControllerWidgetCore.tsx:175-286 | no control iff the facade is unknown; each facade gets its own primitive; single-value facades start from `controllerValues[0]`, multi-value ones from the whole list, date ones from the date resolver; select/radio options are the mapped options; radio keeps its button type; slider props are the defaults; date controls carry the picker type; RangeTime reports to `onRangeTimeChange`, Time to `onTimeChange`, every other control to the form submit |
| ControllerWidgetCore.FormStore.SetFieldsValue | frontend/src/app/pages/DashBoardPage/components/WidgetCore/ControllerWIdget/ControllerWidgetCore.tsx:181 | the form's "value" field becomes the given value |
| ControllerWidgetCore.RenderControl | frontend/src/app/pages/DashBoardPage/components/WidgetCore/ControllerWIdget/ControllerWidgetCore.tsx:179-285 | the form field is set to the chosen control's start value; an unknown facade leaves the form untouched |
| ControllerWidgetCore.MultiValueSeedRoundTrip | frontend/src/app/pages/DashBoardPage/components/WidgetCore/ControllerWIdget/ControllerWidgetCore.tsx:190-230 | submitting a multi-value control's seeded value recommits the same widget |
| ControllerWidgetCore.SingleValueSeedRoundTrip | frontend/src/app/pages/DashBoardPage/components/WidgetCore/ControllerWIdget/ControllerWidgetCore.tsx:180-239 | submitting a single-value control's seeded value recommits the same widget when it holds nothing or one truthy scalar |
| ControllerWidgetCore.FalsySeedClearsFilter | frontend/src/app/pages/DashBoardPage/components/WidgetCore/ControllerWIdget/ControllerWidgetCore.tsx:108 | a single-value control holding one falsy scalar (`0`, `''`) re-submits its seed as `[]`, so the filter is cleared |
| ControllerWidgetCore.DropdownOffersRowValues | frontend/src/app/pages/DashBoardPage/components/WidgetCore/ControllerWIdget/ControllerWidgetCore.tsx:176-188 | in "common" mode the dropdown's options are the flattened row values, in order, as both value and label |
| FullScreenWidgetMapper.MediaMapper | frontend/src/app/pages/DashBoardPage/components/FullScreenPanel/FullScreenWidgetMapper.tsx:58-73 | each of richText, image, video, iframe, timer gets the component that renders that sub-type, title hidden; anything else gets the "default media" placeholder |
| FullScreenWidgetMapper.MediaSubTypeOf | frontend/src/app/pages/DashBoardPage/components/FullScreenPanel/FullScreenWidgetMapper.tsx:49 | a media widget's sub-type is its content's `type`; a controller's content yields no media sub-type |
| FullScreenWidgetMapper.Map | frontend/src/app/pages/DashBoardPage/components/FullScreenPanel/FullScreenWidgetMapper.tsx:37-55 | the target serves the widget's own type for chart/media/container and is the fallback otherwise; a chart sits in a data provider keyed by widget id and dashboard id with `boardEditing` passed through; media is exactly `MediaMapper(content.type)`; container is a bare `TabWidget` with its title hidden; every non-placeholder hides its title |
| FullScreenWidgetMapper.MediaMapperInjective | frontend/src/app/pages/DashBoardPage/components/FullScreenPanel/FullScreenWidgetMapper.tsx:59-69 | distinct known media sub-types get distinct targets |
| FullScreenWidgetMapper.ControllerFallsBack | frontend/src/app/pages/DashBoardPage/components/FullScreenPanel/FullScreenWidgetMapper.tsx:53-54 | a `'controller'` widget gets the "default widget" placeholder |

## Left out

- `data-providers/data-provider-base/src/main/java/datart/data/provider/freemarker/FreemarkerContext.java` is not part of this model. It is a thin wrapper over the FreeMarker template engine and an MD5 digest library.
- `getControllerDateValues` is not part of this model. Its definition is not available, so `DeriveControl` and `RenderControl` take it as a function parameter (`dateValuesOf`).
- The mount effect `renderedWidgetById(widget.id)` is an asynchronous, fire-and-forget data-fetch request. It is not modelled.
- The React context lookups, `Form`/`form.submit()`, JSX, the `Wrap` styling and `useMemo`/`useCallback` are not modelled. The widget, the board actions, the rows and the form are explicit parameters instead.
- The individual controller forms and the chart, media and tab widgets appear only as opaque constructor tags.
- The commented-out `onSqlOperatorAndValues` is not modelled.
- OnFinish takes the submitted field value, `value.value`, not the form-values object that contains it.
- RangeTimeDate and TimeDate do not tell `null` from `undefined` in `exactValue`: both are `None`.
- DeriveControl requires `controllerDate` to be present for the Time and RangeTime facades. The TypeScript code reads `controllerDate!.pickerType` there, which throws when the date is absent.
- OptionRows takes `valueOptions` as a list. An absent list in "custom" mode, which the TypeScript code would pass on as `undefined`, is not modelled. `controllerValues` is likewise always a list.
- Flat does not model the holes of sparse arrays, which `Array.prototype.flat` skips.
- Numbers are exact reals with a separate `NaN`. `-0`, infinities and floating-point rounding are not modelled.
- WithControllerValues and WithControllerDate require a controller content. The TypeScript code casts `config.content` to a controller's content without checking it.
