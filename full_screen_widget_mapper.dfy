/** The full-screen panel's choice of what to render for a widget: a chart inside its data
    provider, one of five media widgets, the tab container, or a placeholder. Every widget
    gets exactly one target and nothing fails. */
module FullScreenWidgetMapper {
  import opened Options
  import opened Widgets

  /** The widget components the panel can mount (each opaque here), and the placeholder. */
  datatype Component =
    | DataChartWidget(hideTitle: bool)
    | TabWidget(hideTitle: bool)
    | RichTextWidget(hideTitle: bool)
    | ImageWidget(hideTitle: bool)
    | VideoWidget(hideTitle: bool)
    | IframeWidget(hideTitle: bool)
    | TimerWidget(hideTitle: bool)
    | Placeholder(text: string)

  datatype RenderTarget =
    | WidgetDataProvider(widgetId: string, boardId: string, boardEditing: bool, child: Component)
    | Bare(component: Component)

  const MediaSubTypes: set<string> := {"richText", "image", "video", "iframe", "timer"}

  const PrimaryTypes: set<string> := {"chart", "media", "container"}

  /** The component a target finally shows. */
  function Shown(t: RenderTarget): Component {
    match t
    case WidgetDataProvider(_, _, _, c) => c
    case Bare(c) => c
  }

  predicate IsPlaceholder(t: RenderTarget) {
    Shown(t).Placeholder?
  }

  /** Reading a target back: which media sub-type a media component renders. */
  function MediaSubTypeShown(c: Component): Option<string> {
    match c
    case RichTextWidget(_) => Some("richText")
    case ImageWidget(_) => Some("image")
    case VideoWidget(_) => Some("video")
    case IframeWidget(_) => Some("iframe")
    case TimerWidget(_) => Some("timer")
    case _ => None
  }

  /** Reading a target back: which primary widget type it serves ("fallback" for the
      default-widget placeholder). */
  function TargetKind(t: RenderTarget): string {
    match Shown(t)
    case DataChartWidget(_) => "chart"
    case TabWidget(_) => "container"
    case Placeholder(text) => if text == "default media" then "media" else "fallback"
    case _ => "media"
  }

  /** `MediaMapper`: each known sub-type gets its own component, shown without a title;
      anything else gets the "default media" placeholder. */
  function MediaMapper(subType: string): (r: RenderTarget)
    ensures r.Bare? && TargetKind(r) == "media"
    ensures subType in MediaSubTypes ==> MediaSubTypeShown(Shown(r)) == Some(subType) && Shown(r).hideTitle
    ensures subType !in MediaSubTypes ==> r == Bare(Placeholder("default media"))
  {
    match subType
    case "richText" => Bare(RichTextWidget(true))
    case "image" => Bare(ImageWidget(true))
    case "video" => Bare(VideoWidget(true))
    case "iframe" => Bare(IframeWidget(true))
    case "timer" => Bare(TimerWidget(true))
    case _ => Bare(Placeholder("default media"))
  }

  /** The sub-type a media widget's content declares; a controller's content has none. */
  function MediaSubTypeOf(content: WidgetContent): (r: string)
    ensures content.OtherContent? ==> r == content.contentType
    ensures content.ControllerContent? ==> r !in MediaSubTypes
  {
    match content
    case OtherContent(t) => t
    case ControllerContent(_, _) => ""
  }

  /** `FullScreenWidgetMapper`: routes a widget by `config.type`. Controllers, like every
      other type outside chart/media/container, get the "default widget" placeholder. */
  function Map(widget: Widget, boardEditing: bool): (r: RenderTarget)
    ensures TargetKind(r) == (if widget.config.widgetType in PrimaryTypes then widget.config.widgetType else "fallback")
    ensures !IsPlaceholder(r) ==> Shown(r).hideTitle
    ensures widget.config.widgetType == "chart" ==>
              r == WidgetDataProvider(widget.id, widget.dashboardId, boardEditing, DataChartWidget(true))
    ensures widget.config.widgetType == "container" ==> r == Bare(TabWidget(true))
    ensures widget.config.widgetType == "media" ==> r == MediaMapper(MediaSubTypeOf(widget.config.content))
    ensures widget.config.widgetType !in PrimaryTypes ==> r == Bare(Placeholder("default widget"))
  {
    match widget.config.widgetType
    case "chart" => WidgetDataProvider(widget.id, widget.dashboardId, boardEditing, DataChartWidget(true))
    case "media" => MediaMapper(MediaSubTypeOf(widget.config.content))
    case "container" => Bare(TabWidget(true))
    case _ => Bare(Placeholder("default widget"))
  }

  /** Distinct known media sub-types are rendered by distinct components. */
  lemma MediaMapperInjective(a: string, b: string)
    requires a in MediaSubTypes && b in MediaSubTypes && a != b
    ensures MediaMapper(a) != MediaMapper(b)
  { }

  /** A controller widget is not given a full-screen view of its own. */
  lemma ControllerFallsBack(widget: Widget, boardEditing: bool)
    requires widget.config.widgetType == "controller"
    ensures Map(widget, boardEditing) == Bare(Placeholder("default widget"))
  { }
}
