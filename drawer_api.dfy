/**
 * The drawer's static API: `showDrawer` rewrites the caller's layout so that
 * the overlay's background defaults to transparent before asking the
 * navigation host to show it; `dismissDrawer` publishes DISMISS_DRAWER.
 */
module DrawerApi {
  import opened Common
  import opened Messages

  const Transparent: string := "transparent"

  /** The `layout` block of a component's options. Other option values are carried as text. */
  datatype LayoutOptions = LayoutOptions(componentBackgroundColor: Option<string>, others: map<string, string>)

  /** A component's options: its `layout` block and every other option by name. */
  datatype ComponentOptions = ComponentOptions(layout: Option<LayoutOptions>, others: map<string, string>)

  /** The component descriptor of a layout. */
  datatype ComponentLayout = ComponentLayout(name: string, options: Option<ComponentOptions>)

  /** What `showDrawer` is given. */
  datatype Layout = Layout(component: Option<ComponentLayout>)

  /** `layout?.component?.options?.layout?.componentBackgroundColor ?? 'transparent'`. */
  function BackgroundColor(layout: Layout): string
  {
    if layout.component.Some? && layout.component.value.options.Some? &&
       layout.component.value.options.value.layout.Some? &&
       layout.component.value.options.value.layout.value.componentBackgroundColor.Some?
    then layout.component.value.options.value.layout.value.componentBackgroundColor.value
    else Transparent
  }

  /**
   * The layout `showDrawer` hands to the host, or None when the assignment to
   * `layout.component.options` throws because there is no component. The
   * options keep every other entry, and the `layout` block is replaced by one
   * holding only the background colour: the caller's, else transparent.
   */
  function ShowDrawerLayout(layout: Layout): (shown: Option<Layout>)
    ensures shown.None? <==> layout.component.None?
    ensures shown.Some? ==>
      var before := layout.component.value;
      var after := shown.value.component;
      && after.Some?
      && after.value.name == before.name
      && after.value.options.Some?
      && after.value.options.value.others == (if before.options.Some? then before.options.value.others else map[])
      && after.value.options.value.layout == Some(LayoutOptions(Some(BackgroundColor(layout)), map[]))
  {
    match layout.component
    case None => None
    case Some(c) =>
      var others := match c.options case Some(o) => o.others case None => map[];
      var options := ComponentOptions(Some(LayoutOptions(Some(BackgroundColor(layout)), map[])), others);
      Some(Layout(Some(c.(options := Some(options)))))
  }

  /**
   * The background is transparent unless the caller chose one, in which case
   * the caller's colour is kept; and rewriting an already rewritten layout
   * changes nothing.
   */
  lemma {:induction false} ShowDrawerLayoutDefaultsAndIdempotence(layout: Layout)
    requires layout.component.Some?
    ensures var shown := ShowDrawerLayout(layout).value;
      && BackgroundColor(shown) == BackgroundColor(layout)
      && ShowDrawerLayout(shown) == Some(shown)
    ensures BackgroundColor(layout) != Transparent ==>
      layout.component.value.options.value.layout.value.componentBackgroundColor == Some(BackgroundColor(layout))
  {
    var shown := ShowDrawerLayout(layout).value;
    assert BackgroundColor(shown) == BackgroundColor(layout);
  }

  /** `dismissDrawer`: publishes DISMISS_DRAWER; any drawer listening handles it. */
  function DismissDrawerMessage(): (m: Message)
    ensures Topic(m) == DismissDrawerTopic
  {
    DismissDrawer
  }
}
