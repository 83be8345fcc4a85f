/**
 * The attribute handling and the display decision of `render_block_classic_menu`, the block's
 * render callback. The HTML itself comes from `wp_nav_menu`, which is not part of this model.
 */
module RenderBlock {
  import opened Wrappers

  /** The block's attributes as saved; any of them may be missing. */
  datatype BlockAttrs = BlockAttrs(
    className: Option<string>,
    anchor: Option<string>,
    menu: Option<int>,
    language: Option<string>)

  /** The attributes once the defaults are merged in; `language` has no default. */
  datatype ParsedAttrs = ParsedAttrs(className: string, anchor: string, menu: int, language: Option<string>)

  /** The arguments handed to `wp_nav_menu`. */
  datatype MenuArgs = MenuArgs(echo: bool, containerClass: string, containerId: string, menu: int)

  /**
   * What the callback does: nothing (an empty return), or render the menu with `args`,
   * expanding language switchers in its items when `switcherPreview` holds.
   */
  datatype Rendered = NotRendered | RenderMenu(args: MenuArgs, switcherPreview: bool)

  /** The class every rendered menu container carries, before the block's own classes. */
  const ContainerClassPrefix := "wp-classic-menu-block "

  /** The language value that the editor offers as "For All Languages". */
  const AllLanguages := "all"

  /** `wp_parse_args` with the defaults: a supplied attribute wins, a missing one gets its default. */
  function WithDefaults(attrs: BlockAttrs): (r: ParsedAttrs)
    ensures attrs.className.Some? ==> r.className == attrs.className.value
    ensures attrs.className.None? ==> r.className == ""
    ensures attrs.anchor.Some? ==> r.anchor == attrs.anchor.value
    ensures attrs.anchor.None? ==> r.anchor == ""
    ensures attrs.menu.Some? ==> r.menu == attrs.menu.value
    ensures attrs.menu.None? ==> r.menu == 0
    ensures r.language == attrs.language
  {
    ParsedAttrs(attrs.className.GetOr(""), attrs.anchor.GetOr(""), attrs.menu.GetOr(0), attrs.language)
  }

  /** The `wp_nav_menu` arguments built from the parsed attributes. */
  function MenuArgsOf(attrs: ParsedAttrs): (r: MenuArgs)
    ensures !r.echo
    ensures |r.containerClass| == |ContainerClassPrefix| + |attrs.className|
    ensures r.containerClass[..|ContainerClassPrefix|] == ContainerClassPrefix
    ensures r.containerClass[|ContainerClassPrefix|..] == attrs.className
    ensures r.containerId == attrs.anchor && r.menu == attrs.menu
  {
    MenuArgs(false, ContainerClassPrefix + attrs.className, attrs.anchor, attrs.menu)
  }

  /**
   * The callback as written: off the REST path it renders nothing unless the block's language
   * is the current language, and also nothing when the block's language is "all"; on the REST
   * path (the Site Editor's preview) it always renders, with switcher expansion. `current` is
   * the current language's slug, None when Polylang has no current language (reading the slug
   * of a null `curlang` gives null). A missing `language` attribute is also null, so the strict
   * comparison finds the two equal.
   */
  function RenderDecision(attrs: BlockAttrs, isRest: bool, current: Option<string>): (r: Rendered)
    ensures r.RenderMenu? <==> isRest || (attrs.language == current && current != Some(AllLanguages))
    ensures r.RenderMenu? ==> r.args == MenuArgsOf(WithDefaults(attrs)) && r.switcherPreview == isRest
  {
    var parsed := WithDefaults(attrs);
    var lang := parsed.language;
    if !isRest && (lang != current || lang == Some(AllLanguages)) then
      NotRendered
    else
      RenderMenu(MenuArgsOf(parsed), isRest)
  }

  /** As written, a block set to "all" languages is never shown on the front end. */
  lemma AllLanguagesHiddenOffRest(attrs: BlockAttrs, current: Option<string>)
    requires attrs.language == Some(AllLanguages)
    ensures RenderDecision(attrs, false, current) == NotRendered
  {
  }

  /** The decision with the front-end gate the callback's comment and the editor describe. */
  function IntendedRenderDecision(attrs: BlockAttrs, isRest: bool, current: Option<string>): (r: Rendered)
    ensures r.RenderMenu? <==> isRest || attrs.language == current || attrs.language == Some(AllLanguages)
    ensures r.RenderMenu? ==> r.args == MenuArgsOf(WithDefaults(attrs)) && r.switcherPreview == isRest
  {
    var parsed := WithDefaults(attrs);
    var lang := parsed.language;
    if !isRest && lang != current && lang != Some(AllLanguages) then
      NotRendered
    else
      RenderMenu(MenuArgsOf(parsed), isRest)
  }

  /**
   * The corrected gate shows an "all" block for every current language, and agrees with the
   * callback as written on every other block.
   */
  lemma IntendedDiffersOnlyForAll(attrs: BlockAttrs, isRest: bool, current: Option<string>)
    ensures attrs.language == Some(AllLanguages) ==> IntendedRenderDecision(attrs, isRest, current).RenderMenu?
    ensures attrs.language != Some(AllLanguages) ==>
      IntendedRenderDecision(attrs, isRest, current) == RenderDecision(attrs, isRest, current)
  {
  }

  /** Off the REST path, a block without a language shows exactly when there is no current language. */
  lemma NoLanguageShowsWithoutCurrent(attrs: BlockAttrs, current: Option<string>)
    requires attrs.language.None?
    ensures RenderDecision(attrs, false, current).RenderMenu? <==> current.None?
  {
  }

  /** On the REST path the menu is always rendered, with switcher expansion. */
  lemma RestAlwaysRenders(attrs: BlockAttrs, current: Option<string>)
    ensures RenderDecision(attrs, true, current) == RenderMenu(MenuArgsOf(WithDefaults(attrs)), true)
  {
  }
}
