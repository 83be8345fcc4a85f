/** `pll_get_item_title`: the title of a language-switcher menu item. */
module SwitcherTitle {
  import opened MenuItems

  /** The side of the margin between flag and name: `right` for right-to-left text. */
  function MarginSide(isRtl: bool): string {
    if isRtl then "right" else "left"
  }

  const SpanOpenHead := "<span style=\"margin-"
  const SpanOpenTail := ":0.3em;\">"
  const SpanClose := "</span>"

  /**
   * The title of a switcher item for a language with rendered flag `flag` and name `name`.
   * `escHtml` stands for `esc_html`; the flag is trusted markup and is not escaped.
   */
  function ItemTitle(flag: string, name: string, options: SwitcherOptions, isRtl: bool, escHtml: string -> string): (title: string)
    ensures options.showFlags && options.showNames ==>
      title == flag + SpanOpenHead + MarginSide(isRtl) + SpanOpenTail + escHtml(name) + SpanClose
    ensures options.showFlags && !options.showNames ==> title == flag
    ensures !options.showFlags ==> title == escHtml(name)
  {
    if options.showFlags then
      if options.showNames then
        flag + SpanOpenHead + MarginSide(isRtl) + SpanOpenTail + escHtml(name) + SpanClose
      else
        flag
    else
      escHtml(name)
  }

  /** Without flags the title is the escaped name, whatever `show_names` says. */
  lemma TitleWithoutFlagsIgnoresShowNames(flag: string, name: string, options: SwitcherOptions, isRtl: bool, escHtml: string -> string)
    requires !options.showFlags
    ensures ItemTitle(flag, name, options.(showNames := true), isRtl, escHtml)
         == ItemTitle(flag, name, options.(showNames := false), isRtl, escHtml)
         == escHtml(name)
  {
  }

  /**
   * With flags and names, the title splits back into its parts: it starts with the flag, ends
   * with the closing span, and the escaped name sits between the opening span and the closing
   * one; the margin side is the only part that depends on the text direction.
   */
  lemma TitleParts(flag: string, name: string, options: SwitcherOptions, isRtl: bool, escHtml: string -> string)
    requires options.showFlags && options.showNames
    ensures var title := ItemTitle(flag, name, options, isRtl, escHtml);
      var open := |flag| + |SpanOpenHead| + |MarginSide(isRtl)| + |SpanOpenTail|;
      && |title| == open + |escHtml(name)| + |SpanClose|
      && title[..|flag|] == flag
      && title[|flag|..|flag| + |SpanOpenHead|] == SpanOpenHead
      && title[|flag| + |SpanOpenHead|..|flag| + |SpanOpenHead| + |MarginSide(isRtl)|] == MarginSide(isRtl)
      && title[open..open + |escHtml(name)|] == escHtml(name)
      && title[|title| - |SpanClose|..] == SpanClose
  {
  }

  /** Right-to-left and left-to-right titles differ only when both flags and names are shown. */
  lemma TitleDirection(flag: string, name: string, options: SwitcherOptions, escHtml: string -> string)
    ensures ItemTitle(flag, name, options, true, escHtml) == ItemTitle(flag, name, options, false, escHtml)
        <==> !(options.showFlags && options.showNames)
  {
  }
}
