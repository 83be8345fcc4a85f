# Classic Menu Block: the language-switcher menu expander, in Dafny

This project models the logic of the Classic Menu Block WordPress plugin (`classic-menu-block.php`),
a block that embeds a classic navigation menu in a block page and works with the Polylang
multilingual plugin. It covers three parts of the code:

- `pll_nav_menu_items`. In the Site Editor's preview, it walks the menu items once. It replaces
  every item that carries `_pll_menu_item` meta (a language-switcher item) with one clone per
  language. In dropdown mode it instead emits the item itself, rewritten as a
  `pll-parent-menu-item` parent, followed by one child per language. A running offset
  renumbers every item's `menu_order`.
- `pll_get_item_title`, the three-way title formatter for switcher items.
- The attribute defaults, the `wp_nav_menu` arguments and the display gate of
  `render_block_classic_menu`.

Modules:

- `MenuItems` (`menu_items.dfy`). The data: `Item` is the value of a menu-item object.
  `MenuItem` is the object itself, a class whose fields the expander updates in place; its
  `Clone` constructor is PHP's shallow `clone`. There are also the language rows, the default
  language and the switcher options.
- `SwitcherTitle` (`switcher_title.dfy`). The title formatter.
- `MenuExpander` (`menu_expander.dfy`). `Slot` says, on values, what one pass of the loop
  does with one item at a given offset. `Walk` is the loop over a list, and `Expand` is the
  whole function. The methods `NavMenuItems`, `ExpandAllItems`, `ExpandNext`, `ExpandItem`,
  `ExpandSwitcher`, `RewriteAsParent`, `NewLanguageItems` and `NewLanguageItem` are the loop
  itself. They mutate the input objects and clone new ones, and each is proved to do what
  `Slot`/`Walk` say.
- `ExpanderProperties` (`expander_properties.dfy`). What the expander guarantees: identity
  without switchers, the slot layout of the output, the offset arithmetic, the vanishing
  empty switcher, and that consecutive `menu_order` values stay consecutive.
- `RenderBlock` (`render_block.dfy`). The render callback's defaults, menu arguments and
  decision.

The collaborators are inputs, gathered in the `Polylang` datatype:

- the `default_lang` option;
- the default language's slug, name and flag;
- `get_post_meta(ID, '_pll_menu_item', true)`, as a function of the item ID;
- the `pll_the_languages_args` filter, as an arbitrary function on options;
- the switcher's `the_languages` rows, as a function of the filtered options. The options keep
  the four entries the expander reads (`show_flags`, `show_names`, `dropdown`,
  `display_names_as`) and carry every other meta entry (`hide_current`, `force_home`, ...)
  untouched in `others`, so the filter and `the_languages` see the whole meta;
- `is_rtl()`;
- `esc_html`, as an arbitrary string function.

For the render callback, whether the request is a REST request and the current language's
slug are parameters. The slug is optional: with no current language, PHP reads null from
`PLL()->curlang->slug`.

Two behaviours of the code worth knowing:

- Off the REST path, a block whose language is `all` is never shown (line 153), although the
  comment on line 154 says "Or for All" and src/edit.js:52 offers "For All Languages". See
  "## Findings".
- A dropdown parent's `menu_order` is shifted by the running offset (line 68), and its
  children count up from that shifted value (line 84).

## Model

| member | source | states |
|---|---|---|
| `SwitcherTitle.ItemTitle` | classic-menu-block.php:113-124 | With flags and names: the flag, then a span with a `margin-right` (RTL) or `margin-left` of 0.3em around the escaped name. With flags only: the flag alone. Without flags: the escaped name. |
| `SwitcherTitle.TitleWithoutFlagsIgnoresShowNames` | classic-menu-block.php:114-122 | Without flags, the title is the escaped name whatever `show_names` says. |
| `SwitcherTitle.TitleParts` | classic-menu-block.php:116 | With flags and names, the title splits back into flag, opening span, margin side, escaped name and closing span, at fixed positions. |
| `SwitcherTitle.TitleDirection` | classic-menu-block.php:116 | RTL and LTR titles are equal exactly when flags and names are not both shown. |
| `MenuExpander.DropdownName` | classic-menu-block.php:64 | The parent shows the default language's slug when `display_names_as` is `slug`, otherwise its name. |
| `MenuExpander.Children` | classic-menu-block.php:73-92 | One language item per row, in row order. The k-th (from 0) is built from row k with counter k+1 and offset `offset + k`. |
| `MenuExpander.SwitcherSlot` | classic-menu-block.php:54-93 | A switcher emits `k` items, plus one in dropdown mode. The offset moves by the number emitted minus one. The t-th emitted item has `menu_order` = original + offset + t. |
| `MenuExpander.Slot` | classic-menu-block.php:52-97 | Each item emits `SlotSize` items. The offset moves by that count minus one. The t-th emitted item has order original + offset + t. |
| `MenuExpander.Walk` | classic-menu-block.php:44-98 | The loop keeps one value per input object. Its running offset is always the number of items emitted minus the number consumed. |
| `MenuExpander.WalkLength` | classic-menu-block.php:51-100 | The output length is the sum over items of 1 (plain item) or k + [dropdown] (switcher with k rows). |
| `MenuExpander.Expand` | classic-menu-block.php:41-101 | If `default_lang` is not a non-empty string (`""` and `"0"` count as empty), the items come back unchanged. Otherwise the output length is the total slot size. |
| `MenuItems.MenuItem.Clone` | classic-menu-block.php:76 | A clone has every property of its source. |
| `MenuExpander.NewLanguageItem` | classic-menu-block.php:75-89 | A fresh clone of the item with ID `ID-slug`, the row's title, URL, locale and classes, and an empty `attr_title`. In dropdown mode: order parent + i, `menu_item_parent` the parent's `db_id`, `db_id` 0. Otherwise: order + offset. |
| `MenuExpander.NewLanguageItems` | classic-menu-block.php:73-92 | The inner loop yields exactly `Children` as fresh, pairwise distinct objects and raises the offset by the number of rows. |
| `MenuExpander.RewriteAsParent` | classic-menu-block.php:63-68 | The item object itself becomes the dropdown parent. |
| `MenuExpander.ExpandSwitcher` | classic-menu-block.php:52-93 | The objects appended for a switcher item, its new value and the offset are exactly those of `SwitcherSlot`. Appended objects are the item itself or fresh, none twice. |
| `MenuExpander.ExpandItem` | classic-menu-block.php:52-97 | One loop pass agrees with `Slot` and changes only the current item object. |
| `MenuExpander.ExpandNext` | classic-menu-block.php:51-98 | One pass takes the loop state after `items[..j]` to the state after `items[..j + 1]`. Later items are not touched and do not appear in the output so far. |
| `MenuExpander.ExpandAllItems` | classic-menu-block.php:51-100 | The loop's output values and the input objects' final values are those of `Walk`. Every output object is an input object or a fresh clone, and none occurs twice. |
| `MenuExpander.NavMenuItems` | classic-menu-block.php:41-101 | `pll_nav_menu_items` on objects: the output values are `Expand` of the input values, and the input objects end as `InputsAfter` says. Without a default language, the very same objects come back untouched. The output never holds an object twice. |
| `ExpanderProperties.NoSwitcherWalk` | classic-menu-block.php:94-97 | Without switcher items, the offset stays 0, the output equals the input, and no object changes. |
| `ExpanderProperties.NoSwitcherIsIdentity` | classic-menu-block.php:41-101 | Without switcher items, the expander is the identity on items and on the objects' values. |
| `ExpanderProperties.WalkPrefix` | classic-menu-block.php:51-100 | The loop on a prefix of the items emits a prefix of the output, and object values agree on that prefix. |
| `ExpanderProperties.OffsetBefore` | classic-menu-block.php:44-98 | When item p is reached, the offset is the number of items emitted so far minus p. |
| `ExpanderProperties.SlotAfterPrefix` | classic-menu-block.php:51-100 | Item p's emitted items sit in the output right after those of the items before it. |
| `ExpanderProperties.SlotPlacement` | classic-menu-block.php:51-100 | The output is the concatenation of the items' slots in input order, with item p's slot starting at the total size of the items before it. |
| `ExpanderProperties.PlainItemPosition` | classic-menu-block.php:94-97 | A non-switcher item appears at its slot position, unchanged except that `menu_order` is raised by the offset. Its object ends with that value. |
| `ExpanderProperties.EmptySwitcherShiftsNextItem` | classic-menu-block.php:73-93 | A switcher with no rows and no dropdown vanishes. The next plain item takes its position with its order lowered by one. |
| `ExpanderProperties.ConsecutiveOrders` | classic-menu-block.php:44-98 | If the input orders are `first, first+1, …`, the output orders are `first, first+1, …` as well. |
| `ExpanderProperties.ExpandKeepsConsecutiveOrders` | classic-menu-block.php:41-101 | The same, for the expander as a whole. |
| `ExpanderProperties.FlatSwitcherSlot` | classic-menu-block.php:73-93 | Without dropdown: k clones in row order, offset change k-1, the item object untouched. Clone j gets ID, title, URL, locale and classes from row j, an empty `attr_title` and order original + offset + j. Nothing else changes. |
| `ExpanderProperties.DropdownSwitcherSlot` | classic-menu-block.php:62-93 | With dropdown: k+1 items, offset change k. The first is the item rewritten as parent. Child i has order parent + i, `menu_item_parent` the item's `db_id` and `db_id` 0. |
| `ExpanderProperties.DropdownParentName` | classic-menu-block.php:64-65 | Without flags, the parent's title is the escaped default-language slug or name, as `display_names_as` says. |
| `ExpanderProperties.FlatSwitcherExample` | classic-menu-block.php:51-97 | Switcher "5" (order 1, languages en and fr) followed by plain item "6" (order 2) gives "5-en" at order 1, "5-fr" at order 2 and "6" at order 3. |
| `RenderBlock.WithDefaults` | classic-menu-block.php:137-144 | Given attributes win. Missing `className` and `anchor` default to `""` and `menu` to 0. `language` has no default. |
| `RenderBlock.MenuArgsOf` | classic-menu-block.php:145-150 | `echo` is false. The container class is `wp-classic-menu-block ` followed by the block's class. The container id is the anchor, and the menu is the block's menu. |
| `RenderBlock.RenderDecision` | classic-menu-block.php:135-173 | Renders exactly when on REST, or when the block's language equals the current one (both possibly absent, i.e. null) and is not `all`. The menu arguments come from the attributes, and switcher expansion happens exactly on REST. |
| `RenderBlock.AllLanguagesHiddenOffRest` | classic-menu-block.php:153-155 | Off REST, a block set to `all` renders nothing, whatever the current language. |
| `RenderBlock.NoLanguageShowsWithoutCurrent` | classic-menu-block.php:151-153 | Off REST, a block without a `language` attribute shows exactly when there is no current language (null equals null). |
| `RenderBlock.RestAlwaysRenders` | classic-menu-block.php:153-171 | On REST, the menu is always rendered, with switcher expansion. |
| `RenderBlock.IntendedRenderDecision` | classic-menu-block.php:153-154 | The corrected gate renders on REST, for the current language, or for `all`. |
| `RenderBlock.IntendedDiffersOnlyForAll` | classic-menu-block.php:153-154 | The corrected gate shows `all` blocks everywhere and agrees with the code for every other block. |

## Left out

- Block registration (`register_block_type`, `add_action`, lines 23-31) and `src/edit.js`, the editor UI: framework glue with no logic to verify.
- The `classic_menu_block_attributes` filter (line 166) and `wp_nav_menu` (line 173) are foreign calls. `RenderDecision` returns the arguments before the filter, and a flag for registering the `wp_get_nav_menu_items` filter (line 170).
- Polylang internals are inputs: `PLL()`, `get_post_meta`, `sanitize_key`, `get_language`, `get_display_flag`, `PLL_Switcher::the_languages` and the `'raw' => 1` argument merge. `get_language` returning no language for a configured slug is not modelled: the default language is always supplied.
- `esc_html` is an arbitrary string function and `is_rtl()` a boolean. HTML escaping rules are not modelled.
- Switcher options are booleans holding PHP's truthiness of `show_flags`, `show_names` and `dropdown` (a missing key is false). The other meta entries are kept as strings under their keys, so their PHP types (integers, booleans) are not distinguished. The `default_lang` option is either a string or "not a string".
- Item IDs are modelled in their string form. The conversion of an integer ID to a string in `ID . '-' . slug` is not modelled.
- `NavMenuItems` requires the input objects to be distinct, as WordPress supplies one object per menu item. With an object listed twice, PHP would apply the in-place updates twice; that case is not modelled.

## Findings

| source | as written | input that shows it | evidently intended | confidence | as-written member | corrected member |
|---|---|---|---|---|---|---|
| classic-menu-block.php:153 | Off REST, the callback returns nothing when `'all' === $lang`. | A block with `language` = `all`, any current language, a front-end (non-REST) request: nothing is rendered. | Show the block for every language. The comment on line 154 says "Or for All", and the editor offers `all` as "For All Languages". | high, not executed | `RenderBlock.AllLanguagesHiddenOffRest` | `RenderBlock.IntendedRenderDecision` |
