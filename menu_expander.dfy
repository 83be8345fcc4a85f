/**
 * `pll_nav_menu_items`: in the Site Editor's preview, every menu item flagged as a language
 * switcher is replaced by one item per language, or by a dropdown parent followed by one child
 * per language, and the `menu_order` of every item is shifted by a running offset so the
 * expanded menu keeps its order.
 *
 * `Slot` and `Walk` say on values what the loop does; `NavMenuItems` is the loop itself, over
 * item objects that it updates in place and clones.
 */
module MenuExpander {
  import opened Wrappers
  import opened MenuItems
  import opened SwitcherTitle

  /**
   * What the expander learns from Polylang and WordPress, as values:
   * - `defaultLangOption`: the `default_lang` option;
   * - `defaultLanguage`: the language that option names;
   * - `menuItemMeta`: the `_pll_menu_item` meta of an item ID, None when it is empty;
   * - `argsFilter`: the `pll_the_languages_args` filter;
   * - `theLanguages`: the raw rows the switcher returns for the filtered options;
   * - `isRtl` and `escHtml`: `is_rtl()` and `esc_html`.
   */
  datatype Polylang = Polylang(
    defaultLangOption: OptionValue,
    defaultLanguage: Language,
    menuItemMeta: string -> Option<SwitcherOptions>,
    argsFilter: SwitcherOptions -> SwitcherOptions,
    theLanguages: SwitcherOptions -> seq<LanguageRow>,
    isRtl: bool,
    escHtml: string -> string)

  /** The only class of a dropdown parent. */
  const ParentClass := "pll-parent-menu-item"

  /** The options in force for an item: None when it is not a switcher, else its filtered meta. */
  function SwitcherOf(pll: Polylang, item: Item): Option<SwitcherOptions> {
    match pll.menuItemMeta(item.id)
    case None => None
    case Some(meta) => Some(pll.argsFilter(meta))
  }

  /** The language rows a switcher item expands into. */
  function RowsOf(pll: Polylang, options: SwitcherOptions): seq<LanguageRow> {
    pll.theLanguages(options)
  }

  /** The name shown by a dropdown parent: the default language's slug or its name. */
  function DropdownName(def: Language, options: SwitcherOptions): (name: string)
    ensures name == def.slug || name == def.name
    ensures options.displayNamesAs == Some("slug") ==> name == def.slug
    ensures options.displayNamesAs != Some("slug") ==> name == def.name
  {
    if options.displayNamesAs.Some? && options.displayNamesAs.value == "slug" then def.slug else def.name
  }

  /** The flagged item rewritten as the dropdown parent, with the running offset applied. */
  function DropdownParent(pll: Polylang, item: Item, options: SwitcherOptions, offset: int): Item {
    var def := pll.defaultLanguage;
    item.(title := ItemTitle(def.flag, DropdownName(def, options), options, pll.isRtl, pll.escHtml),
          attrTitle := "",
          classes := [ParentClass],
          menuOrder := item.menuOrder + offset)
  }

  /**
   * The clone of `base` for language row `row`: the `i`-th row (1-based) of its switcher, with the
   * running offset at `offset` when it is made. In dropdown mode `base` is the dropdown parent.
   */
  function LanguageChild(pll: Polylang, base: Item, row: LanguageRow, options: SwitcherOptions, i: int, offset: int): Item {
    var child := LanguageClone(pll, base, row, options);
    if options.dropdown then
      child.(menuOrder := base.menuOrder + i, menuItemParent := base.dbId, dbId := 0)
    else
      child.(menuOrder := base.menuOrder + offset)
  }

  /** The fields every language item takes from its row, whatever the mode (lines 77-82). */
  function LanguageClone(pll: Polylang, base: Item, row: LanguageRow, options: SwitcherOptions): Item {
    base.(id := base.id + "-" + row.slug,
          title := ItemTitle(row.flag, row.name, options, pll.isRtl, pll.escHtml),
          attrTitle := "",
          url := row.url,
          lang := Some(row.locale),
          classes := row.classes)
  }

  /** The language items cloned from `base`, one per row in row order; the offset starts at `offset`. */
  function Children(pll: Polylang, base: Item, rows: seq<LanguageRow>, options: SwitcherOptions, offset: int): (r: seq<Item>)
    ensures |r| == |rows|
    ensures forall k :: 0 <= k < |rows| ==> r[k] == LanguageChild(pll, base, rows[k], options, k + 1, offset + k)
  {
    seq(|rows|, k requires 0 <= k < |rows| => LanguageChild(pll, base, rows[k], options, k + 1, offset + k))
  }

  /** How many items one input item turns into. */
  function SlotSize(pll: Polylang, item: Item): nat {
    match SwitcherOf(pll, item)
    case None => 1
    case Some(options) => |RowsOf(pll, options)| + (if options.dropdown then 1 else 0)
  }

  /**
   * One pass of the loop: the items emitted for `item`, the value `item`'s own object has
   * afterwards, and the running offset afterwards.
   */
  datatype Step = Step(emitted: seq<Item>, inPlace: Item, offset: int)

  /** The loop body for one item, with the running offset at `offset`. */
  function Slot(pll: Polylang, item: Item, offset: int): (r: Step)
    ensures |r.emitted| == SlotSize(pll, item)
    ensures r.offset == offset + |r.emitted| - 1
    ensures forall t :: 0 <= t < |r.emitted| ==> r.emitted[t].menuOrder == item.menuOrder + offset + t
  {
    match SwitcherOf(pll, item)
    case None =>
      var moved := item.(menuOrder := item.menuOrder + offset);
      Step([moved], moved, offset)
    case Some(options) => SwitcherSlot(pll, item, options, offset)
  }

  /** The loop body for a flagged item whose filtered options are `options`. */
  function SwitcherSlot(pll: Polylang, item: Item, options: SwitcherOptions, offset: int): (r: Step)
    ensures |r.emitted| == |RowsOf(pll, options)| + (if options.dropdown then 1 else 0)
    ensures r.offset == offset + |r.emitted| - 1
    ensures forall t :: 0 <= t < |r.emitted| ==> r.emitted[t].menuOrder == item.menuOrder + offset + t
  {
    var rows := RowsOf(pll, options);
    if options.dropdown then
      var parent := DropdownParent(pll, item, options, offset);
      Step([parent] + Children(pll, parent, rows, options, offset + 1), parent, offset + 1 + |rows| - 1)
    else
      Step(Children(pll, item, rows, options, offset), item, offset + |rows| - 1)
  }

  /** The state of the loop after a prefix of the items: what it emitted, their objects' values, the offset. */
  datatype Progress = Progress(emitted: seq<Item>, inputs: seq<Item>, offset: int)

  /** The loop run over all of `items`, starting from offset 0. */
  function Walk(pll: Polylang, items: seq<Item>): (r: Progress)
    ensures |r.inputs| == |items|
    ensures r.offset == |r.emitted| - |items|
  {
    if items == [] then Progress([], [], 0)
    else
      var before := Walk(pll, items[..|items| - 1]);
      var step := Slot(pll, items[|items| - 1], before.offset);
      Progress(before.emitted + step.emitted, before.inputs + [step.inPlace], step.offset)
  }

  /** The number of items `Walk` emits, summed slot by slot. */
  function TotalSize(pll: Polylang, items: seq<Item>): nat {
    if items == [] then 0 else TotalSize(pll, items[..|items| - 1]) + SlotSize(pll, items[|items| - 1])
  }

  /** The expander's result: nothing changes unless a default language is configured. */
  function Expand(pll: Polylang, items: seq<Item>): (r: seq<Item>)
    ensures !HasDefaultLanguage(pll.defaultLangOption) ==> r == items
    ensures |r| == if HasDefaultLanguage(pll.defaultLangOption) then TotalSize(pll, items) else |items|
  {
    if HasDefaultLanguage(pll.defaultLangOption) then
      WalkLength(pll, items);
      Walk(pll, items).emitted
    else items
  }

  /** The values the input objects have after the expander. */
  function InputsAfter(pll: Polylang, items: seq<Item>): (r: seq<Item>)
    ensures |r| == |items|
  {
    if HasDefaultLanguage(pll.defaultLangOption) then Walk(pll, items).inputs else items
  }

  /** The output length is the sum of the slot sizes. */
  lemma {:induction false} WalkLength(pll: Polylang, items: seq<Item>)
    ensures |Walk(pll, items).emitted| == TotalSize(pll, items)
  {
    if items != [] {
      WalkLength(pll, items[..|items| - 1]);
    }
  }

  /** One more item: the loop on `items[..p + 1]` is the loop on `items[..p]` followed by `p`'s slot. */
  lemma WalkStep(pll: Polylang, items: seq<Item>, p: nat)
    requires p < |items|
    ensures var pre := Walk(pll, items[..p]);
      var slot := Slot(pll, items[p], pre.offset);
      Walk(pll, items[..p + 1]) == Progress(pre.emitted + slot.emitted, pre.inputs + [slot.inPlace], slot.offset)
  {
    assert items[..p + 1][..p] == items[..p];
  }

  /** One more item adds its slot size to the total. */
  lemma TotalSizeStep(pll: Polylang, items: seq<Item>, p: nat)
    requires p < |items|
    ensures TotalSize(pll, items[..p + 1]) == TotalSize(pll, items[..p]) + SlotSize(pll, items[p])
  {
    assert items[..p + 1][..p] == items[..p];
  }

  /**
   * The clone of `item` for the `i`-th language row (lines 76-89): a fresh object, `item`
   * untouched.
   */
  method NewLanguageItem(pll: Polylang, item: MenuItem, lang: LanguageRow, options: SwitcherOptions, i: int, offset: int)
    returns (langItem: MenuItem)
    ensures fresh(langItem)
    ensures langItem.Value() == LanguageChild(pll, item.Value(), lang, options, i, offset)
  {
    langItem := new MenuItem.Clone(item);
    langItem.id := langItem.id + "-" + lang.slug;
    langItem.title := ItemTitle(lang.flag, lang.name, options, pll.isRtl, pll.escHtml);
    langItem.attrTitle := "";
    langItem.url := lang.url;
    langItem.lang := Some(lang.locale);
    langItem.classes := lang.classes;
    assert langItem.Value() == LanguageClone(pll, item.Value(), lang, options);
    if options.dropdown {
      langItem.menuOrder := item.menuOrder + i;
      langItem.menuItemParent := item.dbId;
      langItem.dbId := 0;
    } else {
      langItem.menuOrder := langItem.menuOrder + offset;
    }
  }

  /**
   * The inner loop over the language rows (lines 73-92): one fresh clone of `item` per row,
   * in row order, while the running offset goes from `offset` up by one per row.
   */
  method NewLanguageItems(pll: Polylang, item: MenuItem, rows: seq<LanguageRow>, options: SwitcherOptions, offset: int)
    returns (langItems: seq<MenuItem>, offsetAfter: int)
    ensures offsetAfter == offset + |rows|
    ensures Values(langItems) == Children(pll, item.Value(), rows, options, offset)
    ensures forall k :: 0 <= k < |langItems| ==> fresh(langItems[k])
    ensures Distinct(langItems)
  {
    langItems := [];
    offsetAfter := offset;
    var i := 0;
    while i < |rows|
      invariant 0 <= i <= |rows|
      invariant offsetAfter == offset + i
      invariant |langItems| == i
      invariant forall k :: 0 <= k < i ==> langItems[k].Value() == LanguageChild(pll, item.Value(), rows[k], options, k + 1, offset + k)
      invariant forall k :: 0 <= k < i ==> fresh(langItems[k])
      invariant Distinct(langItems)
    {
      i := i + 1;
      var langItem := NewLanguageItem(pll, item, rows[i - 1], options, i, offsetAfter);
      langItems := langItems + [langItem];
      offsetAfter := offsetAfter + 1;
    }
  }

  /** The dropdown parent rewrite of the flagged item itself (lines 64-68). */
  method RewriteAsParent(pll: Polylang, item: MenuItem, options: SwitcherOptions, offset: int)
    modifies item
    ensures item.Value() == DropdownParent(pll, old(item.Value()), options, offset)
  {
    var def := pll.defaultLanguage;
    item.title := ItemTitle(def.flag, DropdownName(def, options), options, pll.isRtl, pll.escHtml);
    item.attrTitle := "";
    item.classes := [ParentClass];
    item.menuOrder := item.menuOrder + offset;
  }

  /**
   * The loop body for a flagged item with filtered options `options` (lines 54-93): the
   * objects it appends and the running offset afterwards. Only `item` itself may change.
   */
  method ExpandSwitcher(pll: Polylang, item: MenuItem, options: SwitcherOptions, offset: int)
    returns (emitted: seq<MenuItem>, offsetAfter: int)
    modifies item
    ensures SwitcherSlot(pll, old(item.Value()), options, offset) == Step(Values(emitted), item.Value(), offsetAfter)
    ensures forall o :: o in emitted ==> o == item || fresh(o)
    ensures Distinct(emitted)
  {
    var theLanguages := pll.theLanguages(options);
    emitted := [];
    offsetAfter := offset;
    if options.dropdown {
      RewriteAsParent(pll, item, options, offset);
      emitted := [item];
      offsetAfter := offsetAfter + 1;
    }
    ghost var base := item.Value();
    ghost var heads := Values(emitted);
    assert heads == if options.dropdown then [base] else [];
    var langItems;
    langItems, offsetAfter := NewLanguageItems(pll, item, theLanguages, options, offsetAfter);
    assert Values(emitted) == heads;
    ValuesConcat(emitted, langItems);
    emitted := emitted + langItems;
    offsetAfter := offsetAfter - 1;
    ghost var expected := SwitcherSlot(pll, old(item.Value()), options, offset);
    assert base == expected.inPlace;
    assert Values(emitted) == heads + Children(pll, base, theLanguages, options, offsetAfter + 1 - |theLanguages|);
    assert Values(emitted) == expected.emitted;
  }

  /**
   * The body of the outer loop for one item (lines 52-97): the objects it appends, in order,
   * and the running offset afterwards. Only `item` itself may change.
   */
  method ExpandItem(pll: Polylang, item: MenuItem, offset: int) returns (emitted: seq<MenuItem>, offsetAfter: int)
    modifies item
    ensures Slot(pll, old(item.Value()), offset) == Step(Values(emitted), item.Value(), offsetAfter)
    ensures forall o :: o in emitted ==> o == item || fresh(o)
    ensures Distinct(emitted)
  {
    var meta := pll.menuItemMeta(item.id);
    if meta.Some? {
      var options := pll.argsFilter(meta.value);
      emitted, offsetAfter := ExpandSwitcher(pll, item, options, offset);
    } else {
      item.menuOrder := item.menuOrder + offset;
      emitted := [item];
      offsetAfter := offset;
    }
  }

  /**
   * `pll_nav_menu_items` over the menu's item objects. The input objects are updated in
   * place (offset applied, dropdown parents rewritten) and reused in the result; language
   * items are fresh clones.
   */
  method NavMenuItems(pll: Polylang, items: seq<MenuItem>) returns (newItems: seq<MenuItem>)
    requires Distinct(items)
    modifies items
    ensures Values(newItems) == Expand(pll, old(Values(items)))
    ensures Values(items) == InputsAfter(pll, old(Values(items)))
    ensures !HasDefaultLanguage(pll.defaultLangOption) ==> newItems == items
    ensures forall o :: o in newItems ==> o in items || fresh(o)
    ensures Distinct(newItems)
  {
    if !HasDefaultLanguage(pll.defaultLangOption) {
      return items;
    }
    newItems := ExpandAllItems(pll, items);
  }

  /**
   * One pass of the outer loop (lines 52-97), on item `j`: the loop's state goes from that after
   * `before[..j]` to that after `before[..j + 1]`.
   */
  method ExpandNext(pll: Polylang, items: seq<MenuItem>, j: nat, newItems: seq<MenuItem>, offset: int, ghost before: seq<Item>)
    returns (newItemsAfter: seq<MenuItem>, offsetAfter: int)
    requires j < |items| == |before|
    requires Distinct(items) && Distinct(newItems)
    requires offset == Walk(pll, before[..j]).offset
    requires Values(newItems) == Walk(pll, before[..j]).emitted
    requires forall p :: 0 <= p < j ==> items[p].Value() == Walk(pll, before[..j]).inputs[p]
    requires items[j].Value() == before[j]
    requires forall p :: j <= p < |items| ==> items[p] !in newItems
    modifies items[j]
    ensures offsetAfter == Walk(pll, before[..j + 1]).offset
    ensures Values(newItemsAfter) == Walk(pll, before[..j + 1]).emitted
    ensures forall p :: 0 <= p <= j ==> items[p].Value() == Walk(pll, before[..j + 1]).inputs[p]
    ensures forall p :: j < p < |items| ==> items[p] !in newItemsAfter
    ensures forall o :: o in newItemsAfter ==> o in newItems || o == items[j] || fresh(o)
    ensures Distinct(newItemsAfter)
  {
    ghost var progress := Walk(pll, before[..j]);
    WalkStep(pll, before, j);
    var emitted;
    emitted, offsetAfter := ExpandItem(pll, items[j], offset);
    assert Values(newItems) == progress.emitted;
    ValuesConcat(newItems, emitted);
    assert items[j] !in newItems;
    DistinctConcat(newItems, emitted);
    newItemsAfter := newItems + emitted;
    forall p | 0 <= p < j ensures items[p].Value() == progress.inputs[p] {
      assert items[p] != items[j];
    }
    forall p | j < p < |items| ensures items[p] !in newItemsAfter {
      assert items[p] != items[j];
      assert items[p] !in emitted;
    }
  }

  /** The outer loop of `pll_nav_menu_items` (lines 51-98), once a default language is known. */
  method ExpandAllItems(pll: Polylang, items: seq<MenuItem>) returns (newItems: seq<MenuItem>)
    requires Distinct(items)
    modifies items
    ensures Values(newItems) == Walk(pll, old(Values(items))).emitted
    ensures Values(items) == Walk(pll, old(Values(items))).inputs
    ensures forall o :: o in newItems ==> o in items || fresh(o)
    ensures Distinct(newItems)
  {
    newItems := [];
    var offset := 0;
    ghost var before := Values(items);
    var j := 0;
    while j < |items|
      invariant 0 <= j <= |items|
      invariant offset == Walk(pll, before[..j]).offset
      invariant Values(newItems) == Walk(pll, before[..j]).emitted
      invariant forall p :: 0 <= p < j ==> items[p].Value() == Walk(pll, before[..j]).inputs[p]
      invariant forall p :: j <= p < |items| ==> items[p].Value() == before[p]
      invariant forall p :: j <= p < |items| ==> items[p] !in newItems
      invariant forall o :: o in newItems ==> o in items || fresh(o)
      invariant Distinct(newItems)
    {
      newItems, offset := ExpandNext(pll, items, j, newItems, offset, before);
      j := j + 1;
    }
    assert before[..|items|] == before;
  }
}
