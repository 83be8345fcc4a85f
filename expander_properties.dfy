/**
 * What `pll_nav_menu_items` guarantees about its result, proved about `Walk`, `Slot` and
 * `Expand`, the value-level description that `NavMenuItems` is verified against.
 */
module ExpanderProperties {
  import opened Wrappers
  import opened MenuItems
  import opened SwitcherTitle
  import opened MenuExpander

  /** True when no item of `items` is a language switcher. */
  predicate NoSwitchers(pll: Polylang, items: seq<Item>) {
    forall p :: 0 <= p < |items| ==> SwitcherOf(pll, items[p]).None?
  }

  /**
   * Without switcher items the loop changes nothing: the offset stays 0, the output is the
   * input in the same order with the same `menu_order` values, and no item object is touched.
   */
  lemma {:induction false} NoSwitcherWalk(pll: Polylang, items: seq<Item>)
    requires NoSwitchers(pll, items)
    ensures Walk(pll, items) == Progress(items, items, 0)
  {
    if items != [] {
      var init := items[..|items| - 1];
      assert NoSwitchers(pll, init) by {
        forall p | 0 <= p < |init| ensures SwitcherOf(pll, init[p]).None? {
          assert init[p] == items[p];
        }
      }
      NoSwitcherWalk(pll, init);
      assert init + [items[|items| - 1]] == items;
    }
  }

  /** Without switcher items, the expander returns its input and leaves the objects as they were. */
  lemma NoSwitcherIsIdentity(pll: Polylang, items: seq<Item>)
    requires NoSwitchers(pll, items)
    ensures Expand(pll, items) == items
    ensures InputsAfter(pll, items) == items
  {
    NoSwitcherWalk(pll, items);
  }

  /** Running the loop on a prefix of the items emits a prefix of the output and of the object values. */
  lemma {:induction false} WalkPrefix(pll: Polylang, items: seq<Item>, m: nat)
    requires m <= |items|
    ensures var whole := Walk(pll, items);
      var part := Walk(pll, items[..m]);
      && |part.emitted| <= |whole.emitted|
      && whole.emitted[..|part.emitted|] == part.emitted
      && whole.inputs[..m] == part.inputs
    decreases |items| - m
  {
    if m < |items| {
      var init := items[..|items| - 1];
      assert init[..m] == items[..m];
      WalkPrefix(pll, init, m);
      var whole := Walk(pll, items);
      var before := Walk(pll, init);
      assert whole.emitted[..|before.emitted|] == before.emitted;
      assert whole.inputs[..|init|] == before.inputs;
    } else {
      assert items[..m] == items;
    }
  }

  /** The running offset when item `p` is reached: items emitted so far minus items consumed. */
  lemma OffsetBefore(pll: Polylang, items: seq<Item>, p: nat)
    requires p <= |items|
    ensures Walk(pll, items[..p]).offset == TotalSize(pll, items[..p]) - p
  {
    WalkLength(pll, items[..p]);
  }

  /**
   * The output is the slots of the items, in input order: the items emitted for item `p` start
   * right after those of the items before it, and `p`'s object ends with `p`'s in-place value.
   */
  lemma SlotPlacement(pll: Polylang, items: seq<Item>, p: nat)
    requires p < |items|
    ensures var start := TotalSize(pll, items[..p]);
      var slot := Slot(pll, items[p], start - p);
      var whole := Walk(pll, items);
      && start + |slot.emitted| <= |whole.emitted|
      && whole.emitted[start..start + |slot.emitted|] == slot.emitted
      && whole.inputs[p] == slot.inPlace
  {
    OffsetBefore(pll, items, p);
    WalkLength(pll, items[..p]);
    SlotAfterPrefix(pll, items, p);
  }

  /** `SlotPlacement`, with the start and the offset read off the loop on `items[..p]`. */
  lemma SlotAfterPrefix(pll: Polylang, items: seq<Item>, p: nat)
    requires p < |items|
    ensures var pre := Walk(pll, items[..p]);
      var slot := Slot(pll, items[p], pre.offset);
      var whole := Walk(pll, items);
      && |pre.emitted| + |slot.emitted| <= |whole.emitted|
      && whole.emitted[|pre.emitted|..|pre.emitted| + |slot.emitted|] == slot.emitted
      && whole.inputs[p] == slot.inPlace
  {
    WalkStep(pll, items, p);
    WalkPrefix(pll, items, p + 1);
    var pre := Walk(pll, items[..p]);
    var slot := Slot(pll, items[p], pre.offset);
    var part := Walk(pll, items[..p + 1]);
    var whole := Walk(pll, items);
    assert part.emitted == pre.emitted + slot.emitted;
    assert |part.emitted| == |pre.emitted| + |slot.emitted|;
    assert whole.emitted[..|part.emitted|] == part.emitted;
    assert whole.emitted[|pre.emitted|..|part.emitted|] == part.emitted[|pre.emitted|..];
    assert part.inputs[p] == slot.inPlace;
    assert whole.inputs[p] == whole.inputs[..p + 1][p];
  }

  /**
   * An item that is not a switcher is emitted once, unchanged except that its `menu_order` is
   * raised by the running offset; its own object is updated to the same value.
   */
  lemma PlainItemPosition(pll: Polylang, items: seq<Item>, p: nat)
    requires p < |items| && SwitcherOf(pll, items[p]).None?
    ensures var start := TotalSize(pll, items[..p]);
      var moved := items[p].(menuOrder := items[p].menuOrder + (start - p));
      && start < |Walk(pll, items).emitted|
      && Walk(pll, items).emitted[start] == moved
      && Walk(pll, items).inputs[p] == moved
  {
    SlotPlacement(pll, items, p);
    var start := TotalSize(pll, items[..p]);
    var slot := Slot(pll, items[p], start - p);
    assert Walk(pll, items).emitted[start] == Walk(pll, items).emitted[start..start + 1][0];
  }

  /**
   * A switcher item with no language rows and no dropdown vanishes: the next item, when it is
   * not a switcher, takes its place with its `menu_order` lowered by one more than before.
   */
  lemma EmptySwitcherShiftsNextItem(pll: Polylang, items: seq<Item>, p: nat)
    requires p + 1 < |items|
    requires SwitcherOf(pll, items[p]).Some?
    requires !SwitcherOf(pll, items[p]).value.dropdown
    requires RowsOf(pll, SwitcherOf(pll, items[p]).value) == []
    requires SwitcherOf(pll, items[p + 1]).None?
    ensures var start := TotalSize(pll, items[..p]);
      && start < |Walk(pll, items).emitted|
      && Walk(pll, items).emitted[start]
         == items[p + 1].(menuOrder := items[p + 1].menuOrder + (start - p) - 1)
  {
    PlainItemPosition(pll, items, p + 1);
    TotalSizeStep(pll, items, p);
  }

  /**
   * The purpose of the offset: when the input's `menu_order` values are consecutive, so are
   * the output's, whatever the switchers expand into.
   */
  lemma {:induction false} ConsecutiveOrders(pll: Polylang, items: seq<Item>, first: int)
    requires forall p :: 0 <= p < |items| ==> items[p].menuOrder == first + p
    ensures forall m :: 0 <= m < |Walk(pll, items).emitted| ==> Walk(pll, items).emitted[m].menuOrder == first + m
  {
    if items != [] {
      var init := items[..|items| - 1];
      assert forall p :: 0 <= p < |init| ==> init[p] == items[p];
      ConsecutiveOrders(pll, init, first);
      var before := Walk(pll, init);
      var slot := Slot(pll, items[|items| - 1], before.offset);
      var out := Walk(pll, items).emitted;
      assert out == before.emitted + slot.emitted;
      forall m | 0 <= m < |out| ensures out[m].menuOrder == first + m {
        if m >= |before.emitted| {
          var t := m - |before.emitted|;
          assert out[m] == slot.emitted[t];
          assert slot.emitted[t].menuOrder == items[|items| - 1].menuOrder + before.offset + t;
          assert items[|items| - 1].menuOrder == first + |init|;
          assert before.offset == |before.emitted| - |init|;
        } else {
          assert out[m] == before.emitted[m];
          assert before.emitted[m].menuOrder == first + m;
        }
      }
    }
  }

  /** `ConsecutiveOrders` for the expander as a whole. */
  lemma ExpandKeepsConsecutiveOrders(pll: Polylang, items: seq<Item>, first: int)
    requires forall p :: 0 <= p < |items| ==> items[p].menuOrder == first + p
    ensures forall m :: 0 <= m < |Expand(pll, items)| ==> Expand(pll, items)[m].menuOrder == first + m
  {
    ConsecutiveOrders(pll, items, first);
  }

  /**
   * A switcher without dropdown, with k language rows, emits k clones of the item in row order
   * and moves the offset by k - 1. The j-th clone (from 0) differs from the item only in its ID
   * (the item's ID, a dash and the row's slug), title, empty `attr_title`, the row's URL, locale
   * and classes, and `menu_order`, which is the original plus the offset plus j. The item's own
   * object is left as it was.
   */
  lemma FlatSwitcherSlot(pll: Polylang, item: Item, offset: int)
    requires SwitcherOf(pll, item).Some? && !SwitcherOf(pll, item).value.dropdown
    ensures var options := SwitcherOf(pll, item).value;
      var rows := RowsOf(pll, options);
      var slot := Slot(pll, item, offset);
      && |slot.emitted| == |rows|
      && slot.offset == offset + |rows| - 1
      && slot.inPlace == item
      && forall j :: 0 <= j < |rows| ==>
           slot.emitted[j] == item.(id := item.id + "-" + rows[j].slug,
                                    title := ItemTitle(rows[j].flag, rows[j].name, options, pll.isRtl, pll.escHtml),
                                    attrTitle := "",
                                    url := rows[j].url,
                                    lang := Some(rows[j].locale),
                                    classes := rows[j].classes,
                                    menuOrder := item.menuOrder + offset + j)
  {
  }

  /**
   * A switcher with dropdown, with k language rows, emits k + 1 items and moves the offset by k.
   * The first is the item itself rewritten as the parent: the default language's title, empty
   * `attr_title`, the single class `pll-parent-menu-item`, `menu_order` raised by the offset.
   * The i-th child (from 1) is a clone of the parent with the row's ID suffix, title, URL, locale
   * and classes, `menu_order` the parent's plus i, `menu_item_parent` the item's `db_id`, and
   * `db_id` 0.
   */
  lemma DropdownSwitcherSlot(pll: Polylang, item: Item, offset: int)
    requires SwitcherOf(pll, item).Some? && SwitcherOf(pll, item).value.dropdown
    ensures var options := SwitcherOf(pll, item).value;
      var rows := RowsOf(pll, options);
      var def := pll.defaultLanguage;
      var slot := Slot(pll, item, offset);
      var parent := item.(title := ItemTitle(def.flag, DropdownName(def, options), options, pll.isRtl, pll.escHtml),
                          attrTitle := "",
                          classes := [ParentClass],
                          menuOrder := item.menuOrder + offset);
      && |slot.emitted| == |rows| + 1
      && slot.offset == offset + |rows|
      && slot.emitted[0] == parent
      && slot.inPlace == parent
      && forall i :: 1 <= i <= |rows| ==>
           slot.emitted[i] == parent.(id := item.id + "-" + rows[i - 1].slug,
                                      title := ItemTitle(rows[i - 1].flag, rows[i - 1].name, options, pll.isRtl, pll.escHtml),
                                      url := rows[i - 1].url,
                                      lang := Some(rows[i - 1].locale),
                                      classes := rows[i - 1].classes,
                                      menuOrder := parent.menuOrder + i,
                                      menuItemParent := item.dbId,
                                      dbId := 0)
  {
  }

  /**
   * The dropdown parent shows the default language's slug when the options ask for slugs, and
   * its name otherwise.
   */
  lemma DropdownParentName(pll: Polylang, item: Item, options: SwitcherOptions, offset: int)
    requires !options.showFlags
    ensures var def := pll.defaultLanguage;
      DropdownParent(pll, item, options, offset).title
        == pll.escHtml(if options.displayNamesAs == Some("slug") then def.slug else def.name)
  {
  }

  /**
   * A worked case: item "5" (order 1) is a switcher without dropdown over English and French,
   * item "6" (order 2) is a plain item. The two clones take orders 1 and 2, and item "6" moves
   * to order 3.
   */
  lemma FlatSwitcherExample()
    ensures var en := LanguageRow("en", "en_US", "English", "", "/en/", ["lang-item-en"]);
      var fr := LanguageRow("fr", "fr_FR", "Français", "", "/fr/", ["lang-item-fr"]);
      var pll := Polylang(Str("en"), Language("en", "English", ""),
                          id => if id == "5" then Some(SwitcherOptions(false, true, false, None, map[])) else None,
                          options => options,
                          options => [en, fr],
                          false,
                          name => name);
      var item5 := Item("5", "Languages", "", "#", [], 1, 0, 5, None, map[]);
      var item6 := Item("6", "Contact", "", "/contact/", [], 2, 0, 6, None, map[]);
      var out := Expand(pll, [item5, item6]);
      && |out| == 3
      && out[0].id == "5-en" && out[0].menuOrder == 1 && out[0].title == "English"
      && out[1].id == "5-fr" && out[1].menuOrder == 2 && out[1].lang == Some("fr_FR")
      && out[2] == item6.(menuOrder := 3)
  {
    var en := LanguageRow("en", "en_US", "English", "", "/en/", ["lang-item-en"]);
    var fr := LanguageRow("fr", "fr_FR", "Français", "", "/fr/", ["lang-item-fr"]);
    var pll := Polylang(Str("en"), Language("en", "English", ""),
                        id => if id == "5" then Some(SwitcherOptions(false, true, false, None, map[])) else None,
                        options => options,
                        options => [en, fr],
                        false,
                        name => name);
    var item5 := Item("5", "Languages", "", "#", [], 1, 0, 5, None, map[]);
    var item6 := Item("6", "Contact", "", "/contact/", [], 2, 0, 6, None, map[]);
    var items := [item5, item6];
    assert items[..1] == [item5];
    assert [item5][..0] == [];
    var options := SwitcherOptions(false, true, false, None, map[]);
    assert SwitcherOf(pll, item5) == Some(options);
    assert RowsOf(pll, options) == [en, fr];
    assert SwitcherOf(pll, item6) == None;
    var first := Walk(pll, [item5]);
    var slot := Slot(pll, item5, 0);
    assert slot == Step(Children(pll, item5, [en, fr], options, 0), item5, 1);
    assert Walk(pll, [item5][..0]) == Progress([], [], 0);
    assert first == Progress([] + slot.emitted, [] + [item5], 1);
    assert first.emitted == Children(pll, item5, [en, fr], options, 0);
    assert first.offset == 1;
    assert Walk(pll, items).emitted == first.emitted + [item6.(menuOrder := 3)];
  }
}
