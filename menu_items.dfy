/**
 * The entities the language switcher works on: nav-menu item objects, the language rows the
 * switcher resolves for a flagged item, the default language, and the switcher options stored
 * in an item's `_pll_menu_item` meta.
 */
module MenuItems {
  import opened Wrappers

  /**
   * The value of one nav-menu item object at some moment. The fields are those the switcher
   * reads or writes; `others` stands for every remaining property of the object (target, xfn,
   * description, object type, ...), which `clone` copies and nothing here writes.
   * `id` is the item's ID in its string form, since the switcher builds new IDs by string
   * concatenation. `lang` is the dynamic property the switcher adds to language items.
   */
  datatype Item = Item(
    id: string,
    title: string,
    attrTitle: string,
    url: string,
    classes: seq<string>,
    menuOrder: int,
    menuItemParent: int,
    dbId: int,
    lang: Option<string>,
    others: map<string, string>)

  /** One row of the raw result of the switcher's `the_languages`. */
  datatype LanguageRow = LanguageRow(
    slug: string,
    locale: string,
    name: string,
    flag: string,
    url: string,
    classes: seq<string>)

  /** The default language: its slug, its name and its rendered flag (`get_display_flag()`). */
  datatype Language = Language(slug: string, name: string, flag: string)

  /**
   * The switcher options of a flagged item. The booleans are the PHP truthiness of the
   * `show_flags`, `show_names` and `dropdown` entries (a missing entry is false);
   * `displayNamesAs` is the `display_names_as` entry when it is set. `others` holds every other
   * entry (`hide_current`, `hide_if_no_translation`, `force_home`, ...), which the expander
   * passes on to the filter and to `the_languages` without reading it.
   */
  datatype SwitcherOptions = SwitcherOptions(
    showFlags: bool,
    showNames: bool,
    dropdown: bool,
    displayNamesAs: Option<string>,
    others: map<string, string>)

  /** A PHP value of the `default_lang` option: a string, or anything that is not one. */
  datatype OptionValue = Str(s: string) | NotAString

  /**
   * True when the `default_lang` option is a string that PHP's `empty()` does not treat as
   * empty: neither "" nor "0".
   */
  predicate HasDefaultLanguage(v: OptionValue) {
    v.Str? && v.s != "" && v.s != "0"
  }

  /** A nav-menu item object, whose fields the switcher updates in place. */
  class MenuItem {
    var id: string
    var title: string
    var attrTitle: string
    var url: string
    var classes: seq<string>
    var menuOrder: int
    var menuItemParent: int
    var dbId: int
    var lang: Option<string>
    var others: map<string, string>

    /** The current value of this object. */
    function Value(): Item
      reads this
    {
      Item(id, title, attrTitle, url, classes, menuOrder, menuItemParent, dbId, lang, others)
    }

    /** PHP's shallow `clone`: a new object whose properties are those of `src`. */
    constructor Clone(src: MenuItem)
      ensures Value() == src.Value()
    {
      id, title, attrTitle, url, classes := src.id, src.title, src.attrTitle, src.url, src.classes;
      menuOrder, menuItemParent, dbId, lang, others := src.menuOrder, src.menuItemParent, src.dbId, src.lang, src.others;
    }
  }

  /** The values of a sequence of item objects, in order. */
  ghost function Values(s: seq<MenuItem>): (r: seq<Item>)
    reads s
    ensures |r| == |s|
    ensures forall k :: 0 <= k < |s| ==> r[k] == s[k].Value()
  {
    seq(|s|, k requires 0 <= k < |s| reads s => s[k].Value())
  }

  /** No object occurs twice in `s`. */
  predicate Distinct(s: seq<MenuItem>) {
    forall p, q :: 0 <= p < q < |s| ==> s[p] != s[q]
  }

  /** Two sequences without repeats and without a common object concatenate without repeats. */
  lemma DistinctConcat(a: seq<MenuItem>, b: seq<MenuItem>)
    requires Distinct(a) && Distinct(b)
    requires forall o :: o in b ==> o !in a
    ensures Distinct(a + b)
  {
    forall p, q | 0 <= p < q < |a + b| ensures (a + b)[p] != (a + b)[q] {
      if p < |a| <= q {
        assert (a + b)[q] in b;
      }
    }
  }

  /** The values of a concatenation are the concatenation of the values. */
  lemma ValuesConcat(a: seq<MenuItem>, b: seq<MenuItem>)
    ensures Values(a + b) == Values(a) + Values(b)
  {
    assert forall k :: 0 <= k < |a + b| ==> Values(a + b)[k] == (Values(a) + Values(b))[k];
  }
}
