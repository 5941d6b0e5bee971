/** The menu: an ordered list of tabs built with shared defaults. */
module Menus {
  import opened Wrappers
  import opened Enumerables
  import opened ViewContext
  import opened PageSelection
  import opened Tabs

  /** The tabs `each` yields: the visible ones, in their order. */
  function VisibleTabs(ts: seq<Tab>, tpl: Template): (r: seq<Tab>)
    reads ts
    ensures |r| <= |ts|
    ensures forall i :: 0 <= i < |r| ==> r[i] in ts && r[i].Visible(tpl)
  {
    if ts == [] then []
    else VisibleTabs(ts[..|ts| - 1], tpl) + (if ts[|ts| - 1].Visible(tpl) then [ts[|ts| - 1]] else [])
  }

  /** `each` keeps the order of `each_all` and only drops tabs. */
  lemma {:induction false} VisibleTabsIsSubsequence(ts: seq<Tab>, tpl: Template)
    ensures IsSubsequence(VisibleTabs(ts, tpl), ts)
  {
    if ts != [] {
      var init := ts[..|ts| - 1];
      VisibleTabsIsSubsequence(init, tpl);
      var v := VisibleTabs(ts, tpl);
      if ts[|ts| - 1].Visible(tpl) {
        assert v[..|v| - 1] == VisibleTabs(init, tpl);
      } else {
        assert v == VisibleTabs(init, tpl);
      }
    }
  }

  /** `each` yields a tab iff it is in the menu and visible. */
  lemma {:induction false} VisibleTabsMembers(ts: seq<Tab>, tpl: Template, t: Tab)
    ensures t in VisibleTabs(ts, tpl) <==> t in ts && t.Visible(tpl)
  {
    if ts != [] {
      var init := ts[..|ts| - 1];
      VisibleTabsMembers(init, tpl, t);
      assert ts == init + [ts[|ts| - 1]];
    }
  }

  class Builder {
    const renderer: Renderer
    const htmlOptions: Attrs
    const selectedOptions: Attrs
    var tabs: seq<Tab>

    /** No tab is in the menu twice. */
    ghost predicate Valid()
      reads this
    {
      forall i, j :: 0 <= i < j < |tabs| ==> tabs[i] != tabs[j]
    }

    /** `Builder.new`: the defaults given and no tabs. */
    constructor (defaultSelectedOptions: Attrs, defaultHtmlOptions: Attrs, renderer: Renderer)
      ensures Valid() && tabs == []
      ensures selectedOptions == defaultSelectedOptions && htmlOptions == defaultHtmlOptions
      ensures this.renderer == renderer
    {
      this.renderer := renderer;
      this.htmlOptions := defaultHtmlOptions;
      this.selectedOptions := defaultSelectedOptions;
      this.tabs := [];
    }

    /** `Builder.new` with its optional arguments left out: no default HTML
      options and the default renderer, LinkToRenderer. */
    constructor WithDefaults(defaultSelectedOptions: Attrs)
      ensures Valid() && tabs == []
      ensures selectedOptions == defaultSelectedOptions && htmlOptions == map[]
      ensures renderer == LinkToRenderer
    {
      this.renderer := LinkToRenderer;
      this.htmlOptions := map[];
      this.selectedOptions := defaultSelectedOptions;
      this.tabs := [];
    }

    /** `add_tab`: appends one new tab, seeded with the menu's defaults, and
      returns it; the tabs already there stay, in place and unchanged. */
    method AddTab(name: Late<string>, options: Late<RouteOptions>, pageSelector: PageSelector?)
      returns (tab: Tab)
      requires Valid()
      modifies this
      ensures Valid()
      ensures fresh(tab) && tabs == old(tabs) + [tab]
      ensures tab.name == name && tab.options == options && tab.renderer == renderer
      ensures tab.htmlOptions == htmlOptions && tab.selectedOptions == selectedOptions
      ensures forall tpl :: tab.Visible(tpl)
      ensures pageSelector != null ==> tab.pageSelector == pageSelector
      ensures pageSelector == null ==> fresh(tab.pageSelector) && tab.pageSelector.conditions == []
    {
      tab := new Tab(renderer, name, options, pageSelector);
      tab.SetHtmlOptions(htmlOptions);
      tab.SetSelectedOptions(selectedOptions);
      tabs := tabs + [tab];
    }

    /** `add_tab_with_selected_options`: a tab selected on the given pages, or
      on its own link options when no page is given. */
    method AddTabWithSelectedOptions(name: Late<string>, options: RouteOptions, pages: seq<OptionArg>)
      returns (tab: Tab)
      requires Valid()
      modifies this
      ensures Valid()
      ensures fresh(tab) && tabs == old(tabs) + [tab]
      ensures tab.name == name && tab.options == Given(options) && tab.renderer == renderer
      ensures tab.htmlOptions == htmlOptions && tab.selectedOptions == selectedOptions
      ensures forall tpl :: tab.Visible(tpl)
      ensures fresh(tab.pageSelector)
      ensures tab.pageSelector.conditions == [OptionsMatch(if pages == [] then [Static(options)] else pages)]
    {
      var selected := if pages == [] then [Static(options)] else pages;
      var selector := PageSelector.CreateSelectedOnOptions(selected);
      tab := AddTab(name, Given(options), selector);
    }

    /** `add_tab_with_selected_match`: a tab selected on the regex condition, or
      the ArgumentError raised for two nil sides, with no tab added. */
    method AddTabWithSelectedMatch(name: Late<string>, options: Late<RouteOptions>,
                                   controllerRegex: Option<Pattern>, actionRegex: Option<Pattern>)
      returns (r: Result<Tab, ArgumentError>)
      requires Valid()
      modifies this
      ensures Valid()
      ensures r.Failure? <==> controllerRegex.None? && actionRegex.None?
      ensures r.Failure? ==> r.error == ArgumentError(MissingRegexMessage) && tabs == old(tabs)
      ensures r.Success? ==> fresh(r.value) && tabs == old(tabs) + [r.value]
      ensures r.Success? ==> r.value.name == name && r.value.options == options && r.value.renderer == renderer
      ensures r.Success? ==> forall tpl :: r.value.Visible(tpl)
      ensures r.Success? ==> r.value.htmlOptions == htmlOptions && r.value.selectedOptions == selectedOptions
      ensures r.Success? ==> fresh(r.value.pageSelector)
      ensures r.Success? ==>
        r.value.pageSelector.conditions == [ConstructConditionForRegex(controllerRegex, actionRegex).value]
    {
      var selector := PageSelector.CreateSelectedOnMatchingRegex(controllerRegex, actionRegex);
      if selector.Failure? {
        return Failure(selector.error);
      }
      var tab := AddTab(name, options, selector.value);
      return Success(tab);
    }

    /** `add_tab_with_selected_block`: a tab selected when the block says so. */
    method AddTabWithSelectedBlock(name: Late<string>, options: Late<RouteOptions>, block: CustomBlock)
      returns (tab: Tab)
      requires Valid()
      modifies this
      ensures Valid()
      ensures fresh(tab) && tabs == old(tabs) + [tab]
      ensures tab.name == name && tab.options == options && tab.renderer == renderer
      ensures tab.htmlOptions == htmlOptions && tab.selectedOptions == selectedOptions
      ensures forall tpl :: tab.Visible(tpl)
      ensures fresh(tab.pageSelector) && tab.pageSelector.conditions == [Custom(block)]
    {
      var selector := PageSelector.CreateSelectedOn(block);
      tab := AddTab(name, options, selector);
    }

    /** `each_all`: the tabs handed to the block, every tab once, in the order
      they were added. */
    method EachAll() returns (yielded: seq<Tab>)
      requires Valid()
      ensures yielded == tabs
      ensures forall i, j :: 0 <= i < j < |yielded| ==> yielded[i] != yielded[j]
    {
      yielded := [];
      var i := 0;
      while i < |tabs|
        invariant 0 <= i <= |tabs|
        invariant yielded == tabs[..i]
      {
        yielded := yielded + [tabs[i]];
        i := i + 1;
      }
    }

    /** `each`: the tabs handed to the block, the visible ones in the order
      they were added. */
    method Each(tpl: Template) returns (yielded: seq<Tab>)
      ensures yielded == VisibleTabs(tabs, tpl)
      ensures IsSubsequence(yielded, tabs)
      ensures forall t :: t in yielded <==> t in tabs && t.Visible(tpl)
    {
      yielded := [];
      var i := 0;
      while i < |tabs|
        invariant 0 <= i <= |tabs|
        invariant yielded == VisibleTabs(tabs[..i], tpl)
      {
        assert tabs[..i + 1][..i] == tabs[..i];
        if tabs[i].Visible(tpl) {
          yielded := yielded + [tabs[i]];
        }
        i := i + 1;
      }
      assert tabs[..i] == tabs;
      VisibleTabsIsSubsequence(tabs, tpl);
      forall t: Tab ensures t in yielded <==> t in tabs && t.Visible(tpl) {
        VisibleTabsMembers(tabs, tpl, t);
      }
    }
  }

  /** A client of the builder: default HTML options {class: tab}, selected
      options {id: current}, and a "Home" tab selected on its own link options,
      rendered on a page that `current_page?` recognises as those options. */
  method HomeTabExample(tpl: Template, engine: RegexEngine) returns (attrs: Attrs)
    requires tpl.isCurrentPage(Url("/"))
    ensures attrs == map["class" := "tab", "id" := "current"]
  {
    var menu := new Builder(map["id" := "current"], map["class" := "tab"], LinkToRenderer);
    var home := menu.AddTabWithSelectedOptions(Given("Home"), Url("/"), []);
    assert Holds(home.pageSelector.conditions[0], tpl, engine, tpl.currentControllerPath, tpl.currentAction) by {
      OptionsConditionHolds([Static(Url("/"))], tpl, engine, tpl.currentControllerPath, tpl.currentAction);
      assert Resolve([Static(Url("/"))][0], tpl) == Url("/");
    }
    attrs := home.RenderOptions(tpl, engine);
  }

  /** A client of `each`: of two tabs, the second hidden by `visible_on`,
      `each` yields only the first while `each_all` yields both. */
  method HiddenTabExample(tpl: Template) returns (visible: seq<Tab>, all: seq<Tab>)
    ensures |visible| == 1 && |all| == 2 && visible[0] == all[0]
  {
    var menu := new Builder.WithDefaults(map[]);
    var users := menu.AddTab(Given("Users"), Given(Url("/users")), null);
    var admin := menu.AddTab(Given("Admin"), Given(Url("/admin")), null);
    assert menu.tabs == [users, admin] && users != admin;
    assert users.Visible(tpl);
    admin.VisibleOn((path, action) => false);
    assert users.Visible(tpl) && !admin.Visible(tpl);
    visible := menu.Each(tpl);
    all := menu.EachAll();
    assert [users][..0] == [];
    assert VisibleTabs([users], tpl) == [users];
    assert [users, admin][..1] == [users];
    assert visible == VisibleTabs([users, admin], tpl) == [users];
  }
}
