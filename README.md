# menuer: tab selection and visibility, in Dafny

menuer is a Ruby helper for tabbed navigation menus in Rails views. A view
declares the tabs once, through a `Builder`. Each `Tab` renders as a link.
The link is styled as selected when the tab's `PageSelector` says that the
current page belongs to the tab.

This project models the logic of those three classes:

- `PageSelector`: an ordered list of conditions. There are three kinds:
  - a pair of regular expressions on the controller path and the action;
  - a list of pages (link options, or Procs giving them) checked with the
    template's `current_page?`;
  - a user block.

  The page is selected when some condition holds. Conditions are tried in
  order and the search stops at the first one that holds.
- `Tab`: visibility (an optional block), selection (its selector on the
  current controller path and action), and the HTML options it renders with.
  Those are the base options, merged with the selected options when the tab is
  selected; the selected options win on shared keys.
- `Builder`: an ordered, append-only list of tabs seeded with shared defaults,
  shorthand constructors for one-condition selectors, and the two iterations
  (`each`, `each_all`).

Files and modules:

- `wrappers.dfy` (`Wrappers`): `Option`, `Result` and `Outcome`, used for nil
  and for the raised ArgumentError.
- `enumerables.dfy` (`Enumerables`): `Detect`, which is `Enumerable#detect`,
  and `IsSubsequence`.
- `view_context.dfy` (`ViewContext`): the template, the regular expression
  engine, route options, HTML options and renderers.
- `page_selector.dfy` (`PageSelection`): the class `PageSelector`.
- `tab.dfy` (`Tabs`): the class `Tab`.
- `builder.dfy` (`Menus`): the class `Builder`.

The surroundings are parameters:

- `Template` is the view at evaluation time. It holds `@current_controller_path`
  and `@current_action`, each possibly nil, and the `current_page?` helper.
- `RegexEngine` is `string =~ regex`, read as a truth value.

The objects do not store the template: every evaluation receives it. The
objects that Ruby updates in place are Dafny classes with `modifies` clauses:

- `PageSelector.conditions` grows with `<<`.
- `Tab` has its accessors and `visible_on`.
- `Builder.tabs` grows with `add_tab`.

Evaluation (`selected?`, `visible?`, the render options) is done by functions
over the current fields. `detect` is the recursive function
`Enumerables.Detect`. Its two uses are the loops `CurrentPageSelected` and
`IsSelectedByOptions`. The first is proved against `Detect` directly, and
the second through `OptionsConditionHolds`. `each` and `each_all` are
the loops `Each` and `EachAll`.

The model follows the code on two points that are easy to misread:

- A block given to `on` receives only the controller path and the action
  (page_selector.rb:77-79), not the tab.
- A nil controller path or action fails even a side given as nil, because
  `nil =~ /.*/` is nil. A regex condition with only an action pattern
  therefore accepts any present controller path, but not a nil one.

One point differs from the code: in Ruby every tab shares the builder's
default option hashes (builder.rb:35-36). The model gives each tab the same
map value, and a map value cannot be changed in place. See "Left out".

## Model

| member | source | states |
|---|---|---|
| `Enumerables.Detect` | lib/menuer/page_selector.rb:72 | `detect` returns the first element satisfying the block: the position found holds, every earlier one fails, and None means none holds |
| `Enumerables.DetectAppend` | lib/menuer/page_selector.rb:72 | after one element is appended, `detect` still finds the element it found before; the new element is reached only when no earlier one holds |
| `PageSelection.SanitizeRegex` | lib/menuer/page_selector.rb:90-97 | fails with the ArgumentError exactly when both sides are nil; otherwise each side is the compiled pattern given, or MATCH_ALL (the constant `MatchAll`, `/.*/` of line 106) when that side is nil |
| `PageSelection.Holds` | lib/menuer/page_selector.rb:77-88 | evaluating a condition through `call_client_block` (the regex lambda of line 83, the options lambda of line 87, or the user block): a regex condition never holds on a nil path or action; an options condition holds only if `current_page?` accepts one of its pages; a block condition is the block's answer on the path and action |
| `PageSelection.ConstructConditionForRegex` | lib/menuer/page_selector.rb:81-84 | building a regex condition fails exactly when both sides are nil, with the ArgumentError message of line 91; otherwise it gives a regex condition |
| `PageSelection.RegexConditionHolds` | lib/menuer/page_selector.rb:81-97 | a regex condition holds iff the controller path matches the controller side AND the action matches the action side; a nil side becomes MATCH_ALL, which accepts any present string (given that the engine matches `.*` everywhere); a nil path or action never matches |
| `PageSelection.OptionsConditionHolds` | lib/menuer/page_selector.rb:86-104 | an options condition holds iff `current_page?` accepts at least one page, each resolved with the template at evaluation time, so a Proc is called then and not when it is registered |
| `PageSelection.AddingConditionKeepsSelection` | lib/menuer/page_selector.rb:39-40 | appending a condition never turns a selected page unselected, and the first condition that holds stays the same; the longer list is selected iff the old list was or the new condition holds |
| `PageSelection.PageSelector.constructor` | lib/menuer/page_selector.rb:8-11 | a new selector has no conditions and is not selected for any template, path or action |
| `PageSelection.PageSelector.IsSelected` | lib/menuer/page_selector.rb:71-73 | `current_page_selected?` is true iff at least one registered condition holds |
| `PageSelection.PageSelector.OnMatchingRegex` | lib/menuer/page_selector.rb:48-50 | appends exactly one regex condition at the end; with both sides nil it raises ArgumentError and the conditions are unchanged |
| `PageSelection.PageSelector.OnOptions` | lib/menuer/page_selector.rb:57-59 | appends exactly one options condition holding the pages as given, earlier conditions unchanged |
| `PageSelection.PageSelector.On` | lib/menuer/page_selector.rb:65-67 | appends the block as exactly one condition, earlier conditions unchanged |
| `PageSelection.PageSelector.CreateSelectedOnMatchingRegex` | lib/menuer/page_selector.rb:16-20 | a new selector whose only condition is the regex condition, or the ArgumentError when both sides are nil |
| `PageSelection.PageSelector.CreateSelectedOnOptions` | lib/menuer/page_selector.rb:24-28 | a new selector whose only condition is the options condition |
| `PageSelection.PageSelector.CreateSelectedOn` | lib/menuer/page_selector.rb:32-36 | a new selector whose only condition is the block |
| `PageSelection.PageSelector.CurrentPageSelected` | lib/menuer/page_selector.rb:71-73 | tries the conditions in order and stops at the first that holds: the position returned holds, all earlier ones fail, and some position is returned iff the selector is selected |
| `PageSelection.PageSelector.CallClientBlock` | lib/menuer/page_selector.rb:77-88 | evaluating one condition (regex lambda, options lambda or user block) gives that condition's truth value |
| `PageSelection.PageSelector.IsSelectedByOptions` | lib/menuer/page_selector.rb:99-104 | true iff `current_page?` accepts at least one page, each Proc being called during the evaluation |
| `Tabs.Merge` | lib/menuer/tab.rb:77 | `Hash#merge`: the keys of both maps; a shared key gets the overlay's value, any other key keeps the value it had |
| `Tabs.Tab.constructor` | lib/menuer/tab.rb:14-20 | a new tab has empty HTML and selected options, no visibility block (so it is visible on every template), and the selector given or a fresh empty one when nil is passed |
| `Tabs.Tab.Visible` | lib/menuer/tab.rb:41-43 | `visible?` is true when no visibility block is set, and otherwise the block's answer on the current controller path and action |
| `Tabs.Tab.Selected` | lib/menuer/tab.rb:47-49 | `selected?` holds iff some condition of its selector holds on the template's current controller path and action |
| `Tabs.Tab.GetOrCall` | lib/menuer/tab.rb:66-68 | a value is returned unchanged; a Proc is called with the current controller path and action |
| `Tabs.GetOrCallDependsOnlyOnRoute` | lib/menuer/tab.rb:62-74 | a resolved value depends on the template only through its controller path and action, and not at all when it is not a Proc |
| `Tabs.Tab.RenderOptions` | lib/menuer/tab.rb:76-78 | not selected: exactly the HTML options; selected: the keys of both maps, with the selected options' values on shared keys |
| `Tabs.Tab.VisibleOn` | lib/menuer/tab.rb:35-43 | replaces the visibility block, after which `visible?` equals the block's answer on every template; nothing else changes |
| `Tabs.Tab.SetRenderer` | lib/menuer/tab.rb:25 | the `renderer=` accessor sets the renderer only |
| `Tabs.Tab.SetOptions` | lib/menuer/tab.rb:28 | the `options=` accessor sets the link options only |
| `Tabs.Tab.SetHtmlOptions` | lib/menuer/tab.rb:28 | the `html_options=` accessor sets the HTML options only |
| `Tabs.Tab.SetSelectedOptions` | lib/menuer/tab.rb:28 | the `selected_options=` accessor sets the selected options only |
| `Menus.Builder.constructor` | lib/menuer/builder.rb:21-24 | a new builder keeps the defaults given and has no tabs |
| `Menus.Builder.WithDefaults` | lib/menuer/builder.rb:14-24 | without the optional arguments, the default HTML options are empty and the renderer is LinkToRenderer |
| `Menus.Builder.AddTab` | lib/menuer/builder.rb:33-38 | appends exactly one fresh tab and returns it. Earlier tabs stay in place and, since only the builder is modified, unchanged. The new tab has the builder's HTML options, selected options and renderer, and the selector given or an empty one. No tab appears twice |
| `Menus.Builder.AddTabWithSelectedOptions` | lib/menuer/builder.rb:44-47 | the new tab's selector has one options condition: the pages given, or `[options]` when none are given |
| `Menus.Builder.AddTabWithSelectedMatch` | lib/menuer/builder.rb:51-53 | the new tab's selector has the one regex condition; with both sides nil the ArgumentError is raised and no tab is appended |
| `Menus.Builder.AddTabWithSelectedBlock` | lib/menuer/builder.rb:57-59 | the new tab's selector has the block as its one condition |
| `Menus.Builder.EachAll` | lib/menuer/builder.rb:72-74 | yields every tab exactly once, in insertion order |
| `Menus.Builder.Each` | lib/menuer/builder.rb:63-67 | yields exactly the visible tabs, in insertion order, as a subsequence of what `each_all` yields |
| `Menus.VisibleTabs` | lib/menuer/builder.rb:63-67 | the filter `each` applies: never longer than the menu, and every tab it keeps is in the menu and visible |
| `Menus.VisibleTabsIsSubsequence` | lib/menuer/builder.rb:63-67 | the tabs `each` yields are the tabs of the menu with some dropped and the order kept |
| `Menus.VisibleTabsMembers` | lib/menuer/builder.rb:63-67 | a tab is yielded by `each` iff it is in the menu and visible |
| `Menus.HomeTabExample` | lib/menuer/builder.rb:44-47 | a builder with default options {class: tab} and selected options {id: current}: a tab added with no extra pages is selected on a page `current_page?` accepts as its link options, and renders with {class: tab, id: current} |
| `Menus.HiddenTabExample` | lib/menuer/builder.rb:63-74 | of two added tabs, the second hidden by `visible_on`, `each` yields only the first while `each_all` yields both |

## Left out

- Link rendering is not modelled: `Tab#render`, `LinkToRenderer` and
  `LinkToFunctionRenderer` only forward to the template's `link_to` and
  `link_to_function`. `Tab#render` also picks a renderer method with
  `respond_to?`, and its `render_tab` branch names an undefined `tab`. A
  renderer is carried only as a value that tabs take from the builder.
- The regular expression engine and `Regexp.new` are not modelled. Matching is
  the `RegexEngine` parameter, and a compiled expression is identified by its
  source text. An invalid source, which would make `Regexp.new` raise, is not
  modelled.
- The template is not modelled. `current_page?` and the reading of
  `@current_controller_path` and `@current_action` through
  `instance_variable_get` come from the `Template` parameter.
- The method aliases `add_item*` and `add_option*` (builder.rb:78-86) are not
  modelled: they are naming only.
- The class-level `default_renderer` setting (builder.rb:14-15) is not
  modelled beyond its initial value, LinkToRenderer.
- Menus.Builder.AddTab: the tab receives copies of the builder's default option
  hashes. In Ruby every tab shares the builder's hash objects, so mutating one
  of them in place also changes the others. The model does not show that.
- Tabs.Tab.VisibleOn: the block is a function of the controller path and
  action only. In Ruby it also receives the tab, and a Dafny function stored in
  a tab cannot take that tab.
- Tabs.Tab.GetOrCall: the same restriction applies to Procs given as a tab's
  name or link options.
- Blocks and Procs are pure functions of their arguments; a Proc among the
  pages of an options condition is a function of the template at evaluation
  time. Side effects of user blocks are not modelled. That includes a block
  given to `each` that changes tabs during the iteration.
- Menus.Builder.AddTabWithSelectedOptions: it takes static link options. A
  Proc there would be used both as the link and as a page, and Ruby would call
  it with no arguments.
- `PageSelector#on` called without a block is not modelled: it stores nil,
  and evaluating that condition raises LocalJumpError.
- `Tab#visible_on` called without a block is not modelled: it stores nil and
  makes the tab visible again, which is the effect of
  `VisibleOn((path, action) => true)`.
- Both the page selector and the tab are evaluated with one template. In Ruby
  each keeps its own `@template` (page_selector.rb:8-9, tab.rb:15), so a
  selector built for another template asks that template's `current_page?`
  while the tab reads the path and action from its own. Every builder path
  gives both the builder's template, and the model assumes they are the same.
- Procs are given different arguments in the model. Tab blocks and Procs
  (`VisibilityBlock`, `Late.Deferred`) see only the controller path and
  action. A Proc among the pages of an options condition (`OptionArg.Computed`)
  sees the whole template. In Ruby both are closures over the view, the first
  called with (tab, path, action) and the second with no arguments.
  `Tabs.GetOrCallDependsOnlyOnRoute` states a consequence of this choice, not
  of the source.
- Calling the options lambda follows Ruby 1.8. `call_client_block` yields two
  arguments (page_selector.rb:78) to `lambda { is_selected_by_options?(options) }`,
  which declares no parameters (page_selector.rb:87). Ruby 1.8 ignores the
  extra arguments, and that is what `Holds` models. From Ruby 1.9 on, a lambda
  checks its arity strictly, so evaluating an options condition would raise
  ArgumentError.
- `sanitize_regex` treats `false` like nil; the model has only nil (`None`).
