/** One menu entry: its link, its HTML options, when it is visible and when it
    is selected. */
module Tabs {
  import opened Wrappers
  import opened ViewContext
  import opened PageSelection

  /** A value given as itself or as a Proc, called at rendering time with the
      current controller path and action. */
  datatype Late<+T> = Given(value: T) | Deferred(block: (Option<string>, Option<string>) -> T)

  /** A block given to `visible_on`, called with the current controller path
      and action. */
  type VisibilityBlock = (Option<string>, Option<string>) -> bool

  /** Keys of both maps, the overlay's value on a shared key: Hash#merge. */
  function Merge(base: Attrs, overlay: Attrs): (r: Attrs)
    ensures r.Keys == base.Keys + overlay.Keys
    ensures forall k :: k in overlay ==> r[k] == overlay[k]
    ensures forall k :: k in base && k !in overlay ==> r[k] == base[k]
  {
    base + overlay
  }

  class Tab {
    var renderer: Renderer
    const name: Late<string>
    var options: Late<RouteOptions>
    var htmlOptions: Attrs
    var selectedOptions: Attrs
    const pageSelector: PageSelector
    var visibleOnBlock: Option<VisibilityBlock>

    /** `Tab.new`: empty HTML options, no visibility block, and the given page
      selector or a new empty one when nil is passed. */
    constructor (renderer: Renderer, name: Late<string>, options: Late<RouteOptions>, pageSelector: PageSelector?)
      ensures this.renderer == renderer && this.name == name && this.options == options
      ensures htmlOptions == map[] && selectedOptions == map[]
      ensures visibleOnBlock.None?
      ensures forall tpl :: Visible(tpl)
      ensures pageSelector != null ==> this.pageSelector == pageSelector
      ensures pageSelector == null ==> fresh(this.pageSelector) && this.pageSelector.conditions == []
    {
      var selector: PageSelector;
      if pageSelector == null {
        selector := new PageSelector();
      } else {
        selector := pageSelector;
      }
      this.renderer := renderer;
      this.name := name;
      this.options := options;
      this.htmlOptions := map[];
      this.selectedOptions := map[];
      this.pageSelector := selector;
      this.visibleOnBlock := None;
    }

    /** `visible?`: true without a visibility block, otherwise the block's answer. */
    predicate Visible(tpl: Template)
      reads this
      ensures visibleOnBlock.None? ==> Visible(tpl)
      ensures visibleOnBlock.Some? ==>
        Visible(tpl) == visibleOnBlock.value(tpl.currentControllerPath, tpl.currentAction)
    {
      visibleOnBlock.None? || visibleOnBlock.value(tpl.currentControllerPath, tpl.currentAction)
    }

    /** `selected?`: the page selector's verdict on the template's current
      controller path and action, that is, some condition of it holds there. */
    predicate Selected(tpl: Template, engine: RegexEngine)
      reads pageSelector
      ensures Selected(tpl, engine) <==>
        exists i :: 0 <= i < |pageSelector.conditions|
          && Holds(pageSelector.conditions[i], tpl, engine, tpl.currentControllerPath, tpl.currentAction)
    {
      pageSelector.IsSelected(tpl, engine, tpl.currentControllerPath, tpl.currentAction)
    }

    /** `get_or_call`: a value is returned as it is; a Proc is called with the
      current controller path and action. */
    function GetOrCall<T>(v: Late<T>, tpl: Template): (r: T)
      ensures v.Given? ==> r == v.value
      ensures v.Deferred? ==> r == v.block(tpl.currentControllerPath, tpl.currentAction)
    {
      match v
      case Given(value) => value
      case Deferred(block) => block(tpl.currentControllerPath, tpl.currentAction)
    }

    /** `tab_render_options`: the HTML options alone when not selected;
      when selected, every key of either map, the selected options winning. */
    function RenderOptions(tpl: Template, engine: RegexEngine): (r: Attrs)
      reads this, pageSelector
      ensures !Selected(tpl, engine) ==> r == htmlOptions
      ensures Selected(tpl, engine) ==> r.Keys == htmlOptions.Keys + selectedOptions.Keys
      ensures Selected(tpl, engine) ==>
        forall k :: k in r ==> r[k] == if k in selectedOptions then selectedOptions[k] else htmlOptions[k]
    {
      if Selected(tpl, engine) then Merge(htmlOptions, selectedOptions) else htmlOptions
    }

    /** `visible_on`: replaces the visibility block; nothing else changes. */
    method VisibleOn(block: VisibilityBlock)
      modifies this
      ensures visibleOnBlock == Some(block)
      ensures forall tpl :: Visible(tpl) == block(tpl.currentControllerPath, tpl.currentAction)
      ensures renderer == old(renderer) && options == old(options)
      ensures htmlOptions == old(htmlOptions) && selectedOptions == old(selectedOptions)
    {
      visibleOnBlock := Some(block);
    }

    /** The `renderer=` accessor. */
    method SetRenderer(r: Renderer)
      modifies this
      ensures renderer == r && options == old(options) && visibleOnBlock == old(visibleOnBlock)
      ensures htmlOptions == old(htmlOptions) && selectedOptions == old(selectedOptions)
    {
      renderer := r;
    }

    /** The `options=` accessor. */
    method SetOptions(o: Late<RouteOptions>)
      modifies this
      ensures options == o && renderer == old(renderer) && visibleOnBlock == old(visibleOnBlock)
      ensures htmlOptions == old(htmlOptions) && selectedOptions == old(selectedOptions)
    {
      options := o;
    }

    /** The `html_options=` accessor. */
    method SetHtmlOptions(m: Attrs)
      modifies this
      ensures htmlOptions == m && selectedOptions == old(selectedOptions)
      ensures renderer == old(renderer) && options == old(options) && visibleOnBlock == old(visibleOnBlock)
    {
      htmlOptions := m;
    }

    /** The `selected_options=` accessor. */
    method SetSelectedOptions(m: Attrs)
      modifies this
      ensures selectedOptions == m && htmlOptions == old(htmlOptions)
      ensures renderer == old(renderer) && options == old(options) && visibleOnBlock == old(visibleOnBlock)
    {
      selectedOptions := m;
    }
  }

  /** A Proc is resolved from the template's controller path and action only,
      so two templates agreeing on them resolve it alike; a value ignores the
      template altogether. */
  lemma GetOrCallDependsOnlyOnRoute<T>(tab: Tab, v: Late<T>, t1: Template, t2: Template)
    requires v.Given? || (t1.currentControllerPath == t2.currentControllerPath
                          && t1.currentAction == t2.currentAction)
    ensures tab.GetOrCall(v, t1) == tab.GetOrCall(v, t2)
  {
  }
}
