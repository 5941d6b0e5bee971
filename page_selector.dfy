/** The selection rule: an ordered list of conditions, any one of which makes
    the current page "selected". */
module PageSelection {
  import opened Wrappers
  import opened Enumerables
  import opened ViewContext

  /** A page given to `on_options`: link options, or a Proc producing them,
      called each time the condition is evaluated. The state such a Proc reads
      is that of the template at evaluation time. */
  datatype OptionArg = Static(opts: RouteOptions) | Computed(block: Template -> RouteOptions)

  /** One side given to `on_matching_regex`: a Regexp, or a value whose
      string form becomes the source of a new Regexp. */
  datatype Pattern = Compiled(re: Regex) | Source(text: string)

  /** A block given to `on`, called with the current controller path and action. */
  type CustomBlock = (Option<string>, Option<string>) -> bool

  /** One element of `@conditions`. */
  datatype Condition =
    | RegexMatch(controllerRegex: Regex, actionRegex: Regex)
    | OptionsMatch(options: seq<OptionArg>)
    | Custom(block: CustomBlock)

  /** Ruby's ArgumentError, with its message. */
  datatype ArgumentError = ArgumentError(message: string)

  const MissingRegexMessage: string :=
    "Regular expressions for at least one of controller path and action name must be provided"

  /** MATCH_ALL, the expression used for a side given as nil. */
  const MatchAll: Regex := Regex(".*")

  // The engine agrees that the expression ".*" matches every string.
  ghost predicate MatchesAllWithDotStar(engine: RegexEngine)
  {
    forall s: string :: engine(MatchAll, s)
  }

  /** `Regexp.new(x.to_s) unless x.is_a?(Regexp)`. */
  function Compile(p: Pattern): Regex
  {
    match p
    case Compiled(re) => re
    case Source(text) => Regex(text)
  }

  /** `s =~ re` as a truth value; a nil string never matches. */
  predicate Matched(s: Option<string>, re: Regex, engine: RegexEngine)
  {
    s.Some? && engine(re, s.value)
  }

  /** `sanitize_regex`: at least one side must be given; a missing side becomes
      MATCH_ALL and every side is compiled. */
  function SanitizeRegex(controllerRegex: Option<Pattern>, actionRegex: Option<Pattern>)
    : (r: Result<(Regex, Regex), ArgumentError>)
    ensures r.Failure? <==> controllerRegex.None? && actionRegex.None?
    ensures r.Failure? ==> r.error.message == MissingRegexMessage
    ensures r.Success? ==> r.value.0 == if controllerRegex.Some? then Compile(controllerRegex.value) else MatchAll
    ensures r.Success? ==> r.value.1 == if actionRegex.Some? then Compile(actionRegex.value) else MatchAll
  {
    if controllerRegex.None? && actionRegex.None? then
      Failure(ArgumentError(MissingRegexMessage))
    else
      var c := if controllerRegex.Some? then Compile(controllerRegex.value) else MatchAll;
      var a := if actionRegex.Some? then Compile(actionRegex.value) else MatchAll;
      Success((c, a))
  }

  /** `construct_condition_for_regex`: fails exactly when both sides are nil,
      and then with the ArgumentError of `sanitize_regex`. */
  function ConstructConditionForRegex(controllerRegex: Option<Pattern>, actionRegex: Option<Pattern>)
    : (r: Result<Condition, ArgumentError>)
    ensures r.Failure? <==> controllerRegex.None? && actionRegex.None?
    ensures r.Failure? ==> r.error == ArgumentError(MissingRegexMessage)
    ensures r.Success? ==> r.value.RegexMatch?
  {
    match SanitizeRegex(controllerRegex, actionRegex)
    case Failure(e) => Failure(e)
    case Success(pair) => Success(RegexMatch(pair.0, pair.1))
  }

  /** The link options a page stands for at evaluation time. */
  function Resolve(o: OptionArg, tpl: Template): RouteOptions
  {
    match o
    case Static(opts) => opts
    case Computed(block) => block(tpl)
  }

  /** The test `is_selected_by_options?` applies to each page. */
  function IsCurrentOption(tpl: Template): OptionArg -> bool
  {
    o => tpl.isCurrentPage(Resolve(o, tpl))
  }

  /** What evaluating one condition yields for the given path and action. */
  predicate Holds(c: Condition, tpl: Template, engine: RegexEngine,
                  path: Option<string>, action: Option<string>)
    ensures c.RegexMatch? && Holds(c, tpl, engine, path, action) ==> path.Some? && action.Some?
    ensures c.OptionsMatch? && Holds(c, tpl, engine, path, action) ==>
      exists k :: 0 <= k < |c.options| && tpl.isCurrentPage(Resolve(c.options[k], tpl))
    ensures c.Custom? ==> Holds(c, tpl, engine, path, action) == c.block(path, action)
  {
    match c
    case RegexMatch(cr, ar) => Matched(path, cr, engine) && Matched(action, ar, engine)
    case OptionsMatch(options) => Detect(options, IsCurrentOption(tpl)).Some?
    case Custom(block) => block(path, action)
  }

  /** The test `current_page_selected?` applies to each condition. */
  function ConditionHolds(tpl: Template, engine: RegexEngine,
                          path: Option<string>, action: Option<string>): Condition -> bool
  {
    c => Holds(c, tpl, engine, path, action)
  }

  /** A regex condition holds iff the path matches the controller side AND the
      action matches the action side; a side given as nil accepts any present
      string, and an absent path or action is never accepted. */
  lemma RegexConditionHolds(controllerRegex: Option<Pattern>, actionRegex: Option<Pattern>,
                            tpl: Template, engine: RegexEngine,
                            path: Option<string>, action: Option<string>)
    requires controllerRegex.Some? || actionRegex.Some?
    requires MatchesAllWithDotStar(engine)
    ensures ConstructConditionForRegex(controllerRegex, actionRegex).Success?
    ensures Holds(ConstructConditionForRegex(controllerRegex, actionRegex).value, tpl, engine, path, action)
      <==> path.Some? && action.Some?
           && (controllerRegex.Some? ==> engine(Compile(controllerRegex.value), path.value))
           && (actionRegex.Some? ==> engine(Compile(actionRegex.value), action.value))
  {
  }

  /** An options condition holds iff `current_page?` accepts at least one of
      its pages, each resolved with the template of the evaluation. */
  lemma OptionsConditionHolds(options: seq<OptionArg>, tpl: Template, engine: RegexEngine,
                              path: Option<string>, action: Option<string>)
    ensures Holds(OptionsMatch(options), tpl, engine, path, action)
      <==> exists k :: 0 <= k < |options| && tpl.isCurrentPage(Resolve(options[k], tpl))
  {
  }

  /** Registering one more condition keeps a selected page selected, and the
      condition that selected it is still the first one found. */
  lemma AddingConditionKeepsSelection(conditions: seq<Condition>, c: Condition,
                                      tpl: Template, engine: RegexEngine,
                                      path: Option<string>, action: Option<string>)
    ensures Detect(conditions, ConditionHolds(tpl, engine, path, action)).Some? ==>
      Detect(conditions + [c], ConditionHolds(tpl, engine, path, action))
        == Detect(conditions, ConditionHolds(tpl, engine, path, action))
    ensures Detect(conditions + [c], ConditionHolds(tpl, engine, path, action)).Some?
      <==> Detect(conditions, ConditionHolds(tpl, engine, path, action)).Some?
           || Holds(c, tpl, engine, path, action)
  {
    DetectAppend(conditions, c, ConditionHolds(tpl, engine, path, action));
  }

  /** A set of conditions deciding when the current page counts as selected. */
  class PageSelector {
    var conditions: seq<Condition>

    /** `PageSelector.new`: no conditions, so never selected. */
    constructor ()
      ensures conditions == []
      ensures forall tpl, engine, path, action :: !IsSelected(tpl, engine, path, action)
    {
      conditions := [];
    }

    /** `current_page_selected?` as a truth value: some registered condition holds. */
    predicate IsSelected(tpl: Template, engine: RegexEngine, path: Option<string>, action: Option<string>)
      reads this
      ensures IsSelected(tpl, engine, path, action)
        <==> exists i :: 0 <= i < |conditions| && Holds(conditions[i], tpl, engine, path, action)
    {
      Detect(conditions, ConditionHolds(tpl, engine, path, action)).Some?
    }

    /** `on_matching_regex`: appends one regex condition, or raises ArgumentError
      when both sides are nil, before anything is appended. */
    method OnMatchingRegex(controllerRegex: Option<Pattern>, actionRegex: Option<Pattern>)
      returns (r: Outcome<ArgumentError>)
      modifies this
      ensures r.Fail? <==> controllerRegex.None? && actionRegex.None?
      ensures r.Fail? ==> r.error == ArgumentError(MissingRegexMessage) && conditions == old(conditions)
      ensures r.Pass? ==>
        conditions == old(conditions) + [ConstructConditionForRegex(controllerRegex, actionRegex).value]
    {
      var c := ConstructConditionForRegex(controllerRegex, actionRegex);
      if c.Failure? {
        return Fail(c.error);
      }
      conditions := conditions + [c.value];
      return Pass;
    }

    /** `on_options`: appends one condition holding the pages as given; a Proc
      among them is stored, not called. */
    method OnOptions(options: seq<OptionArg>)
      modifies this
      ensures conditions == old(conditions) + [OptionsMatch(options)]
    {
      conditions := conditions + [OptionsMatch(options)];
    }

    /** `on`: appends the block as one condition. */
    method On(block: CustomBlock)
      modifies this
      ensures conditions == old(conditions) + [Custom(block)]
    {
      conditions := conditions + [Custom(block)];
    }

    /** `create_selected_on_matching_regex`: a new selector with the one regex
      condition, or the ArgumentError `on_matching_regex` raises. */
    static method CreateSelectedOnMatchingRegex(controllerRegex: Option<Pattern>, actionRegex: Option<Pattern>)
      returns (r: Result<PageSelector, ArgumentError>)
      ensures r.Failure? <==> controllerRegex.None? && actionRegex.None?
      ensures r.Failure? ==> r.error == ArgumentError(MissingRegexMessage)
      ensures r.Success? ==> fresh(r.value)
      ensures r.Success? ==>
        r.value.conditions == [ConstructConditionForRegex(controllerRegex, actionRegex).value]
    {
      var s := new PageSelector();
      var outcome := s.OnMatchingRegex(controllerRegex, actionRegex);
      if outcome.Fail? {
        return Failure(outcome.error);
      }
      return Success(s);
    }

    /** `create_selected_on_options`: a new selector with the one options condition. */
    static method CreateSelectedOnOptions(options: seq<OptionArg>) returns (s: PageSelector)
      ensures fresh(s) && s.conditions == [OptionsMatch(options)]
    {
      s := new PageSelector();
      s.OnOptions(options);
    }

    /** `create_selected_on`: a new selector with the block as its one condition. */
    static method CreateSelectedOn(block: CustomBlock) returns (s: PageSelector)
      ensures fresh(s) && s.conditions == [Custom(block)]
    {
      s := new PageSelector();
      s.On(block);
    }

    /** `current_page_selected?`: tries the conditions in order and stops at the
      first that holds; `hit` is the position of the condition `detect` returns. */
    method CurrentPageSelected(tpl: Template, engine: RegexEngine, path: Option<string>, action: Option<string>)
      returns (hit: Option<nat>)
      ensures hit.Some? ==> hit.value < |conditions| && Holds(conditions[hit.value], tpl, engine, path, action)
      ensures hit.Some? ==> forall j :: 0 <= j < hit.value ==> !Holds(conditions[j], tpl, engine, path, action)
      ensures hit.Some? <==> IsSelected(tpl, engine, path, action)
    {
      var i := 0;
      while i < |conditions|
        invariant 0 <= i <= |conditions|
        invariant forall j :: 0 <= j < i ==> !Holds(conditions[j], tpl, engine, path, action)
      {
        var holds := CallClientBlock(conditions[i], tpl, engine, path, action);
        if holds {
          return Some(i);
        }
        i := i + 1;
      }
      return None;
    }

    /** `call_client_block` applied to one condition: the regex lambda, the
      options lambda or the user's block. */
    static method CallClientBlock(c: Condition, tpl: Template, engine: RegexEngine,
                                  path: Option<string>, action: Option<string>)
      returns (holds: bool)
      ensures holds == Holds(c, tpl, engine, path, action)
    {
      match c
      case RegexMatch(cr, ar) =>
        holds := Matched(path, cr, engine) && Matched(action, ar, engine);
      case OptionsMatch(options) =>
        holds := IsSelectedByOptions(options, tpl);
        OptionsConditionHolds(options, tpl, engine, path, action);
      case Custom(block) =>
        holds := block(path, action);
    }

    /** `is_selected_by_options?`: resolves each page in turn (calling a Proc
      now) and stops at the first that `current_page?` accepts. */
    static method IsSelectedByOptions(options: seq<OptionArg>, tpl: Template) returns (selected: bool)
      ensures selected <==> exists k :: 0 <= k < |options| && tpl.isCurrentPage(Resolve(options[k], tpl))
    {
      var i := 0;
      while i < |options|
        invariant 0 <= i <= |options|
        invariant forall j :: 0 <= j < i ==> !tpl.isCurrentPage(Resolve(options[j], tpl))
      {
        var optionsMap := match options[i]
          case Static(opts) => opts
          case Computed(block) => block(tpl);
        if tpl.isCurrentPage(optionsMap) {
          return true;
        }
        i := i + 1;
      }
      return false;
    }
  }
}
