/** What the menu logic receives from its surroundings: the view template it is
    rendered in, the regular expression engine, route options and HTML options. */
module ViewContext {
  import opened Wrappers

  /** A compiled regular expression, identified by its source text. */
  datatype Regex = Regex(source: string)

  /** The engine behind `string =~ regex`: true when the expression matches
      somewhere in the string. */
  type RegexEngine = (Regex, string) -> bool

  /** Link options in url_for format: a ready URL or a hash of parameters. */
  datatype RouteOptions = Url(url: string) | Params(params: map<string, string>)

  /** HTML attributes of a link. */
  type Attrs = map<string, string>

  /** The link renderer a tab is rendered with. */
  datatype Renderer = LinkToRenderer | LinkToFunctionRenderer | OtherRenderer(id: nat)

  /** The view template at the moment of evaluation: its `@current_controller_path`
      and `@current_action` (nil when unset) and its `current_page?` helper. */
  datatype Template = Template(
    currentControllerPath: Option<string>,
    currentAction: Option<string>,
    isCurrentPage: RouteOptions -> bool)
}
