/**
 Plugin configuration: the fixed defaults and the merge of the caller's options
 over them, which the rule performs at every attribute it visits.
 */
module Options {

  import opened Wrappers

  /** The `nameHint` option: a suggested local name for the helper binding, shared by
      every rewrite in a unit, or `false`, which asks for a fresh import at each site. */
  datatype NameHint = Hint(text: string) | NoSharing

  /** The effective configuration the rule works with. */
  datatype Config = Config(
    attributeNames: seq<string>,
    nameHint: NameHint,
    ignoreMemberExpression: bool,
    ignoreIdentifier: bool)

  /** The caller's options; `None` for a key the caller left out. Keys the rule does
      not read cannot be expressed and so are ignored, as they are by the rule. */
  datatype Options = Options(
    attributeNames: Option<seq<string>>,
    nameHint: Option<NameHint>,
    ignoreMemberExpression: Option<bool>,
    ignoreIdentifier: Option<bool>)

  const DefaultHintText: string := "_babel_plugin_jsx_classnames_advanced"

  const DefaultAttributeNames: seq<string> :=
    ["className", "dropdownClassName", "wrapperClassName", "wrapClassName", "overlayClassName"]

  const Defaults: Config := Config(DefaultAttributeNames, Hint(DefaultHintText), true, true)

  /** Options with no key set. */
  const NoOptions: Options := Options(None, None, None, None)

  /** The caller's options spread over the defaults: every key the caller supplied
      wins, every other key keeps its default. */
  function Resolve(opts: Options): (cfg: Config)
    ensures opts.attributeNames.Some? ==> cfg.attributeNames == opts.attributeNames.value
    ensures opts.attributeNames.None? ==> cfg.attributeNames == DefaultAttributeNames
    ensures opts.nameHint.Some? ==> cfg.nameHint == opts.nameHint.value
    ensures opts.nameHint.None? ==> cfg.nameHint == Hint(DefaultHintText)
    ensures opts.ignoreMemberExpression.Some? ==> cfg.ignoreMemberExpression == opts.ignoreMemberExpression.value
    ensures opts.ignoreMemberExpression.None? ==> cfg.ignoreMemberExpression
    ensures opts.ignoreIdentifier.Some? ==> cfg.ignoreIdentifier == opts.ignoreIdentifier.value
    ensures opts.ignoreIdentifier.None? ==> cfg.ignoreIdentifier
  {
    Config(
      opts.attributeNames.GetOr(Defaults.attributeNames),
      opts.nameHint.GetOr(Defaults.nameHint),
      opts.ignoreMemberExpression.GetOr(Defaults.ignoreMemberExpression),
      opts.ignoreIdentifier.GetOr(Defaults.ignoreIdentifier))
  }

  /** A configuration written out as options with every key set. */
  function Complete(cfg: Config): (opts: Options)
    ensures opts.attributeNames.Some? && opts.nameHint.Some?
    ensures opts.ignoreMemberExpression.Some? && opts.ignoreIdentifier.Some?
  {
    Options(Some(cfg.attributeNames), Some(cfg.nameHint), Some(cfg.ignoreMemberExpression), Some(cfg.ignoreIdentifier))
  }

  /** With no options the rule runs on the defaults: five attribute names, the
      package's own hint, and both member expressions and identifiers ignored. */
  lemma ResolveNoOptions()
    ensures Resolve(NoOptions) == Defaults
    ensures |Resolve(NoOptions).attributeNames| == 5
    ensures Resolve(NoOptions).nameHint == Hint("_babel_plugin_jsx_classnames_advanced")
    ensures Resolve(NoOptions).ignoreMemberExpression && Resolve(NoOptions).ignoreIdentifier
  {
  }

  /** Options that set every key override every default: merging them gives back
      exactly the configuration they were written from. */
  lemma ResolveComplete(cfg: Config)
    ensures Resolve(Complete(cfg)) == cfg
  {
  }

  /** Setting one key changes that key of the effective configuration and nothing else. */
  lemma ResolveOneKey(opts: Options, names: seq<string>, hint: NameHint, ignoreMember: bool, ignoreIdent: bool)
    ensures Resolve(opts.(attributeNames := Some(names))) == Resolve(opts).(attributeNames := names)
    ensures Resolve(opts.(nameHint := Some(hint))) == Resolve(opts).(nameHint := hint)
    ensures Resolve(opts.(ignoreMemberExpression := Some(ignoreMember))) == Resolve(opts).(ignoreMemberExpression := ignoreMember)
    ensures Resolve(opts.(ignoreIdentifier := Some(ignoreIdent))) == Resolve(opts).(ignoreIdentifier := ignoreIdent)
  {
  }
}
