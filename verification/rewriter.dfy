/**
 The `JSXAttribute` rule for one attribute: whether it qualifies, how its value is
 rewritten, the import provider it calls, and the per-unit import state it keeps.
 */
module Rewriter {

  import opened Wrappers
  import opened Syntax
  import opened Options

  /** The module every inserted import reads its default export from. */
  const HelperSource: string := "classnames"

  // ---------------------------------------------------------------------------
  // Match predicate

  /** The attribute's name is a plain identifier equal to some configured name.
      A namespaced name never matches, whatever its parts. */
  predicate NameListed(names: seq<string>, n: AttrName) {
    n.Plain? && n.id in names
  }

  /** The rule's guard: the attribute is rewritten exactly when this holds. */
  predicate Qualifies(cfg: Config, a: Attr) {
    && NameListed(cfg.attributeNames, a.name)
    && a.value.Container?
    && !a.value.expr.StringLit?
    && !(a.value.expr.Member? && cfg.ignoreMemberExpression)
    && !(a.value.expr.Ident? && cfg.ignoreIdentifier)
  }

  /** Reference classification of a contained expression, one case per shape:
      which shapes the configuration lets through. */
  function ShapeAdmitted(cfg: Config, e: Expr): bool {
    match e
    case StringLit(_) => false
    case Member(_, _, _) => !cfg.ignoreMemberExpression
    case Ident(_) => !cfg.ignoreIdentifier
    case _ => true
  }

  /** The guard agrees with the per-shape classification, in both directions. */
  lemma QualifiesByShape(cfg: Config, a: Attr)
    ensures Qualifies(cfg, a) <==>
      a.name.Plain? && a.name.id in cfg.attributeNames && a.value.Container? && ShapeAdmitted(cfg, a.value.expr)
  {
  }

  /** An attribute whose name is not configured is never rewritten. */
  lemma NameFilter(cfg: Config, a: Attr)
    requires !(a.name.Plain? && a.name.id in cfg.attributeNames)
    ensures !Qualifies(cfg, a)
  {
  }

  /** A missing value, a quoted string value, an element value, and a container
      holding a string literal are never rewritten, under any configuration. */
  lemma ContainerFilter(cfg: Config, a: Attr)
    requires !a.value.Container? || a.value.expr.StringLit?
    ensures !Qualifies(cfg, a)
  {
  }

  /** For a listed name: a member-expression value is rewritten exactly when
      `ignoreMemberExpression` is off, and an identifier value exactly when
      `ignoreIdentifier` is off. */
  lemma MemberAndIdentifierGating(cfg: Config, a: Attr)
    requires a.name.Plain? && a.name.id in cfg.attributeNames && a.value.Container?
    ensures a.value.expr.Member? ==> (Qualifies(cfg, a) <==> !cfg.ignoreMemberExpression)
    ensures a.value.expr.Ident? ==> (Qualifies(cfg, a) <==> !cfg.ignoreIdentifier)
  {
  }

  /** Each flag matters only for its own shape: flipping `ignoreMemberExpression`
      leaves every non-member value's outcome alone, and flipping `ignoreIdentifier`
      every non-identifier value's. */
  lemma FlagsIndependent(cfg: Config, a: Attr, flag: bool)
    ensures !(a.value.Container? && a.value.expr.Member?) ==>
      (Qualifies(cfg.(ignoreMemberExpression := flag), a) <==> Qualifies(cfg, a))
    ensures !(a.value.Container? && a.value.expr.Ident?) ==>
      (Qualifies(cfg.(ignoreIdentifier := flag), a) <==> Qualifies(cfg, a))
  {
  }

  /** For a listed name, every container whose expression is not a string literal,
      member expression or identifier is rewritten, whatever the flags say. */
  lemma OtherShapesQualify(cfg: Config, a: Attr)
    requires a.name.Plain? && a.name.id in cfg.attributeNames && a.value.Container?
    requires !a.value.expr.StringLit? && !a.value.expr.Member? && !a.value.expr.Ident?
    ensures Qualifies(cfg, a)
  {
  }

  // ---------------------------------------------------------------------------
  // Rewrite

  /** Replaces the attribute's value by `{callee(<original expression>)}`. */
  function Rewrite(a: Attr, callee: Name): (r: Attr)
    requires a.value.Container?
    ensures r.name == a.name
    ensures CallTarget(r.value) == Some((callee, a.value.expr))
  {
    Attr(a.name, Container(Call(Ident(callee), [a.value.expr])))
  }

  /** The rewritten value is itself a qualifying call container, so the rule relies on
      each attribute being visited once: a second visit would wrap it again. */
  lemma RewriteStillQualifies(cfg: Config, a: Attr, callee: Name)
    requires Qualifies(cfg, a)
    ensures Qualifies(cfg, Rewrite(a, callee))
    ensures Rewrite(a, callee) != a
  {
  }

  // ---------------------------------------------------------------------------
  // Import provider and unit state

  /** Whether the shared helper binding has been established in this unit. */
  datatype UnitState = NoImportYet | ImportEstablished(binding: Name)

  /** One inserted `import <local> from "<source>"`. */
  datatype Import = Import(source: string, local: Name)

  /** Everything a compilation unit accumulates: the rule's own state, the
      provider's next serial number, and the imports inserted so far, in call order. */
  datatype Unit = Unit(state: UnitState, nextSerial: nat, imports: seq<Import>)

  /** A unit before its first attribute is visited. */
  const Start: Unit := Unit(NoImportYet, 0, [])

  function Locals(imports: seq<Import>): (s: set<Name>)
    ensures forall k :: 0 <= k < |imports| ==> imports[k].local in s
    ensures forall n :: n in s ==> exists k :: 0 <= k < |imports| && imports[k].local == n
  {
    set k | 0 <= k < |imports| :: imports[k].local
  }

  /** Appending an import adds exactly its binding to the bound names. */
  lemma LocalsAppend(imports: seq<Import>, i: Import)
    ensures Locals(imports + [i]) == Locals(imports) + {i.local}
  {
    var s := imports + [i];
    forall n | n in Locals(imports)
      ensures n in Locals(s)
    {
      var k :| 0 <= k < |imports| && imports[k].local == n;
      assert s[k] == imports[k];
    }
    assert s[|imports|] == i;
  }

  /** The provider's bookkeeping is sound: every inserted binding is a generated name
      whose serial has been handed out, and an established binding is one of them. */
  ghost predicate WellFormed(u: Unit) {
    && (forall k :: 0 <= k < |u.imports| ==>
          u.imports[k].local.Generated? && u.imports[k].local.serial < u.nextSerial)
    && (u.state.ImportEstablished? ==> u.state.binding in Locals(u.imports))
  }

  /** The import provider: inserts a default import of the helper under a binding
      that collides with nothing already bound and returns that binding. */
  function AddDefault(u: Unit, hint: string): (r: (Name, Unit))
    requires WellFormed(u)
    ensures r.0 !in Locals(u.imports) && r.0.Generated? && r.0.hint == hint
    ensures r.1.imports == u.imports + [Import(HelperSource, r.0)]
    ensures Locals(r.1.imports) == Locals(u.imports) + {r.0}
    ensures r.1.state == u.state
    ensures WellFormed(r.1)
  {
    var b := Generated(hint, u.nextSerial);
    LocalsAppend(u.imports, Import(HelperSource, b));
    (b, Unit(u.state, u.nextSerial + 1, u.imports + [Import(HelperSource, b)]))
  }

  // ---------------------------------------------------------------------------
  // One visit

  /** The rule applied to one attribute of a unit. */
  function Visit(cfg: Config, u: Unit, a: Attr): (r: (Attr, Unit))
    requires WellFormed(u)
    ensures WellFormed(r.1)
    ensures !Qualifies(cfg, a) ==> r == (a, u)
    ensures Qualifies(cfg, a) ==>
      && r.0.name == a.name
      && CallTarget(r.0.value).Some?
      && CallTarget(r.0.value).value.1 == a.value.expr
      && CallTarget(r.0.value).value.0 in Locals(r.1.imports)
    ensures |u.imports| <= |r.1.imports| <= |u.imports| + 1
    ensures r.1.imports[..|u.imports|] == u.imports
  {
    if !Qualifies(cfg, a) then (a, u)
    else
      match cfg.nameHint
      case NoSharing =>
        var (b, u') := AddDefault(u, DefaultHintText);
        (Rewrite(a, b), u')
      case Hint(h) =>
        match u.state
        case NoImportYet =>
          var (b, u') := AddDefault(u, h);
          (Rewrite(a, b), u'.(state := ImportEstablished(b)))
        case ImportEstablished(b) =>
          (Rewrite(a, b), u)
  }
}
