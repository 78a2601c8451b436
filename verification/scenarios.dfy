/**
 The plugin's documented input/output cases, stated on the model: each names the
 attributes of one unit, the options, and what the unit looks like afterwards.
 Generated bindings stand for the names the provider makes up (`_nameHint`,
 `..._advanced2`), whose spelling is not modelled.
 */
module Scenarios {

  import opened Wrappers
  import opened Syntax
  import opened Options
  import opened Rewriter
  import opened Traversal
  import opened ImportLaws

  const EmptyArray: Expr := ArrayLit([])
  const EmptyObject: Expr := ObjectLit([], [])
  const StylesWrap: Expr := Member(Ident(Written("styles")), Ident(Written("wrap")), false)

  function Div(name: string, e: Expr): Attr {
    Attr(Plain(name), Container(e))
  }

  /** The binding the provider returns for the first request of a unit. */
  function First(hint: string): Name {
    Generated(hint, 0)
  }

  function Wrapped(name: string, callee: Name, e: Expr): Attr {
    Attr(Plain(name), Container(Call(Ident(callee), [e])))
  }

  /** `<div otherAttributeName={[]} />` is left alone. */
  lemma IgnoreOtherName()
    ensures Transform(Resolve(NoOptions), [Div("otherAttributeName", EmptyArray)])
         == ([Div("otherAttributeName", EmptyArray)], Start)
  {
    var cfg, attrs := Resolve(NoOptions), [Div("otherAttributeName", EmptyArray)];
    assert !Qualifies(cfg, attrs[0]);
    MatchCountZero(cfg, attrs);
    SharingLaw(cfg, attrs);
  }

  /** `className="a"`, `className={'a'}`, `className={styles.wrap}` and
      `className={a}` are all left alone by default. */
  lemma IgnoreByDefault()
    ensures var attrs := [Attr(Plain("className"), StrAttr("a")), Div("className", StringLit("a")),
                          Div("className", StylesWrap), Div("className", Ident(Written("a")))];
      Transform(Resolve(NoOptions), attrs) == (attrs, Start)
  {
    var attrs := [Attr(Plain("className"), StrAttr("a")), Div("className", StringLit("a")),
                  Div("className", StylesWrap), Div("className", Ident(Written("a")))];
    var cfg := Resolve(NoOptions);
    assert !Qualifies(cfg, attrs[0]) && !Qualifies(cfg, attrs[1]);
    assert !Qualifies(cfg, attrs[2]) && !Qualifies(cfg, attrs[3]);
    MatchCountZero(cfg, attrs);
    SharingLaw(cfg, attrs);
  }

  /** `className={[]}`, `{{}}` and `{'a' + 'b'}` are wrapped in a call to the helper,
      imported once under the default hint. */
  lemma TransformExpressions()
    ensures var plus := Binary("+", StringLit("a"), StringLit("b"));
      var b := First(DefaultHintText);
      Transform(Resolve(NoOptions), [Div("className", EmptyArray), Div("className", EmptyObject), Div("className", plus)])
        == ([Wrapped("className", b, EmptyArray), Wrapped("className", b, EmptyObject), Wrapped("className", b, plus)],
            Unit(ImportEstablished(b), 1, [Import("classnames", b)]))
  {
    var plus := Binary("+", StringLit("a"), StringLit("b"));
    var attrs := [Div("className", EmptyArray), Div("className", EmptyObject), Div("className", plus)];
    var cfg, b := Resolve(NoOptions), First(DefaultHintText);
    SharedTransform(cfg, attrs);
    assert Qualifies(cfg, attrs[0]);
    var e := RewriteEach(cfg, attrs, b);
    assert e[0] == Wrapped("className", b, EmptyArray);
    assert e[1] == Wrapped("className", b, EmptyObject);
    assert e[2] == Wrapped("className", b, plus);
    assert e == [e[0], e[1], e[2]];
  }

  /** Each of the four other default attribute names is rewritten too. */
  lemma DefaultAttributeNamesRewritten(name: string)
    requires name in ["dropdownClassName", "wrapperClassName", "wrapClassName", "overlayClassName"]
    ensures var b := First(DefaultHintText);
      Transform(Resolve(NoOptions), [Div(name, EmptyArray)])
        == ([Wrapped(name, b, EmptyArray)], Unit(ImportEstablished(b), 1, [Import("classnames", b)]))
  {
    var attrs, cfg, b := [Div(name, EmptyArray)], Resolve(NoOptions), First(DefaultHintText);
    SharedTransform(cfg, attrs);
    assert Qualifies(cfg, attrs[0]);
    var e := RewriteEach(cfg, attrs, b);
    assert e == [Wrapped(name, b, EmptyArray)];
  }

  /** With `attributeNames: ['attributeName0']`, that name is rewritten. */
  lemma OptionAttributeNames()
    ensures var b := First(DefaultHintText);
      Transform(Resolve(NoOptions.(attributeNames := Some(["attributeName0"]))), [Div("attributeName0", EmptyArray)])
        == ([Wrapped("attributeName0", b, EmptyArray)], Unit(ImportEstablished(b), 1, [Import("classnames", b)]))
  {
    var attrs, b := [Div("attributeName0", EmptyArray)], First(DefaultHintText);
    var cfg := Resolve(NoOptions.(attributeNames := Some(["attributeName0"])));
    SharedTransform(cfg, attrs);
    assert Qualifies(cfg, attrs[0]);
    var e := RewriteEach(cfg, attrs, b);
    assert e == [Wrapped("attributeName0", b, EmptyArray)];
  }

  /** With `nameHint: 'nameHint'`, the provider is asked for that hint. */
  lemma OptionNameHint()
    ensures var b := First("nameHint");
      Transform(Resolve(NoOptions.(nameHint := Some(Hint("nameHint")))), [Div("className", EmptyArray)])
        == ([Wrapped("className", b, EmptyArray)], Unit(ImportEstablished(b), 1, [Import("classnames", b)]))
  {
    var attrs, b := [Div("className", EmptyArray)], First("nameHint");
    var cfg := Resolve(NoOptions.(nameHint := Some(Hint("nameHint"))));
    SharedTransform(cfg, attrs);
    assert Qualifies(cfg, attrs[0]);
    var e := RewriteEach(cfg, attrs, b);
    assert e == [Wrapped("className", b, EmptyArray)];
  }

  /** With `nameHint: false`, two rewrites import the helper twice under two bindings. */
  lemma OptionNameHintFalse()
    ensures var b0, b1 := Generated(DefaultHintText, 0), Generated(DefaultHintText, 1);
      && b0 != b1
      && Transform(Resolve(NoOptions.(nameHint := Some(NoSharing))), [Div("className", EmptyArray), Div("className", EmptyArray)])
        == ([Wrapped("className", b0, EmptyArray), Wrapped("className", b1, EmptyArray)],
            Unit(NoImportYet, 2, [Import("classnames", b0), Import("classnames", b1)]))
  {
    var attrs := [Div("className", EmptyArray), Div("className", EmptyArray)];
    var cfg := Resolve(NoOptions.(nameHint := Some(NoSharing)));
    var b0, b1 := Generated(DefaultHintText, 0), Generated(DefaultHintText, 1);
    assert Transform(cfg, attrs).0 == [Wrapped("className", b0, EmptyArray), Wrapped("className", b1, EmptyArray)] by {
      IndependentTransform(cfg, attrs);
      assert MatchCount(cfg, attrs[..0]) == 0;
      assert MatchCount(cfg, attrs[..1]) == 1 by {
        assert attrs[..1] == [attrs[0]];
      }
      var e := RewriteEachFresh(cfg, attrs);
      assert e == [e[0], e[1]];
    }
    assert Transform(cfg, attrs).1 == Unit(NoImportYet, 2, [Import("classnames", b0), Import("classnames", b1)]) by {
      IndependentTransform(cfg, attrs);
      assert MatchCount(cfg, attrs) == 2;
      assert Start.imports + FreshImports(0, 2) == FreshImports(0, 2);
      assert FreshImports(0, 2) == [Import("classnames", b0), Import("classnames", b1)];
    }
  }

  /** With `ignoreMemberExpression: false`, `{styles.wrap}` is rewritten; `{[]}` still is. */
  lemma OptionIgnoreMemberExpressionOff()
    ensures var b := First(DefaultHintText);
      Transform(Resolve(NoOptions.(ignoreMemberExpression := Some(false))), [Div("className", StylesWrap), Div("className", EmptyArray)])
        == ([Wrapped("className", b, StylesWrap), Wrapped("className", b, EmptyArray)],
            Unit(ImportEstablished(b), 1, [Import("classnames", b)]))
  {
    var attrs, b := [Div("className", StylesWrap), Div("className", EmptyArray)], First(DefaultHintText);
    var cfg := Resolve(NoOptions.(ignoreMemberExpression := Some(false)));
    SharedTransform(cfg, attrs);
    assert Qualifies(cfg, attrs[0]);
    var e := RewriteEach(cfg, attrs, b);
    assert e[0] == Wrapped("className", b, StylesWrap);
    assert e[1] == Wrapped("className", b, EmptyArray);
    assert e == [e[0], e[1]];
  }

  /** With `ignoreIdentifier: false`, `{a}` is rewritten; `{[]}` still is. */
  lemma OptionIgnoreIdentifierOff()
    ensures var b, a := First(DefaultHintText), Ident(Written("a"));
      Transform(Resolve(NoOptions.(ignoreIdentifier := Some(false))), [Div("className", a), Div("className", EmptyArray)])
        == ([Wrapped("className", b, a), Wrapped("className", b, EmptyArray)],
            Unit(ImportEstablished(b), 1, [Import("classnames", b)]))
  {
    var a := Ident(Written("a"));
    var attrs, b := [Div("className", a), Div("className", EmptyArray)], First(DefaultHintText);
    var cfg := Resolve(NoOptions.(ignoreIdentifier := Some(false)));
    SharedTransform(cfg, attrs);
    assert Qualifies(cfg, attrs[0]);
    var e := RewriteEach(cfg, attrs, b);
    assert e[0] == Wrapped("className", b, a);
    assert e[1] == Wrapped("className", b, EmptyArray);
    assert e == [e[0], e[1]];
  }

  /** Two rewrites in one unit share one import. */
  lemma AvoidDuplicateImports()
    ensures var b := First(DefaultHintText);
      Transform(Resolve(NoOptions), [Div("className", EmptyArray), Div("className", EmptyArray)])
        == ([Wrapped("className", b, EmptyArray), Wrapped("className", b, EmptyArray)],
            Unit(ImportEstablished(b), 1, [Import("classnames", b)]))
  {
    var attrs, b := [Div("className", EmptyArray), Div("className", EmptyArray)], First(DefaultHintText);
    var cfg := Resolve(NoOptions);
    SharedTransform(cfg, attrs);
    assert Qualifies(cfg, attrs[0]);
    var e := RewriteEach(cfg, attrs, b);
    assert e[0] == Wrapped("className", b, EmptyArray);
    assert e[1] == Wrapped("className", b, EmptyArray);
    assert e == [e[0], e[1]];
  }

  /** A member expression left alone beside rewrites under two configured names. */
  lemma Misc0()
    ensures var b := First("_nameHint");
      var opts := Options(Some(["className", "attributeName0"]), Some(Hint("_nameHint")), None, None);
      Transform(Resolve(opts),
        [Div("className", StylesWrap), Div("className", EmptyArray), Div("className", EmptyObject), Div("attributeName0", EmptyObject)])
        == ([Div("className", StylesWrap), Wrapped("className", b, EmptyArray),
             Wrapped("className", b, EmptyObject), Wrapped("attributeName0", b, EmptyObject)],
            Unit(ImportEstablished(b), 1, [Import("classnames", b)]))
  {
    var b := First("_nameHint");
    var cfg := Resolve(Options(Some(["className", "attributeName0"]), Some(Hint("_nameHint")), None, None));
    var attrs := [Div("className", StylesWrap), Div("className", EmptyArray), Div("className", EmptyObject), Div("attributeName0", EmptyObject)];
    SharedTransform(cfg, attrs);
    assert Qualifies(cfg, attrs[1]);
    MatchCountZero(cfg, attrs);
    var e := RewriteEach(cfg, attrs, b);
    assert e[0] == Div("className", StylesWrap);
    assert e[1] == Wrapped("className", b, EmptyArray);
    assert e[2] == Wrapped("className", b, EmptyObject);
    assert e[3] == Wrapped("attributeName0", b, EmptyObject);
    assert e == [e[0], e[1], e[2], e[3]];
  }

  /** A member expression rewritten beside others, with an unlisted name left alone. */
  lemma Misc1()
    ensures var b := First(DefaultHintText);
      Transform(Resolve(NoOptions.(ignoreMemberExpression := Some(false))),
        [Div("className", StylesWrap), Div("className", EmptyArray), Div("className", EmptyObject), Div("attributeName0", EmptyObject)])
        == ([Wrapped("className", b, StylesWrap), Wrapped("className", b, EmptyArray),
             Wrapped("className", b, EmptyObject), Div("attributeName0", EmptyObject)],
            Unit(ImportEstablished(b), 1, [Import("classnames", b)]))
  {
    var b := First(DefaultHintText);
    var cfg := Resolve(NoOptions.(ignoreMemberExpression := Some(false)));
    var attrs := [Div("className", StylesWrap), Div("className", EmptyArray), Div("className", EmptyObject), Div("attributeName0", EmptyObject)];
    SharedTransform(cfg, attrs);
    assert Qualifies(cfg, attrs[0]);
    assert !Qualifies(cfg, attrs[3]);
    var e := RewriteEach(cfg, attrs, b);
    assert e[0] == Wrapped("className", b, StylesWrap);
    assert e[1] == Wrapped("className", b, EmptyArray);
    assert e[2] == Wrapped("className", b, EmptyObject);
    assert e[3] == Div("attributeName0", EmptyObject);
    assert e == [e[0], e[1], e[2], e[3]];
  }
}
