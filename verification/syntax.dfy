/**
 The fragment of the JSX syntax tree that the rewrite rule inspects or builds:
 attribute names, attribute values and the expressions held in `{...}` containers.
 */
module Syntax {

  import opened Wrappers

  /** An identifier. `Written` names come from the source unit itself; `Generated`
      names are the local bindings fabricated by the import provider, identified by
      the hint they were asked for and a serial number that is never reused in a unit. */
  datatype Name = Written(text: string) | Generated(hint: string, serial: nat)

  /** Expression shapes. Only string literals, member accesses and bare identifiers
      are told apart by the rule; the other constructors exist so that the model can
      show that they are all treated alike. */
  datatype Expr =
    | StringLit(value: string)                          // 'a'
    | TemplateLit(quasis: seq<string>, exprs: seq<Expr>) // `a${b}` -- not a string literal node
    | Ident(name: Name)                                  // a
    | Member(object: Expr, property: Expr, computed: bool) // a.b, a[b]
    | OptionalMember(object: Expr, property: Expr)      // a?.b -- a node kind of its own
    | ArrayLit(elements: seq<Expr>)                     // [a, b]
    | ObjectLit(keys: seq<string>, values: seq<Expr>)   // {a: b}
    | Binary(op: string, left: Expr, right: Expr)       // 'a' + 'b', a && b
    | Conditional(test: Expr, consequent: Expr, alternate: Expr)
    | Call(callee: Expr, arguments: seq<Expr>)          // f(a)
    | Other(kind: string)                               // every remaining expression kind

  /** The name of a JSX attribute: `className`, or a namespaced one such as `xlink:href`. */
  datatype AttrName = Plain(id: string) | Namespaced(namespace: string, id: string)

  /** The value of a JSX attribute: none (`disabled`), a quoted string (`className="a"`),
      an expression container (`className={e}`), or a JSX element (`icon=<b/>`). */
  datatype AttrValue = Absent | StrAttr(text: string) | Container(expr: Expr) | Element(tag: string)

  datatype Attr = Attr(name: AttrName, value: AttrValue)

  /** Recognises a value of the form `{callee(argument)}` whose callee is a bare
      identifier, giving back the callee's name and the single argument. */
  function CallTarget(v: AttrValue): (r: Option<(Name, Expr)>)
    ensures r.Some? <==> v.Container? && v.expr.Call? && v.expr.callee.Ident? && |v.expr.arguments| == 1
    ensures r.Some? ==> v == Container(Call(Ident(r.value.0), [r.value.1]))
  {
    match v
    case Container(Call(Ident(n), args)) =>
      if |args| == 1 then Some((n, args[0])) else None
    case _ => None
  }
}
