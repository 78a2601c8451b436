/**
 One compilation unit: the rule applied to its attributes in traversal order,
 threading the unit's import state and the provider's supply of fresh bindings.
 */
module Traversal {

  import opened Syntax
  import opened Options
  import opened Rewriter

  /** The number of attributes the rule rewrites. */
  function MatchCount(cfg: Config, attrs: seq<Attr>): (n: nat)
    ensures n <= |attrs|
  {
    if attrs == [] then 0
    else (if Qualifies(cfg, attrs[0]) then 1 else 0) + MatchCount(cfg, attrs[1..])
  }

  /** No attribute is rewritten exactly when the count of rewritten attributes is zero. */
  lemma {:induction false} MatchCountZero(cfg: Config, attrs: seq<Attr>)
    ensures MatchCount(cfg, attrs) == 0 <==> forall i :: 0 <= i < |attrs| ==> !Qualifies(cfg, attrs[i])
  {
    if attrs != [] {
      MatchCountZero(cfg, attrs[1..]);
      if MatchCount(cfg, attrs) == 0 {
        forall i | 0 <= i < |attrs|
          ensures !Qualifies(cfg, attrs[i])
        {
          if i > 0 {
            assert attrs[i] == attrs[1..][i - 1];
          }
        }
      } else if !Qualifies(cfg, attrs[0]) {
        var j :| 0 <= j < |attrs[1..]| && Qualifies(cfg, attrs[1..][j]);
        assert attrs[j + 1] == attrs[1..][j];
      }
    }
  }

  /** Visits the attributes left to right. The result holds the attributes as
      rewritten, one per input, and the unit as it stands after the last visit. */
  function Run(cfg: Config, u: Unit, attrs: seq<Attr>): (r: (seq<Attr>, Unit))
    requires WellFormed(u)
    ensures |r.0| == |attrs|
    ensures WellFormed(r.1)
    decreases |attrs|
  {
    if attrs == [] then ([], u)
    else
      var (a', u') := Visit(cfg, u, attrs[0]);
      var (rest, u'') := Run(cfg, u', attrs[1..]);
      ([a'] + rest, u'')
  }

  /** One step of the fold: the first attribute is visited, then the rest. */
  lemma RunStep(cfg: Config, u: Unit, attrs: seq<Attr>)
    requires WellFormed(u) && attrs != []
    ensures var v := Visit(cfg, u, attrs[0]);
      Run(cfg, u, attrs) == ([v.0] + Run(cfg, v.1, attrs[1..]).0, Run(cfg, v.1, attrs[1..]).1)
  {
  }

  /** The first attribute out of a run is the first visit's result. */
  lemma RunHead(cfg: Config, u: Unit, attrs: seq<Attr>)
    requires WellFormed(u) && attrs != []
    ensures Run(cfg, u, attrs).0[0] == Visit(cfg, u, attrs[0]).0
  {
  }

  /** Every later attribute out of a run comes from running the rest of the unit
      from the state the first visit leaves. */
  lemma RunTail(cfg: Config, u: Unit, attrs: seq<Attr>, i: nat)
    requires WellFormed(u) && 0 < i < |attrs|
    ensures Run(cfg, u, attrs).0[i] == Run(cfg, Visit(cfg, u, attrs[0]).1, attrs[1..]).0[i - 1]
  {
  }

  /** Counting rewrites in a non-empty prefix: the first attribute, then the rest. */
  lemma MatchCountPrefixStep(cfg: Config, attrs: seq<Attr>, i: nat)
    requires 0 < i <= |attrs|
    ensures MatchCount(cfg, attrs[..i]) ==
      (if Qualifies(cfg, attrs[0]) then 1 else 0) + MatchCount(cfg, attrs[1..][..i - 1])
  {
    assert attrs[..i][0] == attrs[0];
    assert attrs[..i][1..] == attrs[1..][..i - 1];
  }

  /** The attributes of a unit as the rule leaves them, and the unit's final state. */
  function Transform(cfg: Config, attrs: seq<Attr>): (r: (seq<Attr>, Unit))
    ensures |r.0| == |attrs|
    ensures WellFormed(r.1)
  {
    Run(cfg, Start, attrs)
  }

  // ---------------------------------------------------------------------------
  // What every run keeps, in either mode

  /** A run only appends imports, at most one per rewritten attribute. */
  lemma {:induction false} RunAppendsImports(cfg: Config, u: Unit, attrs: seq<Attr>)
    requires WellFormed(u)
    ensures u.imports <= Run(cfg, u, attrs).1.imports
    ensures |Run(cfg, u, attrs).1.imports| <= |u.imports| + MatchCount(cfg, attrs)
    decreases |attrs|
  {
    if attrs != [] {
      var u' := Visit(cfg, u, attrs[0]).1;
      assert Run(cfg, u, attrs).1 == Run(cfg, u', attrs[1..]).1 by {
        RunStep(cfg, u, attrs);
      }
      RunAppendsImports(cfg, u', attrs[1..]);
      assert u.imports <= u'.imports;
    }
  }

  /** An attribute the rule does not qualify comes out of the run as it went in. */
  lemma {:induction false} RunLeavesUnmatched(cfg: Config, u: Unit, attrs: seq<Attr>, i: nat)
    requires WellFormed(u) && i < |attrs| && !Qualifies(cfg, attrs[i])
    ensures Run(cfg, u, attrs).0[i] == attrs[i]
    decreases i
  {
    var u' := Visit(cfg, u, attrs[0]).1;
    RunStep(cfg, u, attrs);
    if i > 0 {
      assert attrs[1..][i - 1] == attrs[i];
      RunLeavesUnmatched(cfg, u', attrs[1..], i - 1);
    }
  }

  /** Names bound by a prefix of the imports stay bound. */
  lemma LocalsPrefix(p: seq<Import>, s: seq<Import>)
    requires p <= s
    ensures Locals(p) <= Locals(s)
  {
  }

  /** A rewritten attribute keeps its name, holds a call of one argument -- its
      original expression -- and calls a binding that one of the unit's imports
      introduces by the end of the run. */
  lemma {:induction false} RunCallsImported(cfg: Config, u: Unit, attrs: seq<Attr>, i: nat)
    requires WellFormed(u) && i < |attrs| && Qualifies(cfg, attrs[i])
    ensures var r := Run(cfg, u, attrs);
      && r.0[i].name == attrs[i].name
      && CallTarget(r.0[i].value).Some?
      && CallTarget(r.0[i].value).value.1 == attrs[i].value.expr
      && CallTarget(r.0[i].value).value.0 in Locals(r.1.imports)
    decreases i
  {
    var u' := Visit(cfg, u, attrs[0]).1;
    RunStep(cfg, u, attrs);
    if i == 0 {
      RunAppendsImports(cfg, u', attrs[1..]);
      LocalsPrefix(u'.imports, Run(cfg, u', attrs[1..]).1.imports);
    } else {
      assert attrs[1..][i - 1] == attrs[i];
      RunCallsImported(cfg, u', attrs[1..], i - 1);
    }
  }

  /** In both modes every rewritten attribute calls a binding that one of the unit's
      inserted imports introduces, the rest are untouched, and there is at most one
      import per rewritten attribute. */
  lemma CalleesAreImported(cfg: Config, attrs: seq<Attr>)
    ensures var out, u := Transform(cfg, attrs).0, Transform(cfg, attrs).1;
      && |u.imports| <= MatchCount(cfg, attrs)
      && (forall i :: 0 <= i < |attrs| && !Qualifies(cfg, attrs[i]) ==> out[i] == attrs[i])
      && forall i :: 0 <= i < |attrs| && Qualifies(cfg, attrs[i]) ==>
           (exists k :: 0 <= k < |u.imports| &&
              out[i] == Attr(attrs[i].name, Container(Call(Ident(u.imports[k].local), [attrs[i].value.expr]))))
  {
    var out, u := Transform(cfg, attrs).0, Transform(cfg, attrs).1;
    RunAppendsImports(cfg, Start, attrs);
    forall i | 0 <= i < |attrs| && !Qualifies(cfg, attrs[i])
      ensures out[i] == attrs[i]
    {
      RunLeavesUnmatched(cfg, Start, attrs, i);
    }
    forall i | 0 <= i < |attrs| && Qualifies(cfg, attrs[i])
      ensures exists k :: 0 <= k < |u.imports| &&
                out[i] == Attr(attrs[i].name, Container(Call(Ident(u.imports[k].local), [attrs[i].value.expr])))
    {
      RunCallsImported(cfg, Start, attrs, i);
      var n := CallTarget(out[i].value).value.0;
      var k :| 0 <= k < |u.imports| && u.imports[k].local == n;
      assert out[i] == Attr(attrs[i].name, Container(Call(Ident(u.imports[k].local), [attrs[i].value.expr])));
    }
  }
}
