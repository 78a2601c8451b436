/**
 The two laws about the helper import over one compilation unit: with a name
 hint configured the whole unit shares one import, and with `nameHint: false`
 every rewritten attribute gets an import of its own.
 */
module ImportLaws {

  import opened Syntax
  import opened Options
  import opened Rewriter
  import opened Traversal

  // ---------------------------------------------------------------------------
  // Sharing

  /** With a name hint, the first rewrite calls the provider with that hint and
      records the binding; later rewrites call the recorded binding. */
  lemma VisitShared(cfg: Config, u: Unit, a: Attr)
    requires cfg.nameHint.Hint? && WellFormed(u) && Qualifies(cfg, a)
    ensures u.state.NoImportYet? ==>
      var b := Generated(cfg.nameHint.text, u.nextSerial);
      Visit(cfg, u, a) ==
        (Rewrite(a, b), Unit(ImportEstablished(b), u.nextSerial + 1, u.imports + [Import(HelperSource, b)]))
    ensures u.state.ImportEstablished? ==> Visit(cfg, u, a) == (Rewrite(a, u.state.binding), u)
  {
  }

  /** Once the shared binding is established, the rest of the unit inserts nothing. */
  lemma {:induction false} SharedAfterImport(cfg: Config, u: Unit, attrs: seq<Attr>)
    requires cfg.nameHint.Hint? && WellFormed(u) && u.state.ImportEstablished?
    ensures Run(cfg, u, attrs).1 == u
    decreases |attrs|
  {
    if attrs != [] {
      RunStep(cfg, u, attrs);
      SharedAfterImport(cfg, u, attrs[1..]);
    }
  }

  /** Once the shared binding is established, every later rewrite calls it. */
  lemma {:induction false} SharedAfterImportAt(cfg: Config, u: Unit, attrs: seq<Attr>, i: nat)
    requires cfg.nameHint.Hint? && WellFormed(u) && u.state.ImportEstablished?
    requires i < |attrs| && Qualifies(cfg, attrs[i])
    ensures Run(cfg, u, attrs).0[i] == Rewrite(attrs[i], u.state.binding)
    decreases i
  {
    if i == 0 {
      RunHead(cfg, u, attrs);
      VisitShared(cfg, u, attrs[0]);
    } else {
      RunTail(cfg, u, attrs, i);
      assert attrs[1..][i - 1] == attrs[i];
      SharedAfterImportAt(cfg, u, attrs[1..], i - 1);
    }
  }

  /** Before the shared binding exists: a unit with no rewrite keeps its state;
      otherwise the first rewrite calls the provider once with the configured hint,
      and that is the only import the rest of the unit adds. */
  lemma {:induction false} SharedBeforeImport(cfg: Config, u: Unit, attrs: seq<Attr>)
    requires cfg.nameHint.Hint? && WellFormed(u) && u.state == NoImportYet
    ensures MatchCount(cfg, attrs) == 0 ==> Run(cfg, u, attrs).1 == u
    ensures MatchCount(cfg, attrs) > 0 ==>
      var b := Generated(cfg.nameHint.text, u.nextSerial);
      Run(cfg, u, attrs).1 ==
        Unit(ImportEstablished(b), u.nextSerial + 1, u.imports + [Import(HelperSource, b)])
    decreases |attrs|
  {
    if attrs != [] {
      var u' := Visit(cfg, u, attrs[0]).1;
      RunStep(cfg, u, attrs);
      if Qualifies(cfg, attrs[0]) {
        VisitShared(cfg, u, attrs[0]);
        SharedAfterImport(cfg, u', attrs[1..]);
      } else {
        SharedBeforeImport(cfg, u, attrs[1..]);
      }
    }
  }

  /** Before the shared binding exists, every rewrite of the unit -- the first and
      the later ones -- calls the binding that the first rewrite asks the provider for. */
  lemma {:induction false} SharedBeforeImportAt(cfg: Config, u: Unit, attrs: seq<Attr>, i: nat)
    requires cfg.nameHint.Hint? && WellFormed(u) && u.state == NoImportYet
    requires i < |attrs| && Qualifies(cfg, attrs[i])
    ensures Run(cfg, u, attrs).0[i] == Rewrite(attrs[i], Generated(cfg.nameHint.text, u.nextSerial))
    decreases i
  {
    if i == 0 {
      RunHead(cfg, u, attrs);
      VisitShared(cfg, u, attrs[0]);
    } else {
      var u' := Visit(cfg, u, attrs[0]).1;
      RunTail(cfg, u, attrs, i);
      assert attrs[1..][i - 1] == attrs[i];
      if Qualifies(cfg, attrs[0]) {
        VisitShared(cfg, u, attrs[0]);
        SharedAfterImportAt(cfg, u', attrs[1..], i - 1);
      } else {
        SharedBeforeImportAt(cfg, u, attrs[1..], i - 1);
      }
    }
  }

  /** Sharing law: with a name hint configured, a unit with N > 0 rewritten
      attributes receives exactly one import of the helper, asked for under that
      hint, and all N rewritten attributes call that one binding; a unit with no
      rewritten attribute receives none. */
  lemma SharingLaw(cfg: Config, attrs: seq<Attr>)
    requires cfg.nameHint.Hint?
    ensures var out, u := Transform(cfg, attrs).0, Transform(cfg, attrs).1;
      && |u.imports| == (if MatchCount(cfg, attrs) == 0 then 0 else 1)
      && (MatchCount(cfg, attrs) == 0 ==> out == attrs && u == Start)
      && (MatchCount(cfg, attrs) > 0 ==>
           && u.imports[0].source == HelperSource
           && u.imports[0].local.hint == cfg.nameHint.text
           && u.state == ImportEstablished(u.imports[0].local)
           && forall i :: 0 <= i < |attrs| && Qualifies(cfg, attrs[i]) ==>
                out[i] == Rewrite(attrs[i], u.imports[0].local))
  {
    var out, u := Transform(cfg, attrs).0, Transform(cfg, attrs).1;
    SharedBeforeImport(cfg, Start, attrs);
    if MatchCount(cfg, attrs) == 0 {
      MatchCountZero(cfg, attrs);
      forall i | 0 <= i < |attrs|
        ensures out[i] == attrs[i]
      {
        RunLeavesUnmatched(cfg, Start, attrs, i);
      }
    } else {
      forall i | 0 <= i < |attrs| && Qualifies(cfg, attrs[i])
        ensures out[i] == Rewrite(attrs[i], u.imports[0].local)
      {
        SharedBeforeImportAt(cfg, Start, attrs, i);
      }
    }
  }

  /** Reference result of a sharing unit: every qualifying attribute rewritten to
      call `callee`, every other attribute as it was. */
  function RewriteEach(cfg: Config, attrs: seq<Attr>, callee: Name): (out: seq<Attr>)
    ensures |out| == |attrs|
  {
    seq(|attrs|, i requires 0 <= i < |attrs| =>
      if Qualifies(cfg, attrs[i]) then Rewrite(attrs[i], callee) else attrs[i])
  }

  /** With a name hint configured, a unit comes out as the reference rewrite with
      the provider's first binding for that hint, and with exactly that one import
      when anything was rewritten. */
  lemma SharedTransform(cfg: Config, attrs: seq<Attr>)
    requires cfg.nameHint.Hint?
    ensures var b := Generated(cfg.nameHint.text, 0);
      Transform(cfg, attrs) ==
        (RewriteEach(cfg, attrs, b),
         if MatchCount(cfg, attrs) == 0 then Start
         else Unit(ImportEstablished(b), 1, [Import(HelperSource, b)]))
  {
    var b := Generated(cfg.nameHint.text, 0);
    var out := Transform(cfg, attrs).0;
    SharedBeforeImport(cfg, Start, attrs);
    forall i | 0 <= i < |attrs|
      ensures out[i] == RewriteEach(cfg, attrs, b)[i]
    {
      if Qualifies(cfg, attrs[i]) {
        SharedBeforeImportAt(cfg, Start, attrs, i);
        assert RewriteEach(cfg, attrs, b)[i] == Rewrite(attrs[i], b);
      } else {
        RunLeavesUnmatched(cfg, Start, attrs, i);
        assert RewriteEach(cfg, attrs, b)[i] == attrs[i];
      }
    }
    assert out == RewriteEach(cfg, attrs, b);
  }

  // ---------------------------------------------------------------------------
  // Independence

  /** The imports inserted by `n` independent provider calls starting at serial `from`. */
  function FreshImports(from: nat, n: nat): (s: seq<Import>)
    ensures |s| == n
    ensures forall k :: 0 <= k < n ==> s[k] == Import(HelperSource, Generated(DefaultHintText, from + k))
  {
    seq(n, k requires 0 <= k < n => Import(HelperSource, Generated(DefaultHintText, from + k)))
  }

  /** With `nameHint: false`, a visit calls the provider, with the default hint,
      exactly when it rewrites, and leaves the shared-import state alone. */
  lemma VisitUnshared(cfg: Config, u: Unit, a: Attr)
    requires cfg.nameHint.NoSharing? && WellFormed(u)
    ensures var c := if Qualifies(cfg, a) then 1 else 0;
      Visit(cfg, u, a).1 == Unit(u.state, u.nextSerial + c, u.imports + FreshImports(u.nextSerial, c))
    ensures Qualifies(cfg, a) ==> Visit(cfg, u, a).0 == Rewrite(a, Generated(DefaultHintText, u.nextSerial))
  {
  }

  /** The unit a stretch of `nameHint: false` visits leaves: state as it was, the
      serial advanced by `n`, and `n` fresh imports appended. */
  function AfterUnshared(u: Unit, n: nat): Unit {
    Unit(u.state, u.nextSerial + n, u.imports + FreshImports(u.nextSerial, n))
  }

  /** Two stretches of `nameHint: false` visits compose into one. */
  lemma AfterUnsharedCompose(u: Unit, m: nat, n: nat)
    ensures AfterUnshared(AfterUnshared(u, m), n) == AfterUnshared(u, m + n)
  {
  }

  /** With `nameHint: false`, one import is added per rewrite, in order, each
      asked for with the default hint, and the shared-import state is never touched. */
  lemma {:induction false} IndependentUnit(cfg: Config, u: Unit, attrs: seq<Attr>)
    requires cfg.nameHint.NoSharing? && WellFormed(u)
    ensures Run(cfg, u, attrs).1 == AfterUnshared(u, MatchCount(cfg, attrs))
    decreases |attrs|
  {
    if attrs == [] {
      assert u.imports + FreshImports(u.nextSerial, 0) == u.imports;
    } else {
      var u' := Visit(cfg, u, attrs[0]).1;
      var c := if Qualifies(cfg, attrs[0]) then 1 else 0;
      assert Run(cfg, u, attrs).1 == Run(cfg, u', attrs[1..]).1 by {
        RunStep(cfg, u, attrs);
      }
      assert u' == AfterUnshared(u, c) by {
        VisitUnshared(cfg, u, attrs[0]);
      }
      IndependentUnit(cfg, u', attrs[1..]);
      AfterUnsharedCompose(u, c, MatchCount(cfg, attrs[1..]));
    }
  }

  /** With `nameHint: false`, the k-th rewrite of a unit (counting from 0) calls
      the k-th binding the provider hands out. */
  lemma {:induction false} IndependentCalleeAt(cfg: Config, u: Unit, attrs: seq<Attr>, i: nat)
    requires cfg.nameHint.NoSharing? && WellFormed(u)
    requires i < |attrs| && Qualifies(cfg, attrs[i])
    ensures Run(cfg, u, attrs).0[i] ==
      Rewrite(attrs[i], Generated(DefaultHintText, u.nextSerial + MatchCount(cfg, attrs[..i])))
    decreases i
  {
    if i == 0 {
      RunHead(cfg, u, attrs);
      VisitUnshared(cfg, u, attrs[0]);
      assert attrs[..0] == [];
    } else {
      var u' := Visit(cfg, u, attrs[0]).1;
      var c := if Qualifies(cfg, attrs[0]) then 1 else 0;
      assert u'.nextSerial == u.nextSerial + c by {
        VisitUnshared(cfg, u, attrs[0]);
      }
      MatchCountPrefixStep(cfg, attrs, i);
      assert attrs[1..][i - 1] == attrs[i];
      IndependentCalleeAt(cfg, u', attrs[1..], i - 1);
      RunTail(cfg, u, attrs, i);
    }
  }

  /** The count of rewrites among a prefix grows strictly past each rewrite. */
  lemma {:induction false} MatchCountPrefix(cfg: Config, attrs: seq<Attr>, i: nat, j: nat)
    requires i < j <= |attrs| && Qualifies(cfg, attrs[i])
    ensures MatchCount(cfg, attrs[..i]) < MatchCount(cfg, attrs[..j])
    decreases i
  {
    if i == 0 {
      assert attrs[..j][0] == attrs[0];
    } else {
      assert attrs[..i][1..] == attrs[1..][..i - 1];
      assert attrs[..j][1..] == attrs[1..][..j - 1];
      MatchCountPrefix(cfg, attrs[1..], i - 1, j - 1);
    }
  }

  /** With `nameHint: false`, the imports of a unit are the default-hint imports
      the provider hands out one per rewrite, and their bindings are pairwise distinct. */
  lemma IndependentImports(cfg: Config, attrs: seq<Attr>)
    requires cfg.nameHint.NoSharing?
    ensures var u := Transform(cfg, attrs).1;
      && u.state == NoImportYet
      && u.imports == FreshImports(0, MatchCount(cfg, attrs))
      && (forall k, l :: 0 <= k < l < |u.imports| ==> u.imports[k].local != u.imports[l].local)
  {
    IndependentUnit(cfg, Start, attrs);
  }

  /** With `nameHint: false`, two different rewritten attributes call different bindings. */
  lemma IndependentCalleesDiffer(cfg: Config, attrs: seq<Attr>, i: nat, j: nat)
    requires cfg.nameHint.NoSharing?
    requires i < j < |attrs| && Qualifies(cfg, attrs[i]) && Qualifies(cfg, attrs[j])
    ensures var out := Transform(cfg, attrs).0;
      && CallTarget(out[i].value).Some? && CallTarget(out[j].value).Some?
      && CallTarget(out[i].value).value.0 != CallTarget(out[j].value).value.0
  {
    IndependentCalleeAt(cfg, Start, attrs, i);
    IndependentCalleeAt(cfg, Start, attrs, j);
    MatchCountPrefix(cfg, attrs, i, j);
  }

  /** Reference result of an independent unit: the k-th qualifying attribute
      rewritten to call the k-th default-hint binding, every other attribute as it was. */
  function RewriteEachFresh(cfg: Config, attrs: seq<Attr>): (out: seq<Attr>)
    ensures |out| == |attrs|
  {
    seq(|attrs|, i requires 0 <= i < |attrs| =>
      if Qualifies(cfg, attrs[i])
      then Rewrite(attrs[i], Generated(DefaultHintText, MatchCount(cfg, attrs[..i])))
      else attrs[i])
  }

  /** With `nameHint: false`, a unit comes out as the reference rewrite, with one
      fresh default-hint import per rewrite and the shared-import state untouched. */
  lemma IndependentTransform(cfg: Config, attrs: seq<Attr>)
    requires cfg.nameHint.NoSharing?
    ensures Transform(cfg, attrs) ==
      (RewriteEachFresh(cfg, attrs), AfterUnshared(Start, MatchCount(cfg, attrs)))
  {
    var out := Transform(cfg, attrs).0;
    IndependentUnit(cfg, Start, attrs);
    forall i | 0 <= i < |attrs|
      ensures out[i] == RewriteEachFresh(cfg, attrs)[i]
    {
      if Qualifies(cfg, attrs[i]) {
        IndependentCalleeAt(cfg, Start, attrs, i);
        assert RewriteEachFresh(cfg, attrs)[i] ==
          Rewrite(attrs[i], Generated(DefaultHintText, MatchCount(cfg, attrs[..i])));
      } else {
        RunLeavesUnmatched(cfg, Start, attrs, i);
        assert RewriteEachFresh(cfg, attrs)[i] == attrs[i];
      }
    }
    assert out == RewriteEachFresh(cfg, attrs);
  }

  /** Independence law: with `nameHint: false`, a unit with N rewritten attributes
      receives exactly N imports of the helper, each under a distinct binding asked
      for with the default hint; no two rewritten attributes call the same binding,
      and the shared-import state stays as it started. */
  lemma IndependenceLaw(cfg: Config, attrs: seq<Attr>)
    requires cfg.nameHint.NoSharing?
    ensures var out, u := Transform(cfg, attrs).0, Transform(cfg, attrs).1;
      && |u.imports| == MatchCount(cfg, attrs)
      && u.state == NoImportYet
      && (forall k :: 0 <= k < |u.imports| ==>
            u.imports[k].source == HelperSource && u.imports[k].local.hint == DefaultHintText)
      && (forall k, l :: 0 <= k < l < |u.imports| ==> u.imports[k].local != u.imports[l].local)
      && (forall i, j :: 0 <= i < j < |attrs| && Qualifies(cfg, attrs[i]) && Qualifies(cfg, attrs[j]) ==>
            CallTarget(out[i].value).Some? && CallTarget(out[j].value).Some? &&
            CallTarget(out[i].value).value.0 != CallTarget(out[j].value).value.0)
  {
    var out, u := Transform(cfg, attrs).0, Transform(cfg, attrs).1;
    IndependentImports(cfg, attrs);
    forall k | 0 <= k < |u.imports|
      ensures u.imports[k].source == HelperSource && u.imports[k].local.hint == DefaultHintText
    {
    }
    forall k, l | 0 <= k < l < |u.imports|
      ensures u.imports[k].local != u.imports[l].local
    {
    }
    forall i, j | 0 <= i < j < |attrs| && Qualifies(cfg, attrs[i]) && Qualifies(cfg, attrs[j])
      ensures CallTarget(out[i].value).Some? && CallTarget(out[j].value).Some?
      ensures CallTarget(out[i].value).value.0 != CallTarget(out[j].value).value.0
    {
      IndependentCalleesDiffer(cfg, attrs, i, j);
    }
  }
}
