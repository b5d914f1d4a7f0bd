/**
 * Fitch-style scopes (src/core/fitch_style.py). Every scope has its own
 * assumptions; only the outermost scope's `Proof` is ever written to. A
 * nested scope forwards its conclusions outwards, prefixing its own
 * assumptions, so that the root's log receives sequents whose gamma is the
 * concatenation of the assumptions of every scope from the root inwards.
 */
module Fitch {
  import opened Wrappers
  import opened Sentences
  import opened Gammas
  import opened Proofs

  /** The axiom sequents `h |- h[i]`, one per hypothesis, in order. */
  function AxiomsFor(h: Gamma): seq<Sequent>
  {
    seq(|h|, i requires 0 <= i < |h| => Sequent(h, h[i], Axiom))
  }

  /** A loaded axiom: it cites one of its own hypotheses, all of which are in `scope`. */
  predicate AxiomInScope(e: Sequent, scope: Gamma)
  {
    e.rule == Axiom && e.conclusion in e.gamma && forall x :: x in e.gamma ==> x in scope
  }

  datatype FitchError = InnerScopeHasNoSequentProof

  class FitchSubProof {
    const hasOuter: bool
    const outer: FitchSubProof?
    var gamma: Gamma
    const pr: Proof
    var loaded: bool
    var inners: seq<FitchSubProof>
    /** Distance from the outermost scope; it bounds the walk outwards. */
    ghost const depth: nat

    ghost predicate Valid()
      decreases depth
    {
      hasOuter == (outer != null) &&
      (outer != null ==> outer.depth < depth && outer.Valid())
    }

    /** This scope and every scope enclosing it. */
    ghost function Chain(): (c: set<FitchSubProof>)
      requires Valid()
      decreases depth
      ensures this in c
      ensures forall n :: n in c ==> n.depth <= depth
    {
      if outer == null then {this} else {this} + outer.Chain()
    }

    /** The outermost scope, whose `Proof` receives every sequent. */
    ghost function Root(): (root: FitchSubProof)
      requires Valid()
      decreases depth
      ensures root in Chain() && root.Valid() && root.outer == null
    {
      if outer == null then this else outer.Root()
    }

    /** The assumptions in force here: every enclosing scope's, outermost first. */
    ghost function Ambient(): Gamma
      requires Valid()
      reads Chain()`gamma
      decreases depth
    {
      if outer == null then gamma else outer.Ambient() + gamma
    }

    /** The axiom sequents `load_assumptions(additional)` appends to the root's log. */
    ghost function LoadEntries(additional: Gamma): seq<Sequent>
      requires Valid()
      reads Chain()`gamma
      decreases depth
    {
      if outer == null then AxiomsFor(gamma) + AxiomsFor(gamma + additional)
      else outer.LoadEntries(gamma + additional) + outer.LoadEntries(gamma)
    }

    /** A loaded scope sits inside loaded scopes only. */
    ghost predicate LoadedUpward()
      requires Valid()
      reads Chain()`loaded
      decreases depth
    {
      outer != null ==> (loaded ==> outer.loaded) && outer.LoadedUpward()
    }

    constructor (outerProof: FitchSubProof?)
      requires outerProof != null ==> outerProof.Valid() && outerProof.LoadedUpward()
      ensures hasOuter == (outerProof != null) && outer == outerProof
      ensures gamma == [] && !loaded && inners == []
      ensures fresh(pr) && pr.sequents == []
      ensures Valid() && LoadedUpward()
    {
      if outerProof != null {
        ChainAllocated(outerProof);
      }
      hasOuter := outerProof != null;
      outer := outerProof;
      depth := if outerProof == null then 0 else outerProof.depth + 1;
      gamma := [];
      pr := new Proof();
      loaded := false;
      inners := [];
    }

    /** `add_assumption`: extend this scope's assumptions unless they have been loaded. */
    method AddAssumption(s: Sentence) returns (ok: bool)
      modifies this`gamma
      ensures ok == !loaded
      ensures gamma == if ok then old(gamma) + [s] else old(gamma)
    {
      if !loaded {
        gamma := gamma + [s];
        return true;
      }
      return false;
    }

    /**
     * `load_assumptions`: the root logs an axiom for each of its assumptions
     * and then for each of its assumptions followed by `additional`; a nested
     * scope asks its enclosing scope to load with its own assumptions plus
     * `additional`, then with its own assumptions alone. Every axiom is
     * accepted, so the log grows by exactly `LoadEntries(additional)`, and
     * every scope on the way out ends up loaded.
     */
    method LoadAssumptions(additional: Gamma)
      requires Valid()
      modifies Chain()`loaded, Root().pr
      ensures Root().pr.sequents == old(Root().pr.sequents) + old(LoadEntries(additional))
      ensures forall n :: n in Chain() ==> n.loaded
      ensures LoadedUpward()
      decreases depth
    {
      var temp := gamma + additional;
      ChainAllocated(this);
      ghost var log0 := Root().pr.sequents;
      if !hasOuter {
        LogAxioms(gamma);
        LogAxioms(temp);
        assert Root().pr.sequents == log0 + AxiomsFor(gamma) + AxiomsFor(temp);
      } else {
        assert Root() == outer.Root();
        outer.LoadAssumptions(temp);
        outer.LoadAssumptions(gamma);
        assert Root().pr.sequents == log0 + outer.LoadEntries(temp) + outer.LoadEntries(gamma);
      }
      assert Root().pr.sequents == log0 + LoadEntries(additional);
      loaded := true;
      AllLoadedIsUpward(this);
    }

    /** One `for sentence in h: add_sequent(Sequent(h, sentence, axiom))` loop of the root. */
    method LogAxioms(h: Gamma)
      requires Valid() && outer == null
      modifies pr
      ensures pr.sequents == old(pr.sequents) + AxiomsFor(h)
    {
      var i := 0;
      while i < |h|
        invariant 0 <= i <= |h|
        invariant pr.sequents == old(pr.sequents) + AxiomsFor(h)[..i]
      {
        AxiomAcceptsHypotheses(pr.sequents, h, i);
        var added := pr.AddSequent(Sequent(h, h[i], Axiom));
        assert AxiomsFor(h)[..i + 1] == AxiomsFor(h)[..i] + [Sequent(h, h[i], Axiom)];
        i := i + 1;
      }
      assert AxiomsFor(h)[..i] == AxiomsFor(h);
    }

    /**
     * `add_conclusion`: load first unless the line is an assumption or this
     * scope is loaded already, then submit `Ambient() + additional |- s` to
     * the root's log. The result is the corrected `check_sequent` verdict on
     * the log as it stands after loading.
     */
    method AddConclusion(s: Sentence, rule: InferenceRule, additional: Gamma, isAssumption: bool)
      returns (ok: bool)
      requires Valid() && LoadedUpward()
      modifies (if isAssumption then {} else Chain())`loaded, Root().pr
      ensures var before := old(Root().pr.sequents) +
                (if !isAssumption && !old(loaded) then old(LoadEntries([])) else []);
              var cand := Sequent(old(Ambient()) + additional, s, rule);
              ok == Accepts(before, cand) &&
              Root().pr.sequents == before + (if ok then [cand] else [])
      ensures !isAssumption ==> forall n :: n in Chain() ==> n.loaded
      ensures LoadedUpward()
      decreases depth
    {
      ChainAllocated(this);
      ghost var scope := Ambient();
      ghost var before := Root().pr.sequents + (if !isAssumption && !loaded then LoadEntries([]) else []);
      if !isAssumption && !loaded {
        LoadAssumptions([]);
      }
      assert Ambient() == scope;
      assert Root().pr.sequents == before;
      if !isAssumption {
        AllLoadedBelowRoot(this);
      }
      if hasOuter {
        assert outer.Ambient() + (gamma + additional) == scope + additional;
        assert !isAssumption ==> outer.loaded;
        assert Root() == outer.Root();
        ok := outer.AddConclusion(s, rule, gamma + additional, isAssumption);
        assert before + [] == before;
        assert ok == Accepts(before, Sequent(scope + additional, s, rule));
      } else {
        ok := pr.AddSequent(Sequent(gamma + additional, s, rule));
        assert ok == Accepts(before, Sequent(scope + additional, s, rule));
      }
      if !isAssumption {
        AllLoadedIsUpward(this);
      }
    }

    /** `sequent_style`: only the outermost scope hands out its `Proof`. */
    method SequentStyle() returns (r: Result<Proof, FitchError>)
      requires Valid()
      ensures r.Ok? <==> outer == null
      ensures r.Ok? ==> r.value == Root().pr
    {
      if hasOuter {
        return Err(InnerScopeHasNoSequentProof);
      }
      return Ok(pr);
    }

    /** `add_subproof`: a fresh, empty scope nested here, sharing this scope's root and assumptions. */
    method AddSubproof() returns (sp: FitchSubProof)
      requires Valid() && LoadedUpward()
      modifies this`inners
      ensures fresh(sp) && sp.outer == this && sp.hasOuter
      ensures sp.Valid() && sp.LoadedUpward()
      ensures sp.gamma == [] && !sp.loaded && sp.inners == []
      ensures sp.Root() == Root() && sp.Ambient() == Ambient()
      ensures inners == old(inners) + [sp]
    {
      sp := new FitchSubProof(this);
      inners := inners + [sp];
    }
  }

  /** The scopes enclosing an allocated scope are allocated: each is reached through a field. */
  lemma ChainAllocated(n: FitchSubProof)
    requires n.Valid()
    ensures forall m :: m in n.Chain() ==> allocated(m)
    decreases n.depth
  {
    if n.outer != null {
      ChainAllocated(n.outer);
    }
  }

  lemma AllLoadedIsUpward(n: FitchSubProof)
    requires n.Valid()
    requires forall m :: m in n.Chain() ==> m.loaded
    ensures n.LoadedUpward()
    decreases n.depth
  {
    if n.outer != null {
      AllLoadedIsUpward(n.outer);
    }
  }

  /** A loaded scope's chain is loaded all the way out. */
  lemma AllLoadedBelowRoot(n: FitchSubProof)
    requires n.Valid() && n.LoadedUpward() && n.loaded
    ensures forall m :: m in n.Chain() ==> m.loaded
    decreases n.depth
  {
    if n.outer != null {
      AllLoadedBelowRoot(n.outer);
    }
  }

  /**
   * What loading guarantees: every loaded line is an axiom citing one of its
   * own hypotheses, every hypothesis it uses is in force in the loading scope
   * (with `additional`), and the scope's full context is among the contexts
   * loaded, one axiom per hypothesis.
   */
  lemma LoadEntriesAreAxiomsInScope(n: FitchSubProof, additional: Gamma)
    requires n.Valid()
    ensures forall e :: e in n.LoadEntries(additional) ==> AxiomInScope(e, n.Ambient() + additional)
    ensures forall e :: e in AxiomsFor(n.Ambient() + additional) ==> e in n.LoadEntries(additional)
    decreases n.depth
  {
    if n.outer != null {
      var o := n.outer;
      LoadEntriesAreAxiomsInScope(o, n.gamma + additional);
      LoadEntriesAreAxiomsInScope(o, n.gamma);
      assert o.Ambient() + (n.gamma + additional) == n.Ambient() + additional;
    }
  }

  /**
   * Over assumptions without TRUE/FALSE-named atomics, loading keeps the
   * root's log semantically valid.
   */
  lemma LoadingKeepsLogSound(n: FitchSubProof, log: seq<Sequent>, additional: Gamma)
    requires n.Valid() && SoundLog(log) && AllPlain(n.Ambient() + additional)
    ensures SoundLog(log + n.LoadEntries(additional))
  {
    var entries := n.LoadEntries(additional);
    LoadEntriesAreAxiomsInScope(n, additional);
    var all := log + entries;
    forall k | 0 <= k < |all| ensures PlainSequent(all[k]) && Entails(all[k].gamma, all[k].conclusion) {
      if k >= |log| {
        var e := entries[k - |log|];
        assert all[k] == e;
        assert AxiomInScope(e, n.Ambient() + additional);
        forall i | 0 <= i < |e.gamma| ensures Plain(e.gamma[i]) {
          assert e.gamma[i] in n.Ambient() + additional;
        }
        forall assignment | AllHold(e.gamma, assignment) ensures Holds(e.conclusion, assignment) {
          var i :| 0 <= i < |e.gamma| && e.gamma[i] == e.conclusion;
        }
      }
    }
  }

  /**
   * One case of a proof by cases: open a subproof of the root, assume `x`,
   * and derive `c` by implies-elimination from `x -> c`, an assumption of the
   * root. The step is accepted, and afterwards the root is loaded and its log
   * holds an axiom for each root assumption and the line `gamma + [x] |- c`.
   */
  method DeriveInSubproof(fi: FitchSubProof, x: Sentence, c: Sentence) returns (ok: bool)
    requires fi.Valid() && fi.outer == null
    requires TwoSided(x, c, Implies) in fi.gamma
    modifies fi`inners, fi`loaded, fi.pr
    ensures ok && fi.loaded
    ensures old(fi.pr.sequents) <= fi.pr.sequents
    ensures Sequent(fi.gamma + [x], c, ImpliesElim) in fi.pr.sequents
    ensures forall e :: e in AxiomsFor(fi.gamma) ==> e in fi.pr.sequents
  {
    var g := fi.gamma;
    var inner := fi.AddSubproof();
    var assumed := inner.AddAssumption(x);
    CaseLoads(inner, g, x);
    ghost var before := fi.pr.sequents + inner.LoadEntries([]);
    CaseFollows(fi.pr.sequents, g, x, c);
    ok := inner.AddConclusion(c, ImpliesElim, [], false);
    assert fi.pr.sequents == before + [Sequent(g + [x], c, ImpliesElim)];
  }

  /** What a subproof of the root that assumes `x` loads: the root's axioms, then those with `x` added, twice. */
  lemma CaseLoads(inner: FitchSubProof, g: Gamma, x: Sentence)
    requires inner.Valid() && inner.outer != null && inner.outer.outer == null
    requires inner.gamma == [x] && inner.outer.gamma == g
    ensures inner.LoadEntries([]) == AxiomsFor(g) + AxiomsFor(g + [x]) + (AxiomsFor(g) + AxiomsFor(g + [x]))
    ensures inner.Ambient() + [] == g + [x]
  {
    assert inner.gamma + [] == [x];
    assert inner.outer.LoadEntries([x]) == AxiomsFor(g) + AxiomsFor(g + [x]);
  }

  /** After those loads, `c` follows from `x` and `x -> c` by implies-elimination. */
  lemma CaseFollows(log: seq<Sequent>, g: Gamma, x: Sentence, c: Sentence)
    requires TwoSided(x, c, Implies) in g
    ensures var gx := g + [x];
      var before := log + (AxiomsFor(g) + AxiomsFor(gx) + (AxiomsFor(g) + AxiomsFor(gx)));
      Accepts(before, Sequent(gx, c, ImpliesElim)) &&
      (forall e :: e in AxiomsFor(g) ==> e in before)
  {
    var gx := g + [x];
    var loads := AxiomsFor(g) + AxiomsFor(gx) + (AxiomsFor(g) + AxiomsFor(gx));
    var before := log + loads;
    var i :| 0 <= i < |g| && g[i] == TwoSided(x, c, Implies);
    assert AxiomsFor(gx)[i] == Sequent(gx, TwoSided(x, c, Implies), Axiom);
    assert AxiomsFor(gx)[|g|] == Sequent(gx, x, Axiom);
    assert Sequent(gx, TwoSided(x, c, Implies), Axiom) in before;
    assert Sequent(gx, x, Axiom) in before;
    ImpliesElimAcceptsModusPonens(before, gx, x, c, Axiom, Axiom);
  }

  /**
   * The or-elimination proof of the source's tests, for any sentences: the
   * root assumes `a or b`, `a -> c` and `b -> c`; one subproof assumes `a`
   * and derives `c`, another assumes `b` and derives `c`; the root then
   * concludes `c` by or-elimination. Every step is accepted.
   */
  method OrElimAcrossSubproofs(a: Sentence, b: Sentence, c: Sentence) returns (ok1: bool, ok2: bool, ok3: bool)
    ensures ok1 && ok2 && ok3
  {
    var aOrB := TwoSided(a, b, Or);
    var fi := new FitchSubProof(null);
    var r1 := fi.AddAssumption(aOrB);
    var r2 := fi.AddAssumption(TwoSided(a, c, Implies));
    var r3 := fi.AddAssumption(TwoSided(b, c, Implies));
    var g := fi.gamma;
    assert g == [aOrB, TwoSided(a, c, Implies), TwoSided(b, c, Implies)];
    ok1 := DeriveInSubproof(fi, a, c);
    ghost var log1 := fi.pr.sequents;
    ok2 := DeriveInSubproof(fi, b, c);
    ghost var log2 := fi.pr.sequents;
    assert Sequent(g + [a], c, ImpliesElim) in log2 by {
      var k :| 0 <= k < |log1| && log1[k] == Sequent(g + [a], c, ImpliesElim);
      assert log2[k] == log1[k];
    }
    assert Sequent(g, aOrB, Axiom) in log2 by {
      assert AxiomsFor(g)[0] == Sequent(g, aOrB, Axiom);
    }
    assert fi.gamma == g;
    ok3 := ConcludeByCases(fi, a, b, c);
  }

  /** The root's closing step: `c` by or-elimination, the cases having been logged. */
  method ConcludeByCases(fi: FitchSubProof, a: Sentence, b: Sentence, c: Sentence) returns (ok: bool)
    requires fi.Valid() && fi.outer == null && fi.loaded
    requires Sequent(fi.gamma, TwoSided(a, b, Or), Axiom) in fi.pr.sequents
    requires Sequent(fi.gamma + [a], c, ImpliesElim) in fi.pr.sequents
    requires Sequent(fi.gamma + [b], c, ImpliesElim) in fi.pr.sequents
    modifies fi`loaded, fi.pr
    ensures ok
  {
    assert fi.Root() == fi && fi.LoadedUpward();
    assert fi.pr.sequents + [] == fi.pr.sequents;
    OrElimAcceptsProofByCases(fi.pr.sequents, fi.gamma, a, b, c, Axiom, ImpliesElim, ImpliesElim);
    assert fi.Ambient() + [] == fi.gamma;
    ok := fi.AddConclusion(c, OrElim, [], false);
  }
}
