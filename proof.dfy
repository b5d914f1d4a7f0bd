/**
 * The sequent checker (src/core/proof.py): an append-only log of sequents and
 * the per-rule test that decides whether a candidate sequent may be appended.
 *
 * `RuleHolds` states each rule's acceptance condition once, parameterised by
 * how two hypothesis lists are compared. `Accepts` is the check the `Proof`
 * class runs; `CheckAsWritten` is the source's `check_sequent` line for line,
 * including the two branches that raise `AttributeError`. The differences
 * between the two are the findings listed in the README.
 */
module Proofs {
  import opened Wrappers
  import opened Sentences
  import opened Gammas

  datatype InferenceRule =
    | Axiom | AndIntro | AndElim | OrIntro | OrElim | ImpliesIntro | ImpliesElim
    | NotIntro | NotElim | TrueIntro | FalseElim | Expand | Contra

  /** The enumeration's values, which are also the rule codes of the line format. */
  function Code(r: InferenceRule): string
  {
    match r
    case Axiom => "AX"
    case AndIntro => "AI"
    case AndElim => "AE"
    case OrIntro => "OI"
    case OrElim => "OE"
    case ImpliesIntro => "II"
    case ImpliesElim => "IE"
    case NotIntro => "NI"
    case NotElim => "NE"
    case TrueIntro => "TI"
    case FalseElim => "FE"
    case Expand => "EX"
    case Contra => "IP"
  }

  /** Lookup of a rule by its code; `None` is the "Unknown inference rule" case. */
  function RuleOfCode(code: string): Option<InferenceRule>
  {
    if code == "AX" then Some(Axiom)
    else if code == "AI" then Some(AndIntro)
    else if code == "AE" then Some(AndElim)
    else if code == "OI" then Some(OrIntro)
    else if code == "OE" then Some(OrElim)
    else if code == "II" then Some(ImpliesIntro)
    else if code == "IE" then Some(ImpliesElim)
    else if code == "NI" then Some(NotIntro)
    else if code == "NE" then Some(NotElim)
    else if code == "TI" then Some(TrueIntro)
    else if code == "FE" then Some(FalseElim)
    else if code == "EX" then Some(Expand)
    else if code == "IP" then Some(Contra)
    else None
  }

  /** Codes and rules are in one-to-one correspondence. */
  lemma CodesRoundTrip(r: InferenceRule, code: string)
    ensures RuleOfCode(Code(r)) == Some(r)
    ensures RuleOfCode(code).Some? ==> Code(RuleOfCode(code).value) == code
  {
  }

  datatype Sequent = Sequent(gamma: Gamma, conclusion: Sentence, rule: InferenceRule)

  /** How two hypothesis lists are compared: the source's one-directional `==`, or both ways. */
  datatype ContextMatch = OneWay | BothWays

  predicate CtxEq(m: ContextMatch, a: Gamma, b: Gamma)
  {
    match m
    case OneWay => OneWayEq(a, b)
    case BothWays => SameContext(a, b)
  }

  predicate IsOp(s: Sentence, op: Operator)
  {
    s.TwoSided? && s.oper == op
  }

  /** Line `k` of the log shows `c` under a context equal to `g`. */
  predicate ProvedAt(m: ContextMatch, log: seq<Sequent>, k: nat, g: Gamma, c: Sentence)
    requires k < |log|
  {
    CtxEq(m, g, log[k].gamma) && PyEq(log[k].conclusion, c)
  }

  /** `proof_exists(g, c)`: some logged sequent has `g == seq.gamma` and `seq.conclusion == c`. */
  predicate ProvedIn(m: ContextMatch, log: seq<Sequent>, g: Gamma, c: Sentence)
  {
    exists k: nat :: k < |log| && ProvedAt(m, log, k, g, c)
  }

  /** Line `k` is an AND under a context equal to `g` with `c` as one conjunct. */
  predicate AndElimAt(m: ContextMatch, log: seq<Sequent>, k: nat, g: Gamma, c: Sentence)
    requires k < |log|
  {
    IsOp(log[k].conclusion, And) && CtxEq(m, log[k].gamma, g) &&
    (PyEq(log[k].conclusion.right, c) || PyEq(log[k].conclusion.left, c))
  }

  predicate AndElimFrom(m: ContextMatch, log: seq<Sequent>, g: Gamma, c: Sentence)
  {
    exists k: nat :: k < |log| && AndElimAt(m, log, k, g, c)
  }

  /** Line `k` is an OR(l, r) under a context equal to `g`, and `c` is proved under g+[l] and under g+[r]. */
  predicate OrElimAt(m: ContextMatch, log: seq<Sequent>, k: nat, g: Gamma, c: Sentence)
    requires k < |log|
  {
    CtxEq(m, log[k].gamma, g) && IsOp(log[k].conclusion, Or) &&
    ProvedIn(m, log, g + [log[k].conclusion.left], c) &&
    ProvedIn(m, log, g + [log[k].conclusion.right], c)
  }

  predicate OrElimFrom(m: ContextMatch, log: seq<Sequent>, g: Gamma, c: Sentence)
  {
    exists k: nat :: k < |log| && OrElimAt(m, log, k, g, c)
  }

  /** Line `k` is `X -> c` under a context equal to `g`, and `X` is proved under line `k`'s context. */
  predicate ImpliesElimAt(m: ContextMatch, log: seq<Sequent>, k: nat, g: Gamma, c: Sentence)
    requires k < |log|
  {
    IsOp(log[k].conclusion, Implies) && CtxEq(m, log[k].gamma, g) &&
    PyEq(log[k].conclusion.right, c) && ProvedIn(m, log, log[k].gamma, log[k].conclusion.left)
  }

  predicate ImpliesElimFrom(m: ContextMatch, log: seq<Sequent>, g: Gamma, c: Sentence)
  {
    exists k: nat :: k < |log| && ImpliesElimAt(m, log, k, g, c)
  }

  /** Line `k` is under a context equal to `g`, and the negation of its conclusion is logged under that context. */
  predicate NotElimAt(m: ContextMatch, log: seq<Sequent>, k: nat, g: Gamma)
    requires k < |log|
  {
    CtxEq(m, log[k].gamma, g) && ProvedIn(m, log, log[k].gamma, Negation(log[k].conclusion))
  }

  predicate NotElimFrom(m: ContextMatch, log: seq<Sequent>, g: Gamma)
  {
    exists k: nat :: k < |log| && NotElimAt(m, log, k, g)
  }

  /** Line `k`'s context is a subset of `g` and its conclusion is `c`. */
  predicate ExpandAt(log: seq<Sequent>, k: nat, g: Gamma, c: Sentence)
    requires k < |log|
  {
    Subset(log[k].gamma, g) && PyEq(c, log[k].conclusion)
  }

  predicate ExpandFrom(log: seq<Sequent>, g: Gamma, c: Sentence)
  {
    exists k: nat :: k < |log| && ExpandAt(log, k, g, c)
  }

  /** Each rule's acceptance condition, with AND-introduction and IMPLIES-introduction as intended. */
  predicate RuleHolds(m: ContextMatch, log: seq<Sequent>, cand: Sequent)
  {
    var g, c := cand.gamma, cand.conclusion;
    match cand.rule
    case Axiom => Mem(g, c)
    case AndIntro => IsOp(c, And) && ProvedIn(m, log, g, c.left) && ProvedIn(m, log, g, c.right)
    case AndElim => AndElimFrom(m, log, g, c)
    case OrIntro => IsOp(c, Or) && (ProvedIn(m, log, g, c.left) || ProvedIn(m, log, g, c.right))
    case OrElim => OrElimFrom(m, log, g, c)
    case ImpliesIntro => IsOp(c, Implies) && ProvedIn(m, log, g + [c.left], c.right)
    case ImpliesElim => ImpliesElimFrom(m, log, g, c)
    case NotIntro => c.Negation? && ProvedIn(m, log, g + [c.inner], FalseSym)
    case NotElim => c.FalseSym? && NotElimFrom(m, log, g)
    case TrueIntro => c.TrueSym?
    case FalseElim => ProvedIn(m, log, g, FalseSym)
    case Contra => ProvedIn(m, log, g + [Negation(c)], FalseSym)
    case Expand => ExpandFrom(log, g, c)
  }

  /** The check the model's `Proof` runs: every rule as intended, contexts compared both ways. */
  predicate Accepts(log: seq<Sequent>, cand: Sequent)
  {
    RuleHolds(BothWays, log, cand)
  }

  datatype CheckError = AttributeError

  /**
   * `check_sequent` as written: the and-intro branch reads the misspelt
   * attribute `conlcusion` and always raises; the implies-intro guard joins
   * its two tests with `and`, so it raises on a conclusion without an `oper`
   * and lets a TwoSided conclusion of any operator through; contexts are
   * compared with the one-directional `Gamma.__eq__`.
   */
  function CheckAsWritten(log: seq<Sequent>, cand: Sequent): Result<bool, CheckError>
  {
    var g, c := cand.gamma, cand.conclusion;
    match cand.rule
    case AndIntro => Err(AttributeError)
    case ImpliesIntro =>
      if !c.TwoSided? then Err(AttributeError)
      else Ok(ProvedIn(OneWay, log, g + [c.left], c.right))
    case _ => Ok(RuleHolds(OneWay, log, cand))
  }

  // ------------------------------------------------------------- semantics

  ghost predicate AllHold(g: Gamma, assignment: map<string, bool>)
  {
    forall i :: 0 <= i < |g| ==> Holds(g[i], assignment)
  }

  /** Every assignment that makes all of `g` true makes `c` true. */
  ghost predicate Entails(g: Gamma, c: Sentence)
  {
    forall assignment: map<string, bool> :: AllHold(g, assignment) ==> Holds(c, assignment)
  }

  predicate PlainSequent(sq: Sequent)
  {
    AllPlain(sq.gamma) && Plain(sq.conclusion)
  }

  /** A log of plain sequents each of which is semantically valid. */
  ghost predicate SoundLog(log: seq<Sequent>)
  {
    forall k :: 0 <= k < |log| ==> PlainSequent(log[k]) && Entails(log[k].gamma, log[k].conclusion)
  }

  lemma AllHoldAppend(g: Gamma, x: Sentence, assignment: map<string, bool>)
    ensures AllHold(g + [x], assignment) <==> AllHold(g, assignment) && Holds(x, assignment)
  {
    if AllHold(g, assignment) && Holds(x, assignment) {
      forall i | 0 <= i < |g + [x]| ensures Holds((g + [x])[i], assignment) {
        if i < |g| { assert (g + [x])[i] == g[i]; }
      }
    }
    if AllHold(g + [x], assignment) {
      forall i | 0 <= i < |g| ensures Holds(g[i], assignment) {
        assert (g + [x])[i] == g[i];
      }
      assert (g + [x])[|g|] == x;
    }
  }

  /** Entailment survives enlarging the hypotheses. */
  lemma Weaken(h: Gamma, g: Gamma, c: Sentence)
    requires Entails(h, c) && AllPlain(g) && Subset(h, g)
    ensures Entails(g, c)
  {
    forall assignment | AllHold(g, assignment) ensures Holds(c, assignment) {
      forall i | 0 <= i < |h| ensures Holds(h[i], assignment) {
        MemIsMembership(g, h[i]);
      }
      assert AllHold(h, assignment);
    }
  }

  /** Over a sound log, a `proof_exists` hit is a valid entailment. */
  lemma ProvedInIsEntailed(log: seq<Sequent>, g: Gamma, c: Sentence)
    requires SoundLog(log) && AllPlain(g)
    requires ProvedIn(BothWays, log, g, c)
    ensures Entails(g, c)
  {
    var k: nat :| k < |log| && ProvedAt(BothWays, log, k, g, c);
    SameAsIsStructural(log[k].conclusion, c);
    Weaken(log[k].gamma, g, c);
  }

  lemma AndElimIsSound(log: seq<Sequent>, k: nat, g: Gamma, c: Sentence)
    requires SoundLog(log) && AllPlain(g) && k < |log|
    requires AndElimAt(BothWays, log, k, g, c)
    ensures Entails(g, c)
  {
    var l, r := log[k].conclusion.left, log[k].conclusion.right;
    SameAsIsStructural(r, c);
    SameAsIsStructural(l, c);
    Weaken(log[k].gamma, g, log[k].conclusion);
    forall assignment | AllHold(g, assignment) ensures Holds(c, assignment) {
      assert Holds(TwoSided(l, r, And), assignment);
    }
  }

  lemma AllPlainSnoc(g: Gamma, x: Sentence)
    requires AllPlain(g) && Plain(x)
    ensures AllPlain(g + [x])
  {
    assert forall i :: 0 <= i < |g| ==> (g + [x])[i] == g[i];
  }

  lemma OrElimIsSound(log: seq<Sequent>, k: nat, g: Gamma, c: Sentence)
    requires SoundLog(log) && AllPlain(g) && k < |log|
    requires OrElimAt(BothWays, log, k, g, c)
    ensures Entails(g, c)
  {
    var sq := log[k];
    var l, r := sq.conclusion.left, sq.conclusion.right;
    assert PlainSequent(sq) && Entails(sq.gamma, sq.conclusion);
    assert Subset(sq.gamma, g);
    Weaken(sq.gamma, g, sq.conclusion);
    assert Plain(l) && Plain(r);
    AllPlainSnoc(g, l);
    AllPlainSnoc(g, r);
    ProvedInIsEntailed(log, g + [l], c);
    ProvedInIsEntailed(log, g + [r], c);
    ProofByCases(g, l, r, c);
  }

  /** Proof by cases: what follows from each side of an entailed disjunction follows outright. */
  lemma ProofByCases(g: Gamma, l: Sentence, r: Sentence, c: Sentence)
    requires Entails(g, TwoSided(l, r, Or))
    requires Entails(g + [l], c) && Entails(g + [r], c)
    ensures Entails(g, c)
  {
    forall assignment | AllHold(g, assignment) ensures Holds(c, assignment) {
      assert Holds(TwoSided(l, r, Or), assignment);
      AllHoldAppend(g, l, assignment);
      AllHoldAppend(g, r, assignment);
    }
  }

  lemma ImpliesElimIsSound(log: seq<Sequent>, k: nat, g: Gamma, c: Sentence)
    requires SoundLog(log) && AllPlain(g) && k < |log|
    requires ImpliesElimAt(BothWays, log, k, g, c)
    ensures Entails(g, c)
  {
    var p, q := log[k].conclusion.left, log[k].conclusion.right;
    SameAsIsStructural(q, c);
    ProvedInIsEntailed(log, log[k].gamma, p);
    Weaken(log[k].gamma, g, log[k].conclusion);
    Weaken(log[k].gamma, g, p);
    forall assignment | AllHold(g, assignment) ensures Holds(c, assignment) {
      assert Holds(TwoSided(p, q, Implies), assignment) && Holds(p, assignment);
    }
  }

  lemma NotElimIsSound(log: seq<Sequent>, k: nat, g: Gamma)
    requires SoundLog(log) && AllPlain(g) && k < |log|
    requires NotElimAt(BothWays, log, k, g)
    ensures Entails(g, FalseSym)
  {
    var x := log[k].conclusion;
    ProvedInIsEntailed(log, log[k].gamma, Negation(x));
    Weaken(log[k].gamma, g, x);
    Weaken(log[k].gamma, g, Negation(x));
    forall assignment ensures !AllHold(g, assignment) {
      if AllHold(g, assignment) {
        assert false;
      }
    }
  }

  /** A hypothesis discharged by an introduction rule: from g+[x] |= y, a consequence about g. */
  lemma Discharged(g: Gamma, x: Sentence, y: Sentence, c: Sentence)
    requires Entails(g + [x], y)
    requires forall assignment :: (Holds(x, assignment) ==> Holds(y, assignment)) ==> Holds(c, assignment)
    ensures Entails(g, c)
  {
    forall assignment | AllHold(g, assignment) ensures Holds(c, assignment) {
      AllHoldAppend(g, x, assignment);
    }
  }

  /**
   * Soundness of the corrected checker: appended to a log of valid sequents,
   * an accepted candidate is itself valid. Plainness (no atomic literally
   * named TRUE or FALSE) keeps the source's equality structural.
   */
  lemma AcceptedIsEntailed(log: seq<Sequent>, cand: Sequent)
    requires SoundLog(log) && PlainSequent(cand)
    requires Accepts(log, cand)
    ensures Entails(cand.gamma, cand.conclusion)
  {
    var g, c := cand.gamma, cand.conclusion;
    match cand.rule
    case Axiom =>
      MemIsMembership(g, c);
    case AndIntro =>
      ProvedInIsEntailed(log, g, c.left);
      ProvedInIsEntailed(log, g, c.right);
    case AndElim =>
      var k: nat :| k < |log| && AndElimAt(BothWays, log, k, g, c);
      AndElimIsSound(log, k, g, c);
    case OrIntro =>
      if ProvedIn(BothWays, log, g, c.left) {
        ProvedInIsEntailed(log, g, c.left);
      } else {
        ProvedInIsEntailed(log, g, c.right);
      }
    case OrElim =>
      var k: nat :| k < |log| && OrElimAt(BothWays, log, k, g, c);
      OrElimIsSound(log, k, g, c);
    case ImpliesIntro =>
      assert AllPlain(g + [c.left]);
      ProvedInIsEntailed(log, g + [c.left], c.right);
      Discharged(g, c.left, c.right, c);
    case ImpliesElim =>
      var k: nat :| k < |log| && ImpliesElimAt(BothWays, log, k, g, c);
      ImpliesElimIsSound(log, k, g, c);
    case NotIntro =>
      assert AllPlain(g + [c.inner]);
      ProvedInIsEntailed(log, g + [c.inner], FalseSym);
      Discharged(g, c.inner, FalseSym, c);
    case NotElim =>
      var k: nat :| k < |log| && NotElimAt(BothWays, log, k, g);
      NotElimIsSound(log, k, g);
    case TrueIntro =>
    case FalseElim =>
      ProvedInIsEntailed(log, g, FalseSym);
    case Contra =>
      assert AllPlain(g + [Negation(c)]);
      ProvedInIsEntailed(log, g + [Negation(c)], FalseSym);
      Discharged(g, Negation(c), FalseSym, c);
    case Expand =>
      var k: nat :| k < |log| && ExpandAt(log, k, g, c);
      SameAsIsStructural(c, log[k].conclusion);
      Weaken(log[k].gamma, g, c);
  }

  lemma ProvedInMonotone(m: ContextMatch, log: seq<Sequent>, extra: seq<Sequent>, g: Gamma, c: Sentence)
    requires ProvedIn(m, log, g, c)
    ensures ProvedIn(m, log + extra, g, c)
  {
    var k: nat :| k < |log| && ProvedAt(m, log, k, g, c);
    assert (log + extra)[k] == log[k];
    assert ProvedAt(m, log + extra, k, g, c);
  }

  /**
   * Every rule is an existential search over the log, so appending never
   * withdraws an acceptance: re-adding a sequent, or checking it after later
   * lines, succeeds again.
   */
  lemma AcceptanceSurvivesAppend(m: ContextMatch, log: seq<Sequent>, extra: seq<Sequent>, cand: Sequent)
    requires RuleHolds(m, log, cand)
    ensures RuleHolds(m, log + extra, cand)
  {
    var g, c, big := cand.gamma, cand.conclusion, log + extra;
    match cand.rule
    case Axiom =>
    case AndIntro =>
      ProvedInMonotone(m, log, extra, g, c.left);
      ProvedInMonotone(m, log, extra, g, c.right);
    case AndElim =>
      var k: nat :| k < |log| && AndElimAt(m, log, k, g, c);
      assert big[k] == log[k];
      assert AndElimAt(m, big, k, g, c);
    case OrIntro =>
      if ProvedIn(m, log, g, c.left) {
        ProvedInMonotone(m, log, extra, g, c.left);
      } else {
        ProvedInMonotone(m, log, extra, g, c.right);
      }
    case OrElim =>
      var k: nat :| k < |log| && OrElimAt(m, log, k, g, c);
      assert big[k] == log[k];
      ProvedInMonotone(m, log, extra, g + [log[k].conclusion.left], c);
      ProvedInMonotone(m, log, extra, g + [log[k].conclusion.right], c);
      assert OrElimAt(m, big, k, g, c);
    case ImpliesIntro =>
      ProvedInMonotone(m, log, extra, g + [c.left], c.right);
    case ImpliesElim =>
      var k: nat :| k < |log| && ImpliesElimAt(m, log, k, g, c);
      assert big[k] == log[k];
      ProvedInMonotone(m, log, extra, log[k].gamma, log[k].conclusion.left);
      assert ImpliesElimAt(m, big, k, g, c);
    case NotIntro =>
      ProvedInMonotone(m, log, extra, g + [c.inner], FalseSym);
    case NotElim =>
      var k: nat :| k < |log| && NotElimAt(m, log, k, g);
      assert big[k] == log[k];
      ProvedInMonotone(m, log, extra, log[k].gamma, Negation(log[k].conclusion));
      assert NotElimAt(m, big, k, g);
    case TrueIntro =>
    case FalseElim =>
      ProvedInMonotone(m, log, extra, g, FalseSym);
    case Contra =>
      ProvedInMonotone(m, log, extra, g + [Negation(c)], FalseSym);
    case Expand =>
      var k: nat :| k < |log| && ExpandAt(log, k, g, c);
      assert big[k] == log[k];
      assert ExpandAt(big, k, g, c);
  }

  /** Axiom accepts each hypothesis of the candidate gamma, whatever the log holds. */
  lemma AxiomAcceptsHypotheses(log: seq<Sequent>, g: Gamma, i: nat)
    requires i < |g|
    ensures Accepts(log, Sequent(g, g[i], Axiom))
  {
    SameAsReflexive(g[i]);
  }

  /** Over plain hypotheses, Axiom accepts a conclusion iff it is one of them. */
  lemma AxiomAcceptsExactlyMembers(log: seq<Sequent>, g: Gamma, c: Sentence)
    requires AllPlain(g)
    ensures Accepts(log, Sequent(g, c, Axiom)) <==> c in g
  {
    MemIsMembership(g, c);
  }

  /** A conclusion proved under a context can be cited by Expand under any context extending it. */
  lemma ExpandCitesProvedFacts(log: seq<Sequent>, g: Gamma, extra: Gamma, c: Sentence)
    requires SoundLog(log) && AllPlain(g)
    requires ProvedIn(BothWays, log, g, c)
    ensures Accepts(log, Sequent(g + extra, c, Expand))
  {
    var k: nat :| k < |log| && ProvedAt(BothWays, log, k, g, c);
    var h := log[k].gamma;
    assert PlainSequent(log[k]);
    SameAsIsStructural(log[k].conclusion, c);
    SameAsReflexive(c);
    assert Subset(h, g) by { assert OneWayEq(h, g); }
    forall i | 0 <= i < |h| ensures Mem(g + extra, h[i]) {
      MemSurvivesAppend(g, extra, h[i]);
    }
    assert ExpandAt(log, k, g + extra, c);
  }

  /** A logged sequent is found by `proof_exists` under its own gamma. */
  lemma LoggedIsProved(log: seq<Sequent>, sq: Sequent)
    requires sq in log
    ensures ProvedIn(BothWays, log, sq.gamma, sq.conclusion)
  {
    var k :| 0 <= k < |log| && log[k] == sq;
    SameContextReflexive(sq.gamma);
    SameAsReflexive(sq.conclusion);
    assert ProvedAt(BothWays, log, k, sq.gamma, sq.conclusion);
  }

  /** Modus ponens: with `p -> c` and `p` logged under `g`, implies-elimination accepts `g |- c`. */
  lemma ImpliesElimAcceptsModusPonens(log: seq<Sequent>, g: Gamma, p: Sentence, c: Sentence, r1: InferenceRule, r2: InferenceRule)
    requires Sequent(g, TwoSided(p, c, Implies), r1) in log
    requires Sequent(g, p, r2) in log
    ensures Accepts(log, Sequent(g, c, ImpliesElim))
  {
    var k :| 0 <= k < |log| && log[k] == Sequent(g, TwoSided(p, c, Implies), r1);
    LoggedIsProved(log, Sequent(g, p, r2));
    SameContextReflexive(g);
    SameAsReflexive(c);
    assert ImpliesElimAt(BothWays, log, k, g, c);
  }

  /**
   * Proof by cases: with `l or r` logged under `g` and `c` logged under
   * `g + [l]` and under `g + [r]`, or-elimination accepts `g |- c`.
   */
  lemma OrElimAcceptsProofByCases(log: seq<Sequent>, g: Gamma, l: Sentence, r: Sentence, c: Sentence,
                                  r0: InferenceRule, r1: InferenceRule, r2: InferenceRule)
    requires Sequent(g, TwoSided(l, r, Or), r0) in log
    requires Sequent(g + [l], c, r1) in log
    requires Sequent(g + [r], c, r2) in log
    ensures Accepts(log, Sequent(g, c, OrElim))
  {
    var k :| 0 <= k < |log| && log[k] == Sequent(g, TwoSided(l, r, Or), r0);
    LoggedIsProved(log, Sequent(g + [l], c, r1));
    LoggedIsProved(log, Sequent(g + [r], c, r2));
    SameContextReflexive(g);
    assert OrElimAt(BothWays, log, k, g, c);
  }

  // --------------------------------------------------------------- findings

  /**
   * proof.py:72: and-introduction raises for every candidate, so even a
   * valid conjunction is never recorded; the corrected check accepts it.
   */
  lemma AndIntroTypoRejectsValidStep()
    ensures var g := [Atomic("A"), Atomic("B")];
            var log := [Sequent(g, Atomic("A"), Axiom), Sequent(g, Atomic("B"), Axiom)];
            var cand := Sequent(g, TwoSided(Atomic("A"), Atomic("B"), And), AndIntro);
            CheckAsWritten(log, cand) == Err(AttributeError) && Accepts(log, cand) &&
            Entails(g, cand.conclusion)
  {
    var g := [Atomic("A"), Atomic("B")];
    var log := [Sequent(g, Atomic("A"), Axiom), Sequent(g, Atomic("B"), Axiom)];
    SameContextIsSetEquality(g, g);
    assert ProvedAt(BothWays, log, 0, g, Atomic("A"));
    assert ProvedAt(BothWays, log, 1, g, Atomic("B"));
    forall assignment | AllHold(g, assignment)
      ensures Holds(TwoSided(Atomic("A"), Atomic("B"), And), assignment)
    {
      assert Holds(g[0], assignment) && Holds(g[1], assignment);
    }
  }

  /**
   * proof.py:109: as written, implies-introduction raises on an atomic
   * conclusion and accepts `A and A` from nothing once `[A] |- A` is logged;
   * the corrected check rejects it, and it is not a valid entailment.
   */
  lemma ImpliesIntroGuardIsUnsound()
    ensures var log := [Sequent([Atomic("A")], Atomic("A"), Axiom)];
            var cand := Sequent([], TwoSided(Atomic("A"), Atomic("A"), And), ImpliesIntro);
            SoundLog(log) && CheckAsWritten(log, cand) == Ok(true) &&
            !Entails(cand.gamma, cand.conclusion) && !Accepts(log, cand) &&
            CheckAsWritten(log, Sequent([], Atomic("A"), ImpliesIntro)) == Err(AttributeError)
  {
    var log := [Sequent([Atomic("A")], Atomic("A"), Axiom)];
    var empty: map<string, bool> := map[];
    assert AllHold([], empty) && !Holds(TwoSided(Atomic("A"), Atomic("A"), And), empty);
    assert Entails([Atomic("A")], Atomic("A")) by {
      forall assignment | AllHold([Atomic("A")], assignment) ensures Holds(Atomic("A"), assignment) {
        assert Holds([Atomic("A")][0], assignment);
      }
    }
    assert SoundLog(log);
    var g1 := [] + [Atomic("A")];
    assert OneWayEq(g1, log[0].gamma) by { assert PyEq(log[0].gamma[0], g1[0]); }
    assert ProvedAt(OneWay, log, 0, g1, Atomic("A"));
  }

  /**
   * sentence.py:235-246: with the one-directional equality, `[A, false] |- false`
   * (an axiom) lets not-introduction conclude `[A] |- not A`, because
   * `[A, A] == [A, false]` holds as written. The corrected check rejects it.
   */
  lemma OneWayContextIsUnsound()
    ensures var first := Sequent([Atomic("A"), FalseSym], FalseSym, Axiom);
            var cand := Sequent([Atomic("A")], Negation(Atomic("A")), NotIntro);
            CheckAsWritten([], first) == Ok(true) &&
            SoundLog([first]) && CheckAsWritten([first], cand) == Ok(true) &&
            !Entails(cand.gamma, cand.conclusion) && !Accepts([first], cand)
  {
    var a, f := Atomic("A"), FalseSym;
    var first := Sequent([a, f], f, Axiom);
    assert PyEq(first.gamma[1], f);
    assert Entails(first.gamma, f) by {
      forall assignment | AllHold(first.gamma, assignment) ensures Holds(f, assignment) {
        assert Holds(first.gamma[1], assignment);
      }
    }
    var g2 := [a] + [a];
    assert PyEq(first.gamma[0], g2[0]) && PyEq(first.gamma[0], g2[1]);
    assert OneWayEq(g2, first.gamma);
    assert ProvedAt(OneWay, [first], 0, g2, FalseSym);
    assert !Mem(g2, f) by { assert !PyEq(g2[0], f) && !PyEq(g2[1], f); }
    var at: map<string, bool> := map["A" := true];
    assert AllHold([a], at) && !Holds(Negation(a), at);
  }

  /**
   * Without plainness the corrected check is still unsound: an atomic named
   * TRUE lets `not TRUE` stand for `not true` inside the conjunct search.
   */
  lemma TrueNamedAtomicIsUnsound()
    ensures var n := Negation(Atomic("TRUE"));
            Entails([n], n) && !Entails([n], TwoSided(Negation(TrueSym), Negation(TrueSym), Or)) &&
            Accepts([Sequent([n], n, Axiom)], Sequent([n], TwoSided(Negation(TrueSym), Negation(TrueSym), Or), OrIntro))
  {
    var n := Negation(Atomic("TRUE"));
    var nt := Negation(TrueSym);
    var log := [Sequent([n], n, Axiom)];
    assert SameContext([n], log[0].gamma) by {
      SameAsReflexive(n);
      assert Mem([n], [n][0]);
    }
    assert PyEq(n, nt);
    assert ProvedAt(BothWays, log, 0, [n], nt);
    assert Entails([n], n) by {
      forall assignment | AllHold([n], assignment) ensures Holds(n, assignment) {
        assert Holds([n][0], assignment);
      }
    }
    var none: map<string, bool> := map["TRUE" := false];
    assert !Holds(Atomic("TRUE"), none);
    assert AllHold([n], none) by { assert Holds([n][0], none); }
    assert !Holds(TwoSided(nt, nt, Or), none);
  }

  // ------------------------------------------------------------ the store

  /** `Proof`: the append-only sequent log. */
  class Proof {
    var sequents: seq<Sequent>

    constructor ()
      ensures sequents == []
    {
      sequents := [];
    }

    /** `proof_exists`, with contexts compared both ways. */
    method ProofExists(g: Gamma, c: Sentence) returns (found: bool)
      ensures found == ProvedIn(BothWays, sequents, g, c)
    {
      var i := 0;
      while i < |sequents|
        invariant 0 <= i <= |sequents|
        invariant forall k: nat :: k < i ==> !ProvedAt(BothWays, sequents, k, g, c)
      {
        var same := SameContextCheck(g, sequents[i].gamma);
        if same && PyEq(sequents[i].conclusion, c) {
          assert ProvedAt(BothWays, sequents, i, g, c);
          return true;
        }
        i := i + 1;
      }
      return false;
    }

    /** The and-elimination branch of `check_sequent`. */
    method AndElimSearch(g: Gamma, c: Sentence) returns (found: bool)
      ensures found == AndElimFrom(BothWays, sequents, g, c)
    {
      var i := 0;
      while i < |sequents|
        invariant 0 <= i <= |sequents|
        invariant forall k: nat :: k < i ==> !AndElimAt(BothWays, sequents, k, g, c)
      {
        var sq := sequents[i];
        if IsOp(sq.conclusion, And) {
          var same := SameContextCheck(sq.gamma, g);
          if same && (PyEq(sq.conclusion.right, c) || PyEq(sq.conclusion.left, c)) {
            assert AndElimAt(BothWays, sequents, i, g, c);
            return true;
          }
        }
        i := i + 1;
      }
      return false;
    }

    /** The or-elimination branch: collect every disjunction under an equal gamma, then try each. */
    method OrElimSearch(g: Gamma, c: Sentence) returns (found: bool)
      ensures found == OrElimFrom(BothWays, sequents, g, c)
    {
      var options: seq<Sentence> := [];
      var i := 0;
      while i < |sequents|
        invariant 0 <= i <= |sequents|
        invariant options == OrOptions(sequents[..i], g)
      {
        var sq := sequents[i];
        var same := SameContextCheck(sq.gamma, g);
        if same && IsOp(sq.conclusion, Or) {
          options := options + [sq.conclusion];
        }
        assert sequents[..i + 1][..i] == sequents[..i];
        i := i + 1;
      }
      assert sequents[..i] == sequents;
      OrOptionsMembers(sequents, g);
      var j := 0;
      while j < |options|
        invariant 0 <= j <= |options|
        invariant forall t :: 0 <= t < j ==> !(ProvedIn(BothWays, sequents, g + [options[t].left], c) &&
                                               ProvedIn(BothWays, sequents, g + [options[t].right], c))
      {
        var one := ProofExists(g + [options[j].left], c);
        if one {
          var two := ProofExists(g + [options[j].right], c);
          if two {
            assert options[j] in OrOptions(sequents, g);
            var k: nat :| k < |sequents| && SameContext(sequents[k].gamma, g) && sequents[k].conclusion == options[j];
            assert OrElimAt(BothWays, sequents, k, g, c);
            return true;
          }
        }
        j := j + 1;
      }
      return false;
    }

    /** The implies-elimination branch of `check_sequent`. */
    method ImpliesElimSearch(g: Gamma, c: Sentence) returns (found: bool)
      ensures found == ImpliesElimFrom(BothWays, sequents, g, c)
    {
      var i := 0;
      while i < |sequents|
        invariant 0 <= i <= |sequents|
        invariant forall k: nat :: k < i ==> !ImpliesElimAt(BothWays, sequents, k, g, c)
      {
        var sq := sequents[i];
        if IsOp(sq.conclusion, Implies) {
          var same := SameContextCheck(sq.gamma, g);
          if same && PyEq(sq.conclusion.right, c) {
            var premise := ProofExists(sq.gamma, sq.conclusion.left);
            if premise {
              assert ImpliesElimAt(BothWays, sequents, i, g, c);
              return true;
            }
          }
        }
        i := i + 1;
      }
      return false;
    }

    /** The not-elimination search of `check_sequent`. */
    method NotElimSearch(g: Gamma) returns (found: bool)
      ensures found == NotElimFrom(BothWays, sequents, g)
    {
      var i := 0;
      while i < |sequents|
        invariant 0 <= i <= |sequents|
        invariant forall k: nat :: k < i ==> !NotElimAt(BothWays, sequents, k, g)
      {
        var sq := sequents[i];
        var same := SameContextCheck(sq.gamma, g);
        if same {
          var refuted := ProofExists(sq.gamma, Negation(sq.conclusion));
          if refuted {
            assert NotElimAt(BothWays, sequents, i, g);
            return true;
          }
        }
        i := i + 1;
      }
      return false;
    }

    /** The expand branch of `check_sequent`. */
    method ExpandSearch(g: Gamma, c: Sentence) returns (found: bool)
      ensures found == ExpandFrom(sequents, g, c)
    {
      var i := 0;
      while i < |sequents|
        invariant 0 <= i <= |sequents|
        invariant forall k: nat :: k < i ==> !ExpandAt(sequents, k, g, c)
      {
        var sub := IsSubsetOf(sequents[i].gamma, g);
        if sub && PyEq(c, sequents[i].conclusion) {
          assert ExpandAt(sequents, i, g, c);
          return true;
        }
        i := i + 1;
      }
      return false;
    }

    /** `check_sequent`, with the and-intro and implies-intro branches as intended. */
    method CheckSequent(cand: Sequent) returns (ok: bool)
      ensures ok == Accepts(sequents, cand)
    {
      var g, c := cand.gamma, cand.conclusion;
      match cand.rule {
        case Axiom =>
          ok := Contains(g, c);
        case AndIntro =>
          if !IsOp(c, And) {
            return false;
          }
          ok := ProofExists(g, c.left);
          if ok {
            ok := ProofExists(g, c.right);
          }
        case AndElim =>
          ok := AndElimSearch(g, c);
        case OrIntro =>
          if !IsOp(c, Or) {
            return false;
          }
          ok := ProofExists(g, c.left);
          if !ok {
            ok := ProofExists(g, c.right);
          }
        case OrElim =>
          ok := OrElimSearch(g, c);
        case ImpliesIntro =>
          if !IsOp(c, Implies) {
            return false;
          }
          ok := ProofExists(g + [c.left], c.right);
        case ImpliesElim =>
          ok := ImpliesElimSearch(g, c);
        case NotIntro =>
          if !c.Negation? {
            return false;
          }
          ok := ProofExists(g + [c.inner], FalseSym);
        case NotElim =>
          if !c.FalseSym? {
            return false;
          }
          ok := NotElimSearch(g);
        case TrueIntro =>
          ok := c.TrueSym?;
        case FalseElim =>
          ok := ProofExists(g, FalseSym);
        case Contra =>
          ok := ProofExists(g + [Negation(c)], FalseSym);
        case Expand =>
          ok := ExpandSearch(g, c);
      }
    }

    /**
     * `add_sequent`: append the candidate iff it is accepted; earlier entries
     * are never altered, and a log of valid plain sequents stays valid.
     */
    method AddSequent(cand: Sequent) returns (ok: bool)
      modifies this
      ensures ok == Accepts(old(sequents), cand)
      ensures sequents == if ok then old(sequents) + [cand] else old(sequents)
      ensures SoundLog(old(sequents)) && PlainSequent(cand) ==> SoundLog(sequents)
    {
      ok := CheckSequent(cand);
      if ok {
        if SoundLog(sequents) && PlainSequent(cand) {
          AcceptedIsEntailed(sequents, cand);
        }
        sequents := sequents + [cand];
      }
    }
  }

  /** The disjunctions the or-elimination branch collects, in log order. */
  function OrOptions(log: seq<Sequent>, g: Gamma): (options: seq<Sentence>)
    ensures forall t :: 0 <= t < |options| ==> IsOp(options[t], Or)
  {
    if log == [] then []
    else
      var last := log[|log| - 1];
      OrOptions(log[..|log| - 1], g) +
        (if SameContext(last.gamma, g) && IsOp(last.conclusion, Or) then [last.conclusion] else [])
  }

  lemma {:induction false} OrOptionsMembers(log: seq<Sequent>, g: Gamma)
    ensures forall k :: 0 <= k < |log| && SameContext(log[k].gamma, g) && IsOp(log[k].conclusion, Or) ==>
              log[k].conclusion in OrOptions(log, g)
    ensures forall o :: o in OrOptions(log, g) ==>
              exists k :: 0 <= k < |log| && SameContext(log[k].gamma, g) && log[k].conclusion == o
  {
    if log != [] {
      var init := log[..|log| - 1];
      OrOptionsMembers(init, g);
      forall k | 0 <= k < |init| ensures init[k] == log[k] { }
    }
  }
}
