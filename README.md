# proof-checker core in Dafny

A Dafny model of the core of *proof-checker*, a checker for natural-deduction
proofs in propositional logic. The model covers five parts of the program:

- **Sentences** (`sentence.dfy`, module `Sentences`): the formula type
  `Atomic | True_Sym | False_Sym | Negation | TwoSided`. The model has both of
  the program's equality tests. `SameAs` is a direct call of a class's
  `__eq__`. `PyEq` is the `==` operator, with Python's reflected-operand rule
  for the subclasses `True_Sym`/`False_Sym` of `Atomic`. The module also holds
  `evaluate` with short-circuiting and its unassigned-variable error, and
  `get_atomics`.
- **Gamma** (`gamma.dfy`, module `Gammas`): the hypothesis list. It has
  Python's membership test `in`, the one-directional `Gamma.__eq__` as written
  (`OneWayEq`), the corrected two-way comparison (`SameContext`),
  `is_subset_of`, and `+`.
- **Sequent proofs** (`proof.dfy`, module `Proofs`): `InferenceRule` and its
  two-letter codes, `Sequent`, and the class `Proof`. `Proof` keeps its
  append-only log in a field `sequents` that `AddSequent` reassigns.
  `CheckSequent` runs each rule's search loop, but with the corrected
  comparisons: contexts are compared both ways, and AND-introduction and
  IMPLIES-introduction work as intended. The check as written, with its
  one-way context comparison and both of those defects, is `CheckAsWritten`;
  the findings below compare the two. Each rule's acceptance condition is stated as a predicate over the log (`RuleHolds`,
  `Accepts`). The soundness of every rule is proved against truth-table
  entailment (`AcceptedIsEntailed`).
- **Fitch-style subproofs** (`fitch.dfy`, module `Fitch`): the class
  `FitchSubProof` with its fields `gamma`, `pr`, `loaded`, `inners` and
  `outer`. It has the recursive loading of assumptions into the root's log,
  and conclusions forwarded to the root with the subproof's assumptions
  added. The or-elimination proof across two subproofs from the program's
  tests is proved to be accepted for any sentences.
- **Parser** (`parser.dfy`, module `Parser`): `insert_spaces` as a
  left-to-right scanner, and `balanced_parentheses` as a loop proved against a
  depth function. `parse_string` is a stack machine with an inner pop loop,
  proved equal to a functional specification (`ParseSpec`). That
  specification is proved to:
  - never raise the `IndexError` of popping an empty stack;
  - read back every fully parenthesised sentence written with the program's
    tokens;
  - refuse malformed input with the program's own error: a missing operand,
    an unknown operator, too many items in a group, parentheses that do not
    pair up. `ReduceGroupRejects` says exactly when a group is refused.
    These lemmas are in `parser_rejects.dfy`, module `ParserRejects`;
  - give the results in the program's own tests, both the inputs they
    accept and the inputs they reject.

`wrappers.dfy` holds the `Option` and `Result` types.

Python exceptions are values. The parser returns `Err(ParseFailure)`, for
`ParseError` and the uncaught `IndexError`/`TypeError`.
`FitchSubProof.SequentStyle` returns `Err` for its `ValueError`. Evaluation
returns `Err(VariableNotAssigned(name))`. The as-written proof check returns
`Err(AttributeError)`. Entailment (`Entails`) is a ghost predicate
quantifying over all assignments.

Where the code and its documentation disagree, the model follows the code:

- `True_Sym`/`False_Sym` inherit `Atomic.get_atomics` and so report
  `{"TRUE"}`/`{"FALSE"}`. The documentation describes them as constants with
  no atomics.
- An atomic literally named `TRUE` equals `True_Sym` inside a `Negation` or
  `TwoSided` (one direction only), but never at top level.

## Model

| member | source | states |
|---|---|---|
| Sentences.SameAsReflexive | src/core/sentence.py:74-187 | every sentence is `__eq__`-equal and `==`-equal to itself |
| Sentences.SameAsIsStructural | src/core/sentence.py:74-187 | when no atomic is named TRUE/FALSE, both `__eq__` and `==` hold exactly when the two sentences are structurally identical |
| Sentences.TrueNamedAtomicQuirk | src/core/sentence.py:83-110 | `Atomic("TRUE").__eq__(True_Sym())` holds but not the reverse; `==` is false both ways at top level; inside `Negation`/`TwoSided` the atomic named TRUE/FALSE equals the constant from the atomic side only |
| Sentences.EvaluateFollowsTruthTables | src/core/sentence.py:63-178 | `evaluate` returns the truth-table value whenever it returns; it always returns when every name from `get_atomics` is assigned; an error names an atomic of the sentence missing from the assignment |
| Sentences.AtomicsDetermineValue | src/core/sentence.py:69-168 | two assignments that agree on `get_atomics` give the same truth value and the same `evaluate` result |
| Gammas.Contains | src/core/sentence.py:242-244 | the membership loop returns true exactly when some stored item `==` the probe |
| Gammas.Equals | src/core/sentence.py:235-246 | `Gamma.__eq__` as written: equal lengths and every item of the left side found in the right |
| Gammas.SameContextCheck | src/core/sentence.py:235-246 | the corrected equality: `__eq__` checked in both directions |
| Gammas.IsSubsetOf | src/core/sentence.py:248-263 | `is_subset_of` returns true exactly when every item of the left side is a member of the right |
| Gammas.MemIsMembership | src/core/sentence.py:242-244 | over sentences with no atomic named TRUE/FALSE, Python's `in` is sequence membership |
| Gammas.EqualsIgnoresOrder | src/core/sentence.py:235-246 | two Gammas holding the same items in any order are equal, in both directions |
| Gammas.EqualsNotSymmetric | src/core/sentence.py:235-246 | `[A, A] == [A, B]` holds as written while `[A, B] == [A, A]` does not |
| Gammas.SameContextIsSetEquality | src/core/sentence.py:235-246 | the two-way equality is equal length plus equal sets of members |
| Gammas.SubsetIsInclusion | src/core/sentence.py:248-263 | `is_subset_of` is set inclusion; the empty Gamma is a subset of every Gamma |
| Gammas.SameContextReflexive | src/core/sentence.py:235-246 | every Gamma equals itself |
| Gammas.MemSurvivesAppend | src/core/sentence.py:269-276 | a member of `a` is a member of `a + b` |
| Gammas.ConcatKeepsMembers | src/core/sentence.py:269-276 | both operands of `+` are subsets of the sum |
| Proofs.CodesRoundTrip | src/core/proof.py:6-21 | each rule's two-letter code identifies it, and the code table is one-to-one |
| Proofs.Proof.constructor | src/core/proof.py:47-48 | a new proof has an empty log |
| Proofs.Proof.ProofExists | src/core/proof.py:50-55 | true exactly when some logged sequent has an equal context and a conclusion `==` the one asked for (contexts compared both ways) |
| Proofs.Proof.AndElimSearch | src/core/proof.py:78-84 | true exactly when some logged AND under an equal context has the candidate as its left or right conjunct (contexts compared both ways) |
| Proofs.Proof.OrElimSearch | src/core/proof.py:93-106 | true exactly when some logged OR under an equal context has the conclusion proved under the context extended by each disjunct (contexts compared both ways) |
| Proofs.OrOptionsMembers | src/core/proof.py:94-98 | the collected options are exactly the OR conclusions logged under an equal context (contexts compared both ways) |
| Proofs.Proof.ImpliesElimSearch | src/core/proof.py:116-123 | true exactly when some logged `p -> c` under an equal context has `p` proved under that line's context (contexts compared both ways) |
| Proofs.Proof.NotElimSearch | src/core/proof.py:134-141 | true exactly when some logged line under an equal context also has the negation of its conclusion proved under that line's context (contexts compared both ways) |
| Proofs.Proof.ExpandSearch | src/core/proof.py:159-164 | true exactly when some logged line's context is a subset of the candidate's and its conclusion is the candidate's |
| Proofs.Proof.CheckSequent | src/core/proof.py:64-167 | the check accepts exactly when the rule's condition holds over the log, with AND-introduction and IMPLIES-introduction as intended and contexts compared both ways |
| Proofs.Proof.AddSequent | src/core/proof.py:57-62 | a sequent is appended exactly when the check accepts it, and the log is otherwise unchanged; a sound log stays sound |
| Proofs.AcceptedIsEntailed | src/core/proof.py:64-167 | soundness: a step the check accepts over a log of valid sequents is itself a valid entailment |
| Proofs.AndElimIsSound | src/core/proof.py:78-84 | AND-elimination yields an entailed conjunct |
| Proofs.OrElimIsSound | src/core/proof.py:93-106 | OR-elimination yields an entailed conclusion |
| Proofs.ProofByCases | src/core/proof.py:100-105 | what follows from each disjunct of an entailed disjunction is entailed |
| Proofs.ImpliesElimIsSound | src/core/proof.py:116-123 | IMPLIES-elimination (modus ponens) yields an entailed conclusion |
| Proofs.NotElimIsSound | src/core/proof.py:134-141 | a context proving a sentence and its negation entails falsity |
| Proofs.Discharged | src/core/proof.py:108-157 | discharging a hypothesis: a consequence of `g + [x]` yields an entailment from `g` |
| Proofs.ProvedInIsEntailed | src/core/proof.py:50-55 | a conclusion `proof_exists` finds in a sound log is entailed by the context asked about |
| Proofs.Weaken | src/core/proof.py:159-164 | an entailment survives growing its context |
| Proofs.ProvedInMonotone | src/core/proof.py:57-62 | what `proof_exists` finds stays found after the log grows |
| Proofs.AcceptanceSurvivesAppend | src/core/proof.py:64-167 | a step accepted over a log is still accepted after the log grows |
| Proofs.AxiomAcceptsHypotheses | src/core/proof.py:65-69 | every hypothesis of a context is accepted as an axiom under it |
| Proofs.AxiomAcceptsExactlyMembers | src/core/proof.py:65-69 | over plain sentences an axiom is accepted exactly when its conclusion is a hypothesis |
| Proofs.ExpandCitesProvedFacts | src/core/proof.py:159-164 | a proved conclusion may be restated under any larger context |
| Proofs.LoggedIsProved | src/core/proof.py:50-55 | every logged sequent is found by `proof_exists` |
| Proofs.ImpliesElimAcceptsModusPonens | src/core/proof.py:116-123 | with `p -> c` and `p` logged under `g`, `c` is accepted under `g` |
| Proofs.OrElimAcceptsProofByCases | src/core/proof.py:93-106 | with `l or r` logged under `g` and `c` logged under `g + [l]` and `g + [r]`, `c` is accepted under `g` |
| Proofs.AndIntroTypoRejectsValidStep | src/core/proof.py:71-76 | as written, AND-introduction raises even on a valid step that the corrected check accepts |
| Proofs.ImpliesIntroGuardIsUnsound | src/core/proof.py:108-114 | as written, IMPLIES-introduction raises on an atomic conclusion and accepts a non-entailed AND conclusion; the corrected check rejects it |
| Proofs.OneWayContextIsUnsound | src/core/sentence.py:235-246 | with one-directional context equality, NOT-introduction accepts `[A] proves not A`, which is not entailed; the corrected check rejects it |
| Proofs.TrueNamedAtomicIsUnsound | src/core/sentence.py:83-95 | an atomic named TRUE lets a non-entailed step through; this is why soundness assumes plain sentences |
| Fitch.FitchSubProof.constructor | src/core/fitch_style.py:11-31 | a new subproof records its outer proof, starts with no assumptions, unloaded, with no inner proofs and an empty fresh log |
| Fitch.FitchSubProof.AddAssumption | src/core/fitch_style.py:33-48 | an assumption is appended exactly when the subproof is not loaded yet |
| Fitch.FitchSubProof.LoadAssumptions | src/core/fitch_style.py:50-73 | the root's log grows by the axiom lines of every enclosing scope, in the program's order; this subproof and every enclosing one are marked loaded |
| Fitch.FitchSubProof.LogAxioms | src/core/fitch_style.py:63-67 | each hypothesis of the given context is logged as an axiom under that context |
| Fitch.FitchSubProof.AddConclusion | src/core/fitch_style.py:75-95 | after loading when needed, the root's log gains the conclusion under all enclosing assumptions plus the extra ones exactly when the check accepts it |
| Fitch.FitchSubProof.SequentStyle | src/core/fitch_style.py:97-107 | only the outermost proof yields its sequent log |
| Fitch.FitchSubProof.AddSubproof | src/core/fitch_style.py:109-119 | a fresh subproof of this one is appended to `inners`; it shares the root and the enclosing assumptions |
| Fitch.AllLoadedIsUpward | src/core/fitch_style.py:50-73 | once this scope and every enclosing one are loaded, every loaded scope's enclosing scopes are loaded |
| Fitch.AllLoadedBelowRoot | src/core/fitch_style.py:50-73 | loading a subproof marks every enclosing scope loaded |
| Fitch.LoadEntriesAreAxiomsInScope | src/core/fitch_style.py:58-71 | every line loading logs is an axiom under a context within the loaded scope, and every axiom of the whole scope is among them |
| Fitch.LoadingKeepsLogSound | src/core/fitch_style.py:58-71 | over assumptions with no atomic named TRUE/FALSE, the lines loading logs are all valid, so a sound log stays sound |
| Fitch.DeriveInSubproof | tests/test_fitch.py:44-46 | a subproof assuming `x` derives `c` from an enclosing `x -> c`; the line `gamma + [x] proves c` is logged and the root's axioms are loaded |
| Fitch.ConcludeByCases | tests/test_fitch.py:54 | with both cases logged, the root concludes `c` by OR-elimination |
| Fitch.OrElimAcrossSubproofs | tests/test_fitch.py:34-54 | the whole or-elimination proof through two subproofs is accepted at every step, for any sentences |
| Parser.InsertSpacesKeepsText | src/parsing/propositional_parser.py:6-11 | tokens are single parentheses or words without parentheses and white space, and they spell the input with white space removed |
| Parser.UnwordsRoundTrip | src/parsing/propositional_parser.py:6-11 | splitting well-formed tokens joined by spaces gives the tokens back |
| Parser.WrapTokens | src/parsing/propositional_parser.py:83-84 | tokenizing the wrapped input gives `(`, the input's tokens, `)` |
| Parser.BalancedParentheses | src/parsing/propositional_parser.py:49-70 | returns true exactly when no prefix closes more than it opens and the counts match |
| Parser.WrittenBalanced | src/parsing/propositional_parser.py:49-70 | the tokens of every fully parenthesised sentence are balanced |
| Parser.ParseAtomic | src/parsing/propositional_parser.py:13-31 | `\true`/`\false` give the constants, a name gives an atomic of that name; other backslash words are rejected; an empty token is an IndexError |
| Parser.OperatorTableRoundTrip | src/parsing/propositional_parser.py:117 | the operator table and its inverse agree |
| Parser.ReduceNotGroup | src/parsing/propositional_parser.py:110-115 | a four-item group `( \not x )` reduces to the negation of `x` |
| Parser.ReduceBinaryGroup | src/parsing/propositional_parser.py:116-126 | a five-item group `( l op r )` reduces to the binary sentence of `l` and `r` |
| Parser.PopGroupFindsOpen | src/parsing/propositional_parser.py:95-100 | with a `(` on the stack, popping stops at the nearest one and removes exactly one open parenthesis |
| Parser.ParseString | src/parsing/propositional_parser.py:72-135 | the stack machine computes `ParseSpec` |
| Parser.ParseNeverIndexError | src/parsing/propositional_parser.py:89-109 | once the balance check passes, the parser never pops an empty stack or reads the first character of an empty token |
| Parser.RunWritten | src/parsing/propositional_parser.py:89-130 | reading the tokens of a fully parenthesised sentence pushes exactly that sentence |
| Parser.ParseWritten | src/parsing/propositional_parser.py:72-135 | a fully parenthesised sentence written with spaces parses to its meaning |
| Parser.ParseRendered | src/parsing/propositional_parser.py:72-135 | every sentence without unusual names, rendered with the program's tokens, parses back to itself |
| Parser.BlankParsesToNothing | src/parsing/propositional_parser.py:132-135 | white space alone parses to `None` |
| Parser.ParsesConjunctionOfAtoms | tests/test_parser.py:6-7 | `(a) \and (b)` parses to the conjunction of the atomics, for any two names |
| Parser.ParsesConjunctionWithNegation | tests/test_parser.py:9-10 | `(\not a) \and (b)` parses to the conjunction of `not a` and `b`, for any two names |
| Parser.ParsesConjunctionTest | tests/test_parser.py:7 | `(A) \and (B)` parses to `A and B` |
| Parser.ParsesNegatedConjunctionTest | tests/test_parser.py:10 | `(\not A) \and (B)` parses to `(not A) and B` |
| ParserRejects.ParseSingleRejects | src/parsing/propositional_parser.py:13-47 | `parse_single` refuses an item exactly when it is an empty token or a backslash word other than `\true` and `\false` |
| ParserRejects.ReduceGroupRejects | src/parsing/propositional_parser.py:103-130 | a closed group is refused exactly when it has one inner item that `parse_single` refuses; two inner items not led by `\not`, or a refused operand after `\not`; three inner items whose middle one is a sentence or no operator, or with a refused operand; or any other number of items. Each case names its error: missing operand, ill-formed, type error, undefined operator, or needs parentheses with the group's size |
| ParserRejects.ParseFlat | src/parsing/propositional_parser.py:83-130 | input without parentheses is answered as the one group it forms once wrapped |
| ParserRejects.ParseNestedFlat | src/parsing/propositional_parser.py:83-130 | words inside one pair of parentheses are answered the same as the bare words |
| ParserRejects.IllFormedGroup | src/parsing/propositional_parser.py:110-112 | a group of two inner items not led by `\not` is ill-formed |
| ParserRejects.MissingOperandGroup | src/parsing/propositional_parser.py:105-107 | a group whose one inner item is an operator word is missing its operand |
| ParserRejects.UndefinedOperatorGroup | src/parsing/propositional_parser.py:116-121 | a group of three inner items whose middle token is no operator is refused, naming that token |
| ParserRejects.TooManyItems | src/parsing/propositional_parser.py:129-130 | a group of more than three inner items is refused, reporting its size |
| ParserRejects.TwoWordsIllFormed | src/parsing/propositional_parser.py:110-112 | any input that tokenizes to two words not led by `\not` is refused as ill-formed |
| ParserRejects.LoneOperatorRejected | src/parsing/propositional_parser.py:105-107 | any input that tokenizes to one backslash word other than the constants is refused for its missing operand |
| ParserRejects.ParenthesizedOperatorRejected | src/parsing/propositional_parser.py:105-107 | the same word alone inside parentheses is refused the same way |
| ParserRejects.UnknownOperatorRejected | src/parsing/propositional_parser.py:117-121 | any input that tokenizes to three words whose middle one is no operator is refused, naming that word, before either operand is read |
| ParserRejects.ParenthesizedUnknownOperatorRejected | src/parsing/propositional_parser.py:117-121 | the same three words inside parentheses are refused the same way |
| ParserRejects.ManyWordsRejected | src/parsing/propositional_parser.py:129-130 | any input that tokenizes to four or more words is refused for needing parentheses |
| ParserRejects.ParenthesizedManyWordsRejected | src/parsing/propositional_parser.py:129-130 | the same words inside one pair of parentheses are refused the same way |
| ParserRejects.UnpairedRejected | src/parsing/propositional_parser.py:86-87 | input whose parentheses do not cancel out is refused as unbalanced |
| ParserRejects.UnclosedTest | tests/test_parser_undefined_behavior.py:12 | `((A` is refused as unbalanced |
| ParserRejects.UnopenedTest | tests/test_parser_undefined_behavior.py:18 | `A))` is refused as unbalanced |
| ParserRejects.NestedEmptyTest | tests/test_parser_undefined_behavior.py:24-25 | `(())` parses to `None` |
| ParserRejects.MissingSecondOperandTest | tests/test_parser_undefined_behavior.py:30 | `A \and` is refused as ill-formed |
| ParserRejects.MissingFirstOperandTest | tests/test_parser_undefined_behavior.py:33 | `\and B` is refused as ill-formed |
| ParserRejects.UnknownXorTest | tests/test_parser_undefined_behavior.py:38 | `A \xor B` is refused, naming `\xor` as undefined |
| ParserRejects.UnknownNandTest | tests/test_parser_undefined_behavior.py:41 | `A \nand B` is refused, naming `\nand` as undefined |
| ParserRejects.LoneNegationTest | tests/test_parser_undefined_behavior.py:46 | `\not` is refused for its missing operand |
| ParserRejects.EmptyNegationTest | tests/test_parser_undefined_behavior.py:49 | `(\not)` is refused for its missing operand |
| ParserRejects.ThreeAtomsTest | tests/test_parser_undefined_behavior.py:55 | `(A B C)` is refused, naming `B` as an undefined operator |
| ParserRejects.FourWordsTest | tests/test_parser_undefined_behavior.py:58 | `(A \and B C)` is refused as a group of six items that needs parentheses |
| ParserRejects.LoneCloseTest | tests/test_parser_undefined_behavior.py:98 | `)` is refused as unbalanced |
| ParserRejects.ClosesBeforeOpenTest | tests/test_parser_undefined_behavior.py:101 | `))(` is refused as unbalanced |
| Parser.StrayParensYieldRawToken | src/parsing/propositional_parser.py:83-87 | as written, `) b (` passes the balance check and returns the raw string `b` |
| Parser.ParseStringChecked | src/parsing/propositional_parser.py:83-87 | the corrected parser checks the balance of the input itself before wrapping it |
| Parser.ParseCheckedYieldsSentence | src/parsing/propositional_parser.py:132-135 | with the corrected check, a successful parse is a sentence or nothing, never a raw token |
| Parser.CheckedRejectsStrayParens | src/parsing/propositional_parser.py:86-87 | the corrected check rejects `) b (` as unbalanced |
| Parser.CheckedParsesWritten | src/parsing/propositional_parser.py:72-135 | the correction changes nothing for fully parenthesised sentences |

## Left out

- `__str__` of every class, `Sequent.__str__`, `Proof.__str__` and the `NOT` member of `Operator` are left out. They only produce display text, and `NOT` is only used there.
- The web front end (`src/web/app.py`), the error-class module and the older top-level copies of the modules are not part of this model.
- The `ValueError` for an unsupported rule (`src/core/proof.py:166-167`) cannot be reached: `InferenceRule` is a closed enumeration here.
- A `TwoSided` whose operator is `NOT` cannot be built: `evaluate` would raise `NotImplementedError` for it, and nothing in the core builds one.
- Gamma is a value sequence, so its `MutableSequence` plumbing is left out:
  - item access, item update, deletion, `insert`, `len`;
  - `deepcopy` in `+`;
  - the `__init__` argument forms;
  - `__init__` with one argument that is neither a sentence nor a list, which leaves `_items` unset;
  - `+` with an operand that is neither a list nor a Gamma.
  Every caller in the core passes lists or Gammas.
- Aliasing of Gamma objects is left out. The only Gamma stored by reference in a log is the root's own, and it can no longer change once loaded.
- `evaluate` on an assignment mapping a name to a non-boolean is left out; assignments map names to booleans.
- Exception messages are left out; each exception is a distinct error value.
- `re.split` is modelled by a scanner over characters. White space is Python's `\s` for `str`, written out as the characters `IsSpace` lists.
- Fitch.FitchSubProof.AddConclusion, Fitch.FitchSubProof.LoadAssumptions, Fitch.FitchSubProof.AddAssumption, Fitch.FitchSubProof.AddSubproof and Proofs.Proof.AddSequent change state. Their contracts use `old`/`fresh`, and they are proved against the predicates above.
- Proofs.AcceptedIsEntailed: soundness is stated for sentences with no atomic named `TRUE` or `FALSE`. `Proofs.TrueNamedAtomicIsUnsound` shows that the program's equality is unsound without that restriction.
- Contexts given as plain Python lists, as some of the program's tests build them (`tests/test_proofs.py:9`, `tests/test_proofs.py:16-25`), are left out. On lists `==` depends on order and duplicates, and `expand` would raise `AttributeError` because a list has no `is_subset_of`. Every context here is a Gamma, as the annotation of `Sequent.gamma` (`src/core/proof.py:23`) states.
- Parser.ParseRendered: the round trip is stated for names that are words not starting with a backslash. Other names are not atomics the parser can produce.

## Findings

| source | as written | input that shows it | evidently intended | confidence | as-written member | corrected member |
|---|---|---|---|---|---|---|
| src/core/proof.py:72 | the AND-introduction branch reads `potential.conlcusion`, which raises `AttributeError` for every candidate | `[A, B] proves A and B` by AND-introduction, with `[A, B] proves A` and `[A, B] proves B` logged | read `potential.conclusion` | high; not executed | Proofs.AndIntroTypoRejectsValidStep | Proofs.Proof.CheckSequent |
| src/core/proof.py:109 | the IMPLIES-introduction guard joins its tests with `and`: it raises on a non-`TwoSided` conclusion and lets any `TwoSided` through | `[] proves A and A` by IMPLIES-introduction, with `[A] proves A` logged | reject unless the conclusion is a `TwoSided` with `IMPLIES` (`or`) | high; not executed | Proofs.ImpliesIntroGuardIsUnsound | Proofs.AcceptedIsEntailed |
| src/core/sentence.py:235-246 | `Gamma.__eq__` checks equal length and membership one way only, so `[A, A] == [A, false]` holds | `[A, false] proves false` as an axiom, then `[A] proves not A` by NOT-introduction | membership checked both ways | high; not executed | Proofs.OneWayContextIsUnsound | Gammas.SameContextCheck |
| src/parsing/propositional_parser.py:83-87 | the balance check runs on the wrapped input, so a leading `)` closes the wrapping `(` | `) b (` returns the string `b`, not a sentence | check the input's own balance | medium; not executed | Parser.StrayParensYieldRawToken | Parser.ParseCheckedYieldsSentence |
