/*
 * What the propositional parser refuses, and with which error: a closed
 * group of the wrong shape (src/parsing/propositional_parser.py:103-130),
 * and input whose parentheses do not pair up (lines 86-87). Runs without
 * parentheses, or with one pair around words, are reduced to the single group
 * they form; the inputs the program's tests reject follow from that.
 */
module ParserRejects {
  import opened Wrappers
  import opened Sentences
  import opened Parser

  /** An operand `parse_single` refuses: an empty token, or a backslash word other than the two constants. */
  predicate BadOperand(x: Item) {
    x.Tok? && (|x.t| == 0 || (x.t[0] == '\\' && x.t != "\\true" && x.t != "\\false"))
  }

  lemma ParseSingleRejects(x: Item)
    ensures ParseSingle(x).Err? <==> BadOperand(x)
  {
  }

  /**
   * Exactly when a closed group is refused, and with which error: a single
   * inner item that is a lone operator, two inner items not led by `\not`,
   * three inner items whose middle one is not an operator, any other number
   * of inner items, or an operand `parse_single` refuses.
   */
  lemma ReduceGroupRejects(ns: seq<Item>)
    ensures ReduceGroup(ns).Err? <==>
      (|ns| == 3 && BadOperand(ns[1])) ||
      (|ns| == 4 && (ns[1] != Tok("\\not") || BadOperand(ns[2]))) ||
      (|ns| == 5 && (ns[2].Sen? || OperatorOf(ns[2].t).None? || BadOperand(ns[1]) || BadOperand(ns[3]))) ||
      |ns| < 2 || |ns| > 5
    ensures |ns| == 3 && BadOperand(ns[1]) && |ns[1].t| > 0 ==> ReduceGroup(ns) == Err(MissingOperand)
    ensures |ns| == 4 && ns[1] != Tok("\\not") ==> ReduceGroup(ns) == Err(IllFormed)
    ensures |ns| == 5 && ns[2].Sen? ==> ReduceGroup(ns) == Err(TypeError)
    ensures |ns| == 5 && ns[2].Tok? && OperatorOf(ns[2].t).None? ==> ReduceGroup(ns) == Err(UndefinedOperator(ns[2].t))
    ensures |ns| < 2 || |ns| > 5 ==> ReduceGroup(ns) == Err(NeedsParentheses(|ns|))
  {
    if |ns| == 3 {
      ParseSingleRejects(ns[1]);
    } else if |ns| == 4 {
      ParseSingleRejects(ns[2]);
    } else if |ns| == 5 {
      ParseSingleRejects(ns[1]);
      ParseSingleRejects(ns[3]);
    }
  }

  /** A text without parentheses is one group of words. */
  predicate Flat(w: seq<string>) {
    forall i :: 0 <= i < |w| ==> w[i] != "(" && w[i] != ")"
  }

  function Toks(w: seq<string>): (r: seq<Item>)
    ensures |r| == |w|
  {
    if w == [] then [] else [Tok(w[0])] + Toks(w[1..])
  }

  /** The stack after a group that folds to `r` is closed on top of `stack`. */
  function GroupOnto(stack: seq<Item>, r: Result<Option<Sentence>, ParseFailure>): Result<seq<Item>, ParseFailure> {
    if r.Err? then Err(r.error)
    else if r.value.None? then Ok(stack)
    else Ok(stack + [Sen(r.value.value)])
  }

  lemma {:induction false} FlatToks(w: seq<string>)
    requires Flat(w)
    ensures Tok("(") !in Toks(w)
    decreases |w|
  {
    if w != [] {
      assert Flat(w[1..]) by {
        forall i | 0 <= i < |w[1..]| ensures w[1..][i] != "(" && w[1..][i] != ")" {
          assert w[1..][i] == w[i + 1];
        }
      }
      FlatToks(w[1..]);
    }
  }

  /** What the parser answers for a single group of items. */
  function GroupAnswer(ns: seq<Item>): Result<Option<Item>, ParseFailure> {
    var r := ReduceGroup(ns);
    if r.Err? then Err(r.error)
    else if r.value.None? then Ok(None)
    else Ok(Some(Sen(r.value.value)))
  }

  /** Words are pushed one by one. */
  lemma {:induction false} RunFlat(w: seq<string>, stack: seq<Item>)
    requires Flat(w)
    ensures Run(w, stack) == Ok(stack + Toks(w))
    decreases |w|
  {
    if w == [] {
      assert stack + Toks(w) == stack;
    } else {
      RunFlatStep(w, stack);
    }
  }

  /** A word other than `)` is pushed and the run goes on. */
  lemma RunWord(w: seq<string>, stack: seq<Item>)
    requires w != [] && w[0] != ")"
    ensures Run(w, stack) == Run(w[1..], stack + [Tok(w[0])])
  {
    assert Step(stack, w[0]) == Ok(stack + [Tok(w[0])]);
  }

  lemma RunFlatStep(w: seq<string>, stack: seq<Item>)
    requires Flat(w) && w != []
    ensures Run(w, stack) == Ok(stack + Toks(w))
    decreases |w|, 0
  {
    var next := stack + [Tok(w[0])];
    assert Flat(w[1..]) by {
      forall i | 0 <= i < |w[1..]| ensures w[1..][i] != "(" && w[1..][i] != ")" {
        assert w[1..][i] == w[i + 1];
      }
    }
    RunFlat(w[1..], next);
    RunWord(w, stack);
    assert Toks(w) == [Tok(w[0])] + Toks(w[1..]);
    assert next + Toks(w[1..]) == stack + Toks(w);
  }

  lemma {:induction false} FlatDepth(w: seq<string>)
    requires Flat(w)
    ensures Depth(w) == 0
    decreases |w|
  {
    if w != [] {
      FlatDepth(w[..|w| - 1]);
    }
  }

  lemma FlatBalanced(w: seq<string>)
    requires Flat(w)
    ensures Balanced(w)
  {
    FlatDepth(w);
    forall k | 0 <= k <= |w| ensures Depth(w[..k]) >= 0 {
      FlatDepth(w[..k]);
    }
  }

  /** A flat group on top of `stack`, closed by its `)`. */
  lemma RunFlatGroup(w: seq<string>, stack: seq<Item>)
    requires Flat(w)
    ensures Run(["("] + w + [")"], stack) == GroupOnto(stack, ReduceGroup([Tok("(")] + Toks(w) + [Tok(")")]))
  {
    RunPush("(", stack);
    RunFlat(w, stack + [Tok("(")]);
    RunAppendOk(["("], w, stack, stack + [Tok("(")], stack + [Tok("(")] + Toks(w));
    RunAppend(["("] + w, [")"], stack);
    RunClosing(stack + [Tok("(")] + Toks(w));
    FlatToks(w);
    CloseGroup(stack, Toks(w));
  }

  /** Input without parentheses is one group: the parser answers what that group folds to. */
  lemma ParseFlat(s: string, w: seq<string>)
    requires InsertSpaces(s) == w && Flat(w)
    ensures ParseSpec(s) == GroupAnswer([Tok("(")] + Toks(w) + [Tok(")")])
  {
    WrapTokens(s);
    FlatBalanced(w);
    BalancedWrap(w);
    RunFlatGroup(w, []);
  }

  /** Closing the outer pair around nothing leaves nothing. */
  lemma CloseAroundNothing()
    ensures Run([")"], [Tok("(")]) == Ok([])
  {
    RunClosing([Tok("(")]);
    CloseGroup([], []);
    assert [] + [Tok("(")] + [] == [Tok("(")];
    assert [Tok("(")] + [] + [Tok(")")] == [Tok("("), Tok(")")];
  }

  /** Closing the outer pair around one sentence leaves that sentence. */
  lemma CloseAroundSentence(x: Sentence)
    ensures Run([")"], [Tok("("), Sen(x)]) == Ok([Sen(x)])
  {
    RunClosing([Tok("("), Sen(x)]);
    CloseGroup([], [Sen(x)]);
    assert [] + [Tok("(")] + [Sen(x)] == [Tok("("), Sen(x)];
    assert [Tok("(")] + [Sen(x)] + [Tok(")")] == [Tok("("), Sen(x), Tok(")")];
    assert ReduceGroup([Tok("("), Sen(x), Tok(")")]) == Ok(Some(x));
    assert [] + [Sen(x)] == [Sen(x)];
  }

  /** A flat group inside one more pair folds as if the pair were not there. */
  lemma RunNestedFlat(w: seq<string>)
    requires Flat(w)
    ensures Run(["("] + (["("] + w + [")"]) + [")"], []) == GroupOnto([], ReduceGroup([Tok("(")] + Toks(w) + [Tok(")")]))
  {
    var inner := ["("] + w + [")"];
    var r := ReduceGroup([Tok("(")] + Toks(w) + [Tok(")")]);
    RunPush("(", []);
    assert [] + [Tok("(")] == [Tok("(")];
    RunFlatGroup(w, [Tok("(")]);
    RunAppend(["("], inner, []);
    RunAppend(["("] + inner, [")"], []);
    if r.Err? {
      assert Run(["("] + inner, []) == Err(r.error);
    } else if r.value.None? {
      assert Run(["("] + inner, []) == Ok([Tok("(")]);
      CloseAroundNothing();
    } else {
      var x := r.value.value;
      assert [Tok("(")] + [Sen(x)] == [Tok("("), Sen(x)];
      assert Run(["("] + inner, []) == Ok([Tok("("), Sen(x)]);
      CloseAroundSentence(x);
      assert [] + [Sen(x)] == [Sen(x)];
    }
  }

  /** One redundant pair of parentheses around a group of words changes nothing. */
  lemma ParseNestedFlat(s: string, w: seq<string>)
    requires InsertSpaces(s) == ["("] + w + [")"] && Flat(w)
    ensures ParseSpec(s) == GroupAnswer([Tok("(")] + Toks(w) + [Tok(")")])
  {
    WrapTokens(s);
    FlatBalanced(w);
    BalancedWrap(w);
    BalancedWrap(["("] + w + [")"]);
    RunNestedFlat(w);
  }

  /** Words written with single spaces between them read back as those words. */
  lemma WordsAreFlat(ws: seq<string>)
    requires forall i :: 0 <= i < |ws| ==> IsWord(ws[i])
    ensures InsertSpaces(Unwords(ws)) == ws && Flat(ws)
  {
    forall i | 0 <= i < |ws| ensures ws[i] != "(" && ws[i] != ")" {
      assert !IsParen(ws[i][0]);
      assert IsParen("("[0]) && IsParen(")"[0]);
    }
    forall t | t in ws ensures WellFormedToken(t) {
      var i :| 0 <= i < |ws| && ws[i] == t;
    }
    UnwordsRoundTrip(ws);
  }

  lemma SpacedPair(a: string, b: string)
    ensures Unwords([a, b]) == a + " " + b
  {
    assert [a, b][1..] == [b];
  }

  lemma SpacedTriple(a: string, b: string, c: string)
    ensures Unwords([a, b, c]) == a + " " + b + " " + c
  {
    assert [a, b, c][1..] == [b, c];
    SpacedPair(b, c);
  }

  lemma ToksTriple(a: string, b: string, c: string)
    ensures Toks([a, b, c]) == [Tok(a), Tok(b), Tok(c)]
  {
    assert [a, b, c][1..] == [b, c] && [b, c][1..] == [c];
    assert Toks([c]) == [Tok(c)];
    assert Toks([b, c]) == [Tok(b), Tok(c)];
  }

  // Each way a single group of words can be refused. Lemmas name the tokens
  // rather than one spelling of the input, so any white space between the
  // words is covered.

  lemma IllFormedGroup(ns: seq<Item>)
    requires |ns| == 4 && ns[1] != Tok("\\not")
    ensures GroupAnswer(ns) == Err(IllFormed)
  {
    ReduceGroupRejects(ns);
  }

  lemma MissingOperandGroup(ns: seq<Item>)
    requires |ns| == 3 && BadOperand(ns[1]) && ns[1].t != []
    ensures GroupAnswer(ns) == Err(MissingOperand)
  {
    ReduceGroupRejects(ns);
  }

  lemma UndefinedOperatorGroup(ns: seq<Item>)
    requires |ns| == 5 && ns[2].Tok? && OperatorOf(ns[2].t).None?
    ensures GroupAnswer(ns) == Err(UndefinedOperator(ns[2].t))
  {
    ReduceGroupRejects(ns);
  }

  /** More than three inner items: the group is refused by its size alone. */
  lemma TooManyItems(ns: seq<Item>)
    requires |ns| > 5
    ensures GroupAnswer(ns) == Err(NeedsParentheses(|ns|))
  {
    ReduceGroupRejects(ns);
  }

  /** Two words not led by `\\not` are ill-formed, whichever is missing its partner. */
  lemma TwoWordsIllFormed(s: string, a: string, b: string)
    requires InsertSpaces(s) == [a, b] && IsWord(a) && IsWord(b) && a != "\\not"
    ensures ParseSpec(s) == Err(IllFormed)
  {
    WordsAreFlat([a, b]);
    assert Toks([a, b]) == [Tok(a), Tok(b)];
    assert [Tok("(")] + Toks([a, b]) + [Tok(")")] == [Tok("("), Tok(a), Tok(b), Tok(")")];
    IllFormedGroup([Tok("("), Tok(a), Tok(b), Tok(")")]);
    ParseFlat(s, [a, b]);
  }

  /** An operator with no operand at all. */
  lemma LoneOperatorRejected(s: string, op: string)
    requires InsertSpaces(s) == [op] && IsWord(op) && op[0] == '\\' && op != "\\true" && op != "\\false"
    ensures ParseSpec(s) == Err(MissingOperand)
  {
    WordsAreFlat([op]);
    assert Toks([op]) == [Tok(op)];
    assert [Tok("(")] + Toks([op]) + [Tok(")")] == [Tok("("), Tok(op), Tok(")")];
    MissingOperandGroup([Tok("("), Tok(op), Tok(")")]);
    ParseFlat(s, [op]);
  }

  /** An operator alone in its own parentheses. */
  lemma ParenthesizedOperatorRejected(s: string, op: string)
    requires InsertSpaces(s) == ["(", op, ")"] && IsWord(op) && op[0] == '\\' && op != "\\true" && op != "\\false"
    ensures ParseSpec(s) == Err(MissingOperand)
  {
    WordsAreFlat([op]);
    assert Toks([op]) == [Tok(op)];
    assert [Tok("(")] + Toks([op]) + [Tok(")")] == [Tok("("), Tok(op), Tok(")")];
    MissingOperandGroup([Tok("("), Tok(op), Tok(")")]);
    assert ["(", op, ")"] == ["("] + [op] + [")"];
    ParseNestedFlat(s, [op]);
  }

  /** Three words whose middle one names no operator: the lookup fails before either operand is read. */
  lemma UnknownOperatorRejected(s: string, a: string, op: string, b: string)
    requires InsertSpaces(s) == [a, op, b] && IsWord(a) && IsWord(op) && IsWord(b) && OperatorOf(op).None?
    ensures ParseSpec(s) == Err(UndefinedOperator(op))
  {
    WordsAreFlat([a, op, b]);
    ToksTriple(a, op, b);
    assert [Tok("(")] + Toks([a, op, b]) + [Tok(")")] == [Tok("("), Tok(a), Tok(op), Tok(b), Tok(")")];
    UndefinedOperatorGroup([Tok("("), Tok(a), Tok(op), Tok(b), Tok(")")]);
    ParseFlat(s, [a, op, b]);
  }

  /** The same three words inside one pair of parentheses. */
  lemma ParenthesizedUnknownOperatorRejected(s: string, a: string, op: string, b: string)
    requires InsertSpaces(s) == ["(", a, op, b, ")"] && IsWord(a) && IsWord(op) && IsWord(b) && OperatorOf(op).None?
    ensures ParseSpec(s) == Err(UndefinedOperator(op))
  {
    WordsAreFlat([a, op, b]);
    ToksTriple(a, op, b);
    assert [Tok("(")] + Toks([a, op, b]) + [Tok(")")] == [Tok("("), Tok(a), Tok(op), Tok(b), Tok(")")];
    UndefinedOperatorGroup([Tok("("), Tok(a), Tok(op), Tok(b), Tok(")")]);
    assert ["(", a, op, b, ")"] == ["("] + [a, op, b] + [")"];
    ParseNestedFlat(s, [a, op, b]);
  }

  /** Four or more words in one group need inner parentheses. */
  lemma ManyWordsRejected(s: string, ws: seq<string>)
    requires InsertSpaces(s) == ws && |ws| >= 4 && forall i :: 0 <= i < |ws| ==> IsWord(ws[i])
    ensures ParseSpec(s) == Err(NeedsParentheses(|ws| + 2))
  {
    var ns := [Tok("(")] + Toks(ws) + [Tok(")")];
    assert |ns| == |ws| + 2;
    TooManyItems(ns);
    WordsAreFlat(ws);
    ParseFlat(s, ws);
  }

  /** The same words inside one pair of parentheses. */
  lemma ParenthesizedManyWordsRejected(s: string, ws: seq<string>)
    requires InsertSpaces(s) == ["("] + ws + [")"] && |ws| >= 4 && forall i :: 0 <= i < |ws| ==> IsWord(ws[i])
    ensures ParseSpec(s) == Err(NeedsParentheses(|ws| + 2))
  {
    var ns := [Tok("(")] + Toks(ws) + [Tok(")")];
    assert |ns| == |ws| + 2;
    TooManyItems(ns);
    WordsAreFlat(ws);
    ParseNestedFlat(s, ws);
  }

  /** Input whose parentheses do not cancel out is refused before any group is read. */
  lemma UnpairedRejected(s: string)
    requires Depth(InsertSpaces(s)) != 0
    ensures ParseSpec(s) == Err(Unbalanced)
  {
    var t := InsertSpaces(s);
    WrapTokens(s);
    assert ["("][..0] == [] && Depth(["("]) == 1;
    assert [")"][..0] == [] && Depth([")"]) == -1;
    DepthAppend(["("], t);
    DepthAppend(["("] + t, [")"]);
  }

  lemma MissingSecondOperandTest(s: string)
    requires s == "A \\and"
    ensures ParseSpec(s) == Err(IllFormed)
  {
    var a, op := "A", "\\and";
    SpacedPair(a, op);
    assert s == a + " " + op;
    WordsAreFlat([a, op]);
    TwoWordsIllFormed(s, a, op);
  }

  lemma MissingFirstOperandTest(s: string)
    requires s == "\\and B"
    ensures ParseSpec(s) == Err(IllFormed)
  {
    var op, b := "\\and", "B";
    SpacedPair(op, b);
    assert s == op + " " + b;
    WordsAreFlat([op, b]);
    TwoWordsIllFormed(s, op, b);
  }

  lemma UnknownXorTest(s: string)
    requires s == "A \\xor B"
    ensures ParseSpec(s) == Err(UndefinedOperator("\\xor"))
  {
    var a, op, b := "A", "\\xor", "B";
    SpacedTriple(a, op, b);
    assert s == a + " " + op + " " + b;
    WordsAreFlat([a, op, b]);
    UnknownOperatorRejected(s, a, op, b);
  }

  lemma UnknownNandTest(s: string)
    requires s == "A \\nand B"
    ensures ParseSpec(s) == Err(UndefinedOperator("\\nand"))
  {
    var a, op, b := "A", "\\nand", "B";
    SpacedTriple(a, op, b);
    assert s == a + " " + op + " " + b;
    WordsAreFlat([a, op, b]);
    UnknownOperatorRejected(s, a, op, b);
  }

  lemma ThreeAtomsTest(s: string)
    requires s == "(A B C)"
    ensures ParseSpec(s) == Err(UndefinedOperator("B"))
  {
    var a, b, c := "A", "B", "C";
    SpacedTriple(a, b, c);
    WordsAreFlat([a, b, c]);
    assert s == "(" + Unwords([a, b, c]) + ")";
    WrapTokens(Unwords([a, b, c]));
    ParenthesizedUnknownOperatorRejected(s, a, b, c);
  }

  lemma LoneNegationTest(s: string)
    requires s == "\\not"
    ensures ParseSpec(s) == Err(MissingOperand)
  {
    SingleToken(s);
    LoneOperatorRejected(s, s);
  }

  lemma EmptyNegationTest(s: string)
    requires s == "(\\not)"
    ensures ParseSpec(s) == Err(MissingOperand)
  {
    var op := "\\not";
    assert s == "(" + op + ")";
    SingleToken(op);
    WrapTokens(op);
    ParenthesizedOperatorRejected(s, op);
  }

  lemma FourWordsTest(s: string)
    requires s == "(A \\and B C)"
    ensures ParseSpec(s) == Err(NeedsParentheses(6))
  {
    var a, op, b, c := "A", "\\and", "B", "C";
    var ws := [a, op, b, c];
    assert ws[1..] == [op, b, c];
    SpacedTriple(op, b, c);
    assert Unwords(ws) == a + " " + (op + " " + b + " " + c);
    WordsAreFlat(ws);
    assert s == "(" + Unwords(ws) + ")";
    WrapTokens(Unwords(ws));
    ParenthesizedManyWordsRejected(s, ws);
  }

  lemma LoneCloseTest(s: string)
    requires s == ")"
    ensures ParseSpec(s) == Err(Unbalanced)
  {
    SingleToken(s);
    assert [s][..0] == [];
    assert Depth([s]) == -1;
    UnpairedRejected(s);
  }

  lemma ClosesBeforeOpenTest(s: string)
    requires s == "))("
    ensures ParseSpec(s) == Err(Unbalanced)
  {
    var o, c := "(", ")";
    assert s == c + (c + o);
    SingleToken(o);
    TokensLead(c, o);
    TokensLead(c, c + o);
    var t := [c, c, o];
    assert InsertSpaces(s) == t;
    assert Depth(t) == -1 by {
      assert [c][..0] == [] && Depth([c]) == -1;
      assert [c, c][..1] == [c] && Depth([c, c]) == -2;
      assert t[..2] == [c, c];
    }
    UnpairedRejected(s);
  }

  lemma UnclosedTest(s: string)
    requires s == "((A"
    ensures ParseSpec(s) == Err(Unbalanced)
  {
    var o, a := "(", "A";
    assert s == o + (o + a);
    assert IsWord(a);
    SingleToken(a);
    TokensLead(o, a);
    TokensLead(o, o + a);
    var rising := [o, o, a];
    assert InsertSpaces(s) == rising;
    assert Depth(rising) == 2 by {
      assert [o][..0] == [] && Depth([o]) == 1;
      assert [o, o][..1] == [o] && Depth([o, o]) == 2;
      assert rising[..2] == [o, o];
    }
    UnpairedRejected(s);
  }

  lemma UnopenedTest(s: string)
    requires s == "A))"
    ensures ParseSpec(s) == Err(Unbalanced)
  {
    var c, a := ")", "A";
    assert s == a + (c + c);
    assert IsWord(a);
    SingleToken(c);
    TokensLead(c, c);
    TokensLead(a, c + c);
    var falling := [a, c, c];
    assert InsertSpaces(s) == falling;
    assert Depth(falling) == -2 by {
      assert [a][..0] == [] && Depth([a]) == 0;
      assert [a, c][..1] == [a] && Depth([a, c]) == -1;
      assert falling[..2] == [a, c];
    }
    UnpairedRejected(s);
  }

  /** Nested empty parentheses vanish group by group, leaving nothing. */
  lemma NestedEmptyTest(s: string)
    requires s == "(())"
    ensures ParseSpec(s) == Ok(None)
  {
    NestedEmptyTokens(s);
    NestedEmptyRun();
  }

  lemma NestedEmptyTokens(s: string)
    requires s == "(())"
    ensures InsertSpaces("(" + s + ")") == ["(", "(", "(", ")", ")", ")"]
    ensures Balanced(["(", "(", "(", ")", ")", ")"])
  {
    var o, c := "(", ")";
    var empty := o + c;
    assert s == o + empty + c;
    SingleToken(c);
    TokensLead(o, c);
    var inner := [o, c];
    assert InsertSpaces(empty) == inner;
    WrapTokens(empty);
    assert InsertSpaces(s) == [o] + inner + [c];
    WrapTokens(s);
    assert [o] + ([o] + inner + [c]) + [c] == ["(", "(", "(", ")", ")", ")"];
    NestedEmptyBalanced();
  }

  lemma NestedEmptyBalanced()
    ensures Balanced(["(", "(", "(", ")", ")", ")"])
  {
    var o, c := "(", ")";
    var inner := [o, c];
    BalancedWrap([]);
    assert [o] + [] + [c] == inner;
    BalancedWrap(inner);
    BalancedWrap([o] + inner + [c]);
    assert [o] + ([o] + inner + [c]) + [c] == ["(", "(", "(", ")", ")", ")"];
  }

  lemma NestedEmptyRun()
    ensures Run(["(", "(", "(", ")", ")", ")"], []) == Ok([])
  {
    var o, c := "(", ")";
    var one := [Tok(o)];
    InnerEmptyRun();
    RunPush(o, []);
    assert [] + [Tok(o)] == one;
    RunAppendOk([o], [o, o, c, c], [], one, one);
    CloseAroundNothing();
    RunAppendOk([o] + [o, o, c, c], [c], [], one, []);
    assert [o] + [o, o, c, c] + [c] == ["(", "(", "(", ")", ")", ")"];
  }

  /** The inner `(())` on top of one open parenthesis leaves that parenthesis. */
  lemma InnerEmptyRun()
    ensures Run(["(", "(", ")", ")"], [Tok("(")]) == Ok([Tok("(")])
  {
    var o, c := "(", ")";
    var one, two := [Tok(o)], [Tok(o), Tok(o)];
    RunPush(o, one);
    assert one + [Tok(o)] == two;
    RunEmptyGroup(two);
    RunAppendOk([o], [o, c], one, two, two);
    RunClosing(two);
    CloseGroup(one, []);
    assert one + [Tok(o)] + [] == two;
    assert [Tok(o)] + [] + [Tok(c)] == [Tok(o), Tok(c)];
    RunAppendOk([o] + [o, c], [c], one, two, one);
    assert [o] + [o, c] + [c] == ["(", "(", ")", ")"];
  }
}
