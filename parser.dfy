/*
 * The propositional parser: a string such as `(\not A) \and (B)` is split
 * into tokens, its parentheses are checked for balance, and a stack machine
 * folds every closed parenthesised group into a sentence.
 */
module Parser {
  import opened Wrappers
  import opened Sentences

  /** An entry of the parser's stack: a raw token, or a sentence built from a closed group. */
  datatype Item = Tok(t: string) | Sen(s: Sentence)

  /** Why parsing stops: the parser's own `ParseError` messages, and the two Python errors it lets escape. */
  datatype ParseFailure =
    | Unbalanced                      // opening and closing parentheses do not pair up
    | BackslashAtomic                 // an atomic symbol starting with a backslash
    | MissingOperand                  // one inner item that is a lone operator
    | IllFormed                       // two inner items not led by `\not`
    | UndefinedOperator(op: string)   // three inner items whose middle one is not an operator
    | NeedsParentheses(size: nat)     // four or more inner items; `size` counts the parentheses too
    | IndexError                      // indexing an empty token, or popping an empty stack
    | TypeError                       // a sentence used as a key of the operator table

  // ---------------------------------------------------------------------------
  // Tokens
  // ---------------------------------------------------------------------------

  /** The characters that `\s` matches in a Python `str` pattern. */
  predicate IsSpace(c: char) {
    c == ' ' || ('\t' <= c <= '\r') || ('\U{1c}' <= c <= '\U{1f}') || c == '\U{85}' || c == '\U{a0}'
    || c == '\U{1680}' || ('\U{2000}' <= c <= '\U{200a}') || c == '\U{2028}' || c == '\U{2029}'
    || c == '\U{202f}' || c == '\U{205f}' || c == '\U{3000}'
  }

  predicate IsParen(c: char) { c == '(' || c == ')' }

  /** A word: a non-empty run of characters that are neither parentheses nor white space. */
  predicate IsWord(t: string) {
    |t| > 0 && forall i :: 0 <= i < |t| ==> !IsParen(t[i]) && !IsSpace(t[i])
  }

  /** What the tokenizer can produce: a parenthesis on its own, or a word. */
  predicate WellFormedToken(t: string) {
    t == "(" || t == ")" || IsWord(t)
  }

  function Flush(word: string): seq<string> {
    if word == [] then [] else [word]
  }

  /** Scans `s` left to right while `word` collects the characters of the word being read. */
  function Tokens(s: string, word: string): seq<string>
    decreases |s|
  {
    if s == [] then Flush(word)
    else if IsParen(s[0]) then Flush(word) + [[s[0]]] + Tokens(s[1..], [])
    else if IsSpace(s[0]) then Flush(word) + Tokens(s[1..], [])
    else Tokens(s[1..], word + [s[0]])
  }

  /** Splits at parentheses and runs of white space, keeping the parentheses and dropping the white space. */
  function InsertSpaces(s: string): seq<string> {
    Tokens(s, [])
  }

  function Concat(toks: seq<string>): string {
    if toks == [] then [] else toks[0] + Concat(toks[1..])
  }

  function RemoveSpaces(s: string): string {
    if s == [] then [] else (if IsSpace(s[0]) then [] else [s[0]]) + RemoveSpaces(s[1..])
  }

  /** Tokens joined by single spaces. */
  function Unwords(toks: seq<string>): string {
    if toks == [] then []
    else if |toks| == 1 then toks[0]
    else toks[0] + " " + Unwords(toks[1..])
  }

  lemma {:induction false} ConcatAppend(a: seq<string>, b: seq<string>)
    ensures Concat(a + b) == Concat(a) + Concat(b)
    decreases |a|
  {
    if a == [] {
      assert a + b == b;
    } else {
      assert (a + b)[0] == a[0];
      assert (a + b)[1..] == a[1..] + b;
      ConcatAppend(a[1..], b);
    }
  }

  lemma ConcatFlush(word: string, c: char)
    ensures Concat(Flush(word)) == word
    ensures Concat([[c]]) == [c]
  {
    assert [[c]][1..] == [];
    if word != [] {
      assert [word][1..] == [];
    }
  }

  lemma {:induction false} TokensWellFormed(s: string, word: string)
    requires word == [] || IsWord(word)
    ensures forall t :: t in Tokens(s, word) ==> WellFormedToken(t)
    decreases |s|
  {
    if s == [] {
    } else if IsParen(s[0]) {
      TokensWellFormed(s[1..], []);
    } else if IsSpace(s[0]) {
      TokensWellFormed(s[1..], []);
    } else {
      TokensWellFormed(s[1..], word + [s[0]]);
    }
  }

  lemma ConcatFlushThen(word: string, rest: seq<string>)
    ensures Concat(Flush(word) + rest) == word + Concat(rest)
  {
    ConcatAppend(Flush(word), rest);
    ConcatFlush(word, ' ');
  }

  lemma ConcatFlushParenThen(word: string, c: char, rest: seq<string>)
    ensures Concat(Flush(word) + [[c]] + rest) == word + [c] + Concat(rest)
  {
    ConcatAppend(Flush(word) + [[c]], rest);
    ConcatAppend(Flush(word), [[c]]);
    ConcatFlush(word, c);
  }

  lemma SpellParen(s: string, word: string)
    requires s != [] && IsParen(s[0])
    requires Concat(Tokens(s[1..], [])) == [] + RemoveSpaces(s[1..])
    ensures Concat(Tokens(s, word)) == word + RemoveSpaces(s)
  {
    assert Tokens(s, word) == Flush(word) + [[s[0]]] + Tokens(s[1..], []);
    assert RemoveSpaces(s) == [s[0]] + RemoveSpaces(s[1..]);
    ConcatFlushParenThen(word, s[0], Tokens(s[1..], []));
  }

  lemma SpellSpace(s: string, word: string)
    requires s != [] && !IsParen(s[0]) && IsSpace(s[0])
    requires Concat(Tokens(s[1..], [])) == [] + RemoveSpaces(s[1..])
    ensures Concat(Tokens(s, word)) == word + RemoveSpaces(s)
  {
    assert Tokens(s, word) == Flush(word) + Tokens(s[1..], []);
    assert RemoveSpaces(s) == [] + RemoveSpaces(s[1..]);
    ConcatFlushThen(word, Tokens(s[1..], []));
  }

  lemma AppendChar(word: string, c: char, rest: string)
    ensures word + [c] + rest == word + ([c] + rest)
  {
  }

  lemma {:induction false} TokensSpell(s: string, word: string)
    ensures Concat(Tokens(s, word)) == word + RemoveSpaces(s)
    decreases |s|
  {
    if s == [] {
      ConcatFlush(word, ' ');
    } else if IsParen(s[0]) {
      TokensSpell(s[1..], []);
      SpellParen(s, word);
    } else if IsSpace(s[0]) {
      TokensSpell(s[1..], []);
      SpellSpace(s, word);
    } else {
      TokensSpell(s[1..], word + [s[0]]);
      AppendChar(word, s[0], RemoveSpaces(s[1..]));
    }
  }

  /** Every token is a parenthesis or a word, and together they spell the input without its white space. */
  lemma InsertSpacesKeepsText(s: string)
    ensures forall t :: t in InsertSpaces(s) ==> WellFormedToken(t)
    ensures Concat(InsertSpaces(s)) == RemoveSpaces(s)
  {
    TokensWellFormed(s, []);
    TokensSpell(s, []);
  }

  /** A delimiter, or the end of the text, ends the pending word. */
  lemma TokensAtDelimiter(b: string, word: string)
    requires b == [] || IsParen(b[0]) || IsSpace(b[0])
    ensures Tokens(b, word) == Flush(word) + Tokens(b, [])
  {
    assert Flush([]) == [];
  }

  /** Reading on into a delimiter ends the pending word exactly as the end of the text would. */
  lemma {:induction false} TokensAppend(a: string, b: string, word: string)
    requires b == [] || IsParen(b[0]) || IsSpace(b[0])
    ensures Tokens(a + b, word) == Tokens(a, word) + Tokens(b, [])
    decreases |a|
  {
    if a == [] {
      assert a + b == b;
      TokensAtDelimiter(b, word);
    } else {
      var c, ab := a[0], a + b;
      assert ab[0] == c && ab[1..] == a[1..] + b;
      if IsParen(c) {
        TokensAppend(a[1..], b, []);
        assert Tokens(ab, word) == Flush(word) + [[c]] + Tokens(a[1..] + b, []);
      } else if IsSpace(c) {
        TokensAppend(a[1..], b, []);
        assert Tokens(ab, word) == Flush(word) + Tokens(a[1..] + b, []);
      } else {
        TokensAppend(a[1..], b, word + [c]);
      }
    }
  }

  lemma {:induction false} WordTokens(w: string, word: string)
    requires forall i :: 0 <= i < |w| ==> !IsParen(w[i]) && !IsSpace(w[i])
    ensures Tokens(w, word) == Flush(word + w)
    decreases |w|
  {
    if w == [] {
      assert word + w == word;
    } else {
      WordTokens(w[1..], word + [w[0]]);
      assert word + [w[0]] + w[1..] == word + w;
    }
  }

  lemma SingleToken(t: string)
    requires WellFormedToken(t)
    ensures Tokens(t, []) == [t]
  {
    if t == "(" || t == ")" {
      assert t[1..] == [];
    } else {
      WordTokens(t, []);
      assert [] + t == t;
    }
  }

  /** A well-formed token followed by a space is read as that token. */
  lemma TokenThenSpace(t: string, rest: string)
    requires WellFormedToken(t)
    ensures Tokens(t + " " + rest, []) == [t] + Tokens(rest, [])
  {
    assert t + " " + rest == t + (" " + rest);
    TokensAppend(t, " " + rest, []);
    SingleToken(t);
    assert (" " + rest)[1..] == rest;
  }

  /** Joining well-formed tokens with spaces and splitting again gives the tokens back. */
  lemma {:induction false} UnwordsRoundTrip(toks: seq<string>)
    requires forall t :: t in toks ==> WellFormedToken(t)
    ensures InsertSpaces(Unwords(toks)) == toks
  {
    if toks == [] {
    } else if |toks| == 1 {
      SingleToken(toks[0]);
    } else {
      UnwordsRoundTrip(toks[1..]);
      TokenThenSpace(toks[0], Unwords(toks[1..]));
      assert toks == [toks[0]] + toks[1..];
    }
  }

  // ---------------------------------------------------------------------------
  // Balanced parentheses
  // ---------------------------------------------------------------------------

  function Delta(t: string): int {
    if t == "(" then 1 else if t == ")" then -1 else 0
  }

  /** Opening parentheses minus closing parentheses among `toks`. */
  function Depth(toks: seq<string>): int {
    if toks == [] then 0 else Depth(toks[..|toks| - 1]) + Delta(toks[|toks| - 1])
  }

  /** Starting from `base` open parentheses, no prefix of `toks` closes more than are open. */
  predicate PrefixesAbove(toks: seq<string>, base: int) {
    forall k :: 0 <= k <= |toks| ==> base + Depth(toks[..k]) >= 0
  }

  /** No prefix closes a parenthesis that is not open, and all opened ones are closed. */
  predicate Balanced(toks: seq<string>) {
    PrefixesAbove(toks, 0) && Depth(toks) == 0
  }

  /** The counting scan over the tokens, stopping at the first unmatched closing parenthesis. */
  method BalancedParentheses(toks: seq<string>) returns (b: bool)
    ensures b == Balanced(toks)
  {
    var count := 0;
    for i := 0 to |toks|
      invariant count == Depth(toks[..i])
      invariant PrefixesAbove(toks[..i], 0)
    {
      assert toks[..i + 1][..i] == toks[..i];
      if toks[i] == "(" {
        count := count + 1;
      } else if toks[i] == ")" {
        count := count - 1;
      }
      assert count == Depth(toks[..i + 1]);
      if count < 0 {
        assert toks[..i + 1] == toks[..i + 1];
        return false;
      }
      ghost var seen := toks[..i + 1];
      forall k | 0 <= k <= i + 1
        ensures Depth(seen[..k]) >= 0
      {
        if k <= i {
          assert seen[..k] == toks[..i][..k];
        } else {
          assert seen[..k] == seen;
        }
      }
    }
    assert toks[..|toks|] == toks;
    return count == 0;
  }

  lemma {:induction false} DepthAppend(a: seq<string>, b: seq<string>)
    ensures Depth(a + b) == Depth(a) + Depth(b)
    decreases |b|
  {
    if b == [] {
      assert a + b == a;
    } else {
      var b' := b[..|b| - 1];
      assert (a + b)[..|a + b| - 1] == a + b';
      DepthAppend(a, b');
    }
  }

  lemma PrefixesConcat(a: seq<string>, b: seq<string>, base: int)
    requires PrefixesAbove(a, base) && PrefixesAbove(b, base + Depth(a))
    ensures PrefixesAbove(a + b, base)
  {
    forall k | 0 <= k <= |a + b|
      ensures base + Depth((a + b)[..k]) >= 0
    {
      if k <= |a| {
        assert (a + b)[..k] == a[..k];
      } else {
        assert (a + b)[..k] == a + b[..k - |a|];
        DepthAppend(a, b[..k - |a|]);
      }
    }
  }

  lemma PrefixesDrop(t: string, rest: seq<string>, base: int)
    requires PrefixesAbove([t] + rest, base)
    ensures base + Delta(t) >= 0
    ensures PrefixesAbove(rest, base + Delta(t))
  {
    assert ([t] + rest)[..1] == [t];
    assert [t][..0] == [];
    assert Depth([t]) == Delta(t);
    assert base + Depth(([t] + rest)[..1]) >= 0;
    forall k | 0 <= k <= |rest|
      ensures base + Delta(t) + Depth(rest[..k]) >= 0
    {
      assert ([t] + rest)[..k + 1] == [t] + rest[..k];
      DepthAppend([t], rest[..k]);
    }
  }

  // ---------------------------------------------------------------------------
  // From tokens to sentences
  // ---------------------------------------------------------------------------

  /** `\true`, `\false`, or a variable name; other names starting with a backslash are refused. */
  function ParseAtomic(t: string): (r: Result<Sentence, ParseFailure>)
    ensures r.Ok? ==> r.value.IsAtomicKind()
    ensures r == Err(IndexError) <==> t == []
    ensures r == Err(BackslashAtomic) <==> |t| > 0 && t[0] == '\\' && t != "\\true" && t != "\\false"
    ensures r.Ok? && r.value.Atomic? ==> r.value.name == t
  {
    if t == "\\true" then Ok(TrueSym)
    else if t == "\\false" then Ok(FalseSym)
    else if |t| == 0 then Err(IndexError)
    else if t[0] == '\\' then Err(BackslashAtomic)
    else Ok(Atomic(t))
  }

  function ParseSingle(x: Item): Result<Sentence, ParseFailure> {
    match x
    case Tok(t) => ParseAtomic(t)
    case Sen(s) => Ok(s)
  }

  function OperatorOf(t: string): Option<Operator> {
    if t == "\\or" then Some(Or)
    else if t == "\\and" then Some(And)
    else if t == "\\implies" then Some(Implies)
    else None
  }

  /** The operator table of the parser, written the other way round. */
  function OperatorToken(op: Operator): string {
    match op
    case And => "\\and"
    case Or => "\\or"
    case Implies => "\\implies"
  }

  lemma OperatorTableRoundTrip(op: Operator, t: string)
    ensures OperatorOf(OperatorToken(op)) == Some(op)
    ensures OperatorOf(t).Some? ==> OperatorToken(OperatorOf(t).value) == t
  {
  }

  /**
   * One closed group, from its `(` to its `)`: two items vanish, three give
   * the middle item, four a negation and five a binary sentence.
   */
  function ReduceGroup(ns: seq<Item>): Result<Option<Sentence>, ParseFailure> {
    if |ns| == 3 then
      if ns[1].Tok? && |ns[1].t| == 0 then Err(IndexError)
      else if ns[1].Tok? && ns[1].t[0] == '\\' && ns[1].t != "\\true" && ns[1].t != "\\false" then Err(MissingOperand)
      else
        match ParseSingle(ns[1])
        case Err(e) => Err(e)
        case Ok(s) => Ok(Some(s))
    else if |ns| == 4 then
      if ns[1] != Tok("\\not") then Err(IllFormed)
      else
        match ParseSingle(ns[2])
        case Err(e) => Err(e)
        case Ok(inner) => Ok(Some(Negation(inner)))
    else if |ns| == 5 then
      if ns[2].Sen? then Err(TypeError)
      else
        match OperatorOf(ns[2].t)
        case None => Err(UndefinedOperator(ns[2].t))
        case Some(op) =>
          match ParseSingle(ns[1])
          case Err(e) => Err(e)
          case Ok(left) =>
            match ParseSingle(ns[3])
            case Err(e) => Err(e)
            case Ok(right) => Ok(Some(TwoSided(left, right, op)))
    else if |ns| == 2 then Ok(None)
    else Err(NeedsParentheses(|ns|))
  }

  function Reverse(s: seq<Item>): (r: seq<Item>)
    ensures |r| == |s| && forall i :: 0 <= i < |s| ==> r[i] == s[|s| - 1 - i]
    ensures forall x :: x in r <==> x in s
  {
    if s == [] then [] else Reverse(s[1..]) + [s[0]]
  }

  /** Pops items onto `ns` up to and including the nearest `(`; popping an empty stack is an `IndexError`. */
  function PopGroup(stack: seq<Item>, ns: seq<Item>): Result<(seq<Item>, seq<Item>), ParseFailure>
    decreases |stack|
  {
    if stack == [] then Err(IndexError)
    else
      var x := stack[|stack| - 1];
      if x == Tok("(") then Ok((stack[..|stack| - 1], ns + [x]))
      else PopGroup(stack[..|stack| - 1], ns + [x])
  }

  /** Pushes one token, and folds the group it closes if it is `)`. */
  function Step(stack: seq<Item>, tok: string): Result<seq<Item>, ParseFailure> {
    var pushed := stack + [Tok(tok)];
    if tok != ")" then Ok(pushed)
    else
      match PopGroup(pushed, [])
      case Err(e) => Err(e)
      case Ok((rest, ns)) =>
        match ReduceGroup(Reverse(ns))
        case Err(e) => Err(e)
        case Ok(None) => Ok(rest)
        case Ok(Some(s)) => Ok(rest + [Sen(s)])
  }

  function Run(toks: seq<string>, stack: seq<Item>): Result<seq<Item>, ParseFailure>
    decreases |toks|
  {
    if toks == [] then Ok(stack)
    else
      match Step(stack, toks[0])
      case Err(e) => Err(e)
      case Ok(next) => Run(toks[1..], next)
  }

  /**
   * What parsing `s` yields: the input is wrapped in one more pair of
   * parentheses, tokenized, checked for balance and run through the stack
   * machine; the answer is the bottom of the final stack, if any.
   */
  function ParseSpec(s: string): Result<Option<Item>, ParseFailure> {
    var toks := InsertSpaces("(" + s + ")");
    if !Balanced(toks) then Err(Unbalanced)
    else
      match Run(toks, [])
      case Err(e) => Err(e)
      case Ok(stack) => Ok(if |stack| > 0 then Some(stack[0]) else None)
  }

  /** The parser's stack machine. */
  method ParseString(s: string) returns (r: Result<Option<Item>, ParseFailure>)
    ensures r == ParseSpec(s)
  {
    var toks := InsertSpaces("(" + s + ")");
    var balanced := BalancedParentheses(toks);
    if !balanced {
      return Err(Unbalanced);
    }
    var stack: seq<Item> := [];
    var i := 0;
    while i < |toks|
      invariant 0 <= i <= |toks|
      invariant Run(toks, []) == Run(toks[i..], stack)
    {
      var tok := toks[i];
      assert toks[i..][0] == tok && toks[i..][1..] == toks[i + 1..];
      ghost var before := stack;
      stack := stack + [Tok(tok)];
      if tok == ")" {
        var ns: seq<Item> := [];
        while true
          invariant PopGroup(before + [Tok(tok)], []) == PopGroup(stack, ns)
          decreases |stack|
        {
          if stack == [] {
            return Err(IndexError);
          }
          var x := stack[|stack| - 1];
          stack := stack[..|stack| - 1];
          ns := ns + [x];
          if x == Tok("(") {
            break;
          }
        }
        var group := ReduceGroup(Reverse(ns));
        match group {
          case Err(e) =>
            return Err(e);
          case Ok(None) =>
          case Ok(Some(sentence)) =>
            stack := stack + [Sen(sentence)];
        }
      }
      i := i + 1;
    }
    if |stack| > 0 {
      return Ok(Some(stack[0]));
    }
    return Ok(None);
  }

  // ---------------------------------------------------------------------------
  // Properties of the parser
  // ---------------------------------------------------------------------------

  /** Number of `(` tokens waiting on the stack. */
  function OpenCount(stack: seq<Item>): nat {
    if stack == [] then 0
    else OpenCount(stack[..|stack| - 1]) + (if stack[|stack| - 1] == Tok("(") then 1 else 0)
  }

  lemma {:induction false} OpenCountAppend(a: seq<Item>, b: seq<Item>)
    ensures OpenCount(a + b) == OpenCount(a) + OpenCount(b)
    decreases |b|
  {
    if b == [] {
      assert a + b == a;
    } else {
      assert (a + b)[..|a + b| - 1] == a + b[..|b| - 1];
      OpenCountAppend(a, b[..|b| - 1]);
    }
  }

  /** With an open parenthesis on the stack, the pop loop ends at it and removes exactly that one. */
  lemma {:induction false} PopGroupFindsOpen(stack: seq<Item>, ns: seq<Item>)
    requires OpenCount(stack) > 0
    ensures PopGroup(stack, ns).Ok?
    ensures OpenCount(PopGroup(stack, ns).value.0) == OpenCount(stack) - 1
    ensures PopGroup(stack, ns).value.0 <= stack
    ensures forall x :: x in PopGroup(stack, ns).value.1 ==> x in ns || x in stack
    decreases |stack|
  {
    var init := stack[..|stack| - 1];
    if stack[|stack| - 1] != Tok("(") {
      PopGroupFindsOpen(init, ns + [stack[|stack| - 1]]);
    }
  }

  /** Balanced tokens never make the pop loop run out of stack, and tokens are never empty. */
  lemma {:induction false} RunNoIndexError(toks: seq<string>, stack: seq<Item>)
    requires forall t :: t in toks ==> WellFormedToken(t)
    requires forall x :: x in stack && x.Tok? ==> x.t != []
    requires PrefixesAbove(toks, OpenCount(stack))
    ensures Run(toks, stack) != Err(IndexError)
    decreases |toks|
  {
    if toks != [] {
      var tok := toks[0];
      assert tok in toks;
      assert toks == [tok] + toks[1..];
      PrefixesDrop(tok, toks[1..], OpenCount(stack));
      var pushed := stack + [Tok(tok)];
      OpenCountAppend(stack, [Tok(tok)]);
      assert [Tok(tok)][..0] == [];
      if tok != ")" {
        RunNoIndexError(toks[1..], pushed);
      } else {
        PopGroupFindsOpen(pushed, []);
        var (rest, ns) := PopGroup(pushed, []).value;
        var group := Reverse(ns);
        assert group == [] || |group| == 1 || 2 <= |group|;
        match ReduceGroup(group)
        case Err(e) =>
          ReduceGroupNoIndexError(group);
        case Ok(None) =>
          RunNoIndexError(toks[1..], rest);
        case Ok(Some(x)) =>
          OpenCountAppend(rest, [Sen(x)]);
          assert [Sen(x)][..0] == [];
          RunNoIndexError(toks[1..], rest + [Sen(x)]);
      }
    }
  }

  lemma ReduceGroupNoIndexError(group: seq<Item>)
    requires forall x :: x in group && x.Tok? ==> x.t != []
    ensures ReduceGroup(group) != Err(IndexError)
  {
  }

  /** Parsing never fails with an `IndexError`: the balance check and the tokenizer rule it out. */
  lemma ParseNeverIndexError(s: string)
    ensures ParseSpec(s) != Err(IndexError)
  {
    var toks := InsertSpaces("(" + s + ")");
    InsertSpacesKeepsText("(" + s + ")");
    if Balanced(toks) {
      RunNoIndexError(toks, []);
    }
  }

  // ---------------------------------------------------------------------------
  // What the parser accepts
  // ---------------------------------------------------------------------------

  /**
   * A text as the parser's grammar writes it: a name, a parenthesised text,
   * `(\not x)`, or `(x op y)`.
   */
  datatype Written =
    | Name(t: string)
    | Parens(w: Written)
    | Not(w: Written)
    | Binary(l: Written, op: Operator, r: Written)

  function WrittenTokens(w: Written): seq<string> {
    match w
    case Name(t) => [t]
    case Parens(x) => ["("] + WrittenTokens(x) + [")"]
    case Not(x) => ["(", "\\not"] + WrittenTokens(x) + [")"]
    case Binary(l, op, r) => ["("] + WrittenTokens(l) + [OperatorToken(op)] + WrittenTokens(r) + [")"]
  }

  /** A variable name the parser takes as it is: a word not starting with a backslash. */
  predicate GoodName(t: string) {
    IsWord(t) && t[0] != '\\'
  }

  predicate GoodWritten(w: Written) {
    match w
    case Name(t) => t == "\\true" || t == "\\false" || GoodName(t)
    case Parens(x) => GoodWritten(x)
    case Not(x) => GoodWritten(x)
    case Binary(l, _, r) => GoodWritten(l) && GoodWritten(r)
  }

  /** The sentence a text stands for, read off the grammar: parentheses add nothing. */
  function Meaning(w: Written): Sentence {
    match w
    case Name(t) => if t == "\\true" then TrueSym else if t == "\\false" then FalseSym else Atomic(t)
    case Parens(x) => Meaning(x)
    case Not(x) => Negation(Meaning(x))
    case Binary(l, op, r) => TwoSided(Meaning(l), Meaning(r), op)
  }

  /** What the parser leaves on its stack for a text: a bare name stays a token. */
  function ItemOf(w: Written): Item {
    if w.Name? then Tok(w.t) else Sen(Meaning(w))
  }

  lemma {:induction false} RunAppend(a: seq<string>, b: seq<string>, stack: seq<Item>)
    ensures Run(a + b, stack) == (match Run(a, stack) case Err(e) => Err(e) case Ok(next) => Run(b, next))
    decreases |a|
  {
    if a == [] {
      assert a + b == b;
    } else {
      assert (a + b)[0] == a[0];
      assert (a + b)[1..] == a[1..] + b;
      match Step(stack, a[0])
      case Err(_) =>
      case Ok(next) => RunAppend(a[1..], b, next);
    }
  }

  lemma ReverseSnoc(m: seq<Item>, x: Item)
    ensures Reverse(m + [x]) == [x] + Reverse(m)
  {
    assert forall i :: 0 <= i < |m| + 1 ==> Reverse(m + [x])[i] == ([x] + Reverse(m))[i];
  }

  /** The pop loop on `s + [(] + m`, with no `(` in `m`, leaves `s` and hands over the group `[(] + m`. */
  lemma {:induction false} PopGroupTakesGroup(s: seq<Item>, m: seq<Item>, ns: seq<Item>)
    requires Tok("(") !in m
    ensures PopGroup(s + [Tok("(")] + m, ns) == Ok((s, ns + Reverse(m) + [Tok("(")]))
    decreases |m|
  {
    var stack := s + [Tok("(")] + m;
    if m == [] {
      assert stack == s + [Tok("(")];
      assert stack[..|stack| - 1] == s;
      assert ns + Reverse(m) + [Tok("(")] == ns + [Tok("(")];
    } else {
      var x := m[|m| - 1];
      var m' := m[..|m| - 1];
      assert m == m' + [x];
      assert stack[|stack| - 1] == x;
      assert stack[..|stack| - 1] == s + [Tok("(")] + m';
      PopGroupTakesGroup(s, m', ns + [x]);
      ReverseSnoc(m', x);
      assert ns + [x] + Reverse(m') == ns + Reverse(m);
    }
  }

  lemma ReverseGroup(m: seq<Item>)
    ensures Reverse([] + Reverse(m) + [Tok("(")]) == [Tok("(")] + m
  {
    var ns := [] + Reverse(m) + [Tok("(")];
    assert forall i :: 0 <= i < |ns| ==> Reverse(ns)[i] == ([Tok("(")] + m)[i];
  }

  /** Closing a group: the `)` token folds `[(] + m + [)]` on top of `s`. */
  lemma CloseGroup(s: seq<Item>, m: seq<Item>)
    requires Tok("(") !in m
    ensures Step(s + [Tok("(")] + m, ")") ==
      (match ReduceGroup([Tok("(")] + m + [Tok(")")])
       case Err(e) => Err(e)
       case Ok(None) => Ok(s)
       case Ok(Some(x)) => Ok(s + [Sen(x)]))
  {
    var m' := m + [Tok(")")];
    var pushed := s + [Tok("(")] + m + [Tok(")")];
    assert pushed == s + [Tok("(")] + m';
    PopGroupTakesGroup(s, m', []);
    ReverseGroup(m');
    assert PopGroup(pushed, []) == Ok((s, [] + Reverse(m') + [Tok("(")]));
    assert [Tok("(")] + m' == [Tok("(")] + m + [Tok(")")];
  }

  lemma ParseSingleItemOf(w: Written)
    requires GoodWritten(w)
    ensures ParseSingle(ItemOf(w)) == Ok(Meaning(w))
    ensures ItemOf(w) != Tok("(") && ItemOf(w) != Tok(")")
    ensures ItemOf(w).Tok? ==> |ItemOf(w).t| > 0
    ensures ItemOf(w).Tok? && ItemOf(w).t[0] == '\\' ==> ItemOf(w).t == "\\true" || ItemOf(w).t == "\\false"
  {
  }

  lemma RunAppendOk(a: seq<string>, b: seq<string>, s0: seq<Item>, s1: seq<Item>, s2: seq<Item>)
    requires Run(a, s0) == Ok(s1) && Run(b, s1) == Ok(s2)
    ensures Run(a + b, s0) == Ok(s2)
  {
    RunAppend(a, b, s0);
  }

  /** A token other than `)` is pushed as it is. */
  lemma RunPush(t: string, stack: seq<Item>)
    requires t != ")"
    ensures Run([t], stack) == Ok(stack + [Tok(t)])
  {
    assert [t][1..] == [];
  }

  lemma RunClosing(stack: seq<Item>)
    ensures Run([")"], stack) == Step(stack, ")")
  {
    assert [")"][1..] == [];
  }

  /** A `)` on top of `s + [(] + m` leaves `s` plus what the group `[(] + m + [)]` folds to. */
  lemma RunCloseGroup(s: seq<Item>, m: seq<Item>, x: Sentence)
    requires Tok("(") !in m
    requires ReduceGroup([Tok("(")] + m + [Tok(")")]) == Ok(Some(x))
    ensures Run([")"], s + [Tok("(")] + m) == Ok(s + [Sen(x)])
  {
    RunClosing(s + [Tok("(")] + m);
    CloseGroup(s, m);
  }

  lemma RunParens(x: Written, stack: seq<Item>)
    requires GoodWritten(x)
    requires Run(WrittenTokens(x), stack + [Tok("(")]) == Ok(stack + [Tok("(")] + [ItemOf(x)])
    ensures Run(WrittenTokens(Parens(x)), stack) == Ok(stack + [ItemOf(Parens(x))])
  {
    var s1 := stack + [Tok("(")];
    var s2 := s1 + [ItemOf(x)];
    RunPush("(", stack);
    RunAppendOk(["("], WrittenTokens(x), stack, s1, s2);
    ParseSingleItemOf(x);
    assert [Tok("(")] + [ItemOf(x)] + [Tok(")")] == [Tok("("), ItemOf(x), Tok(")")];
    RunCloseGroup(stack, [ItemOf(x)], Meaning(x));
    RunAppendOk(["("] + WrittenTokens(x), [")"], stack, s2, stack + [Sen(Meaning(x))]);
  }

  /** The group `( \not x )` reduces to the negation of what `x` means. */
  lemma ReduceNotGroup(x: Written)
    requires GoodWritten(x)
    ensures ReduceGroup([Tok("("), Tok("\\not"), ItemOf(x), Tok(")")]) == Ok(Some(Negation(Meaning(x))))
    ensures Tok("(") !in [Tok("\\not"), ItemOf(x)]
  {
    ParseSingleItemOf(x);
  }

  lemma RunNot(x: Written, stack: seq<Item>)
    requires GoodWritten(x)
    requires Run(WrittenTokens(x), stack + [Tok("(")] + [Tok("\\not")]) == Ok(stack + [Tok("(")] + [Tok("\\not")] + [ItemOf(x)])
    ensures Run(WrittenTokens(Not(x)), stack) == Ok(stack + [ItemOf(Not(x))])
  {
    var s1 := stack + [Tok("(")];
    var s2 := s1 + [Tok("\\not")];
    var s3 := s2 + [ItemOf(x)];
    var m := [Tok("\\not"), ItemOf(x)];
    RunPush("(", stack);
    RunPush("\\not", s1);
    RunAppendOk(["("], ["\\not"], stack, s1, s2);
    assert ["("] + ["\\not"] == ["(", "\\not"];
    RunAppendOk(["(", "\\not"], WrittenTokens(x), stack, s2, s3);
    ReduceNotGroup(x);
    assert [Tok("(")] + m + [Tok(")")] == [Tok("("), Tok("\\not"), ItemOf(x), Tok(")")];
    assert s3 == stack + [Tok("(")] + m;
    RunCloseGroup(stack, m, Negation(Meaning(x)));
    RunAppendOk(["(", "\\not"] + WrittenTokens(x), [")"], stack, s3, stack + [Sen(Negation(Meaning(x)))]);
  }

  /** The group `( l op r )` reduces to the binary sentence of what `l` and `r` mean. */
  lemma ReduceBinaryGroup(l: Written, op: Operator, r: Written)
    requires GoodWritten(l) && GoodWritten(r)
    ensures ReduceGroup([Tok("("), ItemOf(l), Tok(OperatorToken(op)), ItemOf(r), Tok(")")])
         == Ok(Some(TwoSided(Meaning(l), Meaning(r), op)))
    ensures Tok("(") !in [ItemOf(l), Tok(OperatorToken(op)), ItemOf(r)]
  {
    ParseSingleItemOf(l);
    ParseSingleItemOf(r);
    OperatorTableRoundTrip(op, OperatorToken(op));
  }

  /** Everything of `( l op r )` before its closing parenthesis only pushes. */
  lemma RunBinaryOpen(lt: seq<string>, opt: string, rt: seq<string>, stack: seq<Item>, il: Item, ir: Item)
    requires opt != ")"
    requires Run(lt, stack + [Tok("(")]) == Ok(stack + [Tok("(")] + [il])
    requires Run(rt, stack + [Tok("(")] + [il] + [Tok(opt)]) == Ok(stack + [Tok("(")] + [il] + [Tok(opt)] + [ir])
    ensures Run(["("] + lt + [opt] + rt, stack) == Ok(stack + [Tok("(")] + [il, Tok(opt), ir])
  {
    var s1 := stack + [Tok("(")];
    var s2 := s1 + [il];
    var s3 := s2 + [Tok(opt)];
    var s4 := s3 + [ir];
    RunPush("(", stack);
    RunAppendOk(["("], lt, stack, s1, s2);
    RunPush(opt, s2);
    RunAppendOk(["("] + lt, [opt], stack, s2, s3);
    RunAppendOk(["("] + lt + [opt], rt, stack, s3, s4);
    assert s4 == stack + [Tok("(")] + [il, Tok(opt), ir];
  }

  lemma RunBinary(l: Written, op: Operator, r: Written, stack: seq<Item>)
    requires GoodWritten(l) && GoodWritten(r)
    requires Run(WrittenTokens(l), stack + [Tok("(")]) == Ok(stack + [Tok("(")] + [ItemOf(l)])
    requires Run(WrittenTokens(r), stack + [Tok("(")] + [ItemOf(l)] + [Tok(OperatorToken(op))])
          == Ok(stack + [Tok("(")] + [ItemOf(l)] + [Tok(OperatorToken(op))] + [ItemOf(r)])
    ensures Run(WrittenTokens(Binary(l, op, r)), stack) == Ok(stack + [ItemOf(Binary(l, op, r))])
  {
    var opt := OperatorToken(op);
    var open := ["("] + WrittenTokens(l) + [opt] + WrittenTokens(r);
    var m := [ItemOf(l), Tok(opt), ItemOf(r)];
    var x := TwoSided(Meaning(l), Meaning(r), op);
    assert opt != ")";
    RunBinaryOpen(WrittenTokens(l), opt, WrittenTokens(r), stack, ItemOf(l), ItemOf(r));
    ReduceBinaryGroup(l, op, r);
    assert [Tok("(")] + m + [Tok(")")] == [Tok("("), ItemOf(l), Tok(opt), ItemOf(r), Tok(")")];
    RunCloseGroup(stack, m, x);
    RunAppendOk(open, [")"], stack, stack + [Tok("(")] + m, stack + [Sen(x)]);
  }

  lemma {:induction false} RunWritten(w: Written, stack: seq<Item>)
    requires GoodWritten(w)
    ensures Run(WrittenTokens(w), stack) == Ok(stack + [ItemOf(w)])
    decreases w
  {
    match w
    case Name(t) =>
      assert WrittenTokens(w)[1..] == [];
    case Parens(x) =>
      RunWritten(x, stack + [Tok("(")]);
      RunParens(x, stack);
    case Not(x) =>
      RunWritten(x, stack + [Tok("(")] + [Tok("\\not")]);
      RunNot(x, stack);
    case Binary(l, op, r) =>
      RunWritten(l, stack + [Tok("(")]);
      RunWritten(r, stack + [Tok("(")] + [ItemOf(l)] + [Tok(OperatorToken(op))]);
      RunBinary(l, op, r, stack);
  }

  lemma BalancedConcat(a: seq<string>, b: seq<string>)
    requires Balanced(a) && Balanced(b)
    ensures Balanced(a + b)
  {
    PrefixesConcat(a, b, 0);
    DepthAppend(a, b);
  }

  lemma BalancedWord(t: string)
    requires t != "(" && t != ")"
    ensures Balanced([t])
  {
    assert [t][..0] == [] && [t][..1] == [t];
    assert Depth([t]) == 0;
  }

  lemma BalancedWrap(t: seq<string>)
    requires Balanced(t)
    ensures Balanced(["("] + t + [")"])
  {
    assert ["("][..0] == [] && ["("][..1] == ["("];
    assert Depth(["("]) == 1;
    assert [")"][..0] == [] && [")"][..1] == [")"];
    assert Depth([")"]) == -1;
    assert PrefixesAbove(t, 1);
    PrefixesConcat(["("], t, 0);
    DepthAppend(["("], t);
    PrefixesConcat(["("] + t, [")"], 0);
    DepthAppend(["("] + t, [")"]);
  }

  lemma {:induction false} WrittenBalanced(w: Written)
    requires GoodWritten(w)
    ensures Balanced(WrittenTokens(w))
    decreases w
  {
    match w
    case Name(t) =>
      BalancedWord(t);
    case Parens(x) =>
      WrittenBalanced(x);
      BalancedWrap(WrittenTokens(x));
    case Not(x) =>
      WrittenBalanced(x);
      BalancedNot(WrittenTokens(x));
    case Binary(l, op, r) =>
      WrittenBalanced(l);
      WrittenBalanced(r);
      BalancedBinary(WrittenTokens(l), OperatorToken(op), WrittenTokens(r));
  }

  lemma BalancedNot(xt: seq<string>)
    requires Balanced(xt)
    ensures Balanced(["(", "\\not"] + xt + [")"])
  {
    BalancedWord("\\not");
    BalancedConcat(["\\not"], xt);
    BalancedWrap(["\\not"] + xt);
    assert ["(", "\\not"] + xt + [")"] == ["("] + (["\\not"] + xt) + [")"];
  }

  lemma BalancedBinary(lt: seq<string>, opt: string, rt: seq<string>)
    requires Balanced(lt) && Balanced(rt) && opt != "(" && opt != ")"
    ensures Balanced(["("] + lt + [opt] + rt + [")"])
  {
    BalancedWord(opt);
    BalancedConcat(lt, [opt]);
    BalancedConcat(lt + [opt], rt);
    BalancedWrap(lt + [opt] + rt);
    assert ["("] + lt + [opt] + rt + [")"] == ["("] + (lt + [opt] + rt) + [")"];
  }

  lemma {:induction false} WrittenTokensWellFormed(w: Written)
    requires GoodWritten(w)
    ensures forall t :: t in WrittenTokens(w) ==> WellFormedToken(t)
    decreases w
  {
    match w
    case Name(t) =>
    case Parens(x) =>
      WrittenTokensWellFormed(x);
    case Not(x) =>
      WrittenTokensWellFormed(x);
    case Binary(l, op, r) =>
      WrittenTokensWellFormed(l);
      WrittenTokensWellFormed(r);
  }

  /** The parser's extra pair of parentheses around the input becomes one extra pair of tokens. */
  lemma WrapTokens(s: string)
    ensures InsertSpaces("(" + s + ")") == ["("] + InsertSpaces(s) + [")"]
  {
    var wrapped := "(" + s + ")";
    assert wrapped[0] == '(' && wrapped[1..] == s + ")";
    TokensAppend(s, ")", []);
    SingleToken(")");
  }

  /** Any input whose tokens, once wrapped, spell a well-written text parses to the sentence the text means. */
  lemma ParseText(s: string, w: Written)
    requires GoodWritten(w)
    requires InsertSpaces("(" + s + ")") == WrittenTokens(w)
    ensures ParseSpec(s) == Ok(Some(Sen(Meaning(w))))
  {
    WrapTokens(s);
    assert !w.Name?;
    WrittenBalanced(w);
    RunWritten(w, []);
  }

  /** Round trip over the grammar: the text of `w`, tokens joined by spaces, parses to what `w` means. */
  lemma ParseWritten(w: Written)
    requires GoodWritten(w)
    ensures ParseSpec(Unwords(WrittenTokens(w))) == Ok(Some(Sen(Meaning(w))))
  {
    var text := Unwords(WrittenTokens(w));
    WrittenTokensWellFormed(w);
    UnwordsRoundTrip(WrittenTokens(w));
    WrapTokens(text);
    assert InsertSpaces("(" + text + ")") == WrittenTokens(Parens(w));
    ParseText(text, Parens(w));
  }

  /** Every atomic name in the sentence is one the parser takes as it is. */
  predicate GoodNames(s: Sentence) {
    match s
    case Atomic(n) => GoodName(n)
    case TrueSym => true
    case FalseSym => true
    case Negation(x) => GoodNames(x)
    case TwoSided(l, r, _) => GoodNames(l) && GoodNames(r)
  }

  /** The fully parenthesised way of writing a sentence in the parser's syntax. */
  function Render(s: Sentence): (w: Written)
    ensures GoodNames(s) ==> GoodWritten(w) && Meaning(w) == s
  {
    match s
    case Atomic(n) => Name(n)
    case TrueSym => Name("\\true")
    case FalseSym => Name("\\false")
    case Negation(x) => Not(Render(x))
    case TwoSided(l, r, op) => Binary(Render(l), op, Render(r))
  }

  /** Every sentence with usable names is parsed back from its rendering. */
  lemma ParseRendered(s: Sentence)
    requires GoodNames(s)
    ensures ParseSpec(Unwords(WrittenTokens(Render(s)))) == Ok(Some(Sen(s)))
  {
    ParseWritten(Render(s));
  }

  // ---------------------------------------------------------------------------
  // The parser's test cases
  // ---------------------------------------------------------------------------

  lemma TokensLead(t: string, rest: string)
    requires WellFormedToken(t)
    requires t == "(" || t == ")" || rest == [] || IsParen(rest[0]) || IsSpace(rest[0])
    ensures Tokens(t + rest, []) == [t] + Tokens(rest, [])
  {
    if t == "(" || t == ")" {
      assert (t + rest)[0] == t[0] && (t + rest)[1..] == rest;
      assert [t[0]] == t;
    } else {
      TokensAppend(t, rest, []);
      SingleToken(t);
    }
  }

  lemma TokensSpace(rest: string)
    ensures Tokens(" " + rest, []) == Tokens(rest, [])
  {
    assert (" " + rest)[0] == ' ' && (" " + rest)[1..] == rest;
  }

  /** Tokens of ` \and (b)`, the right half of both test inputs. */
  lemma AndOperandTokens(b: string)
    requires GoodName(b)
    ensures Tokens(" " + ("\\and" + (" " + ("(" + (b + ")")))), []) == ["\\and", "(", b, ")"]
  {
    var t6 := b + ")";
    var t5 := "(" + t6;
    var t4 := " " + t5;
    TokensLead(")", []);
    TokensLead(b, ")");
    TokensLead("(", t6);
    TokensSpace(t5);
    TokensLead("\\and", t4);
    TokensSpace("\\and" + t4);
  }

  /** Tokens of `(a) \and (b)` for any two plain names. */
  lemma AtomsTestTokens(a: string, b: string)
    requires GoodName(a) && GoodName(b)
    ensures InsertSpaces("(" + a + ") \\and (" + b + ")") == ["(", a, ")", "\\and", "(", b, ")"]
  {
    var tail := " " + ("\\and" + (" " + ("(" + (b + ")"))));
    AndOperandTokens(b);
    TokensLead(")", tail);
    TokensLead(a, ")" + tail);
    TokensLead("(", a + (")" + tail));
    AtomsTestText(a, b);
  }

  /** The text `(a) \and (b)` regrouped as its tokens are read. */
  lemma AtomsTestText(a: string, b: string)
    ensures "(" + a + ") \\and (" + b + ")" == "(" + (a + (")" + (" " + ("\\and" + (" " + ("(" + (b + ")")))))))
  {
    var mid := ") \\and (";
    assert mid == ")" + (" " + ("\\and" + (" " + "(")));
    assert "(" + a + mid + b + ")" == "(" + (a + (mid + (b + ")")));
  }

  lemma NegatedOperandTokens(a: string, b: string)
    requires GoodName(a) && GoodName(b)
    ensures Tokens("\\not" + (" " + (a + (")" + (" " + ("\\and" + (" " + ("(" + (b + ")")))))))), [])
         == ["\\not", a, ")", "\\and", "(", b, ")"]
  {
    var t2 := " " + ("\\and" + (" " + ("(" + (b + ")"))));
    AndOperandTokens(b);
    TokensLead(")", t2);
    TokensLead(a, ")" + t2);
    TokensSpace(a + (")" + t2));
    TokensLead("\\not", " " + (a + (")" + t2)));
  }

  /** Tokens of `(\not a) \and (b)` for any two plain names. */
  lemma NegationTestTokens(a: string, b: string)
    requires GoodName(a) && GoodName(b)
    ensures InsertSpaces("(\\not " + a + ") \\and (" + b + ")") == ["(", "\\not", a, ")", "\\and", "(", b, ")"]
  {
    var u0 := "\\not" + (" " + (a + (")" + (" " + ("\\and" + (" " + ("(" + (b + ")"))))))));
    NegatedOperandTokens(a, b);
    TokensLead("(", u0);
    assert "(" + u0 == "(\\not " + a + ") \\and (" + b + ")";
  }

  /** `(a) \and (b)` is the conjunction of the atomics `a` and `b`. */
  lemma ParsesConjunctionOfAtoms(a: string, b: string)
    requires GoodName(a) && GoodName(b)
    ensures ParseSpec("(" + a + ") \\and (" + b + ")") == Ok(Some(Sen(TwoSided(Atomic(a), Atomic(b), And))))
  {
    var s := "(" + a + ") \\and (" + b + ")";
    AtomsTestTokens(a, b);
    WrapTokens(s);
    var w := Binary(Parens(Name(a)), And, Parens(Name(b)));
    assert WrittenTokens(Parens(Name(a))) == ["(", a, ")"];
    assert WrittenTokens(Parens(Name(b))) == ["(", b, ")"];
    assert WrittenTokens(w) == ["("] + ["(", a, ")", "\\and", "(", b, ")"] + [")"];
    assert InsertSpaces("(" + s + ")") == WrittenTokens(w);
    NameMeansAtomic(a);
    NameMeansAtomic(b);
    ParseText(s, w);
  }

  /** `(\not a) \and (b)` is the conjunction of the negation of `a` and `b`. */
  lemma ParsesConjunctionWithNegation(a: string, b: string)
    requires GoodName(a) && GoodName(b)
    ensures ParseSpec("(\\not " + a + ") \\and (" + b + ")") == Ok(Some(Sen(TwoSided(Negation(Atomic(a)), Atomic(b), And))))
  {
    var s := "(\\not " + a + ") \\and (" + b + ")";
    NegationTestTokens(a, b);
    WrapTokens(s);
    var w := Binary(Not(Name(a)), And, Parens(Name(b)));
    assert WrittenTokens(Not(Name(a))) == ["(", "\\not", a, ")"];
    assert WrittenTokens(Parens(Name(b))) == ["(", b, ")"];
    assert WrittenTokens(w) == ["("] + ["(", "\\not", a, ")", "\\and", "(", b, ")"] + [")"];
    assert InsertSpaces("(" + s + ")") == WrittenTokens(w);
    NameMeansAtomic(a);
    NameMeansAtomic(b);
    ParseText(s, w);
  }

  lemma NameMeansAtomic(a: string)
    requires GoodName(a)
    ensures Meaning(Name(a)) == Atomic(a)
  {
    assert a != "\\true" && a != "\\false" by {
      assert "\\true"[0] == '\\' && "\\false"[0] == '\\';
    }
  }

  /** The first case of the parser's tests: `(A) \and (B)`. */
  lemma ParsesConjunctionTest()
    ensures ParseSpec("(A) \\and (B)") == Ok(Some(Sen(TwoSided(Atomic("A"), Atomic("B"), And))))
  {
    var a, b := "A", "B";
    ParsesConjunctionOfAtoms(a, b);
    assert "(" + a + ") \\and (" + b + ")" == "(A) \\and (B)";
  }

  /** The second case of the parser's tests: `(\not A) \and (B)`. */
  lemma ParsesNegatedConjunctionTest()
    ensures ParseSpec("(\\not A) \\and (B)") == Ok(Some(Sen(TwoSided(Negation(Atomic("A")), Atomic("B"), And))))
  {
    var a, b := "A", "B";
    ParsesConjunctionWithNegation(a, b);
    assert "(\\not " + a + ") \\and (" + b + ")" == "(\\not A) \\and (B)";
  }

  /** Empty input, or input that is only white space, parses to nothing. */
  lemma BlankParsesToNothing(s: string)
    requires forall i :: 0 <= i < |s| ==> IsSpace(s[i])
    ensures ParseSpec(s) == Ok(None)
  {
    assert Tokens(s, []) == [] by {
      BlankTokens(s);
    }
    WrapTokens(s);
    var toks := ["(", ")"];
    assert InsertSpaces("(" + s + ")") == toks;
    BalancedWrap([]);
    assert toks == ["("] + [] + [")"];
    assert toks[1..] == [")"] && [")"][1..] == [];
    assert [] + [Tok("(")] == [Tok("(")];
    assert Step([], "(") == Ok([Tok("(")]);
    CloseGroup([], []);
    assert [Tok("(")] + [] + [Tok(")")] == [Tok("("), Tok(")")];
    assert [] + [Tok("(")] + [] == [Tok("(")];
  }

  lemma {:induction false} BlankTokens(s: string)
    requires forall i :: 0 <= i < |s| ==> IsSpace(s[i])
    ensures Tokens(s, []) == []
    decreases |s|
  {
    if s != [] {
      BlankTokens(s[1..]);
    }
  }

  // ---------------------------------------------------------------------------
  // The balance check sees the input only after it is wrapped
  // ---------------------------------------------------------------------------

  lemma StrayParensTail(b: string)
    requires GoodName(b)
    ensures Tokens(" " + (b + (" " + ("(" + ")"))), []) == [b, "(", ")"]
  {
    var t3 := "(" + ")";
    var t2 := " " + t3;
    TokensLead(")", []);
    TokensLead("(", ")");
    TokensSpace(t3);
    TokensLead(b, t2);
    TokensSpace(b + t2);
  }

  lemma StrayParensTokens(b: string)
    requires GoodName(b)
    ensures InsertSpaces("(" + (") " + b + " (") + ")") == ["(", ")", b, "(", ")"]
  {
    var t0 := " " + (b + (" " + ("(" + ")")));
    StrayParensTail(b);
    TokensLead(")", t0);
    TokensLead("(", ")" + t0);
    StrayParensText(b);
  }

  /** The wrapped text `() b ()` regrouped as its tokens are read. */
  lemma StrayParensText(b: string)
    ensures "(" + (") " + b + " (") + ")" == "(" + (")" + (" " + (b + (" " + ("(" + ")")))))
  {
    assert ") " == ")" + " ";
    assert " (" == " " + "(";
    assert ") " + b + " (" == ")" + (" " + (b + (" " + "(")));
  }

  lemma StrayParensBalanced(b: string)
    requires GoodName(b)
    ensures Balanced(["(", ")", b, "(", ")"])
  {
    BalancedWrap([]);
    assert ["(", ")"] == ["("] + [] + [")"];
    BalancedWord(b);
    BalancedConcat(["(", ")"], [b]);
    BalancedConcat(["(", ")"] + [b], ["(", ")"]);
    assert ["(", ")"] + [b] + ["(", ")"] == ["(", ")", b, "(", ")"];
  }

  /** An empty group `()` leaves the stack as it was. */
  lemma RunEmptyGroup(stack: seq<Item>)
    ensures Run(["(", ")"], stack) == Ok(stack)
  {
    RunPush("(", stack);
    RunClosing(stack + [Tok("(")]);
    CloseGroup(stack, []);
    assert stack + [Tok("(")] + [] == stack + [Tok("(")];
    assert [Tok("(")] + [] + [Tok(")")] == [Tok("("), Tok(")")];
    RunAppendOk(["("], [")"], stack, stack + [Tok("(")], stack);
    assert ["("] + [")"] == ["(", ")"];
  }

  /**
   * As written, the closing parenthesis of `) b (` closes the parser's own
   * wrapping pair, so the input passes the balance check and the raw token
   * `b` comes back instead of a sentence.
   */
  lemma StrayParensYieldRawToken(b: string)
    requires GoodName(b)
    ensures ParseSpec(") " + b + " (") == Ok(Some(Tok(b)))
  {
    StrayParensTokens(b);
    StrayParensBalanced(b);
    assert b != ")" by { assert !IsParen(b[0]); }
    RunEmptyGroup([]);
    RunPush(b, []);
    assert [] + [Tok(b)] == [Tok(b)];
    RunAppendOk(["(", ")"], [b], [], [], [Tok(b)]);
    RunEmptyGroup([Tok(b)]);
    RunAppendOk(["(", ")"] + [b], ["(", ")"], [], [Tok(b)], [Tok(b)]);
    assert ["(", ")"] + [b] + ["(", ")"] == ["(", ")", b, "(", ")"];
  }

  /** Parsing with the balance check applied to the input as given, before it is wrapped. */
  function ParseChecked(s: string): Result<Option<Item>, ParseFailure> {
    if !Balanced(InsertSpaces(s)) then Err(Unbalanced) else ParseSpec(s)
  }

  method ParseStringChecked(s: string) returns (r: Result<Option<Item>, ParseFailure>)
    ensures r == ParseChecked(s)
  {
    var balanced := BalancedParentheses(InsertSpaces(s));
    if !balanced {
      return Err(Unbalanced);
    }
    r := ParseString(s);
  }

  lemma {:induction false} OpenCountFront(p: seq<Item>)
    requires p != [] && p[0] == Tok("(")
    ensures OpenCount(p) >= 1
    decreases |p|
  {
    if |p| > 1 {
      OpenCountFront(p[..|p| - 1]);
    }
  }

  /** While the tokens never close more than is open above it, the `(` at the bottom of the stack stays put. */
  lemma {:induction false} RunKeepsBottom(toks: seq<string>, stack: seq<Item>)
    requires stack != [] && stack[0] == Tok("(")
    requires PrefixesAbove(toks, OpenCount(stack) - 1)
    ensures Run(toks, stack).Ok? ==>
      Run(toks, stack).value != [] && Run(toks, stack).value[0] == Tok("(") &&
      OpenCount(Run(toks, stack).value) == OpenCount(stack) + Depth(toks)
    decreases |toks|
  {
    if toks != [] {
      var tok := toks[0];
      var rest := toks[1..];
      assert toks == [tok] + rest;
      PrefixesDrop(tok, rest, OpenCount(stack) - 1);
      DepthAppend([tok], rest);
      assert [tok][..0] == [];
      assert Depth([tok]) == Delta(tok);
      var pushed := stack + [Tok(tok)];
      OpenCountAppend(stack, [Tok(tok)]);
      assert [Tok(tok)][..0] == [];
      if tok != ")" {
        RunKeepsBottom(rest, pushed);
      } else {
        PopGroupFindsOpen(pushed, []);
        var (left, ns) := PopGroup(pushed, []).value;
        assert left != [];
        assert left[0] == pushed[0];
        match ReduceGroup(Reverse(ns))
        case Err(_) =>
        case Ok(None) =>
          RunKeepsBottom(rest, left);
        case Ok(Some(x)) =>
          OpenCountAppend(left, [Sen(x)]);
          assert [Sen(x)][..0] == [];
          RunKeepsBottom(rest, left + [Sen(x)]);
      }
    }
  }

  /** Reading a balanced input after the wrapping `(` leaves that `(` as the only open one. */
  lemma RunWrappedOpen(toks: seq<string>)
    requires Balanced(toks)
    ensures Run(["("] + toks, []).Ok? ==>
      Run(["("] + toks, []).value != [] && Run(["("] + toks, []).value[0] == Tok("(") &&
      OpenCount(Run(["("] + toks, []).value) == 1
  {
    RunPush("(", []);
    assert [] + [Tok("(")] == [Tok("(")];
    RunAppend(["("], toks, []);
    assert OpenCount([Tok("(")]) == 1 by { assert [Tok("(")][..0] == []; }
    RunKeepsBottom(toks, [Tok("(")]);
  }

  /** The wrapping `)` closes the group that starts at the bottom of the stack. */
  lemma CloseWrapped(before: seq<Item>)
    requires before != [] && before[0] == Tok("(") && OpenCount(before) == 1
    ensures PopGroup(before + [Tok(")")], []).Ok? && PopGroup(before + [Tok(")")], []).value.0 == []
  {
    var pushed := before + [Tok(")")];
    OpenCountAppend(before, [Tok(")")]);
    assert [Tok(")")][..0] == [];
    PopGroupFindsOpen(pushed, []);
    var (left, ns) := PopGroup(pushed, []).value;
    if left != [] {
      assert left[0] == pushed[0];
      OpenCountFront(left);
    }
  }

  /** With the check on the input itself, a successful parse yields a sentence or nothing, never a raw token. */
  lemma ParseCheckedYieldsSentence(s: string)
    ensures ParseChecked(s).Ok? && ParseChecked(s).value.Some? ==> ParseChecked(s).value.value.Sen?
  {
    var toks := InsertSpaces(s);
    if Balanced(toks) {
      WrapTokens(s);
      BalancedWrap(toks);
      RunAppend(["("] + toks, [")"], []);
      RunWrappedOpen(toks);
      match Run(["("] + toks, [])
      case Err(_) =>
      case Ok(before) =>
        RunClosing(before);
        CloseWrapped(before);
    }
  }

  /** The corrected check turns away the stray-parenthesis input. */
  lemma CheckedRejectsStrayParens(b: string)
    requires GoodName(b)
    ensures ParseChecked(") " + b + " (") == Err(Unbalanced)
  {
    var s := ") " + b + " (";
    assert s == ")" + (" " + (b + (" " + "(")));
    TokensLead("(", []);
    TokensSpace("(");
    TokensLead(b, " " + "(");
    TokensSpace(b + (" " + "("));
    TokensLead(")", " " + (b + (" " + "(")));
    var toks := InsertSpaces(s);
    assert toks[..1] == [")"] && [")"][..0] == [];
    assert Depth(toks[..1]) == -1;
  }

  /** The corrected check still accepts every well-written text. */
  lemma CheckedParsesWritten(w: Written)
    requires GoodWritten(w)
    ensures ParseChecked(Unwords(WrittenTokens(w))) == Ok(Some(Sen(Meaning(w))))
  {
    WrittenTokensWellFormed(w);
    UnwordsRoundTrip(WrittenTokens(w));
    WrittenBalanced(w);
    ParseWritten(w);
  }
}
