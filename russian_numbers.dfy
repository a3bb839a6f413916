/** The Russian numeral parser (number_utils/russian_numbers.py). `parse`
    splits the text into tokens, recognises numerals through two lookup tables,
    groups consecutive numerals by level, and evaluates each group with a
    local accumulator (units, tens, hundreds) and a global one (multipliers),
    scoring how well the group fits the grammar. Values are reals; `np.round`,
    `str.lower`, `str.isspace` and `re.split` are parameters. */
module RussianNumbers {
  import opened Wrappers
  import PyText

  // ---------------------------------------------------------------------------
  // Records
  // ---------------------------------------------------------------------------

  /** `Numeral(value, level, is_multiplier, is_eleven_to_nineteen)` */
  datatype Numeral = Numeral(value: real, level: int, isMultiplier: bool, isElevenToNineteen: bool)

  /** `NumericToken`: a numeral with the error and significance the
      evaluation writes into it. */
  datatype NumericToken = NumericToken(numeral: Numeral, error: real, isSignificant: bool)

  /** `NumericToken(numeral)` as the parser creates it. */
  function Fresh(n: Numeral): NumericToken
  {
    NumericToken(n, 0.0, false)
  }

  /** `ParserResult(value, error)` */
  datatype ParserResult = ParserResult(value: real, error: real)

  /** The exceptions `parse` can raise. */
  datatype ParseError =
    | KeyError(word: string)  // a fraction word in neither table
    | AttributeError          // `.numeral` of a `None` candidate
    | ZeroDivisionError       // a group without significant tokens

  /** `self.tokens` and `self.tokens_fractions` */
  datatype Tables = Tables(tokens: map<string, Numeral>, fractions: map<string, Numeral>)

  /** `self.max_token_error` */
  const MaxTokenError: real := 0.3

  // ---------------------------------------------------------------------------
  // get_token_sum_error_from_lists
  // ---------------------------------------------------------------------------

  /** A token or an arbitrarily nested list of tokens. */
  datatype TokenTree = Leaf(token: NumericToken) | Node(children: seq<TokenTree>)

  /** `get_token_sum_error_from_lists` */
  function SumError(t: TokenTree): real
    decreases t, 1
  {
    match t
    case Leaf(x) => x.error
    case Node(cs) => SumErrors(cs)
  }

  function SumErrors(cs: seq<TokenTree>): real
    decreases cs, 0
  {
    if cs == [] then 0.0 else SumError(cs[0]) + SumErrors(cs[1..])
  }

  /** The tokens of a tree, left to right. */
  function Leaves(t: TokenTree): seq<NumericToken>
    decreases t, 1
  {
    match t
    case Leaf(x) => [x]
    case Node(cs) => LeavesOf(cs)
  }

  function LeavesOf(cs: seq<TokenTree>): seq<NumericToken>
    decreases cs, 0
  {
    if cs == [] then [] else Leaves(cs[0]) + LeavesOf(cs[1..])
  }

  /** The sum of the errors of a flat list of tokens. */
  function ErrorSum(ts: seq<NumericToken>): real
  {
    if ts == [] then 0.0 else ts[0].error + ErrorSum(ts[1..])
  }

  lemma {:induction false} ErrorSumAppend(a: seq<NumericToken>, b: seq<NumericToken>)
    ensures ErrorSum(a + b) == ErrorSum(a) + ErrorSum(b)
    decreases |a|
  {
    if a == [] {
      assert a + b == b;
    } else {
      assert (a + b)[1..] == a[1..] + b;
      ErrorSumAppend(a[1..], b);
    }
  }

  /** The nested sum is the sum over the leaves, however they are nested. */
  lemma {:induction false} SumErrorIsLeafSum(t: TokenTree)
    ensures SumError(t) == ErrorSum(Leaves(t))
    decreases t, 1
  {
    match t
    case Leaf(x) =>
      assert [x][1..] == [];
    case Node(cs) =>
      SumErrorsIsLeafSum(cs);
  }

  lemma {:induction false} SumErrorsIsLeafSum(cs: seq<TokenTree>)
    ensures SumErrors(cs) == ErrorSum(LeavesOf(cs))
    decreases cs, 0
  {
    if cs != [] {
      SumErrorIsLeafSum(cs[0]);
      SumErrorsIsLeafSum(cs[1..]);
      ErrorSumAppend(Leaves(cs[0]), LeavesOf(cs[1..]));
    }
  }

  /** With every token error in [0, 1], the sum lies between 0 and the number
      of tokens. */
  lemma {:induction false} ErrorSumBounds(ts: seq<NumericToken>)
    requires forall k :: 0 <= k < |ts| ==> 0.0 <= ts[k].error <= 1.0
    ensures 0.0 <= ErrorSum(ts) <= |ts| as real
    decreases |ts|
  {
    if ts != [] {
      ErrorSumBounds(ts[1..]);
    }
  }

  // ---------------------------------------------------------------------------
  // Candidates for one raw token (parse_tokens and the fraction contexts)
  // ---------------------------------------------------------------------------

  /** `current_token_list`: `[None]`, a list of tokens, or a token followed by
      `None` (what the "тысяча" and "ноль" rules build from a `[None]`). */
  datatype Cand = NotNumeral | Toks(ts: seq<NumericToken>) | Dangling(first: NumericToken)

  /** `parse_tokens(text_line, ..., fraction)`: the main table first, then,
      for a fraction, the fraction table, which raises KeyError when the word
      is in neither. */
  function ParseTokens(tables: Tables, w: string, fraction: bool): (r: Result<Cand, ParseError>)
    ensures r.Err? <==> fraction && w !in tables.tokens && w !in tables.fractions
    ensures r.Err? ==> r.error == KeyError(w)
    ensures r.Ok? ==> (r.value.NotNumeral? <==> !fraction && w !in tables.tokens)
    ensures r.Ok? && r.value.Toks? ==>
      r.value.ts == [Fresh(if w in tables.tokens then tables.tokens[w] else tables.fractions[w])]
  {
    if w in tables.tokens then Ok(Toks([Fresh(tables.tokens[w])]))
    else if fraction then
      (if w in tables.fractions then Ok(Toks([Fresh(tables.fractions[w])])) else Err(KeyError(w)))
    else Ok(NotNumeral)
  }

  /** `w in ws` for a Python list of words. */
  predicate OneOf(w: string, ws: seq<string>)
  {
    ws != [] && (w == ws[0] || OneOf(w, ws[1..]))
  }

  lemma {:induction false} OneOfIsIn(w: string, ws: seq<string>)
    ensures OneOf(w, ws) <==> w in ws
  {
    if ws != [] {
      OneOfIsIn(w, ws[1..]);
      assert ws == [ws[0]] + ws[1..];
    }
  }

  /** The words that may end the whole part of a decimal fraction. */
  const WholeWords: seq<string> := ["целых", "целой", "целым", "целая"]

  /** The fraction words of the first to fourth order, each list checked
      after a numeral. */
  const TenthWords: seq<string> := ["десятых", "десятой", "десятым", "десятая"]
  const HundredthWords: seq<string> := ["сотых", "сотой", "сотым", "сотая"]
  const ThousandthWords: seq<string> := ["тысячных", "тысячной", "тысячным", "тысячная"]
  const TenThousandthWords: seq<string> := ["десятитысячных", "десятитысячной", "десятитысячным", "десятитысячная"]

  /** A word in one of the four order lists. */
  predicate OrderWord(w: string)
  {
    OneOf(w, TenthWords) || OneOf(w, HundredthWords) || OneOf(w, ThousandthWords) || OneOf(w, TenThousandthWords)
  }

  /** A word that puts a token in a fraction context. */
  predicate FractionWord(w: string)
  {
    OneOf(w, WholeWords) || OrderWord(w)
  }

  /** `raw[j] in fractions or raw[j+1] in fractions or ...` over k positions,
      where an index past the end raises IndexError, which the parser catches:
      false in that case. */
  function FractionWithin(tables: Tables, raw: seq<string>, j: nat, k: nat): bool
    decreases k
  {
    if k == 0 || j >= |raw| then false
    else raw[j] in tables.fractions || FractionWithin(tables, raw, j + 1, k - 1)
  }

  /** The guarded `try` block for a whole-part word at `idx`: the previous and
      next raw tokens are numerals, or the next is "и", and one of the three
      after that is a fraction word. Either operand of the `or` that Python
      evaluates reads `raw[idx + 1]`, so a last token never qualifies. */
  function FractionFollows(tables: Tables, raw: seq<string>, idx: nat): bool
    requires 0 < idx < |raw|
  {
    if idx + 1 >= |raw| then false
    else
      ((raw[idx - 1] in tables.tokens && raw[idx + 1] in tables.tokens) || raw[idx + 1] == "и")
      && FractionWithin(tables, raw, idx + 2, 3)
  }

  /** `raw_token.strip(string.punctuation)` */
  function Clean(w: string): string
  {
    PyText.Strip(w, PyText.IsAsciiPunct)
  }

  /** The one exception a lookup raises: a KeyError for a fraction word in
      neither table. */
  predicate MissingFraction(tables: Tables, e: ParseError)
  {
    e.KeyError? && FractionWord(e.word) && e.word !in tables.tokens && e.word !in tables.fractions
  }

  /** A word outside ASCII, such as any Cyrillic word, loses nothing to the
      punctuation strip. */
  lemma {:induction false} NoPunctClean(w: string)
    requires forall i :: 0 <= i < |w| ==> w[i] as int > 126
    ensures Clean(w) == w
  {
    PyText.StripUnchanged(w, PyText.IsAsciiPunct);
  }

  /** `current_token_list` after lines 502-542: the token read from the main
      table, or, in a fraction context, from both tables. */
  function Candidates(tables: Tables, raw: seq<string>, idx: nat): (r: Result<Cand, ParseError>)
    requires idx < |raw|
    ensures r.Err? ==> r.error == KeyError(Clean(raw[idx])) && MissingFraction(tables, r.error)
    ensures r.Ok? && r.value.Toks? ==> |r.value.ts| == 1 && FreshTokens(r.value.ts)
    ensures !r.Ok? || !r.value.Dangling?
  {
    var clean := Clean(raw[idx]);
    var fraction :=
      (idx != 0 && OneOf(clean, WholeWords) && FractionFollows(tables, raw, idx))
      || (idx != 0 && OrderWord(clean) && raw[idx - 1] in tables.tokens);
    var r := ParseTokens(tables, clean, fraction);
    if r.Err? then
      assert FractionWord(clean);
      MissingWord(tables, clean);
      r
    else r
  }

  lemma {:induction false} MissingWord(tables: Tables, w: string)
    requires FractionWord(w) && w !in tables.tokens && w !in tables.fractions
    ensures MissingFraction(tables, KeyError(w))
  {
  }

  // ---------------------------------------------------------------------------
  // The token loop of `parse`
  // ---------------------------------------------------------------------------

  /** The token loop's variables: `all_token_list`, `token_list`,
      `result_text_list`, `left_space_for_number`, `current_level`. */
  datatype PState = PState(all: seq<seq<NumericToken>>, group: seq<NumericToken>, texts: seq<string>,
                           leftSpace: bool, level: int)

  const Init: PState := PState([], [], [], false, 0)

  /** `if len(token_list) > 0: all_token_list.append(token_list); token_list = []` */
  function Flush(st: PState): PState
  {
    if |st.group| > 0 then st.(all := st.all + [st.group], group := []) else st
  }

  /** `current_token_list = [token, current_token_list[0]]` */
  function Prepend(t: NumericToken, c: Cand): Cand
    requires !c.Toks? || c.ts != []
  {
    match c
    case NotNumeral => Dangling(t)
    case Toks(ts) => Toks([t, ts[0]])
    case Dangling(f) => Toks([t, f])
  }

  /** The candidates and state after one of the special words. */
  datatype Staged = Staged(cand: Cand, st: PState)

  /** Which of the rules of lines 544-597 a raw token triggers. */
  datatype SpecialWord = Ordinary | Thousand | Ordinal(value: real) | Zero

  /** "тысяча" gains a leading one; "тысячная", "десятая" and "сотая" are
      read as 1000, 10 and 100; "ноль" gains a leading zero. Except for
      "ноль", a preceding "одна" disables the rule; "ноль" needs not to be
      first, or the last token (`raw[-1]`) to be "ноль" too. */
  function SpecialKind(raw: seq<string>, idx: nat): (k: SpecialWord)
    requires idx < |raw|
    ensures k.Thousand? ==> raw[idx] == "тысяча"
    ensures k.Zero? ==> raw[idx] == "ноль"
  {
    var w := raw[idx];
    var notAfterOne := idx == 0 || raw[idx - 1] != "одна";
    if w == "тысяча" && notAfterOne then Thousand
    else if w == "тысячная" && notAfterOne then Ordinal(1000.0)
    else if w == "десятая" && notAfterOne then Ordinal(10.0)
    else if w == "сотая" && notAfterOne then Ordinal(100.0)
    else if w == "ноль" && (idx != 0 || raw[|raw| - 1] == "ноль") then Zero
    else Ordinary
  }

  /** The candidates and state after the special-word rules: each rule sets
      the candidates and the level and closes the current group. */
  function Special(raw: seq<string>, idx: nat, c: Cand, st: PState): Staged
    requires idx < |raw|
    requires !c.Toks? || c.ts != []
  {
    match SpecialKind(raw, idx)
    case Thousand =>
      Staged(Prepend(Fresh(Numeral(1.0, 1, false, false)), c), Flush(st).(level := 1, leftSpace := false))
    case Ordinal(v) =>
      Staged(Toks([Fresh(Numeral(v, 1, false, false))]), Flush(st).(level := 0, leftSpace := false))
    case Zero =>
      Staged(Prepend(Fresh(Numeral(0.0, 1, false, false)), c), Flush(st).(level := 0, leftSpace := false))
    case Ordinary => Staged(c, st)
  }

  /** The level-split rule (lines 604-605): both levels non-zero, and the
      level rises but stays at most 3, or stays equal, or falls to at most 2
      on an 11-19 word. */
  predicate SplitsGroup(previous: int, current: int, elevenToNineteen: bool)
  {
    current != 0 && previous != 0
    && ((previous < current <= 3) || current == previous || (current < previous <= 2 && elevenToNineteen))
  }

  /** Lines 599-608: a recognised candidate sets the level to that of its last
      token and may close the group (even an empty one); a trailing `None`
      raises. */
  function LevelSplit(c: Cand, st: PState): (r: Result<PState, ParseError>)
    ensures r.Err? <==> c.Dangling?
    ensures r.Err? ==> r.error == AttributeError
    ensures c.NotNumeral? ==> r == Ok(st)
  {
    match c
    case NotNumeral => Ok(st)
    case Dangling(_) => Err(AttributeError)
    case Toks(ts) =>
      if ts == [] then Ok(st)
      else
        var cur := ts[|ts| - 1].numeral.level;
        if SplitsGroup(st.level, cur, ts[0].numeral.isElevenToNineteen) then
          Ok(st.(all := st.all + [st.group], group := [], leftSpace := false, level := cur))
        else Ok(st.(level := cur))
  }

  /** Lines 610-622: a candidate all of whose tokens exceed the error limit
      counts as no numeral. */
  function Screen(c: Cand): (r: Cand)
    ensures !c.Dangling? ==> !r.Dangling?
  {
    if c.Toks? && forall k :: 0 <= k < |c.ts| ==> c.ts[k].error > MaxTokenError then NotNumeral else c
  }

  /** Lines 624-639: numerals join the group, after a "" placeholder if the
      group has none yet; anything else is copied to the text, and closes the
      group and resets the level. */
  function Accept(rawToken: string, c: Cand, st: PState): PState
    requires !c.Dangling?
  {
    match c
    case Toks(ts) =>
      var s1 := if !st.leftSpace then st.(texts := st.texts + [""], leftSpace := true) else st;
      s1.(group := s1.group + ts)
    case NotNumeral =>
      Flush(st.(texts := st.texts + [rawToken], leftSpace := false, level := 0))
  }

  /** One iteration of the token loop. */
  function Step(tables: Tables, raw: seq<string>, idx: nat, st: PState): Result<PState, ParseError>
    requires idx < |raw|
  {
    match Candidates(tables, raw, idx)
    case Err(e) => Err(e)
    case Ok(c0) =>
      var sp := Special(raw, idx, c0, st);
      match LevelSplit(sp.cand, sp.st)
      case Err(e) => Err(e)
      case Ok(s2) => Ok(Accept(raw[idx], Screen(sp.cand), s2))
  }

  /** Step as a total function of the position, for the fold. */
  function StepAt(tables: Tables, raw: seq<string>): (nat, PState) -> Result<PState, ParseError>
  {
    (i: nat, st: PState) => if i < |raw| then Step(tables, raw, i, st) else Ok(st)
  }

  /** A step function run over the first n positions from `Init`; an
      exception ends the loop. */
  function Fold(f: (nat, PState) -> Result<PState, ParseError>, n: nat): Result<PState, ParseError>
  {
    if n == 0 then Ok(Init)
    else match Fold(f, n - 1)
      case Err(e) => Err(e)
      case Ok(st) => f(n - 1, st)
  }

  /** Once raised, an exception is the outcome of the whole loop. */
  lemma {:induction false} FoldErrSticks(f: (nat, PState) -> Result<PState, ParseError>, n: nat, m: nat)
    requires n <= m
    requires Fold(f, n).Err?
    ensures Fold(f, m) == Fold(f, n)
    decreases m - n
  {
    if n < m {
      FoldErrSticks(f, n, m - 1);
    }
  }

  /** The state after the first n raw tokens. */
  function TokeniseUpTo(tables: Tables, raw: seq<string>, n: nat): Result<PState, ParseError>
  {
    Fold(StepAt(tables, raw), n)
  }

  /** The groups and the text with placeholders, after the final flush. */
  function Tokenised(tables: Tables, raw: seq<string>): Result<PState, ParseError>
  {
    match TokeniseUpTo(tables, raw, |raw|)
    case Err(e) => Err(e)
    case Ok(st) => Ok(Flush(st))
  }

  /** Token `n` advances the loop by one step. */
  lemma {:induction false} TokeniseNext(tables: Tables, raw: seq<string>, n: nat, st: PState)
    requires n < |raw|
    requires TokeniseUpTo(tables, raw, n) == Ok(st)
    ensures TokeniseUpTo(tables, raw, n + 1) == Step(tables, raw, n, st)
  {
  }

  /** An exception at token `n` is the outcome of the whole loop. */
  lemma {:induction false} TokeniseFails(tables: Tables, raw: seq<string>, n: nat, st: PState)
    requires n < |raw|
    requires TokeniseUpTo(tables, raw, n) == Ok(st)
    requires Step(tables, raw, n, st).Err?
    ensures Tokenised(tables, raw) == Step(tables, raw, n, st)
  {
    FoldErrSticks(StepAt(tables, raw), n + 1, |raw|);
  }

  /** Lines 544-597 on the loop's variables. */
  method SpecialRule(raw: seq<string>, tokenIdx: nat, c: Cand, st: PState) returns (c': Cand, st': PState)
    requires tokenIdx < |raw|
    requires !c.Toks? || c.ts != []
    ensures Staged(c', st') == Special(raw, tokenIdx, c, st)
  {
    var rawToken := raw[tokenIdx];
    var notAfterOne := tokenIdx == 0 || raw[tokenIdx - 1] != "одна";
    c', st' := c, st;
    var special := true;
    if rawToken == "тысяча" && notAfterOne {
      c' := Prepend(Fresh(Numeral(1.0, 1, false, false)), c);
      st' := st'.(level := 1);
    } else if rawToken == "тысячная" && notAfterOne {
      c' := Toks([Fresh(Numeral(1000.0, 1, false, false))]);
      st' := st'.(level := 0);
    } else if rawToken == "десятая" && notAfterOne {
      c' := Toks([Fresh(Numeral(10.0, 1, false, false))]);
      st' := st'.(level := 0);
    } else if rawToken == "сотая" && notAfterOne {
      c' := Toks([Fresh(Numeral(100.0, 1, false, false))]);
      st' := st'.(level := 0);
    } else if rawToken == "ноль" && (tokenIdx != 0 || raw[|raw| - 1] == "ноль") {
      c' := Prepend(Fresh(Numeral(0.0, 1, false, false)), c);
      st' := st'.(level := 0);
    } else {
      special := false;
    }
    if special {
      if |st'.group| > 0 {
        st' := st'.(all := st'.all + [st'.group], group := []);
      }
      st' := st'.(leftSpace := false);
    }
  }

  /** Lines 599-608 on the loop's variables. */
  method LevelRule(c: Cand, st: PState) returns (r: Result<PState, ParseError>)
    ensures r == LevelSplit(c, st)
  {
    if c.NotNumeral? {
      return Ok(st);
    }
    if c.Dangling? {
      return Err(AttributeError);
    }
    var s := st;
    if |c.ts| > 0 {
      var previousLevel := s.level;
      var currentLevel := c.ts[|c.ts| - 1].numeral.level;
      s := s.(level := currentLevel);
      if SplitsGroup(previousLevel, currentLevel, c.ts[0].numeral.isElevenToNineteen) {
        s := s.(all := s.all + [s.group], group := [], leftSpace := false);
      }
    }
    return Ok(s);
  }

  /** Lines 610-622: the search for a token within the error limit. */
  method ScreenRule(c: Cand) returns (c': Cand)
    requires !c.Dangling?
    ensures c' == Screen(c)
  {
    var badTokens := true;
    if c.Toks? {
      var k := 0;
      while k < |c.ts|
        invariant 0 <= k <= |c.ts|
        invariant badTokens
        invariant forall j :: 0 <= j < k ==> c.ts[j].error > MaxTokenError
      {
        if c.ts[k].error <= MaxTokenError {
          badTokens := false;
          break;
        }
        k := k + 1;
      }
      assert !badTokens ==> c.ts[k].error <= MaxTokenError;
    }
    c' := if badTokens then NotNumeral else c;
  }

  /** Lines 624-639 on the loop's variables. */
  method AcceptRule(rawToken: string, c: Cand, st: PState) returns (st': PState)
    requires !c.Dangling?
    ensures st' == Accept(rawToken, c, st)
  {
    st' := st;
    if c.Toks? {
      if !st'.leftSpace {
        st' := st'.(texts := st'.texts + [""], leftSpace := true);
      }
      st' := st'.(group := st'.group + c.ts);
    } else {
      st' := st'.(texts := st'.texts + [rawToken], leftSpace := false, level := 0);
      if |st'.group| > 0 {
        st' := st'.(all := st'.all + [st'.group], group := []);
      }
    }
  }

  /** The token loop of `RussianNumbers.parse` (lines 500-643) and the final
      flush (lines 641-643). */
  method Tokenise(tables: Tables, raw: seq<string>) returns (r: Result<PState, ParseError>)
    ensures r == Tokenised(tables, raw)
  {
    var st := Init;
    for tokenIdx := 0 to |raw|
      invariant TokeniseUpTo(tables, raw, tokenIdx) == Ok(st)
    {
      var parsed := Candidates(tables, raw, tokenIdx);
      if parsed.Err? {
        TokeniseFails(tables, raw, tokenIdx, st);
        return Err(parsed.error);
      }
      var c, s1 := SpecialRule(raw, tokenIdx, parsed.value, st);
      var split := LevelRule(c, s1);
      if split.Err? {
        TokeniseFails(tables, raw, tokenIdx, st);
        return split;
      }
      var c2 := ScreenRule(c);
      var s2 := AcceptRule(raw[tokenIdx], c2, split.value);
      assert s2 == Step(tables, raw, tokenIdx, st).value;
      st := s2;
    }
    if |st.group| > 0 {
      st := st.(all := st.all + [st.group], group := []);
    }
    return Ok(st);
  }

  // ---------------------------------------------------------------------------
  // What the token loop keeps
  // ---------------------------------------------------------------------------

  /** The number of "" placeholders in the text list. */
  function Placeholders(texts: seq<string>): nat
  {
    if texts == [] then 0
    else Placeholders(texts[..|texts| - 1]) + (if texts[|texts| - 1] == "" then 1 else 0)
  }

  lemma {:induction false} PlaceholdersSnoc(texts: seq<string>, x: string)
    ensures Placeholders(texts + [x]) == Placeholders(texts) + (if x == "" then 1 else 0)
  {
    assert (texts + [x])[..|texts|] == texts;
  }

  /** Tokens as the parser creates them: no error, not significant. */
  predicate FreshTokens(ts: seq<NumericToken>)
  {
    forall j :: 0 <= j < |ts| ==> ts[j].error == 0.0 && !ts[j].isSignificant
  }

  /** What the special-word rules need of the main table: "тысяча" and
      "ноль" are numerals, and "тысяча" is not at a unit, ten or hundred
      level. */
  predicate ValidTables(tables: Tables)
  {
    && "тысяча" in tables.tokens && "ноль" in tables.tokens
    && !(1 <= tables.tokens["тысяча"].level <= 3)
  }

  /** The part of the invariant that holds inside an iteration too: a
      placeholder is open exactly while a group is being collected, closed
      groups are non-empty, and each group has taken one placeholder. */
  predicate Collecting(st: PState)
  {
    && (st.leftSpace <==> st.group != [])
    && (forall k :: 0 <= k < |st.all| ==> st.all[k] != [] && FreshTokens(st.all[k]))
    && FreshTokens(st.group)
    && Placeholders(st.texts) == |st.all| + (if st.group == [] then 0 else 1)
  }

  /** The loop's variables between two tokens: besides the above, a non-zero
      level implies an open group. */
  predicate Inv(st: PState)
  {
    Collecting(st) && (st.level != 0 ==> st.group != [])
  }

  /** Closing the group as the special rules do keeps the invariant, with no
      group open. */
  lemma {:induction false} FlushKeeps(st: PState, level: int)
    requires Collecting(st)
    ensures Collecting(Flush(st).(level := level, leftSpace := false))
    ensures Flush(st).(level := level, leftSpace := false).group == []
  {
  }

  lemma {:induction false} InitInv()
    ensures Inv(Init)
  {
  }

  /** A word of the main table is read from it, in a fraction context or
      not. */
  lemma {:induction false} KnownCandidate(tables: Tables, raw: seq<string>, idx: nat)
    requires idx < |raw| && Clean(raw[idx]) in tables.tokens
    ensures Candidates(tables, raw, idx) == Ok(Toks([Fresh(tables.tokens[Clean(raw[idx])])]))
  {
  }

  lemma {:induction false} ThousandCandidate(tables: Tables, raw: seq<string>, idx: nat)
    requires idx < |raw| && raw[idx] == "тысяча" && "тысяча" in tables.tokens
    ensures Candidates(tables, raw, idx) == Ok(Toks([Fresh(tables.tokens["тысяча"])]))
  {
    NoPunctClean("тысяча");
    KnownCandidate(tables, raw, idx);
  }

  lemma {:induction false} ZeroCandidate(tables: Tables, raw: seq<string>, idx: nat)
    requires idx < |raw| && raw[idx] == "ноль" && "ноль" in tables.tokens
    ensures Candidates(tables, raw, idx) == Ok(Toks([Fresh(tables.tokens["ноль"])]))
  {
    NoPunctClean("ноль");
    KnownCandidate(tables, raw, idx);
  }

  /** After the special-word rules: the candidate is a non-empty list of fresh
      tokens or no numeral (then nothing changed), the state keeps the
      invariant except that "тысяча" leaves level 1 with no group. */
  lemma {:induction false} SpecialKeeps(tables: Tables, raw: seq<string>, idx: nat, c: Cand, st: PState)
    requires ValidTables(tables) && idx < |raw| && Inv(st)
    requires c.NotNumeral? || (c.Toks? && |c.ts| == 1 && FreshTokens(c.ts))
    requires SpecialKind(raw, idx).Thousand? ==> c == Toks([Fresh(tables.tokens["тысяча"])])
    requires SpecialKind(raw, idx).Zero? ==> c.Toks?
    ensures var sp := Special(raw, idx, c, st);
      && (sp.cand.NotNumeral? ==> sp.st == st)
      && (sp.cand.Toks? ==> sp.cand.ts != [] && FreshTokens(sp.cand.ts))
      && !sp.cand.Dangling?
      && Collecting(sp.st)
      && (sp.st.level != 0 && sp.st.group == [] ==>
            sp.st.level == 1 && sp.cand.Toks? && !sp.cand.ts[0].numeral.isElevenToNineteen
            && !(1 <= sp.cand.ts[|sp.cand.ts| - 1].numeral.level <= 3))
  {
    match SpecialKind(raw, idx)
    case Thousand =>
      FlushKeeps(st, 1);
    case Ordinal(_) =>
      FlushKeeps(st, 0);
    case Zero =>
      FlushKeeps(st, 0);
    case Ordinary =>
  }

  /** The level split keeps what the special-word rules leave, and closes
      only a non-empty group. */
  lemma {:induction false} LevelSplitKeeps(c: Cand, s: PState)
    requires c.Toks? ==> c.ts != [] && FreshTokens(c.ts)
    requires !c.Dangling? && Collecting(s)
    requires c.NotNumeral? ==> s.level != 0 ==> s.group != []
    requires s.level != 0 && s.group == [] ==>
      s.level == 1 && c.Toks? && !c.ts[0].numeral.isElevenToNineteen
      && !(1 <= c.ts[|c.ts| - 1].numeral.level <= 3)
    ensures LevelSplit(c, s).Ok?
    ensures Collecting(LevelSplit(c, s).value)
    ensures c.NotNumeral? ==> Inv(LevelSplit(c, s).value)
  {
  }

  /** Accepting a screened candidate re-establishes the invariant. */
  lemma {:induction false} AcceptKeeps(rawToken: string, c: Cand, s: PState)
    requires rawToken != ""
    requires c.Toks? ==> c.ts != [] && FreshTokens(c.ts)
    requires !c.Dangling? && Collecting(s)
    ensures Inv(Accept(rawToken, Screen(c), s))
  {
    var c2 := Screen(c);
    if c.Toks? {
      assert c.ts[0].error <= MaxTokenError;
    }
    assert c2 == c;
    if c2.Toks? {
      if !s.leftSpace {
        PlaceholdersSnoc(s.texts, "");
      }
    } else {
      PlaceholdersSnoc(s.texts, rawToken);
    }
  }

  /** One iteration keeps the invariant. */
  lemma {:induction false} StepKeeps(tables: Tables, raw: seq<string>, idx: nat, st: PState)
    requires ValidTables(tables) && idx < |raw| && raw[idx] != "" && Inv(st)
    ensures Step(tables, raw, idx, st).Ok? ==> Inv(Step(tables, raw, idx, st).value)
  {
    var cr := Candidates(tables, raw, idx);
    if cr.Ok? {
      SpecialCandidates(tables, raw, idx);
      SpecialKeeps(tables, raw, idx, cr.value, st);
      var sp := Special(raw, idx, cr.value, st);
      LevelSplitKeeps(sp.cand, sp.st);
      AcceptKeeps(raw[idx], sp.cand, LevelSplit(sp.cand, sp.st).value);
    }
  }

  /** The only exception an iteration raises is the KeyError of a fraction
      word. */
  lemma {:induction false} StepFails(tables: Tables, raw: seq<string>, idx: nat, st: PState)
    requires ValidTables(tables) && idx < |raw| && Inv(st)
    ensures Step(tables, raw, idx, st).Err? ==>
      Step(tables, raw, idx, st).error == KeyError(Clean(raw[idx])) && MissingFraction(tables, Step(tables, raw, idx, st).error)
  {
    if Candidates(tables, raw, idx).Ok? {
      StepPasses(tables, raw, idx, st);
    } else {
      StepRaises(tables, raw, idx, st);
    }
  }

  /** With its candidates read, an iteration raises nothing. */
  lemma {:induction false} StepPasses(tables: Tables, raw: seq<string>, idx: nat, st: PState)
    requires ValidTables(tables) && idx < |raw| && Inv(st)
    requires Candidates(tables, raw, idx).Ok?
    ensures Step(tables, raw, idx, st).Ok?
  {
    var cr := Candidates(tables, raw, idx);
    SpecialCandidates(tables, raw, idx);
    SpecialKeeps(tables, raw, idx, cr.value, st);
  }

  /** A lookup that raises ends the iteration with that exception. */
  lemma {:induction false} StepRaises(tables: Tables, raw: seq<string>, idx: nat, st: PState)
    requires idx < |raw| && Candidates(tables, raw, idx).Err?
    ensures Step(tables, raw, idx, st) == Err(Candidates(tables, raw, idx).error)
  {
  }

  /** The candidates of the tokens the special-word rules extend. */
  lemma {:induction false} SpecialCandidates(tables: Tables, raw: seq<string>, idx: nat)
    requires ValidTables(tables) && idx < |raw|
    ensures SpecialKind(raw, idx).Thousand? ==> Candidates(tables, raw, idx) == Ok(Toks([Fresh(tables.tokens["тысяча"])]))
    ensures SpecialKind(raw, idx).Zero? ==> Candidates(tables, raw, idx) == Ok(Toks([Fresh(tables.tokens["ноль"])]))
  {
    match SpecialKind(raw, idx)
    case Thousand => ThousandCandidate(tables, raw, idx);
    case Zero => ZeroCandidate(tables, raw, idx);
    case _ =>
  }

  /** A step function that keeps a property of the state, and raises only
      errors of a given kind, does so for the whole loop. */
  lemma {:induction false} FoldKeeps(f: (nat, PState) -> Result<PState, ParseError>, p: PState -> bool,
                                     q: ParseError -> bool, n: nat)
    requires p(Init)
    requires forall i: nat, st: PState :: i < n && p(st) ==>
      (f(i, st).Ok? ==> p(f(i, st).value)) && (f(i, st).Err? ==> q(f(i, st).error))
    ensures Fold(f, n).Ok? ==> p(Fold(f, n).value)
    ensures Fold(f, n).Err? ==> q(Fold(f, n).error)
  {
    if n > 0 {
      FoldKeeps(f, p, q, n - 1);
    }
  }

  /** Every state the loop reaches keeps the invariant; the only exception is
      the KeyError of a fraction word. */
  lemma {:induction false} TokeniseKeeps(tables: Tables, raw: seq<string>, n: nat)
    requires ValidTables(tables) && n <= |raw|
    requires forall k :: 0 <= k < |raw| ==> raw[k] != ""
    ensures TokeniseUpTo(tables, raw, n).Ok? ==> Inv(TokeniseUpTo(tables, raw, n).value)
    ensures TokeniseUpTo(tables, raw, n).Err? ==> MissingFraction(tables, TokeniseUpTo(tables, raw, n).error)
  {
    var f := StepAt(tables, raw);
    var p := (st: PState) => Inv(st);
    var q := (e: ParseError) => MissingFraction(tables, e);
    forall i: nat, st: PState | i < n && p(st)
      ensures (f(i, st).Ok? ==> p(f(i, st).value)) && (f(i, st).Err? ==> q(f(i, st).error))
    {
      StepKeeps(tables, raw, i, st);
      StepFails(tables, raw, i, st);
    }
    InitInv();
    FoldKeeps(f, p, q, n);
  }

  /** After the final flush every group is non-empty and fresh, and the text
      holds exactly one placeholder per group, in order. */
  lemma {:induction false} TokenisedGroups(tables: Tables, raw: seq<string>)
    requires ValidTables(tables)
    requires forall k :: 0 <= k < |raw| ==> raw[k] != ""
    ensures Tokenised(tables, raw).Err? ==> MissingFraction(tables, Tokenised(tables, raw).error)
    ensures Tokenised(tables, raw).Ok? ==>
      var st := Tokenised(tables, raw).value;
      && st.group == []
      && (forall k :: 0 <= k < |st.all| ==> st.all[k] != [] && FreshTokens(st.all[k]))
      && Placeholders(st.texts) == |st.all|
  {
    TokeniseKeeps(tables, raw, |raw|);
  }

  // ---------------------------------------------------------------------------
  // Evaluating one group (lines 649-753)
  // ---------------------------------------------------------------------------

  /** An accumulator, `global_value` with `global_level` or `local_value`
      with `local_level`: the two of a pair are always set and cleared
      together. */
  datatype Acc = Acc(value: real, level: int)

  /** The evaluation's variables besides the tokens it annotates. */
  datatype EState = EState(global: Option<Acc>, local: Option<Acc>, critical: bool)

  const EInit: EState := EState(None, None, false)

  /** The branch for a multiplier below the global level while a local value
      is pending, when the multiplier is not one of the four fraction orders:
      as written (nothing is added) or as evidently intended. */
  datatype Rule = AsWritten | Corrected

  /** `local_value * value` */
  function Scaled(local: real, factor: real): real
  {
    local * factor
  }

  /** Lines 672-690: the global value after a multiplier `v` below the global
      level. */
  function Lower(rule: Rule, round: (real, int) -> real, g: real, local: Option<Acc>, v: real): real
  {
    match local
    case None => g + v
    case Some(l) =>
      if v == 0.1 then round(g + Scaled(l.value, v), 1)
      else if v == 0.01 then round(g + Scaled(l.value, v), 2)
      else if v == 0.001 then round(g + Scaled(l.value, v), 3)
      else if v == 0.0001 then round(g + Scaled(l.value, v), 4)
      else if rule.AsWritten? then g
      else g + Scaled(l.value, v)
  }

  /** One iteration of the evaluation loop (lines 657-722): tokens over the
      error limit are skipped; every other token becomes significant, and a
      level mismatch sets its error to 1 and marks the group critical. */
  function EvalToken(rule: Rule, round: (real, int) -> real, es: EState, t: NumericToken): (r: (EState, NumericToken))
    ensures r.1.numeral == t.numeral
    ensures r.1.isSignificant <==> t.isSignificant || t.error <= MaxTokenError
    ensures r.1.error == t.error || (t.error <= MaxTokenError && r.1.error == 1.0)
    ensures r.0.critical <==> es.critical || r.1.error != t.error
    ensures t.error > MaxTokenError ==> r.0 == es
  {
    SumErrorIsLeafSum(Leaf(t));
    assert [t][1..] == [];
    if SumError(Leaf(t)) > MaxTokenError then (es, t)
    else
      var v := t.numeral.value;
      var level := t.numeral.level;
      var sig := t.(isSignificant := true);
      var clash := (es.(critical := true), t.(error := 1.0, isSignificant := true));
      if t.numeral.isMultiplier then
        match es.global
        case None =>
          var gv := if es.local.None? then v else round(Scaled(es.local.value.value, v), 5);
          (EState(Some(Acc(gv, level)), None, es.critical), sig)
        case Some(g) =>
          if g.level > level then (EState(Some(Acc(Lower(rule, round, g.value, es.local, v), level)), None, es.critical), sig)
          else clash
      else
        match es.local
        case None => (es.(local := Some(Acc(v, level))), sig)
        case Some(l) =>
          if l.level > level then (es.(local := Some(Acc(l.value + v, level))), sig)
          else clash
  }

  /** The evaluation loop over the first n tokens of a group: the state and
      the annotated tokens. Each token keeps its numeral, becomes significant
      exactly when it was processed, and changes its error only by a
      mismatch, which is what makes the group critical. */
  function EvalUpTo(rule: Rule, round: (real, int) -> real, g: seq<NumericToken>, n: nat): (r: (EState, seq<NumericToken>))
    requires n <= |g|
    ensures |r.1| == n
    ensures forall k :: 0 <= k < n ==>
      && r.1[k].numeral == g[k].numeral
      && (r.1[k].isSignificant <==> g[k].isSignificant || g[k].error <= MaxTokenError)
      && (r.1[k].error == g[k].error || (g[k].error <= MaxTokenError && r.1[k].error == 1.0))
    ensures r.0.critical <==> exists k :: 0 <= k < n && r.1[k].error != g[k].error
  {
    if n == 0 then (EInit, [])
    else
      var p := EvalUpTo(rule, round, g, n - 1);
      var q := EvalToken(rule, round, p.0, g[n - 1]);
      (q.0, p.1 + [q.1])
  }

  /** The error sum over the significant tokens. */
  function SigSum(ts: seq<NumericToken>): real
  {
    if ts == [] then 0.0
    else SigSum(ts[..|ts| - 1]) + (if ts[|ts| - 1].isSignificant then ts[|ts| - 1].error else 0.0)
  }

  /** The number of significant tokens. */
  function SigCount(ts: seq<NumericToken>): (c: nat)
    ensures c <= |ts|
    ensures c == 0 <==> forall k :: 0 <= k < |ts| ==> !ts[k].isSignificant
  {
    if ts == [] then 0
    else
      var p := ts[..|ts| - 1];
      assert forall k :: 0 <= k < |p| ==> p[k] == ts[k];
      SigCount(p) + (if ts[|ts| - 1].isSignificant then 1 else 0)
  }

  lemma {:induction false} SigSumBounds(ts: seq<NumericToken>)
    requires forall k :: 0 <= k < |ts| ==> 0.0 <= ts[k].error <= 1.0
    ensures 0.0 <= SigSum(ts) <= SigCount(ts) as real
  {
    if ts != [] {
      SigSumBounds(ts[..|ts| - 1]);
    }
  }

  /** With non-negative errors the sum is zero exactly when every
      significant token has error zero. */
  lemma {:induction false} SigSumZero(ts: seq<NumericToken>)
    requires forall k :: 0 <= k < |ts| ==> 0.0 <= ts[k].error
    ensures SigSum(ts) == 0.0 <==> forall k :: 0 <= k < |ts| && ts[k].isSignificant ==> ts[k].error == 0.0
  {
    if ts != [] {
      var p := ts[..|ts| - 1];
      SigSumZero(p);
      assert forall k :: 0 <= k < |p| ==> p[k] == ts[k];
      SigSumNonNegative(p);
    }
  }

  lemma {:induction false} SigSumNonNegative(ts: seq<NumericToken>)
    requires forall k :: 0 <= k < |ts| ==> 0.0 <= ts[k].error
    ensures 0.0 <= SigSum(ts)
  {
    if ts != [] {
      SigSumNonNegative(ts[..|ts| - 1]);
    }
  }

  /** When every token is significant, all of them are counted. */
  lemma {:induction false} SigCountAll(ts: seq<NumericToken>)
    requires forall k :: 0 <= k < |ts| ==> ts[k].isSignificant
    ensures SigCount(ts) == |ts|
  {
    if ts != [] {
      SigCountAll(ts[..|ts| - 1]);
    }
  }

  /** Lines 739-745: a critical error doubles the score, capped at 1. */
  function Crit(e: real, critical: bool): real
  {
    if !critical then e else if e >= 0.5 then 1.0 else e * 2.0
  }

  /** Lines 724-745: 1 for an empty group; otherwise the mean error of the
      significant tokens, which raises ZeroDivisionError if there are none. */
  function TotalError(ts: seq<NumericToken>, critical: bool): Result<real, ParseError>
  {
    if |ts| == 0 then Ok(Crit(1.0, critical))
    else if SigCount(ts) == 0 then Err(ZeroDivisionError)
    else Ok(Crit(SigSum(ts) / SigCount(ts) as real, critical))
  }

  /** Lines 747-753: the sum of whichever accumulators are set. */
  function GroupValue(es: EState): real
  {
    (if es.global.Some? then es.global.value.value else 0.0)
    + (if es.local.Some? then es.local.value.value else 0.0)
  }

  /** The `ParserResult` of one group. The evaluation fails exactly when the
      group is non-empty and no token is significant or within the error
      limit. */
  function EvalGroup(rule: Rule, round: (real, int) -> real, g: seq<NumericToken>): (r: Result<ParserResult, ParseError>)
    ensures r.Err? <==> |g| > 0 && forall k :: 0 <= k < |g| ==> !g[k].isSignificant && g[k].error > MaxTokenError
    ensures r.Err? ==> r.error == ZeroDivisionError
  {
    var p := EvalUpTo(rule, round, g, |g|);
    match TotalError(p.1, p.0.critical)
    case Err(e) => Err(e)
    case Ok(e) => Ok(ParserResult(GroupValue(p.0), e))
  }

  /** With token errors in [0, 1], the group's error is in [0, 1]. */
  lemma {:induction false} GroupErrorBounds(rule: Rule, round: (real, int) -> real, g: seq<NumericToken>)
    requires forall k :: 0 <= k < |g| ==> 0.0 <= g[k].error <= 1.0
    requires EvalGroup(rule, round, g).Ok?
    ensures 0.0 <= EvalGroup(rule, round, g).value.error <= 1.0
  {
    var p := EvalUpTo(rule, round, g, |g|);
    if |g| > 0 {
      SigSumBounds(p.1);
      MeanBounds(SigSum(p.1), SigCount(p.1) as real);
    }
  }

  lemma {:induction false} MeanBounds(s: real, c: real)
    requires 0.0 <= s <= c && c > 0.0
    ensures 0.0 <= s / c <= 1.0
  {
    assert s / c * c == s;
  }

  /** A group of fresh tokens is evaluated without exception, and its error
      is zero exactly when no token disagrees with its predecessors' levels. */
  lemma {:induction false} GroupErrorZero(rule: Rule, round: (real, int) -> real, g: seq<NumericToken>)
    requires g != [] && FreshTokens(g)
    ensures EvalGroup(rule, round, g).Ok?
    ensures EvalGroup(rule, round, g).value.error == 0.0 <==> !EvalUpTo(rule, round, g, |g|).0.critical
  {
    FreshGroupOk(rule, round, g);
    AnnotatedFresh(rule, round, g);
    var p := EvalUpTo(rule, round, g, |g|);
    assert p.1[0].isSignificant;
    CritZero(p.1, p.0.critical);
  }

  /** Every annotated token of a fresh group is significant; a critical group
      has a token with a positive error, and otherwise every error is zero. */
  lemma {:induction false} AnnotatedFresh(rule: Rule, round: (real, int) -> real, g: seq<NumericToken>)
    requires FreshTokens(g)
    ensures var p := EvalUpTo(rule, round, g, |g|);
      && (forall k :: 0 <= k < |g| ==> p.1[k].isSignificant && 0.0 <= p.1[k].error)
      && (p.0.critical ==> exists k :: 0 <= k < |g| && p.1[k].isSignificant && p.1[k].error > 0.0)
      && (!p.0.critical ==> forall k :: 0 <= k < |g| ==> p.1[k].error == 0.0)
  {
    var p := EvalUpTo(rule, round, g, |g|);
    if p.0.critical {
      var k :| 0 <= k < |g| && p.1[k].error != g[k].error;
      assert p.1[k].error == 1.0;
    }
  }

  /** The group error of annotated tokens with at least one significant
      token is zero exactly when the group is not critical, given that a
      critical group has a significant token with a positive error. */
  lemma {:induction false} CritZero(ts: seq<NumericToken>, critical: bool)
    requires |ts| > 0 && SigCount(ts) > 0
    requires forall k :: 0 <= k < |ts| ==> 0.0 <= ts[k].error
    requires critical ==> exists k :: 0 <= k < |ts| && ts[k].isSignificant && ts[k].error > 0.0
    requires !critical ==> forall k :: 0 <= k < |ts| ==> ts[k].error == 0.0
    ensures TotalError(ts, critical).Ok?
    ensures TotalError(ts, critical).value == 0.0 <==> !critical
  {
    SigSumZero(ts);
    SigSumNonNegative(ts);
    var m := SigSum(ts) / SigCount(ts) as real;
    assert TotalError(ts, critical) == Ok(Crit(m, critical));
    MeanZero(SigSum(ts), SigCount(ts) as real);
    CritIsZero(m, critical);
  }

  lemma {:induction false} MeanZero(s: real, c: real)
    requires 0.0 <= s && 0.0 < c
    ensures 0.0 <= s / c
    ensures s / c == 0.0 <==> s == 0.0
  {
    assert s / c * c == s;
  }

  lemma {:induction false} CritIsZero(e: real, critical: bool)
    requires 0.0 <= e
    ensures Crit(e, critical) == 0.0 <==> e == 0.0
  {
  }

  /** A group of fresh tokens is evaluated without exception. */
  lemma {:induction false} FreshGroupOk(rule: Rule, round: (real, int) -> real, g: seq<NumericToken>)
    requires g != [] && FreshTokens(g)
    ensures EvalGroup(rule, round, g).Ok?
  {
    assert g[0].error <= MaxTokenError;
  }



  /** The body of the evaluation loop (lines 657-722) on the loop's
      variables. */
  method EvaluateToken(rule: Rule, round: (real, int) -> real, es: EState, t: NumericToken) returns (es': EState, t': NumericToken)
    ensures (es', t') == EvalToken(rule, round, es, t)
  {
    es', t' := es, t;
    var currentError := SumError(Leaf(t));
    SumErrorIsLeafSum(Leaf(t));
    assert [t][1..] == [];
    if currentError > MaxTokenError {
      return;
    }
    var value := t.numeral.value;
    var level := t.numeral.level;
    if t.numeral.isMultiplier {
      if es.global.None? {
        var globalValue := if es.local.None? then value else round(Scaled(es.local.value.value, value), 5);
        es' := EState(Some(Acc(globalValue, level)), None, es.critical);
        t' := t.(isSignificant := true);
      } else if es.global.value.level > level {
        var globalValue := es.global.value.value;
        if es.local.None? {
          globalValue := globalValue + value;
        } else if value == 0.1 {
          globalValue := round(globalValue + Scaled(es.local.value.value, value), 1);
        } else if value == 0.01 {
          globalValue := round(globalValue + Scaled(es.local.value.value, value), 2);
        } else if value == 0.001 {
          globalValue := round(globalValue + Scaled(es.local.value.value, value), 3);
        } else if value == 0.0001 {
          globalValue := round(globalValue + Scaled(es.local.value.value, value), 4);
        } else if rule.Corrected? {
          globalValue := globalValue + Scaled(es.local.value.value, value);
        }
        es' := EState(Some(Acc(globalValue, level)), None, es.critical);
        t' := t.(isSignificant := true);
      } else {
        t' := t.(error := 1.0, isSignificant := true);
        es' := es'.(critical := true);
      }
    } else {
      if es.local.None? {
        es' := es'.(local := Some(Acc(value, level)));
        t' := t.(isSignificant := true);
      } else if es.local.value.level > level {
        es' := es'.(local := Some(Acc(es.local.value.value + value, level)));
        t' := t.(isSignificant := true);
      } else {
        t' := t.(error := 1.0, isSignificant := true);
        es' := es'.(critical := true);
      }
    }
  }

  /** The evaluation loop of lines 657-722 over a whole group. */
  method AnnotateGroup(rule: Rule, round: (real, int) -> real, g: seq<NumericToken>) returns (es: EState, tokens: seq<NumericToken>)
    ensures (es, tokens) == EvalUpTo(rule, round, g, |g|)
  {
    es := EInit;
    tokens := g;
    for i := 0 to |g|
      invariant |tokens| == |g| && tokens[i..] == g[i..]
      invariant EvalUpTo(rule, round, g, i) == (es, tokens[..i])
    {
      assert tokens[i] == g[i];
      var t;
      es, t := EvaluateToken(rule, round, es, tokens[i]);
      UpdateSlices(tokens, i, t);
      tokens := tokens[i := t];
    }
    assert tokens[..|g|] == tokens;
  }

  /** Replacing the element `i` extends the prefix by the new element and
      leaves the rest alone. */
  lemma {:induction false} UpdateSlices(ts: seq<NumericToken>, i: nat, t: NumericToken)
    requires i < |ts|
    ensures ts[i := t][..i + 1] == ts[..i] + [t]
    ensures ts[i := t][i + 1..] == ts[i + 1..]
  {
  }

  /** The loop of lines 731-735: the error sum and the number of the
      significant tokens. */
  method Tally(tokens: seq<NumericToken>) returns (totalError: real, significantTokenCount: nat)
    ensures totalError == SigSum(tokens) && significantTokenCount == SigCount(tokens)
  {
    totalError := 0.0;
    significantTokenCount := 0;
    for k := 0 to |tokens|
      invariant totalError == SigSum(tokens[..k])
      invariant significantTokenCount == SigCount(tokens[..k])
    {
      assert tokens[..k + 1][..k] == tokens[..k];
      if tokens[k].isSignificant {
        totalError := totalError + tokens[k].error;
        significantTokenCount := significantTokenCount + 1;
      }
    }
    assert tokens[..|tokens|] == tokens;
  }

  /** Lines 724-745: the error of the group. */
  method GroupError(tokens: seq<NumericToken>, criticalError: bool) returns (r: Result<real, ParseError>)
    ensures r == TotalError(tokens, criticalError)
  {
    var totalError: real;
    if |tokens| == 0 {
      totalError := 1.0;
    } else {
      var significantTokenCount;
      totalError, significantTokenCount := Tally(tokens);
      if significantTokenCount == 0 {
        return Err(ZeroDivisionError);
      }
      totalError := totalError / significantTokenCount as real;
    }
    if criticalError {
      if totalError >= 0.5 {
        totalError := 1.0;
      } else {
        totalError := totalError * 2.0;
      }
    }
    return Ok(totalError);
  }

  /** The evaluation of one group as the parser runs it (lines 649-753). */
  method EvaluateGroup(rule: Rule, round: (real, int) -> real, g: seq<NumericToken>) returns (r: Result<ParserResult, ParseError>)
    ensures r == EvalGroup(rule, round, g)
  {
    var es, tokens := AnnotateGroup(rule, round, g);
    var totalError := GroupError(tokens, es.critical);
    if totalError.Err? {
      return Err(totalError.error);
    }
    var resultValue := 0.0;
    if es.global.Some? {
      resultValue := resultValue + es.global.value.value;
    }
    if es.local.Some? {
      resultValue := resultValue + es.local.value.value;
    }
    assert resultValue == GroupValue(es);
    return Ok(ParserResult(resultValue, totalError.value));
  }

  /** A list of outcomes as a loop that stops at the first exception sees
      them: all the values, in order, or the first error. */
  function Collect<T, E>(rs: seq<Result<T, E>>): (r: Result<seq<T>, E>)
    ensures r.Ok? <==> forall k :: 0 <= k < |rs| ==> rs[k].Ok?
    ensures r.Ok? ==> |r.value| == |rs|
    ensures r.Ok? ==> forall k :: 0 <= k < |rs| ==> rs[k] == Ok(r.value[k])
  {
    if rs == [] then Ok([])
    else
      var init := rs[..|rs| - 1];
      assert forall k :: 0 <= k < |init| ==> init[k] == rs[k];
      match Collect(init)
      case Err(e) => Err(e)
      case Ok(vs) =>
        match rs[|rs| - 1]
        case Err(e) => Err(e)
        case Ok(v) => Ok(vs + [v])
  }

  /** The first exception decides the outcome. */
  lemma {:induction false} CollectSnoc<T, E>(rs: seq<Result<T, E>>, k: nat)
    requires k < |rs| && Collect(rs[..k]).Ok? && rs[k].Ok?
    ensures Collect(rs[..k + 1]) == Ok(Collect(rs[..k]).value + [rs[k].value])
  {
    assert rs[..k + 1][..k] == rs[..k];
    assert rs[..k + 1][k] == rs[k];
  }

  /** A single value on its own. */
  lemma {:induction false} CollectOne<T, E>(rs: seq<Result<T, E>>, v: T)
    requires rs == [Ok(v)]
    ensures Collect(rs) == Ok([v])
  {
    assert rs[..1] == rs && rs[..0] == [];
    assert Collect(rs[..0]) == Ok([]);
    CollectSnoc(rs, 0);
    assert Collect(rs[..0]).value + [rs[0].value] == [v];
  }

  lemma {:induction false} CollectFails<T, E>(rs: seq<Result<T, E>>, k: nat, m: nat)
    requires k < m <= |rs|
    requires Collect(rs[..k]).Ok? && rs[k].Err?
    ensures Collect(rs[..m]) == Err(rs[k].error)
    decreases m
  {
    assert rs[..m][..m - 1] == rs[..m - 1];
    if m > k + 1 {
      CollectFails(rs, k, m - 1);
    } else {
      assert rs[..m][m - 1] == rs[k];
    }
  }

  /** The outcome of evaluating each group. */
  function GroupResults(rule: Rule, round: (real, int) -> real, groups: seq<seq<NumericToken>>): (r: seq<Result<ParserResult, ParseError>>)
    ensures |r| == |groups| && forall k :: 0 <= k < |groups| ==> r[k] == EvalGroup(rule, round, groups[k])
  {
    seq(|groups|, k requires 0 <= k < |groups| => EvalGroup(rule, round, groups[k]))
  }

  // ---------------------------------------------------------------------------
  // parse
  // ---------------------------------------------------------------------------

  /** What `parse` takes from Python and NumPy: `str.isspace` (for `strip`
      and the `\s` of `re.split`), `str.lower` and `np.round`. */
  datatype Runtime = Runtime(isSpace: char -> bool, lower: string -> string, round: (real, int) -> real)

  /** What `parse` returns: a single result for blank text, and otherwise a
      result per group with the text in which "" stands for each group. */
  datatype Parsed = Blank(result: ParserResult) | Parts(results: seq<ParserResult>, texts: seq<string>)

  /** The text `parse` works on: stripped, then lower-cased. */
  function Normalised(rt: Runtime, text: string): string
  {
    rt.lower(PyText.Strip(text, rt.isSpace))
  }

  /** `RussianNumbers.parse(text)` (lines 482-755). The source's own
      evaluation is `rule == AsWritten`; `Corrected` is the evaluation with
      the lowering multiplier of lines 679-690 as evidently intended. */
  function Parse(tables: Tables, rule: Rule, rt: Runtime, text: string): (r: Result<Parsed, ParseError>)
    ensures r.Ok? && r.value.Blank? <==> Normalised(rt, text) == []
    ensures r.Ok? && r.value.Blank? ==> r.value.result == ParserResult(0.0, 1.0)
  {
    var t := Normalised(rt, text);
    if |t| == 0 then Ok(Blank(ParserResult(0.0, 1.0)))
    else
      match Tokenised(tables, PyText.SplitWs(t, rt.isSpace))
      case Err(e) => Err(e)
      case Ok(st) =>
        match Collect(GroupResults(rule, rt.round, st.all))
        case Err(e) => Err(e)
        case Ok(rs) => Ok(Parts(rs, st.texts))
  }

  /** `parse` as a method: the token loop, then one evaluation per group. */
  method ParseText(tables: Tables, rule: Rule, rt: Runtime, text: string) returns (r: Result<Parsed, ParseError>)
    ensures r == Parse(tables, rule, rt, text)
  {
    var t := Normalised(rt, text);
    if |t| == 0 {
      return Ok(Blank(ParserResult(0.0, 1.0)));
    }
    var rawTokenList := PyText.SplitWs(t, rt.isSpace);
    var tokenised := Tokenise(tables, rawTokenList);
    if tokenised.Err? {
      return Err(tokenised.error);
    }
    var parserResultList := EvaluateAll(rule, rt.round, tokenised.value.all);
    if parserResultList.Err? {
      return Err(parserResultList.error);
    }
    return Ok(Parts(parserResultList.value, tokenised.value.texts));
  }

  /** The loop over the groups (lines 647-753), stopping at an exception. */
  method EvaluateAll(rule: Rule, round: (real, int) -> real, allTokenList: seq<seq<NumericToken>>)
    returns (r: Result<seq<ParserResult>, ParseError>)
    ensures r == Collect(GroupResults(rule, round, allTokenList))
  {
    ghost var rs := GroupResults(rule, round, allTokenList);
    var parserResultList: seq<ParserResult> := [];
    for k := 0 to |allTokenList|
      invariant Collect(rs[..k]) == Ok(parserResultList)
    {
      var res := EvaluateGroup(rule, round, allTokenList[k]);
      assert rs[k] == res;
      if res.Err? {
        CollectFails(rs, k, |rs|);
        assert rs[..|rs|] == rs;
        return Err(res.error);
      }
      CollectSnoc(rs, k);
      parserResultList := parserResultList + [res.value];
    }
    assert rs[..|rs|] == rs;
    return Ok(parserResultList);
  }

  /** With the special words in the table, `parse` raises only KeyError;
      otherwise every group has a result whose error is in [0, 1], and the
      text holds exactly one placeholder per result. This holds for the
      source's evaluation and for the corrected one alike. */
  lemma {:induction false} ParseShape(tables: Tables, rule: Rule, rt: Runtime, text: string)
    requires ValidTables(tables)
    ensures Parse(tables, rule, rt, text).Err? ==> MissingFraction(tables, Parse(tables, rule, rt, text).error)
    ensures Parse(tables, rule, rt, text).Ok? && Parse(tables, rule, rt, text).value.Parts? ==>
      var p := Parse(tables, rule, rt, text).value;
      && Placeholders(p.texts) == |p.results|
      && forall k :: 0 <= k < |p.results| ==> 0.0 <= p.results[k].error <= 1.0
  {
    var t := Normalised(rt, text);
    if |t| > 0 {
      var raw := PyText.SplitWs(t, rt.isSpace);
      WordsNonEmpty(t, rt.isSpace);
      TokenisedGroups(tables, raw);
      var tk := Tokenised(tables, raw);
      if tk.Ok? {
        GroupsEvaluate(rule, rt.round, tk.value.all);
      }
    }
  }

  /** No word of a split is empty. */
  lemma {:induction false} WordsNonEmpty(t: string, sp: char -> bool)
    ensures forall k :: 0 <= k < |PyText.SplitWs(t, sp)| ==> PyText.SplitWs(t, sp)[k] != ""
  {
    var raw := PyText.SplitWs(t, sp);
    PyText.SplitWsProperties(t, sp);
    forall k | 0 <= k < |raw| ensures raw[k] != "" {
      assert raw[k] in raw;
    }
  }

  /** Non-empty groups of fresh tokens all evaluate, each to an error in
      [0, 1]. */
  lemma {:induction false} GroupsEvaluate(rule: Rule, round: (real, int) -> real, groups: seq<seq<NumericToken>>)
    requires forall k :: 0 <= k < |groups| ==> groups[k] != [] && FreshTokens(groups[k])
    ensures Collect(GroupResults(rule, round, groups)).Ok?
    ensures |Collect(GroupResults(rule, round, groups)).value| == |groups|
    ensures forall k :: 0 <= k < |groups| ==> 0.0 <= Collect(GroupResults(rule, round, groups)).value[k].error <= 1.0
  {
    forall k | 0 <= k < |groups| ensures EvalGroup(rule, round, groups[k]).Ok? {
      FreshGroupOk(rule, round, groups[k]);
    }
    var rs := Collect(GroupResults(rule, round, groups)).value;
    forall k | 0 <= k < |groups| ensures 0.0 <= rs[k].error <= 1.0 {
      GroupErrorBounds(rule, round, groups[k]);
    }
  }


  // ---------------------------------------------------------------------------
  // The multiplier that drops the pending value (lines 679-690)
  // ---------------------------------------------------------------------------

  /** A fraction order's multiplier, which the lowering branch rounds. */
  predicate FractionOrder(v: real)
  {
    v == 0.1 || v == 0.01 || v == 0.001 || v == 0.0001
  }

  /** A single token's error is its own error. */
  lemma {:induction false} LeafError(t: NumericToken)
    ensures SumError(Leaf(t)) == t.error
  {
    SumErrorIsLeafSum(Leaf(t));
    assert [t][1..] == [];
  }

  /** The evaluation state after the four tokens of a compound group: the
      first product is global, then lowered by the last multiplier. */
  lemma {:induction false} CompoundTrace(rule: Rule, round: (real, int) -> real, a: Numeral, big: Numeral, b: Numeral, small: Numeral)
    requires !a.isMultiplier && big.isMultiplier && !b.isMultiplier && small.isMultiplier
    requires small.level < big.level
    ensures var g := [Fresh(a), Fresh(big), Fresh(b), Fresh(small)];
      var high := round(Scaled(a.value, big.value), 5);
      var p := EvalUpTo(rule, round, g, 4);
      && p.0 == EState(Some(Acc(Lower(rule, round, high, Some(Acc(b.value, b.level)), small.value), small.level)), None, false)
      && p.1 == [NumericToken(a, 0.0, true), NumericToken(big, 0.0, true),
                 NumericToken(b, 0.0, true), NumericToken(small, 0.0, true)]
  {
    var g := [Fresh(a), Fresh(big), Fresh(b), Fresh(small)];
    var high := round(Scaled(a.value, big.value), 5);
    LeafError(Fresh(a));
    LeafError(Fresh(big));
    LeafError(Fresh(b));
    LeafError(Fresh(small));
    var t := [NumericToken(a, 0.0, true), NumericToken(big, 0.0, true),
              NumericToken(b, 0.0, true), NumericToken(small, 0.0, true)];
    var s1 := EState(None, Some(Acc(a.value, a.level)), false);
    var s2 := EState(Some(Acc(high, big.level)), None, false);
    var s3 := EState(Some(Acc(high, big.level)), Some(Acc(b.value, b.level)), false);
    var s4 := EState(Some(Acc(Lower(rule, round, high, Some(Acc(b.value, b.level)), small.value), small.level)), None, false);
    assert EvalToken(rule, round, EInit, Fresh(a)) == (s1, t[0]);
    assert EvalToken(rule, round, s1, Fresh(big)) == (s2, t[1]);
    assert EvalToken(rule, round, s2, Fresh(b)) == (s3, t[2]);
    assert EvalToken(rule, round, s3, Fresh(small)) == (s4, t[3]);
    assert EvalUpTo(rule, round, g, 0) == (EInit, []);
    assert [] + [t[0]] == [t[0]];
    assert EvalUpTo(rule, round, g, 1) == (s1, [t[0]]);
    assert [t[0]] + [t[1]] == [t[0], t[1]];
    assert EvalUpTo(rule, round, g, 2) == (s2, [t[0], t[1]]);
    assert [t[0], t[1]] + [t[2]] == [t[0], t[1], t[2]];
    assert EvalUpTo(rule, round, g, 3) == (s3, [t[0], t[1], t[2]]);
    assert [t[0], t[1], t[2]] + [t[3]] == t;
  }

  /** A numeral, a higher multiplier, a numeral and a lower multiplier that is
      no fraction order, as in "один миллион двести тысяч": as written the
      second product is lost; as intended it is added. No token disagrees
      with its predecessors, so the error is zero either way. */
  lemma {:induction false} CompoundLowering(round: (real, int) -> real, a: Numeral, big: Numeral, b: Numeral, small: Numeral)
    requires !a.isMultiplier && big.isMultiplier && !b.isMultiplier && small.isMultiplier
    requires small.level < big.level && !FractionOrder(small.value)
    ensures var g := [Fresh(a), Fresh(big), Fresh(b), Fresh(small)];
      var high := round(Scaled(a.value, big.value), 5);
      && EvalGroup(AsWritten, round, g) == Ok(ParserResult(high, 0.0))
      && EvalGroup(Corrected, round, g) == Ok(ParserResult(high + Scaled(b.value, small.value), 0.0))
  {
    var ts := [NumericToken(a, 0.0, true), NumericToken(big, 0.0, true),
               NumericToken(b, 0.0, true), NumericToken(small, 0.0, true)];
    SigCountAll(ts);
    SigSumZero(ts);
    CompoundTrace(AsWritten, round, a, big, b, small);
    CompoundTrace(Corrected, round, a, big, b, small);
  }

  /** "один миллион двести тысяч" read from the table rows of lines 61, 444,
      333 and 439. */
  function MillionGroup(): seq<NumericToken>
  {
    [Fresh(Numeral(1.0, 1, false, false)), Fresh(Numeral(1000000.0, 5, true, false)),
     Fresh(Numeral(200.0, 3, false, false)), Fresh(Numeral(1000.0, 4, true, false))]
  }

  /** As written the group evaluates to one million; as intended to 1 200 000. */
  lemma {:induction false} MillionGroupValue(round: (real, int) -> real)
    requires round(1000000.0, 5) == 1000000.0
    ensures EvalGroup(AsWritten, round, MillionGroup()) == Ok(ParserResult(1000000.0, 0.0))
    ensures EvalGroup(Corrected, round, MillionGroup()) == Ok(ParserResult(1200000.0, 0.0))
  {
    assert Scaled(1.0, 1000000.0) == 1000000.0;
    assert Scaled(200.0, 1000.0) == 200000.0;
    CompoundLowering(round, Numeral(1.0, 1, false, false), Numeral(1000000.0, 5, true, false),
                     Numeral(200.0, 3, false, false), Numeral(1000.0, 4, true, false));
  }

  /** The words of "один миллион двести тысяч". */
  const MillionWords: seq<string> := ["один", "миллион", "двести", "тысяч"]

  /** The main table holds the rows of lines 61, 444, 333 and 439 for them. */
  predicate MillionRows(tokens: map<string, Numeral>)
  {
    && "один" in tokens && tokens["один"] == Numeral(1.0, 1, false, false)
    && "миллион" in tokens && tokens["миллион"] == Numeral(1000000.0, 5, true, false)
    && "двести" in tokens && tokens["двести"] == Numeral(200.0, 3, false, false)
    && "тысяч" in tokens && tokens["тысяч"] == Numeral(1000.0, 4, true, false)
  }

  /** A numeral joining the open group, after a placeholder if none is open. */
  function Joined(st: PState, t: NumericToken): PState
  {
    st.(texts := if st.leftSpace then st.texts else st.texts + [""], leftSpace := true,
        group := st.group + [t], level := t.numeral.level)
  }

  /** A main-table numeral that triggers no special rule and no level split
      joins the open group. */
  lemma {:induction false} JoinStep(tables: Tables, raw: seq<string>, idx: nat, st: PState, t: NumericToken)
    requires idx < |raw| && SpecialKind(raw, idx).Ordinary?
    requires Candidates(tables, raw, idx) == Ok(Toks([t]))
    requires t.error <= MaxTokenError
    requires !SplitsGroup(st.level, t.numeral.level, t.numeral.isElevenToNineteen)
    ensures Step(tables, raw, idx, st) == Ok(Joined(st, t))
  {
    JoinPieces(raw, idx, st, t);
  }

  /** The stages of that iteration: no special rule, no split, no screening. */
  lemma {:induction false} JoinPieces(raw: seq<string>, idx: nat, st: PState, t: NumericToken)
    requires idx < |raw| && SpecialKind(raw, idx).Ordinary?
    requires t.error <= MaxTokenError
    requires !SplitsGroup(st.level, t.numeral.level, t.numeral.isElevenToNineteen)
    ensures Special(raw, idx, Toks([t]), st) == Staged(Toks([t]), st)
    ensures LevelSplit(Toks([t]), st) == Ok(st.(level := t.numeral.level))
    ensures Screen(Toks([t])) == Toks([t])
    ensures Accept(raw[idx], Toks([t]), st.(level := t.numeral.level)) == Joined(st, t)
  {
    assert !(Toks([t]).ts[0].error > MaxTokenError);
  }

  /** The loop's variables after the first n numerals of a run that stays in
      one group. */
  ghost function RunState(g: seq<NumericToken>, n: nat): PState
    requires n <= |g|
  {
    if n == 0 then Init else PState([], g[..n], [""], true, g[n - 1].numeral.level)
  }

  lemma {:induction false} RunStateSnoc(g: seq<NumericToken>, i: nat)
    requires i < |g|
    ensures Joined(RunState(g, i), g[i]) == RunState(g, i + 1)
  {
    assert g[..i + 1] == g[..i] + [g[i]];
  }

  /** A run of main-table numerals that trigger no special rule and no level
      split stays in a single group behind a single placeholder. */
  lemma {:induction false} JoinRun(tables: Tables, raw: seq<string>, g: seq<NumericToken>, n: nat)
    requires n <= |raw| && |g| == |raw|
    requires forall k :: 0 <= k < |raw| ==>
      SpecialKind(raw, k).Ordinary? && Candidates(tables, raw, k) == Ok(Toks([g[k]])) && g[k].error <= MaxTokenError
    requires forall k :: 0 < k < |g| ==>
      !SplitsGroup(g[k - 1].numeral.level, g[k].numeral.level, g[k].numeral.isElevenToNineteen)
    ensures TokeniseUpTo(tables, raw, n) == Ok(RunState(g, n))
    decreases n
  {
    if n > 0 {
      JoinRun(tables, raw, g, n - 1);
      JoinRunStep(tables, raw, g, n - 1);
    }
  }

  /** One more token of the run joins the group. */
  lemma {:induction false} JoinRunStep(tables: Tables, raw: seq<string>, g: seq<NumericToken>, i: nat)
    requires i < |raw| && |g| == |raw|
    requires TokeniseUpTo(tables, raw, i) == Ok(RunState(g, i))
    requires SpecialKind(raw, i).Ordinary? && Candidates(tables, raw, i) == Ok(Toks([g[i]]))
    requires g[i].error <= MaxTokenError
    requires !SplitsGroup(RunState(g, i).level, g[i].numeral.level, g[i].numeral.isElevenToNineteen)
    ensures TokeniseUpTo(tables, raw, i + 1) == Ok(RunState(g, i + 1))
  {
    JoinStep(tables, raw, i, RunState(g, i), g[i]);
    RunStateSnoc(g, i);
    TokeniseNext(tables, raw, i, RunState(g, i));
  }

  /** None of the four words triggers a special rule. */
  lemma {:induction false} MillionOrdinary(k: nat)
    requires k < 4
    ensures SpecialKind(MillionWords, k).Ordinary?
  {
  }

  /** Each of the four words is read from the main table as its row says. */
  lemma {:induction false} MillionCandidates(tables: Tables, k: nat)
    requires MillionRows(tables.tokens) && k < 4
    ensures Candidates(tables, MillionWords, k) == Ok(Toks([MillionGroup()[k]]))
  {
    MillionRow(tables, k);
    KnownCandidate(tables, MillionWords, k);
  }

  /** The row of the k-th word, which is Cyrillic and so already clean. */
  lemma {:induction false} MillionRow(tables: Tables, k: nat)
    requires MillionRows(tables.tokens) && k < 4
    ensures Clean(MillionWords[k]) == MillionWords[k]
    ensures MillionWords[k] in tables.tokens && Fresh(tables.tokens[MillionWords[k]]) == MillionGroup()[k]
  {
    var w := MillionWords[k];
    assert forall i :: 0 <= i < |w| ==> w[i] as int > 126 by {
      if k == 0 { assert w == "один"; }
      else if k == 1 { assert w == "миллион"; }
      else if k == 2 { assert w == "двести"; }
      else { assert w == "тысяч"; }
    }
    NoPunctClean(w);
  }

  /** The four words meet what a run in one group needs: each is an ordinary
      main-table numeral, and the levels 1, 5, 3, 4 match no split clause. */
  lemma {:induction false} MillionJoins(tables: Tables, raw: seq<string>)
    requires MillionRows(tables.tokens) && raw == MillionWords
    ensures |MillionGroup()| == |raw|
    ensures forall k :: 0 <= k < |raw| ==>
      SpecialKind(raw, k).Ordinary? && Candidates(tables, raw, k) == Ok(Toks([MillionGroup()[k]]))
      && MillionGroup()[k].error <= MaxTokenError
    ensures forall k :: 0 < k < |MillionGroup()| ==>
      !SplitsGroup(MillionGroup()[k - 1].numeral.level, MillionGroup()[k].numeral.level,
                   MillionGroup()[k].numeral.isElevenToNineteen)
  {
    forall k | 0 <= k < |raw|
      ensures SpecialKind(raw, k).Ordinary? && Candidates(tables, raw, k) == Ok(Toks([MillionGroup()[k]]))
    {
      MillionCandidates(tables, k);
      MillionOrdinary(k);
    }
  }

  /** A run of ordinary words none of which splits the group ends, after the
      final flush, as one group behind a single placeholder. */
  lemma {:induction false} OneRun(tables: Tables, raw: seq<string>, g: seq<NumericToken>)
    requires 0 < |raw| && |g| == |raw|
    requires forall k :: 0 <= k < |raw| ==>
      SpecialKind(raw, k).Ordinary? && Candidates(tables, raw, k) == Ok(Toks([g[k]])) && g[k].error <= MaxTokenError
    requires forall k :: 0 < k < |g| ==>
      !SplitsGroup(g[k - 1].numeral.level, g[k].numeral.level, g[k].numeral.isElevenToNineteen)
    ensures Tokenised(tables, raw) == Ok(PState([g], [], [""], true, g[|g| - 1].numeral.level))
  {
    JoinRun(tables, raw, g, |raw|);
    RunFlushed(g);
    TokenisedOf(tables, raw, RunState(g, |g|));
  }

  /** After the whole run the group holds every token; the flush moves it. */
  lemma {:induction false} RunFlushed(g: seq<NumericToken>)
    requires 0 < |g|
    ensures Flush(RunState(g, |g|)) == PState([g], [], [""], true, g[|g| - 1].numeral.level)
  {
    assert g[..|g|] == g;
  }

  /** The final flush applied to the state after the last token. */
  lemma {:induction false} TokenisedOf(tables: Tables, raw: seq<string>, st: PState)
    requires TokeniseUpTo(tables, raw, |raw|) == Ok(st)
    ensures Tokenised(tables, raw) == Ok(Flush(st))
  {
  }

  /** So the token loop puts all four words into one group. */
  lemma {:induction false} MillionTokenised(tables: Tables, raw: seq<string>)
    requires MillionRows(tables.tokens) && raw == MillionWords
    ensures Tokenised(tables, raw) == Ok(PState([MillionGroup()], [], [""], true, 4))
  {
    MillionJoins(tables, raw);
    OneRun(tables, raw, MillionGroup());
  }

  /** Text whose words form a single group: `parse` returns that group's value
      and one placeholder. */
  lemma {:induction false} OneGroupParse(tables: Tables, rule: Rule, rt: Runtime, text: string,
                                         g: seq<NumericToken>, level: int, v: ParserResult)
    requires Normalised(rt, text) != []
    requires Tokenised(tables, PyText.SplitWs(Normalised(rt, text), rt.isSpace)) == Ok(PState([g], [], [""], true, level))
    requires EvalGroup(rule, rt.round, g) == Ok(v)
    ensures Parse(tables, rule, rt, text) == Ok(Parts([v], [""]))
  {
    CollectOne(GroupResults(rule, rt.round, [g]), v);
  }

  /** Text that splits into those words: the source's `parse` returns one
      million for the group, the corrected evaluation 1 200 000. */
  lemma {:induction false} MillionParse(tables: Tables, rt: Runtime, text: string)
    requires MillionRows(tables.tokens)
    requires PyText.SplitWs(Normalised(rt, text), rt.isSpace) == MillionWords
    requires rt.round(1000000.0, 5) == 1000000.0
    ensures Parse(tables, AsWritten, rt, text) == Ok(Parts([ParserResult(1000000.0, 0.0)], [""]))
    ensures Parse(tables, Corrected, rt, text) == Ok(Parts([ParserResult(1200000.0, 0.0)], [""]))
  {
    assert Normalised(rt, text) != [];
    MillionTokenised(tables, PyText.SplitWs(Normalised(rt, text), rt.isSpace));
    MillionGroupValue(rt.round);
    OneGroupParse(tables, AsWritten, rt, text, MillionGroup(), 4, ParserResult(1000000.0, 0.0));
    OneGroupParse(tables, Corrected, rt, text, MillionGroup(), 4, ParserResult(1200000.0, 0.0));
  }

  // ---------------------------------------------------------------------------
  // Fraction words missing from the fraction table (lines 29-47 and 520-542)
  // ---------------------------------------------------------------------------

  /** `tokens_fractions` as lines 29-47 define it. */
  function SourceFractions(): map<string, Numeral>
  {
    map[
      "целых" := Numeral(1.0, 0, true, false), "целым" := Numeral(1.0, 0, true, false),
      "целой" := Numeral(1.0, 0, true, false), "целая" := Numeral(1.0, 0, true, false),
      "точка" := Numeral(0.1, 0, true, false), "запятая" := Numeral(1.0, 0, true, false),
      "десятых" := Numeral(0.1, -1, true, false), "десятым" := Numeral(0.1, -1, true, false),
      "десятая" := Numeral(0.1, -1, true, false),
      "сотых" := Numeral(0.01, -3, true, false), "сотым" := Numeral(0.01, -3, true, false),
      "сотая" := Numeral(0.01, -3, true, false),
      "тысячных" := Numeral(0.001, -4, true, false), "тысячным" := Numeral(0.001, -4, true, false),
      "тысячная" := Numeral(0.001, -4, true, false),
      "десятитысячных" := Numeral(0.0001, -5, true, false),
      "десятитысячная" := Numeral(0.0001, -5, true, false)
    ]
  }

  /** The fraction table with the three order words the checks of lines
      533 and 539 name but the table lacks. */
  function CorrectedFractions(): map<string, Numeral>
  {
    SourceFractions()
      ["тысячной" := Numeral(0.001, -4, true, false)]
      ["десятитысячной" := Numeral(0.0001, -5, true, false)]
      ["десятитысячным" := Numeral(0.0001, -5, true, false)]
  }

  /** As written, "пять тысячной" raises KeyError: the word passes the
      third-order check after a numeral, and neither table holds it. */
  lemma {:induction false} MissingThousandth(tokens: map<string, Numeral>)
    requires "пять" in tokens && "тысячной" !in tokens
    ensures var tables := Tables(tokens, SourceFractions());
      && Candidates(tables, ["пять", "тысячной"], 1) == Err(KeyError("тысячной"))
      && MissingFraction(tables, KeyError("тысячной"))
  {
    var tables := Tables(tokens, SourceFractions());
    var w := "тысячной";
    NoPunctClean(w);
    assert OneOf(w, ThousandthWords[1..]);
    assert OrderWord(w);
    NotWholeWord();
    NotInSourceFractions();
    assert ParseTokens(tables, w, true) == Err(KeyError(w));
  }

  lemma {:induction false} NotInSourceFractions()
    ensures "тысячной" !in SourceFractions()
  {
  }

  lemma {:induction false} NotWholeWord()
    ensures !OneOf("тысячной", WholeWords)
  {
  }

  /** The whole token loop on "пять тысячной" stops with that KeyError. */
  lemma {:induction false} MissingThousandthText(tokens: map<string, Numeral>)
    requires ValidTables(Tables(tokens, SourceFractions()))
    requires "пять" in tokens && "тысячной" !in tokens
    ensures Tokenised(Tables(tokens, SourceFractions()), ["пять", "тысячной"]) == Err(KeyError("тысячной"))
  {
    var tables := Tables(tokens, SourceFractions());
    var raw := ["пять", "тысячной"];
    InitInv();
    NoPunctClean("пять");
    StepFails(tables, raw, 0, Init);
    assert TokeniseUpTo(tables, raw, 0) == Ok(Init);
    TokeniseNext(tables, raw, 0, Init);
    var st := Step(tables, raw, 0, Init).value;
    MissingThousandth(tokens);
    assert Step(tables, raw, 1, st) == Err(KeyError("тысячной"));
    TokeniseFails(tables, raw, 1, st);
  }

  /** A word of a list whose words are all keys of a map, or are among some
      other words, is one or the other. */
  lemma {:induction false} ListCovered(w: string, ws: seq<string>, m: map<string, Numeral>, other: set<string>)
    requires forall i :: 0 <= i < |ws| ==> ws[i] in m || ws[i] in other
    requires OneOf(w, ws)
    ensures w in m || w in other
  {
    if w != ws[0] {
      ListCovered(w, ws[1..], m, other);
    }
  }

  /** The two order words the main table holds (lines 153 and 330), which
      are therefore never looked up in the fraction table. */
  const OrdinalOrderWords: set<string> := {"десятой", "сотой"}

  /** Every word that can put a token in a fraction context is in the
      corrected fraction table, or is one of the two order words of the main
      table. */
  lemma {:induction false} CorrectedFractionsComplete(w: string)
    requires FractionWord(w)
    ensures w in CorrectedFractions() || w in OrdinalOrderWords
  {
    var m := CorrectedFractions();
    var o := OrdinalOrderWords;
    if OneOf(w, WholeWords) {
      ListCovered(w, WholeWords, m, o);
    } else if OneOf(w, TenthWords) {
      ListCovered(w, TenthWords, m, o);
    } else if OneOf(w, HundredthWords) {
      ListCovered(w, HundredthWords, m, o);
    } else if OneOf(w, ThousandthWords) {
      ListCovered(w, ThousandthWords, m, o);
    } else {
      ListCovered(w, TenThousandthWords, m, o);
    }
  }

  /** With the corrected fraction table `parse` never raises, whichever
      evaluation rule it uses. */
  lemma {:induction false} ParseNeverFails(tokens: map<string, Numeral>, rule: Rule, rt: Runtime, text: string)
    requires ValidTables(Tables(tokens, CorrectedFractions()))
    requires "десятой" in tokens && "сотой" in tokens
    ensures Parse(Tables(tokens, CorrectedFractions()), rule, rt, text).Ok?
  {
    var tables := Tables(tokens, CorrectedFractions());
    ParseShape(tables, rule, rt, text);
    var r := Parse(tables, rule, rt, text);
    if r.Err? {
      NoMissingFraction(tables, r.error);
    }
  }

  /** With the corrected fraction table no lookup raises KeyError. */
  lemma {:induction false} NoMissingFraction(tables: Tables, e: ParseError)
    requires tables.fractions == CorrectedFractions()
    requires "десятой" in tables.tokens && "сотой" in tables.tokens
    ensures !MissingFraction(tables, e)
  {
    if MissingFraction(tables, e) {
      CorrectedFractionsComplete(e.word);
    }
  }
}
