/** `TextToNumbers` (number_utils/text2numbers.py): `convert` parses a line,
    puts the value of each number group back in place of its placeholder,
    joins the elements with single spaces and post-processes the result;
    of the post-processing the "минус" rewrite is modelled. */
module TextToNumbers {
  import opened Wrappers
  import PyText
  import RN = RussianNumbers

  /** What `convert` raises. */
  datatype ConvertError =
    | Raised(error: RN.ParseError)  // an exception of `parse`
    | UnpackError                   // blank text: `parse` returns one result, not a pair
    | IndexError                    // a placeholder with no result left

  // ---------------------------------------------------------------------------
  // Splicing the values into the text (lines 14-27)
  // ---------------------------------------------------------------------------

  /** The pieces the splice loop has produced after the first n elements,
      and the index of the next result: the k-th placeholder gets the value
      of the k-th result, and every other element is copied. */
  function Fill(show: real -> string, rs: seq<RN.ParserResult>, texts: seq<string>, n: nat)
    : (r: Result<(seq<string>, nat), ConvertError>)
    requires n <= |texts|
    ensures r.Ok? <==> RN.Placeholders(texts[..n]) <= |rs|
    ensures r.Err? ==> r.error == IndexError
    ensures r.Ok? ==> |r.value.0| == n && r.value.1 == RN.Placeholders(texts[..n])
  {
    if n == 0 then Ok(([], 0))
    else
      PlaceholdersPrefix(texts, n - 1);
      match Fill(show, rs, texts, n - 1)
      case Err(e) => Err(e)
      case Ok((ps, idx)) =>
        if texts[n - 1] == "" then
          if idx < |rs| then Ok((ps + [show(rs[idx].value)], idx + 1)) else Err(IndexError)
        else Ok((ps + [texts[n - 1]], idx))
  }

  /** The k-th placeholder gets the value of the k-th result, and every
      other element is copied. */
  lemma {:induction false} FillPieces(show: real -> string, rs: seq<RN.ParserResult>, texts: seq<string>, n: nat)
    requires n <= |texts| && Fill(show, rs, texts, n).Ok?
    ensures var ps := Fill(show, rs, texts, n).value.0;
      forall k :: 0 <= k < n ==>
        if texts[k] == "" then
          RN.Placeholders(texts[..k]) < |rs| && ps[k] == show(rs[RN.Placeholders(texts[..k])].value)
        else ps[k] == texts[k]
  {
    if n > 0 {
      FillPieces(show, rs, texts, n - 1);
    }
  }

  /** One more element adds its own placeholder to the count. */
  lemma {:induction false} PlaceholdersPrefix(texts: seq<string>, k: nat)
    requires k < |texts|
    ensures RN.Placeholders(texts[..k + 1]) == RN.Placeholders(texts[..k]) + (if texts[k] == "" then 1 else 0)
  {
    assert texts[..k + 1] == texts[..k] + [texts[k]];
    RN.PlaceholdersSnoc(texts[..k], texts[k]);
  }

  /** A longer prefix holds at least as many placeholders. */
  lemma {:induction false} PlaceholdersMonotone(texts: seq<string>, i: nat, n: nat)
    requires i <= n <= |texts|
    ensures RN.Placeholders(texts[..i]) <= RN.Placeholders(texts[..n])
    decreases n - i
  {
    if i < n {
      PlaceholdersPrefix(texts, i);
      PlaceholdersMonotone(texts, i + 1, n);
    }
  }

  /** The text the splice loop builds: the pieces separated by single spaces. */
  function Splice(show: real -> string, rs: seq<RN.ParserResult>, texts: seq<string>): Result<string, ConvertError>
  {
    match Fill(show, rs, texts, |texts|)
    case Err(e) => Err(e)
    case Ok((ps, _)) => Ok(PyText.Join(ps, " "))
  }

  /** The splice succeeds exactly when there is a result for every
      placeholder; it then holds every element, placeholders replaced, with
      one space between two elements and none at the ends. */
  lemma {:induction false} SpliceShape(show: real -> string, rs: seq<RN.ParserResult>, texts: seq<string>)
    ensures Splice(show, rs, texts).Ok? <==> RN.Placeholders(texts) <= |rs|
    ensures Splice(show, rs, texts).Err? ==> Splice(show, rs, texts).error == IndexError
    ensures Splice(show, rs, texts).Ok? && |texts| > 0 ==>
      var ps := Fill(show, rs, texts, |texts|).value.0;
      && |ps| == |texts|
      && |Splice(show, rs, texts).value| == PyText.SumLengths(ps) + |texts| - 1
  {
    assert texts[..|texts|] == texts;
    if Splice(show, rs, texts).Ok? && |texts| > 0 {
      PyText.JoinLength(Fill(show, rs, texts, |texts|).value.0, " ");
    }
  }

  /** The loop of lines 18-27. When it succeeds, `parsed_idx` ends at the
      number of placeholders. */
  method SpliceText(show: real -> string, parsedList: seq<RN.ParserResult>, resultTextList: seq<string>)
    returns (r: Result<string, ConvertError>, parsedIdx: nat)
    ensures r == Splice(show, parsedList, resultTextList)
    ensures r.Ok? ==> parsedIdx == RN.Placeholders(resultTextList)
  {
    var convertedText := "";
    parsedIdx := 0;
    var resultTextListLen := |resultTextList|;
    ghost var pieces: seq<string> := [];
    assert resultTextList[..resultTextListLen] == resultTextList;
    for i := 0 to resultTextListLen
      invariant Fill(show, parsedList, resultTextList, i) == Ok((pieces, parsedIdx))
      invariant convertedText == SplicedSoFar(pieces, resultTextListLen)
    {
      var next, idx := SplicePiece(show, parsedList, resultTextList, i, pieces, parsedIdx);
      if next.None? {
        PlaceholdersMonotone(resultTextList, i + 1, resultTextListLen);
        return Err(IndexError), parsedIdx;
      }
      var piece := next.value;
      parsedIdx := idx;
      SplicedSnoc(pieces, piece, resultTextListLen);
      convertedText := convertedText + piece;
      if i < resultTextListLen - 1 {
        convertedText := convertedText + " ";
      }
      pieces := pieces + [piece];
    }
    assert Fill(show, parsedList, resultTextList, |resultTextList|) == Ok((pieces, parsedIdx));
    assert |pieces| == resultTextListLen;
    assert convertedText == PyText.Join(pieces, " ");
    return Ok(convertedText), parsedIdx;
  }

  /** The text the splice loop has built after the first `|pieces|` of `n`
      elements: the pieces joined by spaces, with a trailing space while
      elements remain. */
  ghost function SplicedSoFar(pieces: seq<string>, n: nat): string
  {
    if pieces == [] then "" else PyText.Join(pieces, " ") + (if |pieces| < n then " " else "")
  }

  /** One more piece extends the splice text by the piece and, unless it is
      the last, one space. */
  lemma {:induction false} SplicedSnoc(pieces: seq<string>, piece: string, n: nat)
    requires |pieces| < n
    ensures SplicedSoFar(pieces + [piece], n) ==
      SplicedSoFar(pieces, n) + piece + (if |pieces| < n - 1 then " " else "")
  {
    if pieces != [] {
      PyText.JoinSnoc(pieces, piece, " ");
    }
  }

  /** The element `i` of the splice loop: the next result's value for a
      placeholder, which fails when there is none left, or the element itself. */
  method SplicePiece(show: real -> string, parsedList: seq<RN.ParserResult>, resultTextList: seq<string>,
                     i: nat, ghost pieces: seq<string>, parsedIdx: nat)
    returns (piece: Option<string>, parsedIdx': nat)
    requires i < |resultTextList|
    requires Fill(show, parsedList, resultTextList, i) == Ok((pieces, parsedIdx))
    ensures piece.None? ==> RN.Placeholders(resultTextList[..i + 1]) > |parsedList|
    ensures piece.Some? ==>
      Fill(show, parsedList, resultTextList, i + 1) == Ok((pieces + [piece.value], parsedIdx'))
  {
    var element := resultTextList[i];
    parsedIdx' := parsedIdx;
    if element == "" {
      if parsedIdx >= |parsedList| {
        PlaceholdersPrefix(resultTextList, i);
        return None, parsedIdx;
      }
      piece := Some(show(parsedList[parsedIdx].value));
      parsedIdx' := parsedIdx + 1;
    } else {
      piece := Some(element);
    }
  }

  // ---------------------------------------------------------------------------
  // The "минус" rewrite of `float_postprocessing` (lines 35-38)
  // ---------------------------------------------------------------------------

  const Digits: seq<string> := ["0", "1", "2", "3", "4", "5", "6", "7", "8", "9"]

  predicate HasDigit(s: string)
  {
    exists k :: 0 <= k < |Digits| && PyText.Contains(s, Digits[k])
  }

  /** Text with "минус", a digit and no " и " has every "минус " turned into
      "-"; other text is unchanged. */
  function MinusRule(s: string): string
  {
    if PyText.Contains(s, "минус") && !PyText.Contains(s, " и ") && HasDigit(s)
    then PyText.ReplaceAll(s, "минус ", "-")
    else s
  }

  lemma {:induction false} MinusDisjoint()
    ensures PyText.Disjoint("минус ", "-")
  {
    var p := "минус ";
    forall i, j | 0 <= i < |p| && 0 <= j < 1 ensures p[i] != "-"[j] {
      assert p[i] in {'м', 'и', 'н', 'у', 'с', ' '};
    }
  }

  /** After the rewrite no "минус " is left, and a second rewrite changes
      nothing. */
  lemma {:induction false} MinusRuleIdempotent(s: string)
    ensures PyText.Contains(s, "минус") && !PyText.Contains(s, " и ") && HasDigit(s) ==>
      !PyText.Contains(MinusRule(s), "минус ")
    ensures MinusRule(MinusRule(s)) == MinusRule(s)
  {
    MinusDisjoint();
    PyText.ReplaceRemoves(s, "минус ", "-");
    if MinusRule(s) != s {
      PyText.ReplaceAbsent(MinusRule(s), "минус ", "-");
    }
  }

  /** Lines 35-38: the replace runs once for every digit present, and every
      run after the first changes nothing. */
  method MinusRewrite(text: string) returns (convertedText: string)
    ensures convertedText == MinusRule(text)
  {
    convertedText := text;
    if PyText.Contains(convertedText, "минус") && !PyText.Contains(convertedText, " и ") {
      MinusDisjoint();
      for j := 0 to |Digits|
        invariant convertedText ==
          if exists k :: 0 <= k < j && PyText.Contains(text, Digits[k])
          then PyText.ReplaceAll(text, "минус ", "-") else text
      {
        if PyText.Contains(convertedText, Digits[j]) {
          if convertedText != text {
            PyText.ReplaceIdempotent(text, "минус ", "-");
          }
          convertedText := PyText.ReplaceAll(convertedText, "минус ", "-");
        }
      }
    }
  }

  /** `float_postprocessing`: the "минус" rewrite, then the "точка",
      "запятая" and " и " rewrites, given as `decimals`, which run only when
      one of those words occurs. */
  function FloatPostprocessing(decimals: string -> string, s: string): string
  {
    var t := MinusRule(s);
    if PyText.Contains(t, "точка") || PyText.Contains(t, "запятая") || PyText.Contains(t, " и ") then decimals(t)
    else t
  }

  /** Text with none of the four trigger words comes back unchanged. */
  lemma {:induction false} FloatPostprocessingUnchanged(decimals: string -> string, s: string)
    requires !PyText.Contains(s, "минус") && !PyText.Contains(s, "точка")
    requires !PyText.Contains(s, "запятая") && !PyText.Contains(s, " и ")
    ensures FloatPostprocessing(decimals, s) == s
  {
  }

  // ---------------------------------------------------------------------------
  // `convert` (lines 9-31)
  // ---------------------------------------------------------------------------

  /** `convert(text_line)`: empty text comes back as it is; blank text makes
      the tuple unpacking fail; otherwise the values are spliced in and the
      line post-processed. `rule` is the evaluation `parse` uses: the
      source's is `AsWritten`. */
  function Convert(tables: RN.Tables, rule: RN.Rule, rt: RN.Runtime, show: real -> string, decimals: string -> string, text: string)
    : (r: Result<string, ConvertError>)
    ensures text == "" ==> r == Ok("")
    ensures r == Err(UnpackError) <==> text != "" && RN.Normalised(rt, text) == []
  {
    if text == "" then Ok(text)
    else
      match RN.Parse(tables, rule, rt, text)
      case Err(e) => Err(Raised(e))
      case Ok(Blank(_)) => Err(UnpackError)
      case Ok(Parts(rs, texts)) =>
        match Splice(show, rs, texts)
        case Err(e) => Err(e)
        case Ok(s) => Ok(FloatPostprocessing(decimals, s))
  }

  /** With the special words in the main table there is a result for every
      placeholder, so `convert` raises only a missing fraction word's
      KeyError, or fails to unpack on blank text. */
  lemma {:induction false} ConvertFails(tables: RN.Tables, rule: RN.Rule, rt: RN.Runtime, show: real -> string, decimals: string -> string, text: string)
    requires RN.ValidTables(tables)
    ensures var r := Convert(tables, rule, rt, show, decimals, text);
      r.Err? ==> r == Err(UnpackError) || (r.error.Raised? && RN.MissingFraction(tables, r.error.error))
  {
    RN.ParseShape(tables, rule, rt, text);
    var p := RN.Parse(tables, rule, rt, text);
    if text != "" && p.Ok? && p.value.Parts? {
      SpliceShape(show, p.value.results, p.value.texts);
    }
  }

  /** With the corrected fraction table `convert` fails only on blank text. */
  lemma {:induction false} ConvertCorrected(tokens: map<string, RN.Numeral>, rule: RN.Rule, rt: RN.Runtime, show: real -> string, decimals: string -> string, text: string)
    requires RN.ValidTables(RN.Tables(tokens, RN.CorrectedFractions()))
    requires "десятой" in tokens && "сотой" in tokens
    ensures Convert(RN.Tables(tokens, RN.CorrectedFractions()), rule, rt, show, decimals, text).Ok? <==>
      text == "" || RN.Normalised(rt, text) != []
  {
    var tables := RN.Tables(tokens, RN.CorrectedFractions());
    ConvertFails(tables, rule, rt, show, decimals, text);
    var r := Convert(tables, rule, rt, show, decimals, text);
    if r.Err? && r.error.Raised? {
      RN.NoMissingFraction(tables, r.error.error);
    }
  }

  /** `float_postprocessing` as a method: the "минус" loop, then the other
      rewrites. */
  method PostProcess(decimals: string -> string, text: string) returns (convertedText: string)
    ensures convertedText == FloatPostprocessing(decimals, text)
  {
    convertedText := MinusRewrite(text);
    if PyText.Contains(convertedText, "точка") || PyText.Contains(convertedText, "запятая")
       || PyText.Contains(convertedText, " и ") {
      convertedText := decimals(convertedText);
    }
  }

  /** `convert` as a method. */
  method ConvertLine(tables: RN.Tables, rule: RN.Rule, rt: RN.Runtime, show: real -> string, decimals: string -> string, textLine: string)
    returns (r: Result<string, ConvertError>)
    ensures r == Convert(tables, rule, rt, show, decimals, textLine)
  {
    if textLine == "" {
      return Ok(textLine);
    }
    var parsed := RN.ParseText(tables, rule, rt, textLine);
    if parsed.Err? {
      return Err(Raised(parsed.error));
    }
    if parsed.value.Blank? {
      return Err(UnpackError);
    }
    var convertedText, _ := SpliceText(show, parsed.value.results, parsed.value.texts);
    if convertedText.Err? {
      return Err(convertedText.error);
    }
    var s := PostProcess(decimals, convertedText.value);
    return Ok(s);
  }
}
