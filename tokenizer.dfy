/** The BERT tokenizer used by the punctuator (bert_punctuator/tokenizer.py):
    text cleaning, whitespace and punctuation splitting, greedy longest-match
    WordPiece, and the token/id tables. The Unicode database and Python's
    string methods that depend on it are parameters. */
module Tokenizer {
  import opened Wrappers
  import PyText

  /** What the tokenizer asks of the Unicode database: `unicodedata.category`,
      `str.isspace` (used by `strip` and `split`), `str.lower` and NFD
      normalisation. */
  datatype UnicodeDb = UnicodeDb(category: char -> string, isSpace: char -> bool,
                                 lower: string -> string, nfd: string -> string)

  // ---------------------------------------------------------------------------
  // Character classes
  // ---------------------------------------------------------------------------

  /** `is_whitespace` */
  predicate IsWhitespace(u: UnicodeDb, c: char)
  {
    c == ' ' || c == '\t' || c == '\n' || c == '\r' || u.category(c) == "Zs"
  }

  /** `is_control`: tab, newline and carriage return count as whitespace,
      every other character of a "C*" category is a control character. */
  predicate IsControl(u: UnicodeDb, c: char)
  {
    if c == '\t' || c == '\n' || c == '\r' then false else PyText.StartsWith(u.category(c), "C")
  }

  predicate IsAsciiAlnum(c: char)
  {
    '0' <= c <= '9' || 'A' <= c <= 'Z' || 'a' <= c <= 'z'
  }

  /** `is_punctuation`: the four ASCII ranges, or a "P*" category. Every
      printable ASCII character that is not a letter or digit is punctuation,
      whatever the database says about it. */
  function IsPunctuation(u: UnicodeDb, c: char): (r: bool)
    ensures '!' <= c <= '~' && !IsAsciiAlnum(c) ==> r
    ensures !r ==> !PyText.StartsWith(u.category(c), "P")
  {
    PyText.IsAsciiPunct(c) || PyText.StartsWith(u.category(c), "P")
  }

  // ---------------------------------------------------------------------------
  // clean_text
  // ---------------------------------------------------------------------------

  /** What `clean_text` makes of one character. */
  function CleanChar(u: UnicodeDb, c: char): string
  {
    if c as int == 0 || c as int == 0xFFFD || IsControl(u, c) then ""
    else if IsWhitespace(u, c) then " "
    else [c]
  }

  /** A character `clean_text` can output: a space, or a character that is
      neither whitespace, control, NUL nor U+FFFD. */
  predicate Survivor(u: UnicodeDb, c: char)
  {
    c == ' ' || (c as int != 0 && c as int != 0xFFFD && !IsControl(u, c) && !IsWhitespace(u, c))
  }

  /** `clean_text` as a function of the text, character by character. */
  function Clean(u: UnicodeDb, s: string): string
    decreases |s|
  {
    if s == [] then "" else Clean(u, s[..|s| - 1]) + CleanChar(u, s[|s| - 1])
  }

  /** `BasicTokenizer.clean_text` */
  method CleanText(u: UnicodeDb, text: string) returns (out: string)
    ensures out == Clean(u, text)
  {
    out := "";
    for i := 0 to |text|
      invariant out == Clean(u, text[..i])
    {
      assert text[..i + 1][..i] == text[..i];
      var c := text[i];
      var cp := c as int;
      if cp == 0 || cp == 0xFFFD || IsControl(u, c) {
        continue;
      }
      if IsWhitespace(u, c) {
        out := out + " ";
      } else {
        out := out + [c];
      }
    }
    assert text[..|text|] == text;
  }

  /** Cleaning never lengthens the text and only outputs survivors. */
  lemma {:induction false} CleanShape(u: UnicodeDb, s: string)
    ensures |Clean(u, s)| <= |s|
    ensures forall i :: 0 <= i < |Clean(u, s)| ==> Survivor(u, Clean(u, s)[i])
    decreases |s|
  {
    if s != [] {
      CleanShape(u, s[..|s| - 1]);
    }
  }

  /** Cleaning works on each character independently, in order. */
  lemma {:induction false} CleanAppend(u: UnicodeDb, a: string, b: string)
    ensures Clean(u, a + b) == Clean(u, a) + Clean(u, b)
    decreases |b|
  {
    if b == [] {
      assert a + b == a;
    } else {
      assert (a + b)[..|a + b| - 1] == a + b[..|b| - 1];
      CleanAppend(u, a, b[..|b| - 1]);
    }
  }

  /** Cleaning twice is cleaning once, as long as the space itself is not a
      control character for the database. */
  lemma {:induction false} CleanIdempotent(u: UnicodeDb, s: string)
    requires !PyText.StartsWith(u.category(' '), "C")
    ensures Clean(u, Clean(u, s)) == Clean(u, s)
    decreases |s|
  {
    if s != [] {
      var pre := s[..|s| - 1];
      var c := CleanChar(u, s[|s| - 1]);
      CleanIdempotent(u, pre);
      CleanAppend(u, Clean(u, pre), c);
      assert Clean(u, c) == c by {
        if c != "" { assert c[..0] == ""; }
      }
    }
  }

  // ---------------------------------------------------------------------------
  // whitespace_tokenize
  // ---------------------------------------------------------------------------

  /** `whitespace_tokenize`: strip, then split on whitespace. It is empty
      exactly for blank text; otherwise its tokens are non-empty, contain no
      whitespace, and together hold every non-whitespace character in order. */
  function WhitespaceTokenize(u: UnicodeDb, text: string): (r: seq<string>)
    ensures r == [] <==> PyText.IsBlank(text, u.isSpace)
    ensures forall w :: w in r ==> PyText.GoodWord(w, u.isSpace)
    ensures PyText.Concat(r) == PyText.NonSpace(text, u.isSpace)
  {
    var t := PyText.Strip(text, u.isSpace);
    PyText.StripEnds(text, u.isSpace);
    PyText.StripNonSpace(text, u.isSpace);
    PyText.SplitWsProperties(t, u.isSpace);
    if t == [] then PyText.NonSpaceBlank(text, u.isSpace); [] else PyText.SplitWs(t, u.isSpace)
  }

  // ---------------------------------------------------------------------------
  // run_strip_accents
  // ---------------------------------------------------------------------------

  /** The characters of `s` whose category is not "Mn", in order. */
  function DropMarks(u: UnicodeDb, s: string): string
    decreases |s|
  {
    if s == [] then ""
    else DropMarks(u, s[..|s| - 1]) + (if u.category(s[|s| - 1]) == "Mn" then "" else [s[|s| - 1]])
  }

  /** No combining mark survives, nothing is added, and text without marks is
      left as it is. */
  lemma {:induction false} DropMarksProperties(u: UnicodeDb, s: string)
    ensures |DropMarks(u, s)| <= |s|
    ensures forall i :: 0 <= i < |DropMarks(u, s)| ==> u.category(DropMarks(u, s)[i]) != "Mn"
    ensures (forall i :: 0 <= i < |s| ==> u.category(s[i]) != "Mn") ==> DropMarks(u, s) == s
    decreases |s|
  {
    if s != [] {
      DropMarksProperties(u, s[..|s| - 1]);
    }
  }

  /** `BasicTokenizer.run_strip_accents` */
  method RunStripAccents(u: UnicodeDb, text: string) returns (out: string)
    ensures out == DropMarks(u, u.nfd(text))
  {
    var t := u.nfd(text);
    out := "";
    for i := 0 to |t|
      invariant out == DropMarks(u, t[..i])
    {
      assert t[..i + 1][..i] == t[..i];
      if u.category(t[i]) == "Mn" {
        continue;
      }
      out := out + [t[i]];
    }
    assert t[..|t|] == t;
  }

  // ---------------------------------------------------------------------------
  // run_split_on_punc
  // ---------------------------------------------------------------------------

  /** A piece holding one punctuation character. */
  predicate PunctPiece(u: UnicodeDb, w: string)
  {
    |w| == 1 && IsPunctuation(u, w[0])
  }

  /** A non-empty piece without punctuation. */
  predicate PlainPiece(u: UnicodeDb, w: string)
  {
    w != [] && forall i :: 0 <= i < |w| ==> !IsPunctuation(u, w[i])
  }

  /** One character of `run_split_on_punc`: punctuation is a piece of its own;
      any other character opens a new piece after punctuation (or at the
      start) and otherwise joins the last piece. */
  function PuncStep(u: UnicodeDb, out: seq<string>, c: char): seq<string>
  {
    if IsPunctuation(u, c) || out == [] || PunctPiece(u, out[|out| - 1]) then out + [[c]]
    else out[..|out| - 1] + [out[|out| - 1] + [c]]
  }

  /** The pieces `run_split_on_punc` returns for `s`. */
  function SplitPunc(u: UnicodeDb, s: string): seq<string>
    decreases |s|
  {
    if s == [] then [] else PuncStep(u, SplitPunc(u, s[..|s| - 1]), s[|s| - 1])
  }

  /** The pieces concatenate to the text. */
  lemma {:induction false} SplitPuncConcat(u: UnicodeDb, s: string)
    ensures PyText.Concat(SplitPunc(u, s)) == s
    decreases |s|
  {
    if s != [] {
      var t := s[..|s| - 1];
      var c := s[|s| - 1];
      assert s == t + [c];
      SplitPuncConcat(u, t);
      var out := SplitPunc(u, t);
      if IsPunctuation(u, c) || out == [] || PunctPiece(u, out[|out| - 1]) {
        PyText.ConcatSnoc(out, [c]);
      } else {
        ConcatExtendLast(out, c);
      }
    }
  }

  /** Adding a character to the last piece adds it to the concatenation. */
  lemma {:induction false} ConcatExtendLast(out: seq<string>, c: char)
    requires out != []
    ensures PyText.Concat(out[..|out| - 1] + [out[|out| - 1] + [c]]) == PyText.Concat(out) + [c]
  {
    var n := |out|;
    var pre := out[..n - 1];
    var last := out[n - 1];
    assert pre + [last] == out;
    PyText.ConcatSnoc(pre, last);
    PyText.ConcatSnoc(pre, last + [c]);
    var a := PyText.Concat(pre);
    assert a + (last + [c]) == (a + last) + [c];
  }

  /** The shape of the pieces: each is one punctuation character or a
      non-empty run without punctuation, and no two such runs are neighbours. */
  predicate PuncPieces(u: UnicodeDb, out: seq<string>)
  {
    && (forall k :: 0 <= k < |out| ==> PunctPiece(u, out[k]) || PlainPiece(u, out[k]))
    && (forall k :: 0 <= k < |out| - 1 ==> !(PlainPiece(u, out[k]) && PlainPiece(u, out[k + 1])))
  }

  lemma {:induction false} PuncStepShape(u: UnicodeDb, out: seq<string>, c: char)
    requires PuncPieces(u, out)
    ensures PuncPieces(u, PuncStep(u, out, c))
  {
    var r := PuncStep(u, out, c);
    var n := |out|;
    if IsPunctuation(u, c) {
      assert r == out + [[c]];
      assert forall k :: 0 <= k < n ==> r[k] == out[k];
      assert PunctPiece(u, r[n]);
    } else if out == [] || PunctPiece(u, out[n - 1]) {
      assert r == out + [[c]];
      assert forall k :: 0 <= k < n ==> r[k] == out[k];
      assert PlainPiece(u, r[n]);
      assert n > 0 ==> !PlainPiece(u, r[n - 1]);
    } else {
      var last := out[n - 1] + [c];
      assert r == out[..n - 1] + [last];
      assert forall k :: 0 <= k < n - 1 ==> r[k] == out[k];
      assert PlainPiece(u, out[n - 1]);
      assert forall i :: 0 <= i < |last| ==> !IsPunctuation(u, last[i]) by {
        forall i | 0 <= i < |last| ensures !IsPunctuation(u, last[i]) {
          if i < |last| - 1 { assert last[i] == out[n - 1][i]; }
        }
      }
      assert PlainPiece(u, r[n - 1]);
      assert n > 1 ==> !PlainPiece(u, r[n - 2]);
    }
  }

  /** Every piece is a single punctuation character or a non-empty run without
      punctuation, and no two runs without punctuation are neighbours, so every
      such run is maximal. */
  lemma {:induction false} SplitPuncShape(u: UnicodeDb, s: string)
    ensures forall w :: w in SplitPunc(u, s) ==> PunctPiece(u, w) || PlainPiece(u, w)
    ensures forall k :: 0 <= k < |SplitPunc(u, s)| - 1 ==>
      !(PlainPiece(u, SplitPunc(u, s)[k]) && PlainPiece(u, SplitPunc(u, s)[k + 1]))
    decreases |s|
  {
    if s != [] {
      SplitPuncShape(u, s[..|s| - 1]);
      PuncStepShape(u, SplitPunc(u, s[..|s| - 1]), s[|s| - 1]);
    }
  }

  /** `BasicTokenizer.run_split_on_punc` */
  method RunSplitOnPunc(u: UnicodeDb, text: string) returns (out: seq<string>)
    ensures out == SplitPunc(u, text)
  {
    var i := 0;
    var startNewWord := true;
    out := [];
    while i < |text|
      invariant 0 <= i <= |text|
      invariant out == SplitPunc(u, text[..i])
      invariant startNewWord <==> out == [] || PunctPiece(u, out[|out| - 1])
      decreases |text| - i
    {
      var c := text[i];
      assert text[..i + 1][..i] == text[..i];
      if IsPunctuation(u, c) {
        out := out + [[c]];
        startNewWord := true;
      } else {
        if startNewWord {
          out := out + [[c]];
        } else {
          var n := |out|;
          out := out[..n - 1] + [out[n - 1] + [c]];
        }
        startNewWord := false;
      }
      i := i + 1;
    }
    assert text[..i] == text;
  }

  // ---------------------------------------------------------------------------
  // BasicTokenizer.tokenize
  // ---------------------------------------------------------------------------

  /** `BasicTokenizer.tokenize`: every token is non-empty and holds no
      whitespace. */
  method BasicTokenize(u: UnicodeDb, lowerCase: bool, text: string) returns (out: seq<string>)
    ensures forall w :: w in out ==> PyText.GoodWord(w, u.isSpace)
  {
    var cleaned := CleanText(u, text);
    var origTokens := WhitespaceTokenize(u, cleaned);
    var splitTokens: seq<string> := [];
    for k := 0 to |origTokens| {
      var token := origTokens[k];
      if lowerCase {
        token := u.lower(token);
        token := RunStripAccents(u, token);
      }
      var pieces := RunSplitOnPunc(u, token);
      splitTokens := splitTokens + pieces;
    }
    out := WhitespaceTokenize(u, PyText.Join(splitTokens, " "));
  }

  // ---------------------------------------------------------------------------
  // WordPiece
  // ---------------------------------------------------------------------------

  /** The candidate piece `w[s:e]`, with the "##" continuation prefix when it
      does not start the word. */
  function Piece(w: string, s: nat, e: nat): string
    requires s <= e <= |w|
  {
    (if s > 0 then "##" else "") + w[s..e]
  }

  /** The largest end in `(s, e]` whose piece is in the vocabulary, if any. */
  function LongestMatch(vocab: map<string, nat>, w: string, s: nat, e: nat): (r: Option<nat>)
    requires s <= e <= |w|
    ensures r.Some? ==> s < r.value <= e && Piece(w, s, r.value) in vocab
    ensures r.Some? ==> forall e' :: r.value < e' <= e ==> Piece(w, s, e') !in vocab
    ensures r.None? ==> forall e' :: s < e' <= e ==> Piece(w, s, e') !in vocab
    decreases e
  {
    if e == s then None
    else if Piece(w, s, e) in vocab then Some(e)
    else LongestMatch(vocab, w, s, e - 1)
  }

  /** `ends` cuts `w[s:]` into pieces each of which is the longest vocabulary
      piece at its start, the last ending at the end of the word. */
  predicate Cuts(vocab: map<string, nat>, w: string, s: nat, ends: seq<nat>)
    requires s <= |w|
    decreases |ends|
  {
    if ends == [] then s == |w|
    else
      && s < ends[0] <= |w|
      && Piece(w, s, ends[0]) in vocab
      && (forall e' :: ends[0] < e' <= |w| ==> Piece(w, s, e') !in vocab)
      && Cuts(vocab, w, ends[0], ends[1..])
  }

  /** The ends of the pieces the greedy loop cuts from position `s` on, or
      None when some position has no match; what it finds are longest cuts. */
  function Greedy(vocab: map<string, nat>, w: string, s: nat): (r: Option<seq<nat>>)
    requires s <= |w|
    ensures r.Some? ==> Cuts(vocab, w, s, r.value)
    decreases |w| - s
  {
    if s == |w| then Some([])
    else
      match LongestMatch(vocab, w, s, |w|)
      case None => None
      case Some(e) =>
        match Greedy(vocab, w, e)
        case None => None
        case Some(rest) => Some([e] + rest)
  }

  /** The greedy loop finds the longest cuts whenever there are any: longest
      cuts are unique, so Greedy is exactly the search for them. */
  lemma {:induction false} CutsAreGreedy(vocab: map<string, nat>, w: string, s: nat, ends: seq<nat>)
    requires s <= |w|
    requires Cuts(vocab, w, s, ends)
    ensures Greedy(vocab, w, s) == Some(ends)
    decreases |ends|
  {
    if ends != [] {
      var m := LongestMatch(vocab, w, s, |w|);
      assert m == Some(ends[0]);
      CutsAreGreedy(vocab, w, ends[0], ends[1..]);
      assert ends == [ends[0]] + ends[1..];
    }
  }

  /** The pieces the cuts give, prefixed with "##" after the start of the word. */
  function Pieces(vocab: map<string, nat>, w: string, s: nat, ends: seq<nat>): (r: seq<string>)
    requires s <= |w| && Cuts(vocab, w, s, ends)
    ensures |r| == |ends|
    ensures forall p :: p in r ==> p in vocab
    ensures s > 0 ==> forall p :: p in r ==> PyText.StartsWith(p, "##")
    decreases |ends|
  {
    if ends == [] then [] else [Piece(w, s, ends[0])] + Pieces(vocab, w, ends[0], ends[1..])
  }

  /** A piece with its "##" continuation prefix taken off. */
  function Unhash(p: string): string
  {
    if |p| >= 2 then p[2..] else p
  }

  /** The word the pieces spell, first piece as it is, the others unprefixed. */
  function Glue(ps: seq<string>): string
  {
    if ps == [] then "" else ps[0] + GlueRest(ps[1..])
  }

  function GlueRest(ps: seq<string>): string
  {
    if ps == [] then "" else Unhash(ps[0]) + GlueRest(ps[1..])
  }

  /** Past the start of the word, the unprefixed pieces spell the rest of it. */
  lemma {:induction false} GlueRestRebuilds(vocab: map<string, nat>, w: string, s: nat, ends: seq<nat>)
    requires 0 < s <= |w| && Cuts(vocab, w, s, ends)
    ensures GlueRest(Pieces(vocab, w, s, ends)) == w[s..]
    decreases |ends|
  {
    if ends != [] {
      var e := ends[0];
      GlueRestRebuilds(vocab, w, e, ends[1..]);
      assert Unhash(Piece(w, s, e)) == w[s..e];
      assert w[s..e] + w[e..] == w[s..];
    }
  }

  /** `WordpieceTokenizer.tokenize` on one whitespace token: `[UNK]` for a
      word longer than the limit or one the greedy loop gets stuck on, and
      the greedy pieces otherwise. */
  function WordPieceOf(vocab: map<string, nat>, unk: string, maxChars: nat, w: string): (r: seq<string>)
    ensures |w| > maxChars ==> r == [unk]
    ensures (forall ends :: !Cuts(vocab, w, 0, ends)) ==> r == [unk]
    ensures r == [unk] || forall p :: p in r ==> p in vocab
  {
    if |w| > maxChars then [unk]
    else
      match Greedy(vocab, w, 0)
      case None => [unk]
      case Some(ends) => Pieces(vocab, w, 0, ends)
  }

  /** For a word within the limit that can be cut into longest vocabulary
      pieces, the result is those pieces: all in the vocabulary, every piece
      after the first prefixed with "##", and glued back they give the word. */
  lemma {:induction false} WordPieceSuccess(vocab: map<string, nat>, unk: string, maxChars: nat, w: string, ends: seq<nat>)
    requires |w| <= maxChars
    requires Cuts(vocab, w, 0, ends)
    ensures WordPieceOf(vocab, unk, maxChars, w) == Pieces(vocab, w, 0, ends)
    ensures forall p :: p in WordPieceOf(vocab, unk, maxChars, w) ==> p in vocab
    ensures forall k :: 1 <= k < |ends| ==> PyText.StartsWith(WordPieceOf(vocab, unk, maxChars, w)[k], "##")
    ensures Glue(WordPieceOf(vocab, unk, maxChars, w)) == w
  {
    CutsAreGreedy(vocab, w, 0, ends);
    PiecesPrefixed(vocab, w, ends);
    GlueRebuilds(vocab, w, ends);
  }

  /** Every piece after the first carries the "##" prefix. */
  lemma {:induction false} PiecesPrefixed(vocab: map<string, nat>, w: string, ends: seq<nat>)
    requires Cuts(vocab, w, 0, ends)
    ensures forall k :: 1 <= k < |ends| ==> PyText.StartsWith(Pieces(vocab, w, 0, ends)[k], "##")
  {
    if ends != [] {
      var ps := Pieces(vocab, w, 0, ends);
      var rest := Pieces(vocab, w, ends[0], ends[1..]);
      assert ps == [Piece(w, 0, ends[0])] + rest;
      forall k | 1 <= k < |ends|
        ensures PyText.StartsWith(ps[k], "##")
      {
        assert ps[k] == rest[k - 1];
        assert rest[k - 1] in rest;
      }
    }
  }

  /** Glued back, the pieces spell the word. */
  lemma {:induction false} GlueRebuilds(vocab: map<string, nat>, w: string, ends: seq<nat>)
    requires Cuts(vocab, w, 0, ends)
    ensures Glue(Pieces(vocab, w, 0, ends)) == w
  {
    if ends != [] {
      var e := ends[0];
      var rest := Pieces(vocab, w, e, ends[1..]);
      assert Piece(w, 0, e) == w[..e];
      assert Pieces(vocab, w, 0, ends) == [w[..e]] + rest;
      if e < |w| {
        GlueRestRebuilds(vocab, w, e, ends[1..]);
      } else {
        assert ends[1..] == [];
      }
      assert w[..e] + w[e..] == w;
    }
  }

  /** The inner loop of `WordpieceTokenizer.tokenize`: from the whole rest of
      the word, shorten the candidate until it is in the vocabulary. */
  method LongestVocabPiece(vocab: map<string, nat>, chars: string, start: nat)
    returns (end: nat, curSubstr: Option<string>)
    requires start < |chars|
    ensures LongestMatch(vocab, chars, start, |chars|).None? ==> curSubstr.None?
    ensures LongestMatch(vocab, chars, start, |chars|).Some? ==>
      && end == LongestMatch(vocab, chars, start, |chars|).value
      && curSubstr == Some(Piece(chars, start, end))
  {
    end := |chars|;
    curSubstr := None;
    while start < end
      invariant start <= end <= |chars|
      invariant LongestMatch(vocab, chars, start, |chars|) == LongestMatch(vocab, chars, start, end)
      decreases end
    {
      var substr := chars[start..end];
      if start > 0 {
        substr := "##" + substr;
      }
      assert substr == Piece(chars, start, end);
      if substr in vocab {
        curSubstr := Some(substr);
        return;
      }
      end := end - 1;
    }
  }

  /** One step of the greedy loop: the longest piece at `s`, then the rest. */
  lemma {:induction false} GreedyUnfold(vocab: map<string, nat>, w: string, s: nat, e: nat, rest: seq<nat>)
    requires s < |w|
    requires LongestMatch(vocab, w, s, |w|) == Some(e)
    requires Greedy(vocab, w, e) == Some(rest)
    ensures Greedy(vocab, w, s) == Some([e] + rest)
    ensures Pieces(vocab, w, s, [e] + rest) == [Piece(w, s, e)] + Pieces(vocab, w, e, rest)
  {
    assert ([e] + rest)[0] == e && ([e] + rest)[1..] == rest;
  }

  /** The outer loop of `WordpieceTokenizer.tokenize` for one token. */
  method WordpieceWord(vocab: map<string, nat>, unk: string, maxChars: nat, chars: string)
    returns (out: seq<string>)
    ensures out == WordPieceOf(vocab, unk, maxChars, chars)
  {
    if |chars| > maxChars {
      return [unk];
    }
    var isBad := false;
    var start := 0;
    var subTokens: seq<string> := [];
    while start < |chars|
      invariant 0 <= start <= |chars|
      invariant Greedy(vocab, chars, 0).None? <==> Greedy(vocab, chars, start).None?
      invariant Greedy(vocab, chars, 0).Some? ==>
        Pieces(vocab, chars, 0, Greedy(vocab, chars, 0).value) ==
        subTokens + Pieces(vocab, chars, start, Greedy(vocab, chars, start).value)
      invariant !isBad
      decreases |chars| - start
    {
      var end, curSubstr := LongestVocabPiece(vocab, chars, start);
      if curSubstr.None? {
        isBad := true;
        break;
      }
      ghost var g := Greedy(vocab, chars, end);
      if g.Some? {
        GreedyUnfold(vocab, chars, start, end, g.value);
      }
      subTokens := subTokens + [curSubstr.value];
      start := end;
    }
    if isBad {
      return [unk];
    }
    assert Pieces(vocab, chars, start, []) == [];
    return subTokens;
  }

  /** `WordpieceTokenizer.tokenize`: the pieces of each whitespace token in
      turn; every output token is `[UNK]` or a vocabulary entry. */
  method WordpieceTokenize(vocab: map<string, nat>, unk: string, maxChars: nat, u: UnicodeDb, text: string)
    returns (out: seq<string>)
    ensures forall t :: t in out ==> t == unk || t in vocab
  {
    out := [];
    var tokens := WhitespaceTokenize(u, text);
    for i := 0 to |tokens|
      invariant forall t :: t in out ==> t == unk || t in vocab
    {
      var pieces := WordpieceWord(vocab, unk, maxChars, tokens[i]);
      out := out + pieces;
    }
  }

  /** `BertTokenizer.tokenize`: basic tokenization, then WordPiece on each
      token; every output token is `[UNK]` or a vocabulary entry. */
  method BertTokenize(vocab: map<string, nat>, u: UnicodeDb, lowerCase: bool, text: string)
    returns (out: seq<string>)
    ensures forall t :: t in out ==> t == "[UNK]" || t in vocab
  {
    out := [];
    var basic := BasicTokenize(u, lowerCase, text);
    for i := 0 to |basic|
      invariant forall t :: t in out ==> t == "[UNK]" || t in vocab
    {
      var pieces := WordpieceTokenize(vocab, "[UNK]", 100, u, basic[i]);
      out := out + pieces;
    }
  }

  // ---------------------------------------------------------------------------
  // The vocabulary and the token/id conversions
  // ---------------------------------------------------------------------------

  /** `vocab` indexes the tokens: every token is a key, and each key maps to
      the last position it appears at. */
  predicate IndexedBy(vocab: map<string, nat>, toks: seq<string>)
  {
    && (forall k :: 0 <= k < |toks| ==> toks[k] in vocab)
    && (forall t :: t in vocab ==> vocab[t] < |toks| && toks[vocab[t]] == t)
    && (forall t, j :: t in vocab && vocab[t] < j < |toks| ==> toks[j] != t)
  }

  /** The lines of the vocabulary file, stripped. */
  function StrippedLines(lines: seq<string>, sp: char -> bool): (r: seq<string>)
    ensures |r| == |lines|
    decreases |lines|
  {
    if lines == [] then []
    else StrippedLines(lines[..|lines| - 1], sp) + [PyText.Strip(lines[|lines| - 1], sp)]
  }

  /** Entering the next token at the next index keeps the indexing. */
  lemma {:induction false} IndexedSnoc(vocab: map<string, nat>, toks: seq<string>, t: string)
    requires IndexedBy(vocab, toks)
    ensures IndexedBy(vocab[t := |toks|], toks + [t])
  {
    var v := vocab[t := |toks|];
    var ts := toks + [t];
    forall k | 0 <= k < |ts| ensures ts[k] in v {
      if k < |toks| { assert ts[k] == toks[k]; }
    }
    forall x | x in v ensures v[x] < |ts| && ts[v[x]] == x {
      if x != t { assert ts[v[x]] == toks[vocab[x]]; }
    }
    forall x, j | x in v && v[x] < j < |ts| ensures ts[j] != x {
      if x != t {
        assert j < |toks| ==> ts[j] == toks[j];
      }
    }
  }

  /** The vocabulary `load_vocab` builds from the stripped lines `toks`: each
      token maps to the index of its line, later lines overriding earlier ones. */
  function VocabOf(toks: seq<string>): map<string, nat>
    decreases |toks|
  {
    if toks == [] then map[] else VocabOf(toks[..|toks| - 1])[toks[|toks| - 1] := |toks| - 1]
  }

  /** Every token is in the vocabulary, its id is a line holding it, and no
      later line holds it. */
  lemma {:induction false} VocabOfIndexed(toks: seq<string>)
    ensures IndexedBy(VocabOf(toks), toks)
    decreases |toks|
  {
    if toks != [] {
      var pre := toks[..|toks| - 1];
      VocabOfIndexed(pre);
      IndexedSnoc(VocabOf(pre), pre, toks[|toks| - 1]);
      assert pre + [toks[|toks| - 1]] == toks;
    }
  }

  /** One more line adds its stripped text. */
  lemma {:induction false} StrippedSnoc(lines: seq<string>, index: nat, sp: char -> bool)
    requires index < |lines|
    ensures StrippedLines(lines[..index + 1], sp) ==
      StrippedLines(lines[..index], sp) + [PyText.Strip(lines[index], sp)]
  {
    assert lines[..index + 1][..index] == lines[..index];
  }

  /** One more token is entered at the next index. */
  lemma {:induction false} VocabSnoc(toks: seq<string>, t: string)
    ensures VocabOf(toks + [t]) == VocabOf(toks)[t := |toks|]
  {
    assert (toks + [t])[..|toks|] == toks;
  }

  /** `load_vocab` over the file's lines (the reading itself is not modelled). */
  method LoadVocab(lines: seq<string>, sp: char -> bool) returns (vocab: map<string, nat>)
    ensures vocab == VocabOf(StrippedLines(lines, sp))
  {
    vocab := map[];
    ghost var toks: seq<string> := [];
    var index := 0;
    while index < |lines|
      invariant 0 <= index <= |lines|
      invariant toks == StrippedLines(lines[..index], sp)
      invariant vocab == VocabOf(toks)
      decreases |lines| - index
    {
      var token := PyText.Strip(lines[index], sp);
      StrippedSnoc(lines, index, sp);
      VocabSnoc(toks, token);
      vocab := vocab[token := index];
      toks := toks + [token];
      index := index + 1;
    }
    assert lines[..index] == lines;
  }

  /** Two tokens never share an id. */
  predicate Injective(vocab: map<string, nat>)
  {
    forall a, b :: a in vocab && b in vocab && vocab[a] == vocab[b] ==> a == b
  }

  lemma {:induction false} LoadedVocabInjective(vocab: map<string, nat>, toks: seq<string>)
    requires IndexedBy(vocab, toks)
    ensures Injective(vocab)
  {
  }

  /** `ids_to_tokens`: the vocabulary turned around. */
  function InvertVocab(vocab: map<string, nat>): (inv: map<nat, string>)
    requires Injective(vocab)
    ensures forall t :: t in vocab ==> vocab[t] in inv && inv[vocab[t]] == t
    ensures forall i :: i in inv ==> inv[i] in vocab && vocab[inv[i]] == i
  {
    map t | t in vocab :: vocab[t] := t
  }

  /** Looking every key up in turn: the first missing key is the KeyError. */
  function LookupAll<K, V>(m: map<K, V>, xs: seq<K>): (r: Result<seq<V>, K>)
    ensures r.Ok? <==> forall i :: 0 <= i < |xs| ==> xs[i] in m
    ensures r.Ok? ==> |r.value| == |xs| && forall i :: 0 <= i < |xs| ==> r.value[i] == m[xs[i]]
    ensures r.Err? ==> exists i :: 0 <= i < |xs| && xs[i] == r.error && xs[i] !in m
                                   && forall j :: 0 <= j < i ==> xs[j] in m
    decreases |xs|
  {
    if xs == [] then Ok([])
    else if xs[0] !in m then Err(xs[0])
    else
      match LookupAll(m, xs[1..])
      case Err(k) =>
        assert exists i :: 0 < i < |xs| && xs[i] == k && xs[i] !in m && forall j :: 0 <= j < i ==> xs[j] in m by {
          var i :| 0 <= i < |xs[1..]| && xs[1..][i] == k && xs[1..][i] !in m && forall j :: 0 <= j < i ==> xs[1..][j] in m;
          assert forall j :: 1 <= j < i + 1 ==> xs[j] == xs[1..][j - 1];
        }
        Err(k)
      case Ok(vs) => Ok([m[xs[0]]] + vs)
  }

  /** `convert_tokens_to_ids` and `convert_ids_to_tokens` */
  method ConvertAll<K, V>(m: map<K, V>, xs: seq<K>) returns (r: Result<seq<V>, K>)
    ensures r == LookupAll(m, xs)
  {
    var out: seq<V> := [];
    for i := 0 to |xs|
      invariant |out| == i && forall j :: 0 <= j < i ==> xs[j] in m && out[j] == m[xs[j]]
    {
      if xs[i] !in m {
        return Err(xs[i]);
      }
      out := out + [m[xs[i]]];
    }
    assert out == LookupAll(m, xs).value;
    return Ok(out);
  }

  /** Converting vocabulary tokens to ids and back gives the tokens. */
  lemma {:induction false} IdsRoundTrip(vocab: map<string, nat>, tokens: seq<string>)
    requires Injective(vocab)
    requires forall i :: 0 <= i < |tokens| ==> tokens[i] in vocab
    ensures LookupAll(vocab, tokens).Ok?
    ensures LookupAll(InvertVocab(vocab), LookupAll(vocab, tokens).value) == Ok(tokens)
  {
    var ids := LookupAll(vocab, tokens).value;
    var back := LookupAll(InvertVocab(vocab), ids);
    assert back.Ok?;
    assert back.value == tokens;
  }
}
