/**
 * `build_prompt(style, max_words)`: the instruction text placed before the
 * input in the user turn. The style selector picks one of three instruction
 * lines by exact string match; a word-budget line and two fixed lines follow.
 * `ParsePromptPrefix` reads a prompt back, so the prompt is shown to encode
 * exactly the style class and the word budget.
 */
module Prompt {
  import opened Wrappers
  import opened Decimal

  /** The three instruction variants; every unmatched selector is `Paragraph`. */
  datatype Style = Paragraph | Bullets | TlDr

  /** The variant `build_prompt` selects for a style string. */
  function StyleOf(style: string): (st: Style)
    ensures st == Bullets <==> style == "bullets"
    ensures st == TlDr <==> style == "tl;dr"
    ensures st == Paragraph <==> style != "bullets" && style != "tl;dr"
  {
    if style == "bullets" then Bullets
    else if style == "tl;dr" then TlDr
    else Paragraph
  }

  const InstructionLead: string := "Return a "

  /**
   * The instruction line of each variant (the dashes are U+2013 EN DASH).
   * The texts are written in short pieces so that single characters of them
   * can be read off without the verifier unfolding one long literal.
   */
  function Instruction(st: Style): (line: string)
    ensures StartsWith(line, InstructionLead) && line[|line| - 1] == '.'
    // The three lines already differ at their first character after "Return a ".
    ensures |line| > |InstructionLead|
            && line[|InstructionLead|] == match st case Bullets => 'b' case TlDr => 'T' case Paragraph => 'c'
  {
    var rest := match st
      case Bullets => "bullet-point summary " + "(5\U{2013}10 bullets)."
      case TlDr => "TL;DR (1\U{2013}2 sentences), " + "then a short paragraph summary."
      case Paragraph => "concise paragraph " + "summary.";
    ConcatSplit(InstructionLead, rest);
    InstructionLead + rest
  }

  const BudgetLead: string := "Keep it under about "
  const BudgetEnd: string := " words.\n"
  const FactsLine: string := "Preserve key facts, numbers, names, and causal relationships.\n"
  const UnclearLine: string := "If the text is unclear or missing info, say so briefly.\n"

  /** Everything of a prompt before the word budget. */
  function Head(st: Style): string {
    Instruction(st) + "\n" + BudgetLead
  }

  /** Everything of a prompt after the word budget. */
  function Tail(): (t: string)
    ensures t != [] && t[|t| - 1] == '\n'
  {
    LastOfConcat(BudgetEnd + FactsLine, UnclearLine);
    BudgetEnd + FactsLine + UnclearLine
  }

  predicate StartsWith(s: string, prefix: string) {
    |prefix| <= |s| && s[..|prefix|] == prefix
  }

  /**
   * `build_prompt(style, max_words)`: the selected instruction line, then
   * the word-budget line carrying `str(max_words)`, then the two fixed lines,
   * each ending in a newline. `max_words` may be any `int`.
   */
  function BuildPrompt(style: string, maxWords: int): (p: string)
    ensures StartsWith(p, Instruction(StyleOf(style)) + "\n") && StartsWith(p, Head(StyleOf(style)))
    ensures var k := |Head(StyleOf(style))|;
            k + |IntToDecimal(maxWords)| <= |p| && p[k..k + |IntToDecimal(maxWords)|] == IntToDecimal(maxWords)
            && p[k + |IntToDecimal(maxWords)|..] == Tail()
  {
    var st, number := StyleOf(style), IntToDecimal(maxWords);
    PromptLayout(Instruction(st) + "\n", BudgetLead, number, Tail());
    Head(st) + number + Tail()
  }

  /** Every prompt ends with a newline, the end of its last fixed line. */
  lemma PromptEndsWithNewline(style: string, maxWords: int)
    ensures var p := BuildPrompt(style, maxWords); p != [] && p[|p| - 1] == '\n'
  {
    LastOfSuffix(BuildPrompt(style, maxWords), |Head(StyleOf(style))| + |IntToDecimal(maxWords)|, Tail());
  }

  /** A prompt read back from the front of `s`, with what follows it. */
  datatype ParsedPrompt = ParsedPrompt(style: Style, maxWords: int, rest: string)

  /** Recognises the instruction line and the words before the budget. */
  function ParseHead(s: string): Option<(Style, string)> {
    if StartsWith(s, Head(Bullets)) then Some((Bullets, s[|Head(Bullets)|..]))
    else if StartsWith(s, Head(TlDr)) then Some((TlDr, s[|Head(TlDr)|..]))
    else if StartsWith(s, Head(Paragraph)) then Some((Paragraph, s[|Head(Paragraph)|..]))
    else None
  }

  /** Recognises the word budget and the words after it. */
  function ParseBudget(s: string): Option<(int, string)> {
    var k := NumeralSpan(s);
    match ParseInt(s[..k])
    case None => None
    case Some(n) =>
      if StartsWith(s[k..], Tail()) then Some((n, s[k..][|Tail()|..])) else None
  }

  /** Reads a prompt from the front of `s`, or fails. */
  function ParsePromptPrefix(s: string): Option<ParsedPrompt> {
    match ParseHead(s)
    case None => None
    case Some((st, afterHead)) =>
      match ParseBudget(afterHead)
      case None => None
      case Some((n, rest)) => Some(ParsedPrompt(st, n, rest))
  }

  /**
   * Where the pieces of `a + b + c` sit. Kept apart from the literal texts
   * of the prompt so that none of them is unfolded while proving it.
   */
  lemma ConcatPieces(a: string, b: string, c: string)
    ensures StartsWith(a + b + c, a)
    ensures |a| + |b| <= |a + b + c| && (a + b + c)[|a|..|a| + |b|] == b
    ensures (a + b + c)[|a| + |b|..] == c
  {
  }

  /**
   * Where the pieces of a prompt `line + lead + number + tail` sit. Kept apart
   * from the literal texts of the prompt so that none of them is unfolded
   * while proving it.
   */
  lemma PromptLayout(line: string, lead: string, number: string, tail: string)
    ensures var p := line + lead + number + tail;
            StartsWith(p, line) && StartsWith(p, line + lead)
            && |line + lead| + |number| <= |p| && p[|line + lead|..|line + lead| + |number|] == number
            && p[|line + lead| + |number|..] == tail
  {
    ConcatPieces(line + lead, number, tail);
    ConcatSplit(line, lead);
    StartsWithTrans(line + lead + number + tail, line + lead, line);
  }

  /** The last character of a concatenation with a non-empty right part. */
  lemma LastOfConcat(a: string, b: string)
    requires b != []
    ensures (a + b)[|a + b| - 1] == b[|b| - 1]
  {
  }

  /** A text ends with the last character of any non-empty suffix of it. */
  lemma LastOfSuffix(s: string, k: nat, t: string)
    requires k <= |s| && s[k..] == t && t != []
    ensures s[|s| - 1] == t[|t| - 1]
  {
  }

  /** A prefix of a prefix is a prefix. */
  lemma StartsWithTrans(s: string, a: string, b: string)
    requires StartsWith(s, a) && StartsWith(a, b)
    ensures StartsWith(s, b)
  {
  }

  /** The two halves of a concatenation, kept apart so that no literal text is unfolded while proving it. */
  lemma ConcatSplit(a: string, b: string)
    ensures StartsWith(a + b, a) && (a + b)[|a|..] == b
  {
  }

  /** Regrouping a concatenation, kept apart so that no literal text is unfolded while proving it. */
  lemma ConcatRegroup3(a: string, b: string, c: string)
    ensures a + b + c == a + (b + c)
  {
  }

  /** Regrouping a concatenation, kept apart so that no literal text is unfolded while proving it. */
  lemma ConcatRegroup(a: string, b: string, c: string, d: string)
    ensures a + b + c + d == a + (b + (c + d))
  {
  }

  lemma {:induction false} ParseHeadRoundTrip(st: Style, rest: string)
    ensures ParseHead(Head(st) + rest) == Some((st, rest))
  {
    var s := Head(st) + rest;
    assert s[..|Head(st)|] == Head(st);
    assert s[|Head(st)|..] == rest;
    // The three heads already differ at their tenth character, the first after "Return a ".
    assert |InstructionLead| == 9;
    assert Head(Bullets)[9] == 'b' && Head(TlDr)[9] == 'T' && Head(Paragraph)[9] == 'c';
    assert s[9] == Head(st)[9];
    assert |Head(Bullets)| > 9 && |Head(TlDr)| > 9;
  }

  lemma {:induction false} ParseBudgetRoundTrip(n: int, rest: string)
    ensures ParseBudget(IntToDecimal(n) + (Tail() + rest)) == Some((n, rest))
  {
    var number := IntToDecimal(n);
    var tail := Tail() + rest;
    assert Tail()[0] == ' ';
    NumeralSpanStops(number, tail);
    ConcatSplit(number, tail);
    IntToDecimalRoundTrip(n);
    ConcatSplit(Tail(), rest);
  }

  /**
   * The prompt parser undoes `build_prompt`: any text placed after a built
   * prompt is returned untouched together with the style variant and the word
   * budget the prompt was built from.
   */
  lemma {:induction false} PromptRoundTrip(style: string, maxWords: int, rest: string)
    ensures ParsePromptPrefix(BuildPrompt(style, maxWords) + rest)
            == Some(ParsedPrompt(StyleOf(style), maxWords, rest))
  {
    var st := StyleOf(style);
    var number := IntToDecimal(maxWords);
    var afterHead := number + (Tail() + rest);
    assert BuildPrompt(style, maxWords) == Head(st) + number + Tail();
    ConcatRegroup(Head(st), number, Tail(), rest);
    ParseHeadRoundTrip(st, afterHead);
    ParseBudgetRoundTrip(maxWords, rest);
  }

  /**
   * Two prompts are equal exactly when they were built from the same style
   * variant and the same word budget.
   */
  lemma PromptDeterminesStyleAndBudget(s1: string, n1: int, s2: string, n2: int)
    ensures BuildPrompt(s1, n1) == BuildPrompt(s2, n2) <==> StyleOf(s1) == StyleOf(s2) && n1 == n2
  {
    if BuildPrompt(s1, n1) == BuildPrompt(s2, n2) {
      PromptRoundTrip(s1, n1, []);
      PromptRoundTrip(s2, n2, []);
    }
  }
}
