/**
 * The plan service of the nested-plan application: the two prompts it sends,
 * the extraction of the JSON text from a reply that may wrap it in a
 * markdown code fence, and the rewrapping of whatever was thrown.
 *
 * The remote model call and `JSON.parse` are not modelled: each operation
 * takes them as function parameters. What they throw is a `Thrown` value.
 */
module GeminiService {
  import opened Wrappers
  import opened Strings
  import opened Types

  /** A thrown JavaScript value: an `Error` with its message, or anything else. */
  datatype Thrown = ErrorValue(message: string) | NonErrorValue

  // ---------------------------------------------------------------------------
  // Fence stripping

  const OPEN_FENCE: string := "```json"
  const FENCE: string := "```"

  /**
   * The fence stripping of a trimmed reply: when it holds an opening "```json"
   * and some "```", the stretch from just after the first opening fence to
   * the last fence, through `substring`; otherwise the text itself.
   */
  function StripFence(jsonText: string): (r: string)
    ensures Contains(jsonText, r)
  {
    var s := IndexOf(jsonText, OPEN_FENCE);
    var e := LastIndexOf(jsonText, FENCE);
    if s != -1 && e != -1 then
      SubstringContained(jsonText, s + 7, e);
      Substring(jsonText, s + 7, e)
    else
      ContainsSelf(jsonText);
      jsonText
  }

  /** The text handed to `JSON.parse`: the reply, trimmed, then stripped of its fence. */
  function ParsableText(responseText: string): (r: string)
    ensures Contains(responseText, r)
  {
    var t := Trim(responseText);
    assert OccursAt(responseText, t, SkipLeading(responseText, 0));
    ContainsTrans(responseText, t, StripFence(t));
    StripFence(t)
  }

  /** A reply without any backtick is parsed as trimmed. */
  lemma UnfencedIsTrimmed(responseText: string)
    requires '`' !in responseText
    ensures ParsableText(responseText) == Trim(responseText)
  {
    var j := Trim(responseText);
    forall i ensures !OccursAt(j, OPEN_FENCE, i) {
      if 0 <= i && i + 7 <= |j| {
        assert j[i..i + 7][0] == j[i];
        assert j[i] in responseText;
      }
    }
  }

  /** Without an opening fence, or without any fence, the text is kept whole. */
  lemma NoFenceKeepsText(jsonText: string)
    requires (forall i :: !OccursAt(jsonText, OPEN_FENCE, i)) || (forall i :: !OccursAt(jsonText, FENCE, i))
    ensures StripFence(jsonText) == jsonText
  {
  }

  /**
   * An opening fence starts with a fence, and no fence starts inside its
   * "json": the next possible fence is seven characters on.
   */
  lemma FenceInsideOpening(j: string, s: int)
    requires OccursAt(j, OPEN_FENCE, s)
    ensures OccursAt(j, FENCE, s)
    ensures forall k :: s < k < s + 7 ==> !OccursAt(j, FENCE, k)
  {
    assert j[s..s + 7] == OPEN_FENCE;
    assert j[s..s + 3] == j[s..s + 7][..3];
    assert j[s + 3] == 'j' && j[s + 4] == 's' && j[s + 5] == 'o' && j[s + 6] == 'n';
    forall k | s < k < s + 7 ensures !OccursAt(j, FENCE, k) {
      var p := if k + 2 <= s + 6 then k + 2 else k;
      assert j[p] != '`';
      if k + 3 <= |j| {
        assert j[k..k + 3][p - k] == j[p];
      }
    }
  }

  /**
   * Once an opening fence is found the last fence exists, and it is either
   * the opening fence itself or lies at least seven characters after it.
   */
  lemma ClosingFenceAfterOpening(j: string)
    ensures var s, e := IndexOf(j, OPEN_FENCE), LastIndexOf(j, FENCE);
      s != -1 ==> e != -1 && (e == s || e >= s + 7)
  {
    var s := IndexOf(j, OPEN_FENCE);
    if s != -1 {
      FenceInsideOpening(j, s);
    }
  }

  /**
   * With the first opening fence at `s` and the last fence at `e >= s + 7`,
   * the result is exactly what lies between them; what precedes the opening
   * fence and follows the last fence is dropped.
   */
  lemma FencedBodyBetween(j: string)
    ensures var s, e := IndexOf(j, OPEN_FENCE), LastIndexOf(j, FENCE);
      s != -1 && e >= s + 7 ==> StripFence(j) == j[s + 7..e]
  {
    var s, e := IndexOf(j, OPEN_FENCE), LastIndexOf(j, FENCE);
    if s != -1 && e >= s + 7 {
      SubstringInRange(j, s + 7, e);
    }
  }

  /**
   * When the opening fence is the last fence, `substring` swaps its
   * arguments and the result is the opening fence itself.
   */
  lemma LoneOpeningFence(j: string)
    ensures var s, e := IndexOf(j, OPEN_FENCE), LastIndexOf(j, FENCE);
      s != -1 && e == s ==> StripFence(j) == OPEN_FENCE
  {
    var s, e := IndexOf(j, OPEN_FENCE), LastIndexOf(j, FENCE);
    if s != -1 && e == s {
      SubstringSymmetric(j, s + 7, e);
      SubstringInRange(j, s, s + 7);
    }
  }

  /** A body fenced as "```json" ... "```" is recovered exactly, whatever it holds. */
  lemma StripFenceRoundTrip(body: string)
    ensures StripFence(OPEN_FENCE + body + FENCE) == body
  {
    var t := OPEN_FENCE + body + FENCE;
    assert t[0..7] == OPEN_FENCE;
    IndexOfAtStart(t, OPEN_FENCE);
    assert t[|t| - 3..] == FENCE;
    LastIndexOfAtEnd(t, FENCE);
    SubstringInRange(t, 7, |t| - 3);
    assert t[7..|t| - 3] == body;
  }

  /** The same round trip through the whole extraction: the fenced reply is already trimmed. */
  lemma FencedRoundTrip(body: string)
    ensures ParsableText(OPEN_FENCE + body + FENCE) == body
  {
    var t := OPEN_FENCE + body + FENCE;
    assert t[0] == '`' && t[|t| - 1] == '`';
    TrimNoOp(t);
    StripFenceRoundTrip(body);
  }

  // ---------------------------------------------------------------------------
  // Rewrapping what was thrown

  const PLAN_ERROR_PREFIX: string := "Failed to get financial plan from Gemini: "
  const PLAN_UNKNOWN_ERROR: string := "An unknown error occurred " + "while generating the financial plan."
  const RECALC_ERROR_PREFIX: string := "Failed to recalculate plans from Gemini: "
  const RECALC_UNKNOWN_ERROR: string := "An unknown error occurred " + "while recalculating plans."

  /** The message of the `Error` a catch block throws for `e`. */
  function Rethrown(prefix: string, fallback: string, e: Thrown): string {
    match e
    case ErrorValue(m) => prefix + m
    case NonErrorValue => fallback
  }

  function PlanFailure(e: Thrown): string {
    Rethrown(PLAN_ERROR_PREFIX, PLAN_UNKNOWN_ERROR, e)
  }

  function RecalcFailure(e: Thrown): string {
    Rethrown(RECALC_ERROR_PREFIX, RECALC_UNKNOWN_ERROR, e)
  }

  /** A prefix and a fallback that differ in their first character lose nothing: the cause is recoverable. */
  lemma RethrownInjective(prefix: string, fallback: string, a: Thrown, b: Thrown)
    requires prefix != [] && fallback != [] && prefix[0] != fallback[0]
    requires Rethrown(prefix, fallback, a) == Rethrown(prefix, fallback, b)
    ensures a == b
  {
    match a
    case ErrorValue(ma) =>
      assert Rethrown(prefix, fallback, a)[0] == prefix[0];
      match b {
        case ErrorValue(mb) => CancelPrefix(prefix, ma, mb);
        case NonErrorValue =>
      }
    case NonErrorValue =>
      assert Rethrown(prefix, fallback, a)[0] == fallback[0];
  }

  /** A failed plan request names its cause: different causes give different messages. */
  lemma PlanFailureInjective(a: Thrown, b: Thrown)
    requires PlanFailure(a) == PlanFailure(b)
    ensures a == b
  {
    RethrownInjective(PLAN_ERROR_PREFIX, PLAN_UNKNOWN_ERROR, a, b);
  }

  lemma RecalcFailureInjective(a: Thrown, b: Thrown)
    requires RecalcFailure(a) == RecalcFailure(b)
    ensures a == b
  {
    RethrownInjective(RECALC_ERROR_PREFIX, RECALC_UNKNOWN_ERROR, a, b);
  }

  /** A plan failure and a recalculation failure never share a message. */
  lemma FailuresTellOperationsApart(a: Thrown, b: Thrown)
    ensures PlanFailure(a) != RecalcFailure(b)
  {
    var p, r := PlanFailure(a), RecalcFailure(b);
    if a.ErrorValue? && b.ErrorValue? {
      assert p[10] == PLAN_ERROR_PREFIX[10] == 'g';
      assert r[10] == RECALC_ERROR_PREFIX[10] == 'r';
    } else if a.ErrorValue? {
      assert p[10] == PLAN_ERROR_PREFIX[10] == 'g';
      assert r == RECALC_UNKNOWN_ERROR && r[10] == ' ';
    } else if b.ErrorValue? {
      assert p == PLAN_UNKNOWN_ERROR && p[0] == 'A';
      assert r[0] == RECALC_ERROR_PREFIX[0] == 'F';
    } else {
      assert p[26] == 'w' && r[26] == 'w';
      assert p[32] == 'g' && r[32] == 'r';
    }
  }

  // ---------------------------------------------------------------------------
  // Prompts

  const FORMULAS_OPENING: string :=
    "\n"
    + "  " + "**CRITICAL:** " + "For each " + "plan, " + "provide a " + "detailed " + "and " + "accurate " + "cost " + "breakdown. " + "Use the " + "following " + "financial " + "formulas " + "for all " + "calculations " + "to ensure " + "accuracy.\n"
    + "\n"
    + "  - **For " + "the " + "'Finance' " + "plan**, " + "follow " + "these " + "calculation " + "steps " + "precisely:\n"
    + "    1.  " + "**Principal " + "(P)**: " + "Calculate " + "as `P = " + "Vehicle " + "Price " + "(MSRP) - " + "Down " + "Payment`.\n"
    + "    2.  " + "**Monthly " + "Interest " + "Rate (r)**: " + "Calculate " + "as `r = " + "(APR / 100) " + "/ 12`.\n"
    + "    3.  " + "**Term in " + "Months " + "(t)**: Use " + "the user's " + "provided " + "term ("

  const FORMULAS_CLOSING: string :=
    ").\n"
    + "    4.  " + "**Monthly " + "Payment " + "(M)**: Use " + "the " + "standard " + "loan " + "amortization " + "formula: `M " + "= P * [r * " + "(1 + r)^t] " + "/ [(1 + " + "r)^t - 1]`. " + "The " + "'monthlyPayment' " + "field in " + "the " + "response " + "should be " + "this value, " + "rounded to " + "the nearest " + "dollar.\n"
    + "    5.  " + "**Total " + "Monthly " + "Payments**: " + "Calculate " + "as `M * t`.\n"
    + "    6.  " + "**Total " + "Interest " + "Paid**: " + "Calculate " + "as `Total " + "Monthly " + "Payments - " + "P`.\n"
    + "    7.  " + "**Total " + "Cost**: " + "Calculate " + "as `Total " + "Monthly " + "Payments + " + "Down " + "Payment`.\n"
    + "\n"
    + "  - The " + "`costBreakdown` " + "array for " + "the " + "'Finance' " + "plan MUST " + "include " + "these items " + "in this " + "exact " + "order:\n"
    + "    1.  " + "'Vehicle " + "Price " + "(MSRP)': " + "The " + "estimated " + "MSRP.\n"
    + "    2.  " + "'Principal " + "Loan " + "Amount': " + "The value " + "calculated " + "in step 1 " + "(P).\n"
    + "    3.  " + "'Total " + "Interest " + "Paid': The " + "value " + "calculated " + "in step 6.\n"
    + "    4.  " + "'Down " + "Payment': " + "The user's " + "provided " + "down " + "payment " + "(positive " + "number).\n"
    + "    5.  " + "'Total " + "Monthly " + "Payments': " + "The value " + "calculated " + "in step 5.\n"
    + "    6.  " + "'Total " + "Cost': The " + "value " + "calculated " + "in step 7.\n"
    + "\n"
    + "  - **For " + "the 'Lease' " + "plan**, the " + "breakdown " + "MUST " + "include " + "these items " + "in this " + "exact " + "order:\n"
    + "    1.  " + "'Vehicle " + "Price " + "(MSRP)': " + "The " + "estimated " + "MSRP of the " + "vehicle.\n"
    + "    2.  " + "'Est. " + "Disposition " + "Fee': " + "Include a " + "typical " + "estimated " + "disposition " + "fee (e.g., " + "$350).\n"
    + "    3.  " + "'Due at " + "Signing': " + "The user's " + "provided " + "down " + "payment " + "(also known " + "as capital " + "cost " + "reduction).\n"
    + "    4.  " + "'Total " + "Monthly " + "Payments': " + "Calculated " + "as (monthly " + "payment * " + "term).\n"
    + "    5.  " + "'Total " + "Lease " + "Cost': The " + "final item, " + "calculated " + "as the sum " + "of 'Due at " + "Signing' " + "and 'Total " + "Monthly " + "Payments'. " + "This " + "represents " + "the total " + "cost to " + "lease the " + "vehicle for " + "the term.\n"

  /** `financialFormulasPrompt(term)`: the formula instructions, mentioning the term once. */
  function FormulasPrompt(term: int): string {
    FORMULAS_OPENING + IntToString(term) + FORMULAS_CLOSING
  }

  /** The formula instructions mention the term they were built for. */
  lemma FormulasMentionTerm(term: int)
    ensures Contains(FormulasPrompt(term), IntToString(term))
  {
    OccursInMiddle(FORMULAS_OPENING, IntToString(term), FORMULAS_CLOSING);
  }

  function IncomeLine(monthlyIncome: int): string {
    "    - Monthly Income: $" + IntToString(monthlyIncome) + "\n"
  }

  function CreditLine(creditScore: CreditScoreRange): string {
    "    - Credit Score: " + CreditScoreLabel(creditScore) + "\n"
  }

  function DownPaymentLine(downPayment: int): string {
    "    - Down Payment: $" + IntToString(downPayment) + "\n"
  }

  function TermLine(term: int): string {
    "    - Preferred Loan/Lease Term: " + IntToString(term) + " months\n"
  }

  function LifestyleLine(lifestyle: Lifestyle): string {
    "    - Primary Lifestyle: \"" + LifestyleLabel(lifestyle) + "\"\n"
  }

  const PLAN_INTRO: string :=
    "\n"
    + "    You are " + "an expert " + "financial " + "advisor for " + "Toyota. " + "Analyze the " + "following " + "user's " + "financial " + "and " + "lifestyle " + "profile to " + "recommend " + "suitable " + "Toyota " + "vehicles " + "and " + "financing " + "options.\n"
    + "\n"
    + "    User " + "Profile:\n"

  const PLAN_REQUESTS: string :=
    "\n"
    + "    Based " + "on this " + "profile, " + "please " + "provide:\n"
    + "    1.  " + "Exactly " + "three " + "distinct " + "and diverse " + "Toyota " + "model " + "suggestions " + "that fit " + "the user's " + "lifestyle " + "and " + "financial " + "situation. " + "It is " + "critical " + "that these " + "suggestions " + "are varied. " + "For " + "example, " + "instead of " + "suggesting " + "three " + "similar " + "SUVs for a " + "family, " + "suggest a " + "mix like an " + "SUV, a " + "minivan, " + "and maybe a " + "large " + "sedan. The " + "goal is to " + "give the " + "user a real " + "choice " + "between " + "different " + "types of " + "vehicles. " + "For each " + "model:\n"
    + "        - " + "Provide a " + "realistic " + "estimated " + "MSRP.\n"
    + "        - " + "Explain the " + "reasoning " + "for the " + "recommendation.\n"
    + "        - " + "Create two " + "payment " + "plans: one " + "for " + "financing " + "and one for " + "leasing, " + "using the " + "user's " + "preferred " + "term of "

  const PLAN_PER_PLAN: string :=
    " months.\n"
    + "        - " + "For each " + "plan, " + "calculate " + "an " + "estimated " + "monthly " + "payment and " + "a realistic " + "APR based " + "on the " + "user's " + "credit " + "score.\n"
    + "\n"
    + "    2.  "

  const PLAN_CLOSING: string :=
    "\n"
    + "\n"
    + "    3.  A " + "list of 3-5 " + "actionable, " + "personalized " + "financial " + "tips for " + "the user.\n"
    + "\n"
    + "    Adhere " + "strictly to " + "the " + "provided " + "JSON schema " + "for the " + "response. " + "Ensure all " + "financial " + "calculations " + "are " + "reasonable " + "and the " + "cost " + "breakdowns " + "are " + "structured " + "exactly as " + "specified " + "above.\n"
    + "  "

  /** The profile block of the plan prompt, one line per field of the input. */
  function ProfileLines(u: UserInput): string {
    IncomeLine(u.monthlyIncome) + CreditLine(u.creditScore) + DownPaymentLine(u.downPayment)
    + TermLine(u.term) + LifestyleLine(u.lifestyle)
  }

  /** What the plan prompt asks for, after the profile; it repeats the term. */
  function PlanRequest(term: int): string {
    PLAN_REQUESTS + IntToString(term) + PLAN_PER_PLAN + FormulasPrompt(term) + PLAN_CLOSING
  }

  /** The prompt of `generateFinancePlan`. */
  function PlanPrompt(u: UserInput): string {
    PLAN_INTRO + ProfileLines(u) + PlanRequest(u.term)
  }

  /** The profile block holds each of its five lines. */
  lemma ProfileHoldsLines(u: UserInput)
    ensures var p := ProfileLines(u);
      Contains(p, IncomeLine(u.monthlyIncome)) && Contains(p, CreditLine(u.creditScore))
      && Contains(p, DownPaymentLine(u.downPayment)) && Contains(p, TermLine(u.term))
      && Contains(p, LifestyleLine(u.lifestyle))
  {
    var i, c, d := IncomeLine(u.monthlyIncome), CreditLine(u.creditScore), DownPaymentLine(u.downPayment);
    var t, l := TermLine(u.term), LifestyleLine(u.lifestyle);
    ContainsSelf(i);
    ContainsAppend(i, i, c);
    ContainsLast(i, c);
    ContainsAppend(i + c, i, d);
    ContainsAppend(i + c, c, d);
    ContainsLast(i + c, d);
    ContainsAppend(i + c + d, i, t);
    ContainsAppend(i + c + d, c, t);
    ContainsAppend(i + c + d, d, t);
    ContainsLast(i + c + d, t);
    ContainsAppend(i + c + d + t, i, l);
    ContainsAppend(i + c + d + t, c, l);
    ContainsAppend(i + c + d + t, d, l);
    ContainsAppend(i + c + d + t, t, l);
    ContainsLast(i + c + d + t, l);
  }

  /** The request part holds the formula instructions. */
  lemma RequestHoldsFormulas(term: int)
    ensures Contains(PlanRequest(term), FormulasPrompt(term))
  {
    OccursInMiddle(PLAN_REQUESTS + IntToString(term) + PLAN_PER_PLAN, FormulasPrompt(term), PLAN_CLOSING);
  }

  /** The plan prompt embeds every field of the input verbatim, each on its labelled line, and the formulas. */
  lemma PlanPromptEmbedsProfile(u: UserInput)
    ensures var p := PlanPrompt(u);
      Contains(p, IncomeLine(u.monthlyIncome)) && Contains(p, CreditLine(u.creditScore))
      && Contains(p, DownPaymentLine(u.downPayment)) && Contains(p, TermLine(u.term))
      && Contains(p, LifestyleLine(u.lifestyle)) && Contains(p, FormulasPrompt(u.term))
  {
    var profile, request := ProfileLines(u), PlanRequest(u.term);
    ProfileHoldsLines(u);
    ContainsMiddle(PLAN_INTRO, profile, request, IncomeLine(u.monthlyIncome));
    ContainsMiddle(PLAN_INTRO, profile, request, CreditLine(u.creditScore));
    ContainsMiddle(PLAN_INTRO, profile, request, DownPaymentLine(u.downPayment));
    ContainsMiddle(PLAN_INTRO, profile, request, TermLine(u.term));
    ContainsMiddle(PLAN_INTRO, profile, request, LifestyleLine(u.lifestyle));
    RequestHoldsFormulas(u.term);
    ContainsAppend(request, FormulasPrompt(u.term), PLAN_INTRO + profile);
  }

  /** A line of `lead`, a number and `tail`, followed by anything, gives back the number and what follows. */
  lemma NumberLineSplit(lead: string, a: int, tail: string, ra: string, b: int, rb: string)
    requires tail != [] && !IsDigit(tail[0])
    requires lead + IntToString(a) + tail + ra == lead + IntToString(b) + tail + rb
    ensures a == b && ra == rb
  {
    var na, nb := IntToString(a), IntToString(b);
    Assoc(lead + na, tail, ra);
    Assoc(lead, na, tail + ra);
    Assoc(lead + nb, tail, rb);
    Assoc(lead, nb, tail + rb);
    CancelPrefix(lead, na + (tail + ra), nb + (tail + rb));
    assert (tail + ra)[0] == tail[0] == (tail + rb)[0];
    IntToStringSplit(a, tail + ra, b, tail + rb);
    CancelPrefix(tail, ra, rb);
  }

  /** Two texts whose first characters differ have no common continuation. */
  lemma FirstCharSplit(x: string, y: string, rx: string, ry: string)
    requires x != [] && y != [] && x + rx == y + ry
    ensures x[0] == y[0]
  {
    assert (x + rx)[0] == x[0];
    assert (y + ry)[0] == y[0];
  }

  lemma CreditLineSplit(a: CreditScoreRange, ra: string, b: CreditScoreRange, rb: string)
    requires CreditLine(a) + ra == CreditLine(b) + rb
    ensures a == b && ra == rb
  {
    var lead := "    - Credit Score: ";
    var la, lb := CreditScoreLabel(a), CreditScoreLabel(b);
    Assoc(lead + la, "\n", ra);
    Assoc(lead, la, "\n" + ra);
    Assoc(lead + lb, "\n", rb);
    Assoc(lead, lb, "\n" + rb);
    CancelPrefix(lead, la + ("\n" + ra), lb + ("\n" + rb));
    FirstCharSplit(la, lb, "\n" + ra, "\n" + rb);
    assert a == b;
    CancelPrefix(la, "\n" + ra, "\n" + rb);
    CancelPrefix("\n", ra, rb);
  }

  lemma LifestyleLineSplit(a: Lifestyle, ra: string, b: Lifestyle, rb: string)
    requires LifestyleLine(a) + ra == LifestyleLine(b) + rb
    ensures a == b && ra == rb
  {
    var lead := "    - Primary Lifestyle: \"";
    var la, lb := LifestyleLabel(a), LifestyleLabel(b);
    Assoc(lead + la, "\"\n", ra);
    Assoc(lead, la, "\"\n" + ra);
    Assoc(lead + lb, "\"\n", rb);
    Assoc(lead, lb, "\"\n" + rb);
    CancelPrefix(lead, la + ("\"\n" + ra), lb + ("\"\n" + rb));
    FirstCharSplit(la, lb, "\"\n" + ra, "\"\n" + rb);
    assert a == b;
    CancelPrefix(la, "\"\n" + ra, "\"\n" + rb);
    CancelPrefix("\"\n", ra, rb);
  }

  /**
   * The profile block can be read back: whatever follows it, equal texts
   * mean equal inputs and equal remainders.
   */
  lemma ProfileLinesSplit(a: UserInput, ra: string, b: UserInput, rb: string)
    requires ProfileLines(a) + ra == ProfileLines(b) + rb
    ensures a == b && ra == rb
  {
    var ia, ca, da, ta, la := IncomeLine(a.monthlyIncome), CreditLine(a.creditScore),
      DownPaymentLine(a.downPayment), TermLine(a.term), LifestyleLine(a.lifestyle);
    var ib, cb, db, tb, lb := IncomeLine(b.monthlyIncome), CreditLine(b.creditScore),
      DownPaymentLine(b.downPayment), TermLine(b.term), LifestyleLine(b.lifestyle);
    Assoc(ia + ca + da + ta, la, ra);
    Assoc(ia + ca + da, ta, la + ra);
    Assoc(ia + ca, da, ta + (la + ra));
    Assoc(ia, ca, da + (ta + (la + ra)));
    Assoc(ib + cb + db + tb, lb, rb);
    Assoc(ib + cb + db, tb, lb + rb);
    Assoc(ib + cb, db, tb + (lb + rb));
    Assoc(ib, cb, db + (tb + (lb + rb)));
    NumberLineSplit("    - Monthly Income: $", a.monthlyIncome, "\n", ca + (da + (ta + (la + ra))),
                    b.monthlyIncome, cb + (db + (tb + (lb + rb))));
    CreditLineSplit(a.creditScore, da + (ta + (la + ra)), b.creditScore, db + (tb + (lb + rb)));
    NumberLineSplit("    - Down Payment: $", a.downPayment, "\n", ta + (la + ra), b.downPayment, tb + (lb + rb));
    NumberLineSplit("    - Preferred Loan/Lease Term: ", a.term, " months\n", la + ra, b.term, lb + rb);
    LifestyleLineSplit(a.lifestyle, ra, b.lifestyle, rb);
  }

  /** Different inputs give different plan prompts: nothing of the input is lost. */
  lemma PlanPromptInjective(a: UserInput, b: UserInput)
    requires PlanPrompt(a) == PlanPrompt(b)
    ensures a == b
  {
    var ra, rb := PlanRequest(a.term), PlanRequest(b.term);
    Assoc(PLAN_INTRO, ProfileLines(a), ra);
    Assoc(PLAN_INTRO, ProfileLines(b), rb);
    CancelPrefix(PLAN_INTRO, ProfileLines(a) + ra, ProfileLines(b) + rb);
    ProfileLinesSplit(a, ra, b, rb);
  }

  const RECALC_INTRO: string :=
    "\n"
    + "    You are " + "an expert " + "financial " + "advisor for " + "Toyota. A " + "user is " + "considering " + "a '"

  const RECALC_PROFILE_HEAD: string :=
    "\n"
    + "    Their " + "financial " + "profile is:\n"

  const RECALC_TERM_HEAD: string :=
    "\n"
    + "    The " + "user wants " + "to see new " + "payment " + "options for " + "a different " + "term " + "length.\n"

  const RECALC_FOR: string :=
    "\n"
    + "    Please " + "recalculate " + "and provide " + "exactly two " + "updated " + "payment " + "plans (one " + "'Finance', " + "one " + "'Lease') " + "for the '"

  const RECALC_BASED: string :=
    "' based on " + "this new " + "term.\n"
    + "\n"
    + "    "

  const RECALC_CLOSING: string :=
    "\n"
    + "\n"
    + "    Adhere " + "strictly to " + "the " + "provided " + "JSON schema " + "for the " + "response. " + "The " + "response " + "should be " + "an array " + "containing " + "exactly two " + "payment " + "plan " + "objects.\n"
    + "  "

  /** The opening sentence of the recalculation prompt: the vehicle's name and its MSRP. */
  function VehicleSentence(vehicle: SuggestedModel): string {
    RECALC_INTRO + vehicle.name + "' with an estimated MSRP of $" + IntToString(vehicle.estimatedMsrp) + ".\n"
  }

  /** The profile block of the recalculation prompt: income, credit score and down payment only. */
  function RecalcProfileLines(u: UserInput): string {
    IncomeLine(u.monthlyIncome) + CreditLine(u.creditScore) + DownPaymentLine(u.downPayment)
  }

  function NewTermLine(term: int): string {
    "    **New Preferred Loan/Lease Term: " + IntToString(term) + " months**\n"
  }

  /** What the recalculation prompt asks for: the new term, the vehicle again and the formulas. */
  function RecalcRequest(name: string, term: int): string {
    RECALC_TERM_HEAD + NewTermLine(term) + RECALC_FOR + name + RECALC_BASED + FormulasPrompt(term) + RECALC_CLOSING
  }

  /** The prompt of `recalculatePlans`. */
  function RecalcPrompt(vehicle: SuggestedModel, u: UserInput): string {
    VehicleSentence(vehicle) + RECALC_PROFILE_HEAD + RecalcProfileLines(u) + RecalcRequest(vehicle.name, u.term)
  }

  /**
   * The MSRP sentence ends its line, and one blank line separates it from the
   * profile heading.
   */
  lemma ProfileHeadingAfterMsrp(vehicle: SuggestedModel, u: UserInput)
    ensures Contains(RecalcPrompt(vehicle, u),
      "' with an estimated MSRP of $" + IntToString(vehicle.estimatedMsrp)
      + ".\n" + "\n" + "    Their " + "financial " + "profile is:\n")
  {
    var a, l, n := RECALC_INTRO + vehicle.name, "' with an estimated MSRP of $", IntToString(vehicle.estimatedMsrp);
    var lines, request := RecalcProfileLines(u), RecalcRequest(vehicle.name, u.term);
    var t := l + n + ".\n" + "\n" + "    Their " + "financial " + "profile is:\n";
    assert RecalcPrompt(vehicle, u) == a + t + (lines + request) by {
      Regroup(a, l, n, ".\n", "\n", "    Their ", "financial ", "profile is:\n", lines, request);
    }
    OccursInMiddle(a, t, lines + request);
  }

  lemma Regroup(a: string, l: string, n: string, d: string,
                e: string, w1: string, w2: string, w3: string, lines: string, request: string)
    ensures a + l + n + d + (e + w1 + w2 + w3) + lines + request
         == a + (l + n + d + e + w1 + w2 + w3) + (lines + request)
  {
  }

  lemma VehicleSentenceHolds(vehicle: SuggestedModel)
    ensures Contains(VehicleSentence(vehicle), vehicle.name)
    ensures Contains(VehicleSentence(vehicle), IntToString(vehicle.estimatedMsrp))
  {
    var name, msrp := vehicle.name, IntToString(vehicle.estimatedMsrp);
    var a := RECALC_INTRO + name + "' with an estimated MSRP of $";
    ContainsLast(RECALC_INTRO, name);
    ContainsAppend(RECALC_INTRO + name, name, "' with an estimated MSRP of $");
    ContainsAppend(a, name, msrp);
    ContainsAppend(a + msrp, name, ".\n");
    OccursInMiddle(a, msrp, ".\n");
  }

  lemma RecalcProfileHolds(u: UserInput)
    ensures var p := RecalcProfileLines(u);
      Contains(p, IncomeLine(u.monthlyIncome)) && Contains(p, CreditLine(u.creditScore))
      && Contains(p, DownPaymentLine(u.downPayment))
  {
    var i, c, d := IncomeLine(u.monthlyIncome), CreditLine(u.creditScore), DownPaymentLine(u.downPayment);
    ContainsSelf(i);
    ContainsAppend(i, i, c);
    ContainsLast(i, c);
    ContainsAppend(i + c, i, d);
    ContainsAppend(i + c, c, d);
    ContainsLast(i + c, d);
  }

  lemma RecalcRequestHoldsTerm(name: string, term: int)
    ensures Contains(RecalcRequest(name, term), NewTermLine(term))
  {
    var t := NewTermLine(term);
    var a := RECALC_TERM_HEAD + t;
    ContainsLast(RECALC_TERM_HEAD, t);
    ContainsAppend(a, t, RECALC_FOR);
    ContainsAppend(a + RECALC_FOR, t, name);
    ContainsAppend(a + RECALC_FOR + name, t, RECALC_BASED);
    ContainsAppend(a + RECALC_FOR + name + RECALC_BASED, t, FormulasPrompt(term));
    ContainsAppend(a + RECALC_FOR + name + RECALC_BASED + FormulasPrompt(term), t, RECALC_CLOSING);
  }

  /** The recalculation prompt holds its opening sentence, its profile block and its request. */
  lemma RecalcPromptHoldsParts(vehicle: SuggestedModel, u: UserInput)
    ensures var p := RecalcPrompt(vehicle, u);
      Contains(p, VehicleSentence(vehicle)) && Contains(p, RecalcProfileLines(u))
      && Contains(p, RecalcRequest(vehicle.name, u.term))
  {
    var v, lines, request := VehicleSentence(vehicle), RecalcProfileLines(u), RecalcRequest(vehicle.name, u.term);
    ContainsSelf(v);
    ContainsAppend(v, v, RECALC_PROFILE_HEAD);
    ContainsAppend(v + RECALC_PROFILE_HEAD, v, lines);
    ContainsAppend(v + RECALC_PROFILE_HEAD + lines, v, request);
    ContainsLast(v + RECALC_PROFILE_HEAD, lines);
    ContainsAppend(v + RECALC_PROFILE_HEAD + lines, lines, request);
    ContainsLast(v + RECALC_PROFILE_HEAD + lines, request);
  }

  /**
   * The recalculation prompt embeds the vehicle's name and MSRP, the income,
   * credit score and down payment lines and the new term.
   */
  lemma RecalcPromptEmbedsRequest(vehicle: SuggestedModel, u: UserInput)
    ensures var p := RecalcPrompt(vehicle, u);
      Contains(p, vehicle.name) && Contains(p, IntToString(vehicle.estimatedMsrp))
      && Contains(p, IncomeLine(u.monthlyIncome)) && Contains(p, CreditLine(u.creditScore))
      && Contains(p, DownPaymentLine(u.downPayment)) && Contains(p, NewTermLine(u.term))
  {
    var v, lines, request := VehicleSentence(vehicle), RecalcProfileLines(u), RecalcRequest(vehicle.name, u.term);
    var p := RecalcPrompt(vehicle, u);
    RecalcPromptHoldsParts(vehicle, u);
    VehicleSentenceHolds(vehicle);
    RecalcProfileHolds(u);
    RecalcRequestHoldsTerm(vehicle.name, u.term);
    ContainsTrans(p, v, vehicle.name);
    ContainsTrans(p, v, IntToString(vehicle.estimatedMsrp));
    ContainsTrans(p, lines, IncomeLine(u.monthlyIncome));
    ContainsTrans(p, lines, CreditLine(u.creditScore));
    ContainsTrans(p, lines, DownPaymentLine(u.downPayment));
    ContainsTrans(p, request, NewTermLine(u.term));
  }

  /** The lifestyle is not part of the recalculation prompt. */
  lemma RecalcPromptIgnoresLifestyle(vehicle: SuggestedModel, u: UserInput, l: Lifestyle)
    ensures RecalcPrompt(vehicle, u.(lifestyle := l)) == RecalcPrompt(vehicle, u)
  {
  }

  // ---------------------------------------------------------------------------
  // The two operations

  /**
   * `generateFinancePlan`: send the plan prompt, strip a code fence from the
   * reply and parse it. Whatever fails is rethrown as an `Error` whose
   * message names the cause.
   */
  function GenerateFinancePlan(
    u: UserInput,
    generate: string -> Result<string, Thrown>,
    parse: string -> Result<ApiResponse, Thrown>): (r: Result<ApiResponse, Thrown>)
    ensures var reply := generate(PlanPrompt(u));
      r.Success? <==> reply.Success? && parse(ParsableText(reply.value)).Success?
    ensures var reply := generate(PlanPrompt(u));
      r.Success? ==> r.value == parse(ParsableText(reply.value)).value
    ensures r.Failure? ==>
      r.error.ErrorValue? && exists cause :: r.error.message == PlanFailure(cause)
    ensures var reply := generate(PlanPrompt(u));
      reply.Failure? ==> r == Failure(ErrorValue(PlanFailure(reply.error)))
    ensures var reply := generate(PlanPrompt(u));
      reply.Success? && parse(ParsableText(reply.value)).Failure? ==>
        r == Failure(ErrorValue(PlanFailure(parse(ParsableText(reply.value)).error)))
  {
    match generate(PlanPrompt(u))
    case Failure(e) => Failure(ErrorValue(PlanFailure(e)))
    case Success(text) =>
      match parse(ParsableText(text))
      case Failure(e) => Failure(ErrorValue(PlanFailure(e)))
      case Success(data) => Success(data)
  }

  /** `recalculatePlans`: the same pipeline with the recalculation prompt and the array parse. */
  function RecalculatePlans(
    vehicle: SuggestedModel,
    u: UserInput,
    generate: string -> Result<string, Thrown>,
    parse: string -> Result<seq<PaymentPlan>, Thrown>): (r: Result<seq<PaymentPlan>, Thrown>)
    ensures var reply := generate(RecalcPrompt(vehicle, u));
      r.Success? <==> reply.Success? && parse(ParsableText(reply.value)).Success?
    ensures var reply := generate(RecalcPrompt(vehicle, u));
      r.Success? ==> r.value == parse(ParsableText(reply.value)).value
    ensures r.Failure? ==>
      r.error.ErrorValue? && exists cause :: r.error.message == RecalcFailure(cause)
    ensures var reply := generate(RecalcPrompt(vehicle, u));
      reply.Failure? ==> r == Failure(ErrorValue(RecalcFailure(reply.error)))
    ensures var reply := generate(RecalcPrompt(vehicle, u));
      reply.Success? && parse(ParsableText(reply.value)).Failure? ==>
        r == Failure(ErrorValue(RecalcFailure(parse(ParsableText(reply.value)).error)))
  {
    match generate(RecalcPrompt(vehicle, u))
    case Failure(e) => Failure(ErrorValue(RecalcFailure(e)))
    case Success(text) =>
      match parse(ParsableText(text))
      case Failure(e) => Failure(ErrorValue(RecalcFailure(e)))
      case Success(plans) => Success(plans)
  }
}
