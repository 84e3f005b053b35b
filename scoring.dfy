/** scoring_logic.py: the thresholds that turn the oracle's score into a
    classification, the safe defaults, the rubric the prompt states, and the
    text of the contractor alert. */
module Scoring {
  import opened PyStr
  import opened Leads

  /** The three buckets, ordered cold to hot. */
  function Heat(c: Classification): (h: nat)
    ensures h <= 2
  {
    match c
    case Cold => 0
    case Warm => 1
    case Hot => 2
  }

  /** The fixed thresholds: HOT from 7 up, WARM from 4 to 6, COLD below 4. */
  function Classify(score: int): (c: Classification)
    ensures c == Hot <==> score >= 7
    ensures c == Warm <==> 4 <= score < 7
    ensures c == Cold <==> score < 4
  {
    if score >= 7 then Hot
    else if score >= 4 then Warm
    else Cold
  }

  /** A higher score never gives a colder classification. */
  lemma ClassifyMonotone(a: int, b: int)
    requires a <= b
    ensures Heat(Classify(a)) <= Heat(Classify(b))
  {
  }

  /** The value stored under "score" in the oracle's JSON object, as
      `json.loads` hands it over (a JSON float becomes a `real`). */
  datatype ScoreField =
    | Missing
    | Integer(i: int)
    | Text(s: string)
    | Boolean(b: bool)
    | Float(x: real)
    | Null
    | Container

  /** What one oracle call produces: `Failed` when the request raises, the
      content is not JSON, or the JSON is not an object; otherwise the object's
      "score" entry. */
  datatype OracleReply = Failed | Reply(score: ScoreField)

  /** What the oracle is shown: the stored ZIP and project type and the final answer. */
  datatype Prompt = Prompt(zipCode: Option<string>, projectType: Option<string>, finalAnswer: string)

  /** Python's truncation of a float toward zero, as `int(x)` does it. */
  function TruncateTowardZero(x: real): (n: int)
    ensures x >= 0.0 ==> n as real <= x < n as real + 1.0
    ensures x < 0.0 ==> n as real - 1.0 < x <= n as real
  {
    if x >= 0.0 then x.Floor else -((-x).Floor)
  }

  /** `int(result.get("score", 0))`: a missing key reads as 0, a boolean as 0 or
      1, a float is truncated, a string is read by `int(str)`; `None`
      stands for the TypeError or ValueError that `int` raises. */
  function ToPyInt(f: ScoreField): (r: Option<int>)
    ensures f == Missing ==> r == Some(0)
    ensures f.Integer? ==> r == Some(f.i)
    ensures f.Text? ==> r == PyInt(f.s)
    ensures f.Boolean? ==> r == Some(if f.b then 1 else 0)
    ensures f.Float? ==> r == Some(TruncateTowardZero(f.x))
    ensures f == Null || f == Container ==> r == None
  {
    match f
    case Missing => Some(0)
    case Integer(i) => Some(i)
    case Text(s) => PyInt(s)
    case Boolean(b) => Some(if b then 1 else 0)
    case Float(x) => Some(TruncateTowardZero(x))
    case Null => None
    case Container => None
  }

  /** A score sent as JSON text reads as that score, whatever blanks `int()`
      skips surround its numeral, unless the numeral is too long for `int()`. */
  lemma TextScoreReadsBack(a: string, i: int, c: string)
    requires AllBlank(IntBlanks, a) && AllBlank(IntBlanks, c)
    ensures ToPyInt(Text(a + IntToString(i) + c)) ==
              if |NatToString(Abs(i))| <= MaxStrDigits then Some(i) else None
  {
    PyIntPadded(a, i, c);
  }

  /** A score sent as a JSON float with no fractional part reads as that integer. */
  lemma WholeFloatReadsBack(i: int)
    ensures ToPyInt(Float(i as real)) == Some(i)
  {
  }

  /** The prompt built from a stored row and the final answer. */
  function PromptFor(l: Lead, finalAnswer: string): Prompt {
    Prompt(l.zipCode, l.projectType, finalAnswer)
  }

  /** `calculate_score(phone, final_answer)`: `(0, COLD)` when the phone has no
      row or the oracle call fails in any way; otherwise the integer the oracle
      gave and its classification. The classification the oracle itself returns
      is ignored, and the score is not clamped. */
  function CalculateScore(leads: Table, phone: string, finalAnswer: string,
                          oracle: Prompt -> OracleReply): (r: (int, Classification))
    ensures r.1 == Classify(r.0)
    ensures phone !in leads ==> r == (0, Cold)
    ensures phone in leads && oracle(PromptFor(leads[phone], finalAnswer)).Failed? ==> r == (0, Cold)
    ensures phone in leads && oracle(PromptFor(leads[phone], finalAnswer)).Reply? ==>
              var n := ToPyInt(oracle(PromptFor(leads[phone], finalAnswer)).score);
              r == if n.Some? then (n.value, Classify(n.value)) else (0, Cold)
  {
    if phone !in leads then (0, Cold)
    else
      match oracle(PromptFor(leads[phone], finalAnswer))
      case Failed => (0, Cold)
      case Reply(f) =>
        match ToPyInt(f)
        case None => (0, Cold)
        case Some(score) => (score, Classify(score))
  }

  /** A reply without a "score" key lands on `(0, COLD)` just like a failure. */
  lemma MissingScoreIsCold(leads: Table, phone: string, finalAnswer: string,
                           oracle: Prompt -> OracleReply)
    requires phone in leads
    requires oracle(PromptFor(leads[phone], finalAnswer)) == Reply(Missing)
    ensures CalculateScore(leads, phone, finalAnswer, oracle) == (0, Cold)
  {
  }

  /** A score sent as a string of more than `MaxStrDigits` digits makes `int()`
      raise, which lands on `(0, COLD)` whatever the digits are. */
  lemma LongNumeralIsCold(leads: Table, phone: string, finalAnswer: string,
                          oracle: Prompt -> OracleReply, digits: string)
    requires phone in leads
    requires AllDigits(digits) && |digits| > MaxStrDigits
    requires oracle(PromptFor(leads[phone], finalAnswer)) == Reply(Text(digits))
    ensures CalculateScore(leads, phone, finalAnswer, oracle) == (0, Cold)
  {
    PyIntRefusesLongNumerals(digits);
  }

  /** The result depends on the oracle only through its answer to this one
      prompt: two oracles that agree on it give the same score and class. */
  lemma CalculateScoreDeterministic(leads: Table, phone: string, finalAnswer: string,
                                    o1: Prompt -> OracleReply, o2: Prompt -> OracleReply)
    requires phone in leads ==> o1(PromptFor(leads[phone], finalAnswer)) == o2(PromptFor(leads[phone], finalAnswer))
    ensures CalculateScore(leads, phone, finalAnswer, o1) == CalculateScore(leads, phone, finalAnswer, o2)
  {
  }

  /** The rubric the prompt asks the oracle to apply: +4 for urgency, +3 for a
      budget over $5,000 or an insurance claim, +2 for a full replacement, +1
      for a valid ZIP. The oracle is asked, not forced, to follow it. */
  function RubricScore(urgent: bool, budgetOrInsurance: bool, fullReplacement: bool,
                       validZip: bool): (n: int)
    ensures 0 <= n <= 10
    ensures n == 10 <==> urgent && budgetOrInsurance && fullReplacement && validZip
  {
    (if urgent then 4 else 0) + (if budgetOrInsurance then 3 else 0) +
    (if fullReplacement then 2 else 0) + (if validZip then 1 else 0)
  }

  /** Which answers the rubric makes HOT, WARM and COLD: urgency is needed for
      HOT, and with it either the budget or both the replacement and the ZIP. */
  lemma RubricClassification(u: bool, b: bool, f: bool, z: bool)
    ensures Classify(RubricScore(u, b, f, z)) == Hot <==> u && (b || (f && z))
    ensures Classify(RubricScore(u, b, f, z)) == Cold <==> !u && !(b && (f || z))
    ensures Classify(RubricScore(u, b, f, z)) == Warm <==>
              (u && !b && !(f && z)) || (!u && b && (f || z))
  {
  }

  /** `t` occurs somewhere in `s`. */
  predicate Contains(s: string, t: string) {
    exists i: nat :: i <= |s| && OccursAt(s, t, i)
  }

  const AlertHead := "\U{1F6A8} URGENT HOT LEAD ("

  /** The alert text of `FORWARD_TO_CONTRACTOR`: it starts with the alert
      heading and shows the score out of ten, the client's phone, the ZIP and
      the project type. */
  function AlertMessage(phone: string, score: int, zip: string, projectType: string): (m: string)
    ensures |AlertHead| <= |m| && m[..|AlertHead|] == AlertHead
    ensures Contains(m, IntToString(score) + "/10")
    ensures Contains(m, "CLIENT: " + phone + "\n")
    ensures Contains(m, "PROJECT ZIP: " + zip + "\n")
    ensures Contains(m, "SCOPE: " + projectType + "\n")
  {
    var parts := [
      AlertHead, IntToString(score) + "/10", ") \U{1F6A8}\n" + "\n",
      "CLIENT: " + phone + "\n",
      "PROJECT ZIP: " + zip + "\n",
      "SCOPE: " + projectType + "\n",
      "RATING: IMMEDIATE ACTION REQUIRED\n" + "\n" + "ACTION: CALL NOW and reference Project " + zip + "."];
    JoinOccurs(parts, 0);
    JoinOccurs(parts, 1);
    JoinOccurs(parts, 3);
    JoinOccurs(parts, 4);
    JoinOccurs(parts, 5);
    Join(parts)
  }

  /** How an f-string shows a column that may be NULL. */
  function Show(v: Option<string>): (s: string)
    ensures v.Some? ==> s == v.value
    ensures v.None? ==> s == "None"
  {
    if v.Some? then v.value else "None"
  }

  /** `FORWARD_TO_CONTRACTOR(phone, score)` without the send: the alert built
      from the row stored for the phone. `zip_code, project_type = lead_data`
      unpacks that row without a check, so a phone with no row is not a valid
      argument. */
  function ForwardToContractor(leads: Table, phone: string, score: int): (m: string)
    requires phone in leads
    ensures Contains(m, IntToString(score) + "/10")
    ensures Contains(m, "CLIENT: " + phone + "\n")
    ensures leads[phone].zipCode.Some? ==>
              Contains(m, "PROJECT ZIP: " + leads[phone].zipCode.value + "\n")
    ensures leads[phone].projectType.Some? ==>
              Contains(m, "SCOPE: " + leads[phone].projectType.value + "\n")
  {
    AlertMessage(phone, score, Show(leads[phone].zipCode), Show(leads[phone].projectType))
  }
}
