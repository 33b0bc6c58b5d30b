/**
 * The compliance rule engine of `ethical_filter.py`: three checks, each giving a
 * severity and an explanation, and `check_ethics`, which picks the checks that
 * apply to an action and reduces their findings to one verdict.
 *
 * The rule labels name ABA Model Rules of Professional Conduct 1.6, 1.7 and 5.5;
 * only the labels are used, none of those rules' content.
 */
module EthicalFilter {
  import opened Wrappers
  import opened Text

  datatype Severity = Pass | Warn | Block

  /** The order `check_ethics` resolves by: block beats warn, warn beats pass. */
  function Rank(s: Severity): nat
  {
    match s
    case Pass => 0
    case Warn => 1
    case Block => 2
  }

  /** What one check returns: the `(result, explanation)` pair. */
  datatype Finding = Finding(severity: Severity, explanation: string)

  /** What `check_ethics` returns: `{'result', 'explanation', 'rule'}`. */
  datatype Verdict = Verdict(result: Severity, explanation: string, rule: string)

  const ConfidentialityRule: string := "ABA Model Rule 1.6"
  const ConflictRule: string := "ABA Model Rule 1.7"
  const PracticeRule: string := "ABA Model Rule 5.5"

  const PassVerdict: Verdict := Verdict(Pass, "", "")

  /**
   * The data being checked. `text` stands for Python's `str(data)`; `client` is
   * `Some(c)` when the data is a dict whose `'client'` entry is the string `c`,
   * and `None` when it is not a dict, has no such key or holds `None` there.
   */
  datatype Payload = Payload(client: Option<string>, text: string)

  /** The acting user; a missing or empty user is `None` at the call. */
  datatype User = User(jurisdictions: Option<seq<string>>)

  /** The context dict: its `'adverse_parties'` and `'jurisdiction'` entries, each possibly missing. */
  datatype Context = Context(adverseParties: Option<seq<string>>, jurisdiction: Option<string>)

  const EmptyContext: Context := Context(None, None)

  function AdverseParties(ctx: Context): seq<string>
  {
    ctx.adverseParties.GetOr([])
  }

  /** `user.get('jurisdictions', []) if user else []`. */
  function Authorized(user: Option<User>): seq<string>
  {
    if user.Some? then user.value.jurisdictions.GetOr([]) else []
  }

  // ---------------------------------------------------------------------------
  // Confidentiality: case-insensitive whole-word search for sensitive terms.

  /** The six terms, in the order they are tried; each pattern is the term between two `\b`. */
  const SensitiveTerms: seq<string> := ["SSN", "Social Security", "DOB", "Date of Birth", "medical", "diagnosis"]

  function PatternText(term: string): string
  {
    "\\b" + term + "\\b"
  }

  /**
   * `term` occurs at position i of `text`, ignoring ASCII case, with no word
   * character just before or just after it (the two `\b` of the pattern, for a
   * term that starts and ends with a word character).
   */
  predicate MatchesAt(text: string, term: string, i: nat)
  {
    && i + |term| <= |text|
    && (forall k :: 0 <= k < |term| ==> LowerChar(text[i + k]) == LowerChar(term[k]))
    && (i == 0 || !IsWordChar(text[i - 1]))
    && (i + |term| == |text| || !IsWordChar(text[i + |term|]))
  }

  /** `re.search(pattern, text, re.IGNORECASE)` finds a match. */
  ghost predicate ContainsTerm(text: string, term: string)
  {
    exists i: nat :: MatchesAt(text, term, i)
  }

  /** Scans `text` left to right from position `from` for a whole-word match of `term`. */
  function SearchFrom(text: string, term: string, from: nat): (found: bool)
    requires from <= |text|
    ensures found <==> exists i: nat :: from <= i && MatchesAt(text, term, i)
    decreases |text| - from
  {
    if MatchesAt(text, term, from) then true
    else if from == |text| then false
    else SearchFrom(text, term, from + 1)
  }

  function Search(text: string, term: string): (found: bool)
    ensures found <==> ContainsTerm(text, term)
  {
    SearchFrom(text, term, 0)
  }

  /** Index of the first term in `terms` that occurs in `text`, as the loop with early return finds it. */
  function FirstMatch(text: string, terms: seq<string>): (r: Option<nat>)
    ensures r.Some? ==> r.value < |terms| && ContainsTerm(text, terms[r.value])
    ensures r.Some? ==> forall j :: 0 <= j < r.value ==> !ContainsTerm(text, terms[j])
    ensures r.None? <==> forall j :: 0 <= j < |terms| ==> !ContainsTerm(text, terms[j])
  {
    if terms == [] then None
    else if Search(text, terms[0]) then Some(0)
    else match FirstMatch(text, terms[1..])
      case None => None
      case Some(k) => Some(k + 1)
  }

  function ConfidentialityExplanation(term: string): string
  {
    "Potential confidential info detected: '" + PatternText(term) + "'. See " + ConfidentialityRule
  }

  /** `check_confidentiality`: warns, naming the first matching pattern, or passes. */
  function CheckConfidentiality(text: string): (r: Finding)
    ensures r.severity != Block
    ensures r.severity == Warn <==> exists k :: 0 <= k < |SensitiveTerms| && ContainsTerm(text, SensitiveTerms[k])
    ensures r.severity == Warn ==>
      exists k :: 0 <= k < |SensitiveTerms| && ContainsTerm(text, SensitiveTerms[k])
        && (forall j :: 0 <= j < k ==> !ContainsTerm(text, SensitiveTerms[j]))
        && r.explanation == ConfidentialityExplanation(SensitiveTerms[k])
    ensures r.severity == Pass ==> r == Finding(Pass, "")
  {
    match FirstMatch(text, SensitiveTerms)
    case Some(k) => Finding(Warn, ConfidentialityExplanation(SensitiveTerms[k]))
    case None => Finding(Pass, "")
  }

  // ---------------------------------------------------------------------------
  // Conflict of interest and unauthorised practice.

  function ConflictExplanation(client: string): string
  {
    "Conflict of interest: client '" + client + "' is an adverse party. See " + ConflictRule
  }

  /** `check_conflict_of_interest`: blocks a truthy client that is among the adverse parties. */
  function CheckConflictOfInterest(data: Payload, ctx: Context): (r: Finding)
    ensures r.severity != Warn
    ensures r.severity == Block <==> Truthy(data.client) && data.client.value in AdverseParties(ctx)
    ensures r.severity == Block ==> r.explanation == ConflictExplanation(data.client.value)
    ensures r.severity == Pass ==> r == Finding(Pass, "")
    ensures data.client.None? || AdverseParties(ctx) == [] ==> r.severity == Pass
  {
    if Truthy(data.client) && data.client.value in AdverseParties(ctx) then
      Finding(Block, ConflictExplanation(data.client.value))
    else
      Finding(Pass, "")
  }

  function PracticeExplanation(jurisdiction: string): string
  {
    "Unauthorized practice in " + jurisdiction + ". See " + PracticeRule
  }

  /** `check_unauthorized_practice`: blocks a truthy jurisdiction the user is not authorised in. */
  function CheckUnauthorizedPractice(user: Option<User>, ctx: Context): (r: Finding)
    ensures r.severity != Warn
    ensures r.severity == Block <==> Truthy(ctx.jurisdiction) && ctx.jurisdiction.value !in Authorized(user)
    ensures r.severity == Block ==> r.explanation == PracticeExplanation(ctx.jurisdiction.value)
    ensures r.severity == Pass ==> r == Finding(Pass, "")
    ensures user.None? && Truthy(ctx.jurisdiction) ==> r.severity == Block
  {
    if Truthy(ctx.jurisdiction) && ctx.jurisdiction.value !in Authorized(user) then
      Finding(Block, PracticeExplanation(ctx.jurisdiction.value))
    else
      Finding(Pass, "")
  }

  // ---------------------------------------------------------------------------
  // check_ethics.

  const ConflictActions: seq<string> := ["create_client", "update_client", "create_case", "update_case"]
  const PracticeActions: seq<string> := ["create_case", "update_case", "legal_action"]

  /** A finding other than pass becomes one entry of the `checks` list, labelled with its rule. */
  function Record(f: Finding, rule: string): (r: seq<Verdict>)
    ensures |r| <= 1
    ensures forall i :: 0 <= i < |r| ==> r[i].result == f.severity != Pass && r[i].rule == rule
  {
    if f.severity != Pass then [Verdict(f.severity, f.explanation, rule)] else []
  }

  function ConfidentialityChecks(data: Payload): (r: seq<Verdict>)
    ensures |r| <= 1
    ensures forall i :: 0 <= i < |r| ==> r[i].result == Warn && r[i].rule == ConfidentialityRule
  {
    Record(CheckConfidentiality(data.text), ConfidentialityRule)
  }

  function ConflictChecks(data: Payload, actionType: string, ctx: Context): (r: seq<Verdict>)
    ensures |r| <= (if actionType in ConflictActions then 1 else 0)
    ensures forall i :: 0 <= i < |r| ==> r[i].result == Block && r[i].rule == ConflictRule
  {
    if actionType in ConflictActions then Record(CheckConflictOfInterest(data, ctx), ConflictRule) else []
  }

  function PracticeChecks(actionType: string, user: Option<User>, ctx: Context): (r: seq<Verdict>)
    ensures |r| <= (if actionType in PracticeActions then 1 else 0)
    ensures forall i :: 0 <= i < |r| ==> r[i].result == Block && r[i].rule == PracticeRule
  {
    if actionType in PracticeActions then Record(CheckUnauthorizedPractice(user, ctx), PracticeRule) else []
  }

  /** The `checks` list, in the order the checks run; a missing context is `{}`. */
  function Checks(data: Payload, actionType: string, user: Option<User>, context: Option<Context>): (r: seq<Verdict>)
    ensures |r| <= 1 + (if actionType in ConflictActions then 1 else 0) + (if actionType in PracticeActions then 1 else 0)
    ensures forall i :: 0 <= i < |r| ==> r[i].result != Pass && (r[i].result == Block <==> r[i].rule != ConfidentialityRule)
  {
    var ctx := context.GetOr(EmptyContext);
    var warnings, conflicts, practice :=
      ConfidentialityChecks(data), ConflictChecks(data, actionType, ctx), PracticeChecks(actionType, user, ctx);
    warnings + conflicts + practice
  }

  /** `next(c for c in checks if c['result'] == sev)`, or `None` when `any(...)` is false. */
  function FirstWith(checks: seq<Verdict>, sev: Severity): (r: Option<nat>)
    ensures r.Some? ==> r.value < |checks| && checks[r.value].result == sev
    ensures r.Some? ==> forall j :: 0 <= j < r.value ==> checks[j].result != sev
    ensures r.None? <==> forall j :: 0 <= j < |checks| ==> checks[j].result != sev
  {
    if checks == [] then None
    else if checks[0].result == sev then Some(0)
    else match FirstWith(checks[1..], sev)
      case None => None
      case Some(k) => Some(k + 1)
  }

  /**
   * The most severe record of `checks`: the first block if any, else the first
   * warning if any, else the pass verdict with empty explanation and rule.
   */
  function MostSevere(checks: seq<Verdict>): (v: Verdict)
    ensures forall j :: 0 <= j < |checks| ==> Rank(checks[j].result) <= Rank(v.result)
    ensures v.result != Pass ==>
      exists i :: 0 <= i < |checks| && v == checks[i] && forall j :: 0 <= j < i ==> checks[j].result != v.result
    ensures v.result == Pass ==> v == PassVerdict
  {
    match FirstWith(checks, Block)
    case Some(i) => checks[i]
    case None =>
      match FirstWith(checks, Warn)
      case Some(i) => checks[i]
      case None => PassVerdict
  }

  /** The conflict check fires for this action: it applies and blocks. */
  predicate ConflictFires(data: Payload, actionType: string, ctx: Context)
  {
    actionType in ConflictActions && CheckConflictOfInterest(data, ctx).severity == Block
  }

  /** The unauthorised-practice check fires for this action: it applies and blocks. */
  predicate PracticeFires(actionType: string, user: Option<User>, ctx: Context)
  {
    actionType in PracticeActions && CheckUnauthorizedPractice(user, ctx).severity == Block
  }

  /**
   * `check_ethics`. It blocks exactly when an applicable conflict or practice
   * check blocks, and then the conflict check (Rule 1.7) wins over the practice
   * check (Rule 5.5); otherwise it warns, citing Rule 1.6, exactly when the
   * confidentiality check warns; otherwise it passes with empty explanation and rule.
   */
  function CheckEthics(data: Payload, actionType: string, user: Option<User>, context: Option<Context>): (v: Verdict)
    ensures var ctx := context.GetOr(EmptyContext);
      v.result == Block <==> ConflictFires(data, actionType, ctx) || PracticeFires(actionType, user, ctx)
    ensures var ctx := context.GetOr(EmptyContext);
      ConflictFires(data, actionType, ctx) ==>
        v == Verdict(Block, ConflictExplanation(data.client.value), ConflictRule)
    ensures var ctx := context.GetOr(EmptyContext);
      !ConflictFires(data, actionType, ctx) && PracticeFires(actionType, user, ctx) ==>
        v == Verdict(Block, PracticeExplanation(ctx.jurisdiction.value), PracticeRule)
    ensures v.result == Block ==> v.rule == ConflictRule || v.rule == PracticeRule
    ensures v.result != Block ==>
      v == if CheckConfidentiality(data.text).severity == Warn
           then Verdict(Warn, CheckConfidentiality(data.text).explanation, ConfidentialityRule)
           else PassVerdict
  {
    var ctx := context.GetOr(EmptyContext);
    var conflict := ConflictChecks(data, actionType, ctx);
    var practice := PracticeChecks(actionType, user, ctx);
    assert ConflictFires(data, actionType, ctx) <==> conflict != [];
    assert PracticeFires(actionType, user, ctx) <==> practice != [];
    MostSevereOfParts(ConfidentialityChecks(data), conflict, practice);
    MostSevere(Checks(data, actionType, user, context))
  }

  /**
   * The reduction applied to the shape `check_ethics` builds: at most one
   * warning, then at most one block from the conflict check, then at most one
   * from the practice check.
   */
  lemma MostSevereOfParts(conf: seq<Verdict>, conflict: seq<Verdict>, practice: seq<Verdict>)
    requires |conf| <= 1 && |conflict| <= 1 && |practice| <= 1
    requires conf != [] ==> conf[0].result == Warn
    requires conflict != [] ==> conflict[0].result == Block
    requires practice != [] ==> practice[0].result == Block
    ensures var v := MostSevere(conf + conflict + practice);
      && (conflict != [] ==> v == conflict[0])
      && (conflict == [] && practice != [] ==> v == practice[0])
      && (conflict == [] && practice == [] ==> v == if conf != [] then conf[0] else PassVerdict)
  {
    var checks := conf + conflict + practice;
    if conflict != [] {
      assert checks[|conf|] == conflict[0];
    } else if practice != [] {
      assert checks[|conf|] == practice[0];
    } else {
      assert checks == conf;
    }
  }

  /** Which checks run depends only on the action: the user matters only for the practice actions. */
  lemma UserIgnoredOutsidePracticeActions(data: Payload, actionType: string, user: Option<User>, context: Option<Context>)
    requires actionType !in PracticeActions
    ensures CheckEthics(data, actionType, user, context) == CheckEthics(data, actionType, None, context)
  {
  }

  /** ... and the data's client matters only for the conflict actions. */
  lemma ClientIgnoredOutsideConflictActions(data: Payload, actionType: string, user: Option<User>, context: Option<Context>)
    requires actionType !in ConflictActions
    ensures CheckEthics(data, actionType, user, context) == CheckEthics(Payload(None, data.text), actionType, user, context)
  {
  }

  /** For an action in neither list only the confidentiality check runs, so at most a warning results. */
  lemma OnlyConfidentialityOutsideBothLists(data: Payload, actionType: string, user: Option<User>, context: Option<Context>)
    requires actionType !in ConflictActions && actionType !in PracticeActions
    ensures CheckEthics(data, actionType, user, context) == CheckEthics(Payload(None, data.text), actionType, None, None)
    ensures CheckEthics(data, actionType, user, context).result != Block
  {
  }

  /** A missing context behaves as the empty dict. */
  lemma MissingContextIsEmpty(data: Payload, actionType: string, user: Option<User>)
    ensures CheckEthics(data, actionType, user, None) == CheckEthics(data, actionType, user, Some(EmptyContext))
  {
  }

  /**
   * A payload mentioning an SSN, for `create_case` in Tennessee by a user
   * authorised only in Kentucky: the confidentiality check warns, but the
   * block of Rule 5.5 outranks the warning of Rule 1.6.
   */
  lemma BlockOutranksWarning()
    ensures CheckConfidentiality("{'text': 'SSN 123'}").severity == Warn
    ensures var v := CheckEthics(Payload(None, "{'text': 'SSN 123'}"), "create_case",
                                 Some(User(Some(["KY"]))), Some(Context(None, Some("TN"))));
      v == Verdict(Block, PracticeExplanation("TN"), PracticeRule)
  {
    var text := "{'text': 'SSN 123'}";
    assert MatchesAt(text, SensitiveTerms[0], 10);
    var ctx := Context(None, Some("TN"));
    var user := Some(User(Some(["KY"])));
    assert "TN" !in Authorized(user);
    assert PracticeFires("create_case", user, ctx);
    assert !ConflictFires(Payload(None, text), "create_case", ctx);
  }
}
