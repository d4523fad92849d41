/** The policy engine of mahilo/policy.py: policies, their evaluation (heuristic predicates and
    the parsing of a judge's reply), and the priority-sorted `PolicyManager`. */
module Policies {
  import opened Common
  import opened Protocol

  datatype PolicyType = Heuristic | NaturalLanguage

  /** The callables a heuristic policy can hold: the two built-in predicates, or any other
      callable, whose verdict comes from `Oracles.custom`. */
  datatype Check = AntiLoopCheck | MessageLengthCheck | CustomCheck(tag: string)

  /** `policy_content`: a callable or a text. */
  datatype PolicyContent = Callable(check: Check) | Text(text: string)

  datatype Policy = Policy(
    name: string,
    description: string,
    policyType: PolicyType,
    content: PolicyContent,
    enabled: bool,
    priority: int)

  /** The evaluation context; `conversationHistory` is None when the key is absent. */
  datatype Context = Context(conversationHistory: Option<seq<Envelope>>)

  /** What one policy evaluation yields: `(passed, reason)`, or an exception. */
  datatype Outcome = Verdict(passed: bool, reason: Option<string>) | Raised

  /** The text the judging model returned, or a failure of that call. */
  datatype JudgeReply = Reply(text: string) | JudgeFailed

  /** The collaborators the engine cannot see: `SequenceMatcher(None, a, b).ratio()`, the
      judging model behind a natural-language policy, and custom heuristic callables. */
  datatype Oracles = Oracles(
    similarity: (string, string) -> real,
    judge: (Policy, Envelope, Context) -> JudgeReply,
    custom: (string, Envelope, Context) -> Outcome)

  /** The timestamp of a violation is left out (its default is fixed at import time). */
  datatype PolicyViolation = PolicyViolation(policyName: string, reason: string)

  /** A failing policy at or above this priority stops the evaluation. */
  const HardStopPriority: int := 100

  const TooSimilarReason: string :=
    "Your message is too similar to your previous message. Please provide new information or a different approach."
  const PingPongReason: string :=
    "It seems you're in a repetitive conversation pattern. Try a different approach or provide new information."
  const TooShortReason: string := "Your message is too short. Please provide more information."
  const TooLongReason: string := "Your message is too long. Please be more concise."
  const DefaultJudgeReason: string := "Message violates policy"

  // ---------------------------------------------------------------------------------------
  // The two built-in heuristic predicates

  /** `message_length_policy`. */
  function MessageLengthPolicy(message: Envelope): Outcome {
    if |Strip(message.payload)| < 10 then Verdict(false, Some(TooShortReason))
    else if |message.payload| > 4000 then Verdict(false, Some(TooLongReason))
    else Verdict(true, None)
  }

  /** The length policy fails exactly when the stripped payload is under 10 characters or the
      raw payload is over 4000, and the too-short reason wins when both hold. */
  lemma MessageLengthVerdict(message: Envelope)
    ensures var r := MessageLengthPolicy(message);
      r.Verdict? &&
      (r.passed <==> 10 <= |Strip(message.payload)| && |message.payload| <= 4000) &&
      (r.passed ==> r.reason == None) &&
      (|Strip(message.payload)| < 10 ==> r.reason == Some(TooShortReason)) &&
      (|Strip(message.payload)| >= 10 && |message.payload| > 4000 ==> r.reason == Some(TooLongReason))
  {
  }

  /** Index of the last history entry sent by `sender`. */
  function LastIndexFrom(history: seq<Envelope>, sender: string): (r: Option<nat>)
    ensures r.None? <==> forall i :: 0 <= i < |history| ==> history[i].sender != sender
    ensures r.Some? ==> r.value < |history| && history[r.value].sender == sender
    ensures r.Some? ==> forall j :: r.value < j < |history| ==> history[j].sender != sender
    decreases |history|
  {
    if history == [] then None
    else if history[|history| - 1].sender == sender then Some(|history| - 1)
    else LastIndexFrom(history[..|history| - 1], sender)
  }

  /** The last four entries alternate sender, recipient, sender, recipient. */
  predicate AlternatesWith(history: seq<Envelope>, sender: string, recipient: string)
    requires |history| >= 4
  {
    var n := |history|;
    history[n - 4].sender == sender && history[n - 3].sender == recipient &&
    history[n - 2].sender == sender && history[n - 1].sender == recipient
  }

  /** `anti_loop_policy`; the similarity ratio is the oracle's. */
  function AntiLoopPolicy(message: Envelope, context: Context, similarity: (string, string) -> real): Outcome {
    match context.conversationHistory
    case None => Verdict(true, None)
    case Some(history) =>
      if |history| < 4 then Verdict(true, None)
      else
        var last := LastIndexFrom(history, message.sender);
        if last.Some? && similarity(message.payload, history[last.value].payload) > 0.8 then
          Verdict(false, Some(TooSimilarReason))
        else
          var n := |history|;
          if AlternatesWith(history, message.sender, message.recipient) &&
             similarity(history[n - 4].payload, history[n - 2].payload) > 0.7 &&
             similarity(history[n - 3].payload, history[n - 1].payload) > 0.7
          then Verdict(false, Some(PingPongReason))
          else Verdict(true, None)
  }

  /** Reference reading of "repeats itself": some entry of the sender is similar (> 0.8) to
      the new payload and no later entry comes from the sender. */
  ghost predicate RepeatsOwnLastMessage(message: Envelope, history: seq<Envelope>, similarity: (string, string) -> real) {
    exists i :: 0 <= i < |history| && history[i].sender == message.sender &&
      (forall j :: i < j < |history| ==> history[j].sender != message.sender) &&
      similarity(message.payload, history[i].payload) > 0.8
  }

  /** Reference reading of "ping-pong": the last four alternate between the pair and both
      same-side pairs are similar (> 0.7). */
  ghost predicate PingPongPattern(message: Envelope, history: seq<Envelope>, similarity: (string, string) -> real)
    requires |history| >= 4
  {
    var n := |history|;
    AlternatesWith(history, message.sender, message.recipient) &&
    similarity(history[n - 4].payload, history[n - 2].payload) > 0.7 &&
    similarity(history[n - 3].payload, history[n - 1].payload) > 0.7
  }

  /** The anti-loop policy never raises; it passes without a history of at least four
      entries; otherwise it fails exactly on a self-repeat or a ping-pong pattern, with the
      self-repeat reason taking precedence. */
  lemma AntiLoopVerdict(message: Envelope, context: Context, similarity: (string, string) -> real)
    ensures var r := AntiLoopPolicy(message, context, similarity);
      r.Verdict? && (r.passed ==> r.reason == None) &&
      (context.conversationHistory.None? ==> r.passed) &&
      (context.conversationHistory.Some? && |context.conversationHistory.value| < 4 ==> r.passed)
    ensures context.conversationHistory.Some? && |context.conversationHistory.value| >= 4 ==>
      var h := context.conversationHistory.value;
      var r := AntiLoopPolicy(message, context, similarity);
      (!r.passed <==> RepeatsOwnLastMessage(message, h, similarity) || PingPongPattern(message, h, similarity)) &&
      (RepeatsOwnLastMessage(message, h, similarity) ==> r.reason == Some(TooSimilarReason)) &&
      (!RepeatsOwnLastMessage(message, h, similarity) && PingPongPattern(message, h, similarity) ==> r.reason == Some(PingPongReason))
  {
    if context.conversationHistory.Some? && |context.conversationHistory.value| >= 4 {
      var h := context.conversationHistory.value;
      var last := LastIndexFrom(h, message.sender);
      if RepeatsOwnLastMessage(message, h, similarity) {
        var i :| 0 <= i < |h| && h[i].sender == message.sender &&
          (forall j :: i < j < |h| ==> h[j].sender != message.sender) &&
          similarity(message.payload, h[i].payload) > 0.8;
        assert last.Some?;
        assert last.value == i;
      } else if last.Some? {
        assert !(similarity(message.payload, h[last.value].payload) > 0.8);
      }
    }
  }

  // ---------------------------------------------------------------------------------------
  // Parsing the judge's reply for a natural-language policy

  /** `re.search(r"REASON:\s*(.*?)(?:\n|$)", text, re.IGNORECASE | re.DOTALL)` followed by
      `.group(1).strip()`: after the first "REASON:" in any case, skip whitespace (newlines
      included), take the rest of that line, strip it. */
  function ExtractReason(text: string): (r: Option<string>)
    ensures r.None? <==> !Contains(Lower(text), "reason:")
    ensures r.Some? ==> '\n' !in r.value
  {
    match IndexOf(Lower(text), "reason:")
    case None => None
    case Some(i) =>
      var line := Split(TrimStart(text[i + 7..]), '\n')[0];
      StripKeepsOut(line, '\n');
      Some(Strip(line))
  }

  /** The text after the first line with the line breaks turned into spaces, stripped:
      `" ".join(text.split("\n")[1:]).strip()`. */
  function FallbackReason(text: string): (r: string)
    ensures '\n' !in r
  {
    var pieces := Split(text, '\n')[1..];
    JoinWithoutNewline(pieces);
    var joined := Join(" ", pieces);
    StripKeepsOut(joined, '\n');
    Strip(joined)
  }

  /** The reply parsing of `Policy.evaluate` for a natural-language policy. */
  function ParseJudgeReply(text: string): Outcome {
    if Contains(Upper(text), "COMPLIANCE: YES") then Verdict(true, None)
    else if Contains(Upper(text), "COMPLIANCE: NO") then Verdict(false, Some(ExtractReason(text).GetOr(DefaultJudgeReason)))
    else if StartsWith(Lower(text), "yes") then Verdict(true, None)
    else
      var reason := FallbackReason(text);
      Verdict(false, Some(if reason == "" then DefaultJudgeReason else reason))
  }

  /** A reply passes exactly when it holds "COMPLIANCE: YES" (whatever else it holds), or holds
      neither marker and starts with "yes"; a passing reply has no reason, and a failing one
      has a reason of a single line. */
  lemma JudgeReplyVerdict(text: string)
    ensures var r := ParseJudgeReply(text);
      r.Verdict? &&
      (r.passed <==> Contains(Upper(text), "COMPLIANCE: YES") ||
                     (!Contains(Upper(text), "COMPLIANCE: NO") && StartsWith(Lower(text), "yes"))) &&
      (r.passed ==> r.reason == None) &&
      (!r.passed ==> r.reason.Some? && '\n' !in r.reason.value)
    ensures !Contains(Upper(text), "COMPLIANCE: YES") && Contains(Upper(text), "COMPLIANCE: NO") ==>
      ParseJudgeReply(text).reason == Some(if Contains(Lower(text), "reason:") then ExtractReason(text).value else DefaultJudgeReason)
  {
    assert '\n' !in DefaultJudgeReason;
  }

  // ---------------------------------------------------------------------------------------
  // Evaluating one policy and a whole list

  function RunCheck(check: Check, message: Envelope, context: Context, o: Oracles): Outcome {
    match check
    case AntiLoopCheck => AntiLoopPolicy(message, context, o.similarity)
    case MessageLengthCheck => MessageLengthPolicy(message)
    case CustomCheck(tag) => o.custom(tag, message, context)
  }

  /** `Policy.evaluate`. A heuristic policy whose content is not callable raises ValueError;
      a failing call to the judge raises. */
  function EvaluatePolicy(p: Policy, message: Envelope, context: Context, o: Oracles): (r: Outcome)
    ensures !p.enabled ==> r == Verdict(true, None)
    ensures p.enabled && p.policyType == Heuristic && p.content.Text? ==> r == Raised
  {
    if !p.enabled then Verdict(true, None)
    else
      match p.policyType
      case Heuristic =>
        (match p.content
         case Callable(check) => RunCheck(check, message, context, o)
         case Text(_) => Raised)
      case NaturalLanguage =>
        (match o.judge(p, message, context)
         case JudgeFailed => Raised
         case Reply(text) => ParseJudgeReply(text))
  }

  /** An enabled policy whose evaluation returned a failing verdict. */
  predicate Fails(p: Policy, message: Envelope, context: Context, o: Oracles) {
    p.enabled && EvaluatePolicy(p, message, context, o).Verdict? && !EvaluatePolicy(p, message, context, o).passed
  }

  /** `reason or f"Violated policy: {policy.name}"`. */
  function ViolationFor(p: Policy, reason: Option<string>): (v: PolicyViolation)
    ensures v.policyName == p.name && v.reason != ""
  {
    PolicyViolation(p.name, if reason.None? || reason.value == "" then "Violated policy: " + p.name else reason.value)
  }

  /** The violation recorded for a failing policy. */
  function ViolationOf(p: Policy, message: Envelope, context: Context, o: Oracles): PolicyViolation
    requires Fails(p, message, context, o)
  {
    ViolationFor(p, EvaluatePolicy(p, message, context, o).reason)
  }

  /** The violations `evaluate_message` collects, walking the list in order and stopping after
      the first failing policy whose priority is at least 100. */
  function Violations(ps: seq<Policy>, message: Envelope, context: Context, o: Oracles): seq<PolicyViolation>
    decreases |ps|
  {
    if ps == [] then []
    else
      var rest := Violations(ps[1..], message, context, o);
      if Fails(ps[0], message, context, o) then
        [ViolationOf(ps[0], message, context, o)] + (if ps[0].priority >= HardStopPriority then [] else rest)
      else rest
  }

  /** Every failure of the list, with no stopping. */
  function AllFailures(ps: seq<Policy>, message: Envelope, context: Context, o: Oracles): seq<PolicyViolation>
    decreases |ps|
  {
    if ps == [] then []
    else if Fails(ps[0], message, context, o) then [ViolationOf(ps[0], message, context, o)] + AllFailures(ps[1..], message, context, o)
    else AllFailures(ps[1..], message, context, o)
  }

  /** How many policies are evaluated: up to and including the first failing hard-stop
      policy, or all of them. */
  function Horizon(ps: seq<Policy>, message: Envelope, context: Context, o: Oracles): (h: nat)
    ensures h <= |ps|
    decreases |ps|
  {
    if ps == [] then 0
    else if Fails(ps[0], message, context, o) && ps[0].priority >= HardStopPriority then 1
    else 1 + Horizon(ps[1..], message, context, o)
  }

  /** The violations are exactly the failures among the policies up to the horizon, in list
      order. */
  lemma {:induction false} ViolationsAreFailuresBeforeStop(ps: seq<Policy>, message: Envelope, context: Context, o: Oracles)
    ensures Violations(ps, message, context, o) == AllFailures(ps[..Horizon(ps, message, context, o)], message, context, o)
    decreases |ps|
  {
    if ps != [] {
      if Fails(ps[0], message, context, o) && ps[0].priority >= HardStopPriority {
        StopAtHead(ps, message, context, o);
      } else {
        ViolationsAreFailuresBeforeStop(ps[1..], message, context, o);
        ContinuePastHead(ps, message, context, o);
      }
    }
  }

  /** A failing hard-stop head is the only policy evaluated. */
  lemma StopAtHead(ps: seq<Policy>, message: Envelope, context: Context, o: Oracles)
    requires ps != [] && Fails(ps[0], message, context, o) && ps[0].priority >= HardStopPriority
    ensures Violations(ps, message, context, o) == AllFailures(ps[..Horizon(ps, message, context, o)], message, context, o)
  {
    assert ps[..1] == [ps[0]];
    assert [ps[0]][1..] == [];
  }

  /** Past a head that does not stop, the horizon moves one further along the tail. */
  lemma ContinuePastHead(ps: seq<Policy>, message: Envelope, context: Context, o: Oracles)
    requires ps != [] && !(Fails(ps[0], message, context, o) && ps[0].priority >= HardStopPriority)
    requires Violations(ps[1..], message, context, o) ==
      AllFailures(ps[1..][..Horizon(ps[1..], message, context, o)], message, context, o)
    ensures Violations(ps, message, context, o) == AllFailures(ps[..Horizon(ps, message, context, o)], message, context, o)
  {
    var h := Horizon(ps, message, context, o);
    assert h == 1 + Horizon(ps[1..], message, context, o);
    assert ps[..h][0] == ps[0];
    assert ps[..h][1..] == ps[1..][..h - 1];
  }

  /** No policy before the last one evaluated is a failing hard-stop policy: evaluation stops
      at the first. */
  lemma {:induction false} HorizonIsFirstStop(ps: seq<Policy>, message: Envelope, context: Context, o: Oracles)
    ensures forall j :: 0 <= j < Horizon(ps, message, context, o) - 1 ==>
      !(Fails(ps[j], message, context, o) && ps[j].priority >= HardStopPriority)
    decreases |ps|
  {
    if ps != [] && !(Fails(ps[0], message, context, o) && ps[0].priority >= HardStopPriority) {
      HorizonIsFirstStop(ps[1..], message, context, o);
      NoStopPastHead(ps, message, context, o);
    }
  }

  /** A head that does not stop, followed by a tail with no early stop, has no early stop. */
  lemma NoStopPastHead(ps: seq<Policy>, message: Envelope, context: Context, o: Oracles)
    requires ps != [] && !(Fails(ps[0], message, context, o) && ps[0].priority >= HardStopPriority)
    requires forall j :: 0 <= j < Horizon(ps[1..], message, context, o) - 1 ==>
      !(Fails(ps[1..][j], message, context, o) && ps[1..][j].priority >= HardStopPriority)
    ensures forall j :: 0 <= j < Horizon(ps, message, context, o) - 1 ==>
      !(Fails(ps[j], message, context, o) && ps[j].priority >= HardStopPriority)
  {
    var h := Horizon(ps, message, context, o);
    assert h == 1 + Horizon(ps[1..], message, context, o);
    forall j | 0 < j < h - 1
      ensures !(Fails(ps[j], message, context, o) && ps[j].priority >= HardStopPriority)
    {
      assert ps[j] == ps[1..][j - 1];
    }
  }

  /** The evaluation passes exactly when no enabled policy returns a failing verdict: a stop
      only ever follows a recorded violation. */
  lemma {:induction false} PassesIffNoFailure(ps: seq<Policy>, message: Envelope, context: Context, o: Oracles)
    ensures Violations(ps, message, context, o) == [] <==>
      forall j :: 0 <= j < |ps| ==> !Fails(ps[j], message, context, o)
    decreases |ps|
  {
    if ps != [] {
      PassesIffNoFailure(ps[1..], message, context, o);
      if !Fails(ps[0], message, context, o) {
        forall j | 0 <= j < |ps| && Fails(ps[j], message, context, o)
          ensures exists k :: 0 <= k < |ps[1..]| && Fails(ps[1..][k], message, context, o)
        {
          assert ps[1..][j - 1] == ps[j];
        }
      }
    }
  }

  /** Hard stop: after a failing policy of priority at least 100, later policies have no
      influence on the result. */
  lemma {:induction false} HardStopIgnoresLater(pre: seq<Policy>, p: Policy, later1: seq<Policy>, later2: seq<Policy>,
                                                message: Envelope, context: Context, o: Oracles)
    requires Fails(p, message, context, o) && p.priority >= HardStopPriority
    ensures Violations(pre + [p] + later1, message, context, o) == Violations(pre + [p] + later2, message, context, o)
    decreases |pre|
  {
    var s1, s2 := pre + [p] + later1, pre + [p] + later2;
    if pre == [] {
      assert s1[0] == p && s2[0] == p;
      assert Violations(s1, message, context, o) == [ViolationOf(p, message, context, o)];
      assert Violations(s2, message, context, o) == [ViolationOf(p, message, context, o)];
    } else {
      HardStopIgnoresLater(pre[1..], p, later1, later2, message, context, o);
      SpliceTail(pre, p, later1);
      SpliceTail(pre, p, later2);
      assert Violations(s1[1..], message, context, o) == Violations(s2[1..], message, context, o);
    }
  }

  /** A failing policy below 100 records its violation and evaluation goes on; a disabled,
      passing or raising policy records nothing. */
  lemma SoftFailureContinues(p: Policy, rest: seq<Policy>, message: Envelope, context: Context, o: Oracles)
    ensures Fails(p, message, context, o) && p.priority < HardStopPriority ==>
      Violations([p] + rest, message, context, o) == [ViolationOf(p, message, context, o)] + Violations(rest, message, context, o)
    ensures !Fails(p, message, context, o) ==>
      Violations([p] + rest, message, context, o) == Violations(rest, message, context, o)
  {
    assert ([p] + rest)[0] == p && ([p] + rest)[1..] == rest;
  }

  // ---------------------------------------------------------------------------------------
  // Ordering by priority

  predicate SortedByPriority(ps: seq<Policy>) {
    forall i, j :: 0 <= i < j < |ps| ==> ps[i].priority >= ps[j].priority
  }

  /** Number of leading entries whose priority is at least `priority`. */
  function InsertionPoint(ps: seq<Policy>, priority: int): (k: nat)
    ensures k <= |ps|
    ensures forall j :: 0 <= j < k ==> ps[j].priority >= priority
    ensures k < |ps| ==> ps[k].priority < priority
    decreases |ps|
  {
    if ps == [] || ps[0].priority < priority then 0
    else 1 + InsertionPoint(ps[1..], priority)
  }

  /** Places `p` after every entry whose priority is at least its own. */
  function InsertByPriority(ps: seq<Policy>, p: Policy): seq<Policy>
    decreases |ps|
  {
    if ps == [] then [p]
    else if p.priority > ps[0].priority then [p] + ps
    else [ps[0]] + InsertByPriority(ps[1..], p)
  }

  /** `list.sort(key=lambda p: -p.priority)`: a stable insertion sort, highest priority first. */
  function StableSortByPriority(ps: seq<Policy>): seq<Policy>
    decreases |ps|
  {
    if ps == [] then []
    else InsertByPriority(StableSortByPriority(ps[..|ps| - 1]), ps[|ps| - 1])
  }

  /** Splicing an entry in at its insertion point keeps a sorted list sorted. */
  lemma SpliceAtInsertionPointSorted(ps: seq<Policy>, p: Policy)
    requires SortedByPriority(ps)
    ensures var k := InsertionPoint(ps, p.priority);
      SortedByPriority(ps[..k] + [p] + ps[k..])
  {
    var k := InsertionPoint(ps, p.priority);
    var r := ps[..k] + [p] + ps[k..];
    forall i, j | 0 <= i < j < |r|
      ensures r[i].priority >= r[j].priority
    {
      if i < k && j > k {
        assert r[i] == ps[i] && r[j] == ps[j - 1];
      } else if i > k {
        assert r[i] == ps[i - 1] && r[j] == ps[j - 1];
      } else if i < k {
        assert r[i] == ps[i];
      } else {
        assert r[j] == ps[j - 1];
      }
    }
  }

  /** Inserting into a sorted list puts `p` at its insertion point: after all entries of higher
      or equal priority (so an equal-priority entry added earlier stays first), before all lower
      ones; the result is sorted. */
  lemma {:induction false} InsertAtInsertionPoint(ps: seq<Policy>, p: Policy)
    requires SortedByPriority(ps)
    ensures var k := InsertionPoint(ps, p.priority);
      InsertByPriority(ps, p) == ps[..k] + [p] + ps[k..]
    ensures SortedByPriority(InsertByPriority(ps, p))
    decreases |ps|
  {
    var k := InsertionPoint(ps, p.priority);
    if ps != [] && p.priority <= ps[0].priority {
      var tail := ps[1..];
      assert SortedByPriority(tail);
      InsertAtInsertionPoint(tail, p);
      assert k == 1 + InsertionPoint(tail, p.priority);
      TailSlices(ps, k);
    } else {
      assert k == 0;
    }
    SpliceAtInsertionPointSorted(ps, p);
  }

  /** Sorting a sorted list changes nothing. */
  lemma {:induction false} SortSortedIsIdentity(ps: seq<Policy>)
    requires SortedByPriority(ps)
    ensures StableSortByPriority(ps) == ps
    decreases |ps|
  {
    if ps != [] {
      var init := ps[..|ps| - 1];
      var last := ps[|ps| - 1];
      assert SortedByPriority(init);
      SortSortedIsIdentity(init);
      InsertAtInsertionPoint(init, last);
      assert InsertionPoint(init, last.priority) == |init|;
      assert init[..|init|] == init && init[|init|..] == [];
      assert ps == init + [last];
    }
  }

  /** Appending to a sorted list and sorting inserts the new entry at its insertion point. */
  lemma SortAfterAppend(ps: seq<Policy>, p: Policy)
    requires SortedByPriority(ps)
    ensures StableSortByPriority(ps + [p]) == InsertByPriority(ps, p)
    ensures SortedByPriority(StableSortByPriority(ps + [p]))
  {
    assert (ps + [p])[..|ps|] == ps;
    SortSortedIsIdentity(ps);
    InsertAtInsertionPoint(ps, p);
  }

  /** `[p for p in policies if p.name != name]`. */
  function WithoutName(ps: seq<Policy>, name: string): (r: seq<Policy>)
    ensures forall p :: p in r ==> p in ps
    decreases |ps|
  {
    if ps == [] then []
    else
      var rest := WithoutName(ps[1..], name);
      assert ps == [ps[0]] + ps[1..];
      if ps[0].name == name then rest else [ps[0]] + rest
  }

  /** Removing by name keeps a list sorted by priority sorted. */
  lemma {:induction false} WithoutNameKeepsSorted(ps: seq<Policy>, name: string)
    requires SortedByPriority(ps)
    ensures SortedByPriority(WithoutName(ps, name))
    decreases |ps|
  {
    if ps != [] {
      var rest := WithoutName(ps[1..], name);
      assert SortedByPriority(ps[1..]);
      WithoutNameKeepsSorted(ps[1..], name);
      if ps[0].name != name {
        HeadOutranksTail(ps, rest);
        ConsSortedByPriority(ps[0], rest);
      }
    }
  }

  /** The policies kept are exactly those of the list with another name. */
  lemma {:induction false} WithoutNameMembers(ps: seq<Policy>, name: string)
    ensures forall p :: p in WithoutName(ps, name) <==> p in ps && p.name != name
    decreases |ps|
  {
    if ps != [] {
      WithoutNameMembers(ps[1..], name);
      assert ps == [ps[0]] + ps[1..];
    }
  }

  /** Filtering by name distributes over concatenation, so the policies that stay keep their
      relative order. */
  lemma {:induction false} WithoutNameAppend(a: seq<Policy>, b: seq<Policy>, name: string)
    ensures WithoutName(a + b, name) == WithoutName(a, name) + WithoutName(b, name)
    decreases |a|
  {
    if a == [] {
      assert a + b == b;
    } else {
      var x, tail := a[0], a[1..];
      WithoutNameAppend(tail, b, name);
      var ab := a + b;
      assert ab[0] == x && ab[1..] == tail + b;
      var keep := if x.name != name then [x] else [];
      assert WithoutName(ab, name) == keep + WithoutName(tail + b, name);
      assert WithoutName(a, name) == keep + WithoutName(tail, name);
    }
  }

  /** The head of a sorted list outranks anything taken from its tail. */
  lemma HeadOutranksTail(ps: seq<Policy>, rest: seq<Policy>)
    requires SortedByPriority(ps) && ps != []
    requires forall p :: p in rest ==> p in ps[1..]
    ensures forall p :: p in rest ==> ps[0].priority >= p.priority
  {
    forall p | p in rest
      ensures ps[0].priority >= p.priority
    {
      var k :| 0 <= k < |ps[1..]| && ps[1..][k] == p;
      assert ps[k + 1] == p;
    }
  }

  /** A policy outranking everything in a sorted list can go in front of it. */
  lemma ConsSortedByPriority(p: Policy, rest: seq<Policy>)
    requires SortedByPriority(rest)
    requires forall q :: q in rest ==> p.priority >= q.priority
    ensures SortedByPriority([p] + rest)
  {
    var r := [p] + rest;
    forall i, j | 0 <= i < j < |r|
      ensures r[i].priority >= r[j].priority
    {
      assert r[j] == rest[j - 1];
      if i > 0 {
        assert r[i] == rest[i - 1];
      } else {
        assert rest[j - 1] in rest;
      }
    }
  }

  /** Index of the first policy with the name. */
  function FirstIndexNamed(ps: seq<Policy>, name: string): (r: Option<nat>)
    ensures r.None? <==> forall i :: 0 <= i < |ps| ==> ps[i].name != name
    ensures r.Some? ==> r.value < |ps| && ps[r.value].name == name
    ensures r.Some? ==> forall i :: 0 <= i < r.value ==> ps[i].name != name
    decreases |ps|
  {
    if ps == [] then None
    else if ps[0].name == name then Some(0)
    else
      match FirstIndexNamed(ps[1..], name)
      case None => None
      case Some(k) => Some(k + 1)
  }

  /** The four policies of `create_default_policies`, in creation order. */
  function DefaultPolicies(): seq<Policy> {
    [AntiLoopDefault(), MessageLengthDefault(), RelevanceDefault(), ToxicityDefault()]
  }

  function AntiLoopDefault(): Policy {
    Policy("anti_loop", "Prevents agents from falling into repetitive conversation patterns",
           Heuristic, Callable(AntiLoopCheck), true, 90)
  }

  function MessageLengthDefault(): Policy {
    Policy("message_length", "Ensures messages aren't too long or too short",
           Heuristic, Callable(MessageLengthCheck), true, 50)
  }

  function RelevanceDefault(): Policy {
    Policy("relevance", "Ensures messages are relevant to the task or topic", NaturalLanguage,
           Text(RelevanceRule), true, 70)
  }

  function ToxicityDefault(): Policy {
    Policy("toxicity", "Prevents harmful or inappropriate content", NaturalLanguage,
           Text(ToxicityRule), true, 100)
  }

  /** The policy texts the judging model is given. */
  const RelevanceRule: string :=
    "The message must be relevant to the current task or topic of conversation. " +
    "It should not introduce completely unrelated topics without clear justification."

  const ToxicityRule: string :=
    "The message must not contain harmful, offensive, or inappropriate content. " +
    "This includes but is not limited to: hate speech, personal attacks, explicit content, " +
    "or anything that could be considered harmful to individuals or groups."

  /** Adding the default policies one by one evaluates them as toxicity, anti_loop, relevance,
      message_length, and only toxicity is a hard stop. */
  lemma DefaultPolicyOrder()
    ensures var sorted := StableSortByPriority(DefaultPolicies());
      |sorted| == 4 &&
      sorted[0].name == "toxicity" && sorted[1].name == "anti_loop" &&
      sorted[2].name == "relevance" && sorted[3].name == "message_length" &&
      SortedByPriority(sorted)
    ensures forall p :: p in DefaultPolicies() && p.priority >= HardStopPriority ==> p.name == "toxicity"
  {
    var d := DefaultPolicies();
    var a, b, c, t := AntiLoopDefault(), MessageLengthDefault(), RelevanceDefault(), ToxicityDefault();
    assert a.name == "anti_loop" && a.priority == 90;
    assert b.name == "message_length" && b.priority == 50;
    assert c.name == "relevance" && c.priority == 70;
    assert t.name == "toxicity" && t.priority == 100;
    assert [a][..0] == [] && [a, b][..1] == [a] && [a, b, c][..2] == [a, b] && [a, b, c, t][..3] == [a, b, c];
    assert StableSortByPriority([a]) == InsertByPriority([], a) == [a];
    assert StableSortByPriority([a, b]) == InsertByPriority([a], b) == [a, b];
    assert StableSortByPriority([a, b, c]) == InsertByPriority([a, b], c) == [a, c, b];
    assert StableSortByPriority(d) == InsertByPriority([a, c, b], t) == [t, a, c, b];
  }

  /** The example of a policy set holding only the length policy: "hi" gives one violation,
      named message_length, with the too-short reason. */
  lemma ShortGreetingRejected(message: Envelope, context: Context, o: Oracles)
    requires message.payload == "hi"
    ensures Violations([MessageLengthDefault()], message, context, o) ==
      [PolicyViolation("message_length", TooShortReason)]
  {
    var m := MessageLengthDefault();
    HiIsTooShort(message);
    LengthPolicyRejectsShort(m, message, context, o);
    assert m.name == "message_length";
  }

  /** Any enabled length policy alone rejects a payload under ten characters once stripped,
      with the too-short reason. */
  lemma LengthPolicyRejectsShort(p: Policy, message: Envelope, context: Context, o: Oracles)
    requires p.enabled && p.policyType == Heuristic && p.content == Callable(MessageLengthCheck)
    requires |Strip(message.payload)| < 10
    ensures Violations([p], message, context, o) == [PolicyViolation(p.name, TooShortReason)]
  {
    assert EvaluatePolicy(p, message, context, o) == Verdict(false, Some(TooShortReason));
    LoneFailure(p, message, context, o);
  }

  /** A list of one failing policy yields exactly that policy's violation. */
  lemma LoneFailure(p: Policy, message: Envelope, context: Context, o: Oracles)
    requires Fails(p, message, context, o)
    ensures Violations([p], message, context, o) == [ViolationOf(p, message, context, o)]
  {
    assert [p][1..] == [];
  }

  /** "hi" is under ten characters once stripped. */
  lemma HiIsTooShort(message: Envelope)
    requires message.payload == "hi"
    ensures |Strip(message.payload)| < 10
  {
    assert !IsSpace('h') && !IsSpace('i');
    assert Strip("hi") == "hi";
  }

  /** The policy list of `PolicyManager` and its violation history. */
  class PolicyManager {
    var policies: seq<Policy>
    var violationHistory: seq<PolicyViolation>

    /** The list is always sorted by non-increasing priority. */
    ghost predicate Valid()
      reads this
    {
      SortedByPriority(policies)
    }

    constructor ()
      ensures Valid() && policies == [] && violationHistory == []
    {
      policies := [];
      violationHistory := [];
    }

    /** `add_policy`: append, then stable sort by descending priority. */
    method AddPolicy(policy: Policy)
      requires Valid()
      modifies this
      ensures Valid()
      ensures policies == StableSortByPriority(old(policies) + [policy])
      ensures var k := InsertionPoint(old(policies), policy.priority);
        policies == old(policies)[..k] + [policy] + old(policies)[k..]
      ensures violationHistory == old(violationHistory)
    {
      SortAfterAppend(policies, policy);
      InsertAtInsertionPoint(policies, policy);
      policies := StableSortByPriority(policies + [policy]);
    }

    /** `remove_policy`: drops every policy with the name, keeping the others in order. */
    method RemovePolicy(name: string)
      requires Valid()
      modifies this
      ensures Valid()
      ensures policies == WithoutName(old(policies), name)
      ensures violationHistory == old(violationHistory)
    {
      WithoutNameKeepsSorted(policies, name);
      policies := WithoutName(policies, name);
    }

    /** The loop of `get_policy`, returning where the first policy with the name sits. */
    method FindPolicy(name: string) returns (index: Option<nat>)
      ensures index == FirstIndexNamed(policies, name)
    {
      var i := 0;
      while i < |policies|
        invariant 0 <= i <= |policies|
        invariant forall j :: 0 <= j < i ==> policies[j].name != name
      {
        if policies[i].name == name {
          return Some(i);
        }
        i := i + 1;
      }
      return None;
    }

    /** `get_policy`: the first policy with the name, or None. */
    method GetPolicy(name: string) returns (r: Option<Policy>)
      ensures r.None? <==> forall p :: p in policies ==> p.name != name
      ensures r.Some? ==> r.value.name == name && r.value == policies[FirstIndexNamed(policies, name).value]
    {
      var index := FindPolicy(name);
      if index.Some? {
        r := Some(policies[index.value]);
      } else {
        r := None;
      }
    }

    /** `enable_policy` / `disable_policy`: sets the flag of the first policy with the name;
        an unknown name changes nothing. */
    method SetPolicyEnabled(name: string, enabled: bool)
      requires Valid()
      modifies this
      ensures Valid()
      ensures var k := FirstIndexNamed(old(policies), name);
        policies == if k.None? then old(policies) else old(policies)[k.value := old(policies)[k.value].(enabled := enabled)]
      ensures violationHistory == old(violationHistory)
    {
      var index := FindPolicy(name);
      if index.Some? {
        policies := policies[index.value := policies[index.value].(enabled := enabled)];
      }
    }

    method EnablePolicy(name: string)
      requires Valid()
      modifies this
      ensures Valid()
      ensures var k := FirstIndexNamed(old(policies), name);
        policies == if k.None? then old(policies) else old(policies)[k.value := old(policies)[k.value].(enabled := true)]
      ensures violationHistory == old(violationHistory)
    {
      SetPolicyEnabled(name, true);
    }

    method DisablePolicy(name: string)
      requires Valid()
      modifies this
      ensures Valid()
      ensures var k := FirstIndexNamed(old(policies), name);
        policies == if k.None? then old(policies) else old(policies)[k.value := old(policies)[k.value].(enabled := false)]
      ensures violationHistory == old(violationHistory)
    {
      SetPolicyEnabled(name, false);
    }

    /** `evaluate_message`: walks the policies in order, skipping disabled ones, recording a
        violation for each failing one (also in the history) and stopping after a failing
        policy of priority at least 100; a policy that raises is passed over. */
    method EvaluateMessage(message: Envelope, context: Context, o: Oracles)
      returns (passed: bool, violations: seq<PolicyViolation>)
      modifies this
      ensures policies == old(policies)
      ensures violations == Violations(policies, message, context, o)
      ensures violationHistory == old(violationHistory) + violations
      ensures passed <==> violations == []
    {
      violations := [];
      var i := 0;
      while i < |policies|
        invariant 0 <= i <= |policies|
        invariant policies == old(policies)
        invariant violations + Violations(policies[i..], message, context, o) == Violations(policies, message, context, o)
        invariant violationHistory == old(violationHistory) + violations
      {
        var policy := policies[i];
        assert policies[i..][0] == policy && policies[i..][1..] == policies[i + 1..];
        if !policy.enabled {
          i := i + 1;
          continue;
        }
        var outcome := EvaluatePolicy(policy, message, context, o);
        match outcome {
          case Raised =>
          case Verdict(ok, reason) =>
            if !ok {
              var v := ViolationFor(policy, reason);
              violations := violations + [v];
              violationHistory := violationHistory + [v];
              if policy.priority >= HardStopPriority {
                break;
              }
            }
        }
        i := i + 1;
      }
      passed := |violations| == 0;
    }
  }
}
