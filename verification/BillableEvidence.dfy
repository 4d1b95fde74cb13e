/** The billing evidence: one final verdict per question, folded from the append-only event log. */
module BillableEvidence {
  import opened Sums

  const BILLABLE_MINIMUM_ANSWERS := 3

  /** A stored event payload; arrays, numbers, booleans and null are JsonOther. */
  datatype Json = JsonString(text: string) | JsonRecord(fields: map<string, Json>) | JsonOther

  /** The first of the keys that holds a non-empty string, or the empty string. */
  function ReadPayloadString(fields: map<string, Json>, keys: seq<string>): string {
    if keys == [] then ""
    else if keys[0] in fields && fields[keys[0]].JsonString? && fields[keys[0]].text != "" then fields[keys[0]].text
    else ReadPayloadString(fields, keys[1..])
  }

  function Fields(payload: Json): map<string, Json> {
    if payload.JsonRecord? then payload.fields else map[]
  }

  /** The question the event is about; empty when it cannot be attributed. */
  function QuestionOf(payload: Json): string {
    ReadPayloadString(Fields(payload), ["question_id", "questionId"])
  }

  function VerdictOf(payload: Json): string {
    ReadPayloadString(Fields(payload), ["completion_reason", "completionReason"])
  }

  /** The last event about question q, in sequence order. */
  function LastAbout(events: seq<Json>, q: string): (r: Option<Json>)
    ensures r.Some? ==> r.value in events && QuestionOf(r.value) == q
    ensures r.None? ==> forall e | e in events :: QuestionOf(e) != q
  {
    if events == [] then None
    else
      var n := |events| - 1;
      assert events == events[..n] + [events[n]];
      if QuestionOf(events[n]) == q then Some(events[n]) else LastAbout(events[..n], q)
  }

  /** The questions whose final verdict is "answered". */
  ghost function Answered(events: seq<Json>): set<string> {
    set e | e in events && QuestionOf(e) != "" && VerdictOf(LastAbout(events, QuestionOf(e)).value) == "answered" :: QuestionOf(e)
  }

  lemma AnsweredMeans(events: seq<Json>, q: string)
    ensures q in Answered(events) <==>
            q != "" && LastAbout(events, q).Some? && VerdictOf(LastAbout(events, q).value) == "answered"
  {
    if LastAbout(events, q).Some? {
      assert LastAbout(events, q).value in events;
    }
  }

  // ---- the decision ----

  datatype Decision = Decision(billable: bool, answeredCount: int, requiredCount: int)

  function IsAnswered(): string -> int {
    (verdict: string) => if verdict == "answered" then 1 else 0
  }

  function CountAnswered(outcomes: seq<string>): int {
    Sum(outcomes, IsAnswered())
  }

  /** At least half the planned questions, and never fewer than three. */
  function RequiredAnswers(planned: int): int {
    var half := (planned + 1) / 2;
    if half > BILLABLE_MINIMUM_ANSWERS then half else BILLABLE_MINIMUM_ANSWERS
  }

  function EvaluateBillableCompletion(planned: int, outcomes: seq<string>): Decision {
    if planned <= 0 then Decision(false, 0, 0)
    else
      var answered := CountAnswered(outcomes);
      Decision(answered >= RequiredAnswers(planned), answered, RequiredAnswers(planned))
  }

  /** The decision the evidence justifies, stated on the final verdicts alone. */
  ghost function Justified(planned: int, events: seq<Json>): Decision {
    if planned <= 0 then Decision(false, 0, 0)
    else Decision(|Answered(events)| >= RequiredAnswers(planned), |Answered(events)|, RequiredAnswers(planned))
  }

  // ---- the fold ----

  /** An insertion-ordered map from question to verdict: keys lists each question once. */
  ghost predicate Folded(events: seq<Json>, keys: seq<string>, verdicts: map<string, string>) {
    && (forall i, j | 0 <= i < j < |keys| :: keys[i] != keys[j])
    && (forall q :: q in keys <==> q in verdicts)
    && (forall q :: q in verdicts <==> q != "" && LastAbout(events, q).Some?)
    && (forall q | q in verdicts :: verdicts[q] == VerdictOf(LastAbout(events, q).value))
  }

  function Verdicts(keys: seq<string>, verdicts: map<string, string>): (r: seq<string>)
    requires forall i | 0 <= i < |keys| :: keys[i] in verdicts
  {
    seq(|keys|, i requires 0 <= i < |keys| => verdicts[keys[i]])
  }

  ghost function AnsweredIn(verdicts: map<string, string>): string -> int {
    (q: string) => if q in verdicts && verdicts[q] == "answered" then 1 else 0
  }

  ghost function AnsweredKeys(keys: seq<string>, n: nat, verdicts: map<string, string>): set<string>
    requires n <= |keys|
  {
    set i | 0 <= i < n && AnsweredIn(verdicts)(keys[i]) == 1 :: keys[i]
  }

  lemma {:induction false} CountIsCardinality(keys: seq<string>, n: nat, verdicts: map<string, string>)
    requires n <= |keys|
    requires forall i, j | 0 <= i < j < |keys| :: keys[i] != keys[j]
    ensures SumTo(keys, n, AnsweredIn(verdicts)) == |AnsweredKeys(keys, n, verdicts)|
  {
    if n > 0 {
      CountIsCardinality(keys, n - 1, verdicts);
      var before, after := AnsweredKeys(keys, n - 1, verdicts), AnsweredKeys(keys, n, verdicts);
      var q := keys[n - 1];
      assert q !in before;
      if AnsweredIn(verdicts)(q) == 1 {
        assert after == before + {q};
      } else {
        assert after == before;
      }
    }
  }

  lemma FoldedCount(events: seq<Json>, keys: seq<string>, verdicts: map<string, string>)
    requires Folded(events, keys, verdicts)
    ensures CountAnswered(Verdicts(keys, verdicts)) == |Answered(events)|
  {
    KeysAreFolded(events, keys, verdicts);
    SumPointwise(Verdicts(keys, verdicts), keys, IsAnswered(), AnsweredIn(verdicts));
    CountIsCardinality(keys, |keys|, verdicts);
    forall q ensures q in Answered(events) <==> q in AnsweredKeys(keys, |keys|, verdicts) {
      AnsweredMeans(events, q);
      if q in Answered(events) {
        assert q in keys;
      }
    }
    assert Answered(events) == AnsweredKeys(keys, |keys|, verdicts);
  }

  lemma KeysAreFolded(events: seq<Json>, keys: seq<string>, verdicts: map<string, string>)
    requires Folded(events, keys, verdicts)
    ensures forall i | 0 <= i < |keys| :: keys[i] in verdicts
  {
    assert forall i | 0 <= i < |keys| :: keys[i] in keys;
  }

  lemma OneMoreEvent(events: seq<Json>, e: Json, q: string)
    ensures LastAbout(events + [e], q) == if QuestionOf(e) == q then Some(e) else LastAbout(events, q)
  {
    assert (events + [e])[..|events|] == events;
  }

  /** A new event about q overwrites q's verdict and leaves every other question alone. */
  lemma FoldStep(events: seq<Json>, e: Json, keys: seq<string>, verdicts: map<string, string>)
    requires Folded(events, keys, verdicts)
    ensures QuestionOf(e) == "" ==> Folded(events + [e], keys, verdicts)
    ensures QuestionOf(e) != "" ==>
              Folded(events + [e], if QuestionOf(e) in verdicts then keys else keys + [QuestionOf(e)],
                     verdicts[QuestionOf(e) := VerdictOf(e)])
  {
    hide LastAbout, QuestionOf, VerdictOf;
    forall q ensures LastAbout(events + [e], q) == if QuestionOf(e) == q then Some(e) else LastAbout(events, q) {
      OneMoreEvent(events, e, q);
    }
  }

  /** loadQuestionOutcomes: one pass in sequence order, the last row of each question wins. */
  method LoadQuestionOutcomes(events: seq<Json>) returns (outcomes: seq<string>)
    ensures CountAnswered(outcomes) == |Answered(events)|
  {
    var keys: seq<string> := [];
    var verdicts: map<string, string> := map[];
    for k := 0 to |events|
      invariant Folded(events[..k], keys, verdicts)
    {
      assert events[..k + 1] == events[..k] + [events[k]];
      FoldStep(events[..k], events[k], keys, verdicts);
      hide Folded, QuestionOf, VerdictOf;
      var q := QuestionOf(events[k]);
      if q != "" {
        if q !in verdicts {
          keys := keys + [q];
        }
        verdicts := verdicts[q := VerdictOf(events[k])];
      }
    }
    assert events[..|events|] == events;
    KeysAreFolded(events, keys, verdicts);
    FoldedCount(events, keys, verdicts);
    outcomes := Verdicts(keys, verdicts);
  }

  /** The decision settlement takes from the event log is the one its final verdicts justify. */
  method DecideFromEvents(planned: int, events: seq<Json>) returns (d: Decision)
    ensures d == Justified(planned, events)
  {
    var outcomes := LoadQuestionOutcomes(events);
    d := EvaluateBillableCompletion(planned, outcomes);
  }

  /** n answers are enough for the plan: at least three, and at least half of the planned questions. */
  predicate Enough(n: int, planned: int) {
    n >= 3 && 2 * n >= planned
  }

  /** An interview is billed exactly when it had a plan and enough of it was answered, and the bar it names is the least that is enough. */
  lemma BilledIffEnough(planned: int, events: seq<Json>)
    ensures var d := Justified(planned, events);
            && (d.billable <==> planned > 0 && Enough(|Answered(events)|, planned))
            && (planned > 0 ==>
                  && d.answeredCount == |Answered(events)|
                  && Enough(d.requiredCount, planned) && forall n: int | Enough(n, planned) :: d.requiredCount <= n)
            && (planned <= 0 ==> d.answeredCount == 0 && d.requiredCount == 0)
  {
    var half := (planned + 1) / 2;
    assert 2 * half >= planned && 2 * (half - 1) < planned;
  }

  /** The payload holds a non-empty string under the key. */
  predicate Holds(payload: Json, key: string) {
    payload.JsonRecord? && key in payload.fields && payload.fields[key].JsonString? && payload.fields[key].text != ""
  }

  /** An event is attributed by its snake-case question id, failing that by its camel-case one, failing both not at all. */
  lemma AttributionReads(payload: Json)
    ensures Holds(payload, "question_id") ==> QuestionOf(payload) == payload.fields["question_id"].text
    ensures !Holds(payload, "question_id") && Holds(payload, "questionId") ==>
              QuestionOf(payload) == payload.fields["questionId"].text
    ensures !Holds(payload, "question_id") && !Holds(payload, "questionId") <==> QuestionOf(payload) == ""
  {
    ReadsTwo(payload, "question_id", "questionId");
  }

  /** And its verdict likewise. */
  lemma VerdictReads(payload: Json)
    ensures Holds(payload, "completion_reason") ==> VerdictOf(payload) == payload.fields["completion_reason"].text
    ensures !Holds(payload, "completion_reason") && Holds(payload, "completionReason") ==>
              VerdictOf(payload) == payload.fields["completionReason"].text
    ensures !Holds(payload, "completion_reason") && !Holds(payload, "completionReason") <==> VerdictOf(payload) == ""
  {
    ReadsTwo(payload, "completion_reason", "completionReason");
  }

  lemma ReadsTwo(payload: Json, first: string, second: string)
    ensures ReadPayloadString(Fields(payload), [first, second]) ==
            if Holds(payload, first) then payload.fields[first].text
            else if Holds(payload, second) then payload.fields[second].text
            else ""
  {
    assert [first, second][1..] == [second] && [second][1..] == [];
    assert ReadPayloadString(Fields(payload), []) == "";
    assert ReadPayloadString(Fields(payload), [second]) == if Holds(payload, second) then payload.fields[second].text else "";
  }

  // ---- what cannot change the decision ----

  lemma {:induction false} LastAboutConcat(a: seq<Json>, b: seq<Json>, q: string)
    ensures LastAbout(a + b, q) == if LastAbout(b, q).Some? then LastAbout(b, q) else LastAbout(a, q)
  {
    if b == [] {
      assert a + b == a;
    } else {
      var n := |b| - 1;
      assert (a + b)[..|a + b| - 1] == a + b[..n];
      LastAboutConcat(a, b[..n], q);
    }
  }

  /** An event that names no question, or whose question has a later event, never changes the decision. */
  lemma SupersededEventsIgnored(a: seq<Json>, e: Json, b: seq<Json>, planned: int)
    requires QuestionOf(e) == "" || LastAbout(b, QuestionOf(e)).Some?
    ensures Answered(a + [e] + b) == Answered(a + b)
    ensures Justified(planned, a + [e] + b) == Justified(planned, a + b)
  {
    forall q ensures q in Answered(a + [e] + b) <==> q in Answered(a + b) {
      AnsweredMeans(a + [e] + b, q);
      AnsweredMeans(a + b, q);
      LastAboutConcat(a + [e], b, q);
      LastAboutConcat(a, [e], q);
      LastAboutConcat(a, b, q);
    }
    assert Answered(a + [e] + b) == Answered(a + b);
  }

  // ---- the product floor ----

  ghost predicate OnPlan(events: seq<Json>, plan: set<string>) {
    forall e | e in events && QuestionOf(e) != "" :: QuestionOf(e) in plan
  }

  lemma SubsetSize<T>(a: set<T>, b: set<T>)
    requires a <= b
    ensures |a| <= |b| && (|a| == |b| ==> a == b)
  {
    assert b == a + (b - a);
    assert |b| == |a| + |b - a|;
  }

  /** Plans of one or two questions never bill, and three questions bill only when all three are answered. */
  lemma ShortPlans(events: seq<Json>, plan: set<string>)
    requires OnPlan(events, plan)
    ensures |plan| <= 2 ==> !Justified(|plan|, events).billable
    ensures |plan| == 3 ==> (Justified(|plan|, events).billable <==> Answered(events) == plan)
  {
    forall q | q in Answered(events) ensures q in plan {
      AnsweredMeans(events, q);
    }
    SubsetSize(Answered(events), plan);
  }
}
