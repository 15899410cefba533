/** The tester's evaluation record of src/components/Checklist.jsx and the pure
    updaters the checklist hands to its state setter. */
module Checklist {
  import opened Js

  /** One criterion of the fixed checklist. `title` is the source's `label` field,
      renamed because `label` is a reserved word in Dafny. */
  datatype Item = Item(id: string, title: string)

  const EvaluationItems: seq<Item> := [
    Item("informed_derivation", "Informó antes de derivar"),
    Item("asked_zone", "Preguntó zona antes de WhatsApp"),
    Item("no_hallucination", "No inventó servicios"),
    Item("correct_derivation", "Derivó solo cuando correspondía"),
    Item("professional_tone", "Mantuvo tono profesional"),
    Item("no_overexplain", "No sobreexplicó")
  ]

  /** The verdict values the three score buttons set. */
  const Approved: string := "approved"
  const Observed: string := "observed"
  const Failed: string := "failed"

  /** `checks` maps criterion ids to booleans; an id with no entry is unchecked.
      `score` is `null` until a verdict is chosen. */
  datatype Evaluation = Evaluation(checks: map<string, bool>, score: Option<string>, observations: string)

  const EmptyEvaluation: Evaluation := Evaluation(map[], None, "")

  /** `evaluation.checks[id]` read as a condition: absent counts as false. */
  predicate Checked(e: Evaluation, id: string) {
    id in e.checks && e.checks[id]
  }

  /** `toggleCheck(id)`: negates the one entry, writing `true` for an absent one;
      every other entry, the score and the observations stay as they were. */
  function ToggleCheck(e: Evaluation, id: string): (r: Evaluation)
    ensures r.checks.Keys == e.checks.Keys + {id}
    ensures id in r.checks && r.checks[id] == !Checked(e, id)
    ensures id !in e.checks ==> r.checks[id]
    ensures forall k :: k in e.checks && k != id ==> r.checks[k] == e.checks[k]
    ensures r.score == e.score && r.observations == e.observations
  {
    e.(checks := e.checks[id := !Checked(e, id)])
  }

  /** Toggling twice restores whether the criterion is checked, leaving an explicit
      entry behind where there was none. */
  lemma ToggleTwiceRestores(e: Evaluation, id: string)
    ensures var r := ToggleCheck(ToggleCheck(e, id), id);
      && (Checked(r, id) <==> Checked(e, id))
      && r.checks == e.checks[id := Checked(e, id)]
      && r.score == e.score && r.observations == e.observations
  {
  }

  /** Toggling one criterion never changes whether another is checked. */
  lemma ToggleIsLocal(e: Evaluation, id: string, other: string)
    requires other != id
    ensures Checked(ToggleCheck(e, id), other) <==> Checked(e, other)
  {
  }

  /** `setScore(score)`: replaces the verdict only. */
  function SetScore(e: Evaluation, score: Option<string>): (r: Evaluation)
    ensures r.score == score
    ensures r.checks == e.checks && r.observations == e.observations
  {
    e.(score := score)
  }

  /** `setObservations(text)`: replaces the notes only. */
  function SetObservations(e: Evaluation, text: string): (r: Evaluation)
    ensures r.observations == text
    ensures r.checks == e.checks && r.score == e.score
  {
    e.(observations := text)
  }

  const ApprovedClass: string := "bg-emerald-500 border-emerald-600"
  const ObservedClass: string := "bg-amber-500 border-amber-600"
  const FailedClass: string := "bg-red-500 border-red-600"
  const NeutralClass: string := "bg-slate-100 border-slate-300"

  predicate IsVerdict(score: Option<string>) {
    score == Some(Approved) || score == Some(Observed) || score == Some(Failed)
  }

  /** `getScoreColor()`: a class per verdict and the neutral class for anything else. */
  function ScoreColor(score: Option<string>): (r: string)
    ensures r in {ApprovedClass, ObservedClass, FailedClass, NeutralClass}
    ensures !IsVerdict(score) ==> r == NeutralClass
  {
    if score == Some(Approved) then ApprovedClass
    else if score == Some(Observed) then ObservedClass
    else if score == Some(Failed) then FailedClass
    else NeutralClass
  }

  /** Each verdict gets a colour of its own, and every other score, `null` included,
      the neutral one: the colour tells the verdict apart exactly. */
  lemma ScoreColorIdentifiesVerdict(a: Option<string>, b: Option<string>)
    ensures !IsVerdict(a) <==> ScoreColor(a) == NeutralClass
    ensures ScoreColor(a) == ScoreColor(b) <==> a == b || (!IsVerdict(a) && !IsVerdict(b))
  {
    assert ApprovedClass[3] != ObservedClass[3] && ApprovedClass[3] != FailedClass[3];
    assert ObservedClass[3] != FailedClass[3];
    assert ApprovedClass[3] != NeutralClass[3] && ObservedClass[3] != NeutralClass[3];
    assert FailedClass[3] != NeutralClass[3];
  }

  /** No two criteria share an id, so each checkbox toggles its own entry. */
  lemma ItemIdsAreDistinct()
    ensures forall i, j :: 0 <= i < j < |EvaluationItems| ==> EvaluationItems[i].id != EvaluationItems[j].id
  {
    var ids := seq(|EvaluationItems|, i requires 0 <= i < |EvaluationItems| => EvaluationItems[i].id);
    assert ids[0][0] == 'i' && ids[1][0] == 'a' && ids[4][0] == 'p';
    assert ids[2][0] == 'n' && ids[5][0] == 'n' && ids[2][3] != ids[5][3];
    assert ids[3][0] == 'c';
  }
}
