/**
 * How the diagnosis crew is assembled from the triage answer: the answer is split on commas
 * and trimmed, the known specialist keys are kept once each in order of first mention, every
 * kept specialist gets an evaluation task and the chief medical officer gets the synthesis
 * task last. The agents' prompts and the crew's execution are not part of this model.
 */
module MultiAgent {
  import opened PyStrings

  const Cmo: string := "chief_medical_officer"

  /** The keys of `specialist_agents`, in the order they are declared. */
  const SpecialistKeys: seq<string> := [
    Cmo, "internist", "cardiologist", "neurologist", "endocrinologist", "nephrologist",
    "pulmonologist", "gastroenterologist", "rheumatologist", "infectious_disease", "psychiatrist"]

  /** The part of an `Agent` the assembly decides: whose it is and whether it may delegate. */
  datatype AgentSpec = AgentSpec(key: string, allowDelegation: bool)

  /** The agent built for a specialist key: only the chief medical officer may delegate. */
  function SpecialistAgent(key: string): (a: AgentSpec)
    ensures a.key == key
    ensures a.allowDelegation <==> key == Cmo
  {
    AgentSpec(key, key == Cmo)
  }

  /** `[s.strip() for s in triage_result_str.split(',')]`. */
  function ParseTriage(triage: string): (r: seq<string>)
    ensures |r| == |SplitOn(triage, ",")| >= 1
    ensures forall i :: 0 <= i < |r| ==> r[i] == Trim(SplitOn(triage, ",")[i])
  {
    var parts := SplitOn(triage, ",");
    seq(|parts|, i requires 0 <= i < |parts| => Trim(parts[i]))
  }

  /** A triage answer in the prompt's example form, keys separated by bare commas, parses back to those keys. */
  lemma ParseTriageCommaOnly(names: seq<string>)
    requires |names| >= 1 && NoneContains(names, ',')
    requires forall i :: 0 <= i < |names| ==> Trimmed(names[i])
    ensures ParseTriage(Join(names, ",")) == names
  {
    assert "," == [','];
    SplitJoinRoundTrip(names, ',');
    var r := ParseTriage(Join(names, ","));
    forall i | 0 <= i < |names| ensures r[i] == names[i] {
      StripClean(names[i], Whitespace);
    }
  }

  /** An answer with a blank after each comma, keys separated by ", ", parses back to the same keys. */
  lemma ParseTriageRoundTrip(names: seq<string>)
    requires |names| >= 1 && NoneContains(names, ',')
    requires forall i :: 0 <= i < |names| ==> Trimmed(names[i])
    ensures ParseTriage(Join(names, ", ")) == names
  {
    var parts := [names[0]] + PadAll(names[1..], " ");
    JoinAsPadded(names, ", ", ",", " ");
    PaddedSplit(names, parts);
    forall i | 1 <= i < |parts| ensures parts[i] == " " + names[i] {
      assert parts[i] == PadAll(names[1..], " ")[i - 1];
    }
    TrimPieces(Join(names, ", "), parts, names);
  }

  /** Pieces that are the keys, every one after the first behind a blank, trim back to the keys. */
  lemma TrimPieces(answer: string, parts: seq<string>, names: seq<string>)
    requires SplitOn(answer, ",") == parts
    requires |parts| == |names| >= 1 && parts[0] == names[0]
    requires forall i :: 1 <= i < |parts| ==> parts[i] == " " + names[i]
    requires forall i :: 0 <= i < |names| ==> Trimmed(names[i])
    ensures ParseTriage(answer) == names
  {
    var r := ParseTriage(answer);
    forall i | 0 <= i < |names| ensures r[i] == names[i] {
      if i == 0 {
        StripClean(names[0], Whitespace);
      } else {
        TrimAfterBlank(names[i]);
      }
    }
  }

  /** The padded parts contain no comma, so splitting their join on "," gives them back. */
  lemma PaddedSplit(names: seq<string>, parts: seq<string>)
    requires |names| >= 1 && NoneContains(names, ',')
    requires parts == [names[0]] + PadAll(names[1..], " ")
    ensures SplitOn(Join(parts, ","), ",") == parts
  {
    forall i | 1 <= i < |parts| ensures ',' !in parts[i] {
      assert parts[i] == " " + names[i];
    }
    assert "," == [','];
    SplitJoinRoundTrip(parts, ',');
  }

  /**
   * The keys of `{k: ... for k in required if k in specialist_agents}` in the dict's order,
   * continuing from the keys `acc` already inserted: a key already present keeps its place.
   */
  function SelectFrom(required: seq<string>, acc: seq<string>): (r: seq<string>)
    requires forall i, j :: 0 <= i < j < |acc| ==> acc[i] != acc[j]
    ensures |acc| <= |r| && r[..|acc|] == acc
    ensures forall x :: x in acc ==> x in r
    ensures forall i, j :: 0 <= i < j < |r| ==> r[i] != r[j]
    ensures forall x :: x in r ==> x in acc || (x in required && x in SpecialistKeys)
    ensures forall x :: x in required && x in SpecialistKeys ==> x in r
    decreases |required|
  {
    if |required| == 0 then acc
    else if required[0] in SpecialistKeys && required[0] !in acc then SelectFrom(required[1..], acc + [required[0]])
    else SelectFrom(required[1..], acc)
  }

  /** The selected specialist keys. */
  function Selected(required: seq<string>): (r: seq<string>)
    ensures forall i, j :: 0 <= i < j < |r| ==> r[i] != r[j]
    ensures forall x :: x in r <==> x in required && x in SpecialistKeys
  {
    SelectFrom(required, [])
  }

  /** The index of the first occurrence of `x`. */
  function FirstIndex(s: seq<string>, x: string): (k: nat)
    requires x in s
    ensures k < |s| && s[k] == x && x !in s[..k]
  {
    if s[0] == x then 0 else 1 + FirstIndex(s[1..], x)
  }

  /** Selected keys appear in the order of their first mention in the triage answer. */
  lemma {:induction false} SelectFromKeepsFirstMentionOrder(required: seq<string>, acc: seq<string>, i: nat, j: nat)
    requires forall a, b :: 0 <= a < b < |acc| ==> acc[a] != acc[b]
    requires |acc| <= i < j < |SelectFrom(required, acc)|
    ensures SelectFrom(required, acc)[i] in required && SelectFrom(required, acc)[j] in required
    ensures FirstIndex(required, SelectFrom(required, acc)[i]) < FirstIndex(required, SelectFrom(required, acc)[j])
    decreases |required|, 1
  {
    if required[0] in SpecialistKeys && required[0] !in acc {
      OrderWhenInserted(required, acc, i, j);
    } else {
      OrderWhenSkipped(required, acc, i, j);
    }
  }

  /** The first key is new: it takes the next place, and the later places follow from the rest. */
  lemma {:induction false} OrderWhenInserted(required: seq<string>, acc: seq<string>, i: nat, j: nat)
    requires forall a, b :: 0 <= a < b < |acc| ==> acc[a] != acc[b]
    requires |required| > 0 && required[0] in SpecialistKeys && required[0] !in acc
    requires |acc| <= i < j < |SelectFrom(required, acc)|
    ensures SelectFrom(required, acc)[i] in required && SelectFrom(required, acc)[j] in required
    ensures FirstIndex(required, SelectFrom(required, acc)[i]) < FirstIndex(required, SelectFrom(required, acc)[j])
    decreases |required|, 0
  {
    var x := required[0];
    var acc' := acc + [x];
    var r := SelectFrom(required[1..], acc');
    assert r == SelectFrom(required, acc);
    assert r[..|acc'|] == acc';
    assert r[j] !in acc';
    assert r[j] in required[1..];
    if i == |acc| {
      assert r[i] == acc'[i];
      assert FirstIndex(required, r[i]) == 0;
    } else {
      assert r[i] !in acc';
      SelectFromKeepsFirstMentionOrder(required[1..], acc', i, j);
    }
  }

  /** The first key is unknown or already in: the places all come from the rest. */
  lemma {:induction false} OrderWhenSkipped(required: seq<string>, acc: seq<string>, i: nat, j: nat)
    requires forall a, b :: 0 <= a < b < |acc| ==> acc[a] != acc[b]
    requires |required| > 0 && !(required[0] in SpecialistKeys && required[0] !in acc)
    requires |acc| <= i < j < |SelectFrom(required, acc)|
    ensures SelectFrom(required, acc)[i] in required && SelectFrom(required, acc)[j] in required
    ensures FirstIndex(required, SelectFrom(required, acc)[i]) < FirstIndex(required, SelectFrom(required, acc)[j])
    decreases |required|, 0
  {
    var x := required[0];
    var r := SelectFrom(required[1..], acc);
    assert r == SelectFrom(required, acc);
    assert r[..|acc|] == acc;
    assert r[i] !in acc && r[j] !in acc;
    assert r[i] in required[1..] && r[j] in required[1..];
    assert r[i] != x && r[j] != x;
    SelectFromKeepsFirstMentionOrder(required[1..], acc, i, j);
  }

  lemma SelectedKeepsFirstMentionOrder(required: seq<string>, i: nat, j: nat)
    requires i < j < |Selected(required)|
    ensures FirstIndex(required, Selected(required)[i]) < FirstIndex(required, Selected(required)[j])
  {
    SelectFromKeepsFirstMentionOrder(required, [], i, j);
  }

  /** A task of the medical crew: a specialist evaluation, or the final synthesis. */
  datatype TaskKind = Evaluation | Synthesis
  datatype CrewTask = CrewTask(agent: AgentSpec, kind: TaskKind)

  /** The loop of `run_diagnosis`: one evaluation per selected specialist, then the synthesis. */
  method SpecialistTasks(selected: seq<string>) returns (tasks: seq<CrewTask>)
    ensures |tasks| == |selected| + 1
    ensures forall i :: 0 <= i < |selected| ==> tasks[i] == CrewTask(SpecialistAgent(selected[i]), Evaluation)
    ensures tasks[|selected|] == CrewTask(SpecialistAgent(Cmo), Synthesis)
  {
    tasks := [];
    var i := 0;
    while i < |selected|
      invariant 0 <= i <= |selected|
      invariant |tasks| == i
      invariant forall k :: 0 <= k < i ==> tasks[k] == CrewTask(SpecialistAgent(selected[k]), Evaluation)
    {
      tasks := tasks + [CrewTask(SpecialistAgent(selected[i]), Evaluation)];
      i := i + 1;
    }
    tasks := tasks + [CrewTask(SpecialistAgent(Cmo), Synthesis)];
  }

  /** The crew's agents: the selected ones, then the chief medical officer. */
  function CrewAgents(selected: seq<string>): (r: seq<AgentSpec>)
    ensures |r| == |selected| + 1 && r[|selected|] == SpecialistAgent(Cmo)
    ensures forall i :: 0 <= i < |selected| ==> r[i] == SpecialistAgent(selected[i])
  {
    seq(|selected|, i requires 0 <= i < |selected| => SpecialistAgent(selected[i])) + [SpecialistAgent(Cmo)]
  }

  /** The plan `run_diagnosis` hands to the medical crew for a triage answer. */
  method PlanDiagnosis(triage: string) returns (crew: seq<AgentSpec>, tasks: seq<CrewTask>)
    ensures var selected := Selected(ParseTriage(triage));
            && crew == CrewAgents(selected)
            && |tasks| == |selected| + 1
            && (forall i :: 0 <= i < |selected| ==> tasks[i] == CrewTask(SpecialistAgent(selected[i]), Evaluation))
            && tasks[|selected|] == CrewTask(SpecialistAgent(Cmo), Synthesis)
  {
    var selected := Selected(ParseTriage(triage));
    tasks := SpecialistTasks(selected);
    crew := CrewAgents(selected);
  }

  /** In the crew exactly the chief medical officer's entries may delegate, and its synthesis comes last. */
  lemma OnlyCmoDelegates(selected: seq<string>)
    ensures forall a :: a in CrewAgents(selected) ==> (a.allowDelegation <==> a.key == Cmo)
    ensures CrewAgents(selected)[|selected|].allowDelegation
  {
  }

  /**
   * The chief medical officer is itself a specialist key: a triage answer naming it puts it in
   * the crew twice, with an evaluation task of its own before the synthesis.
   */
  lemma CmoNamedTwice(triage: string)
    requires Cmo in ParseTriage(triage)
    ensures var selected := Selected(ParseTriage(triage));
            var crew := CrewAgents(selected);
            exists i :: 0 <= i < |selected| && crew[i] == crew[|selected|] == SpecialistAgent(Cmo)
  {
    var selected := Selected(ParseTriage(triage));
    assert Cmo in SpecialistKeys;
    assert Cmo in selected;
    var i :| 0 <= i < |selected| && selected[i] == Cmo;
    assert CrewAgents(selected)[i] == SpecialistAgent(Cmo);
  }
}
