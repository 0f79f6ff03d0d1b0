/** The fixed text of the prompt template in create_contextual_prompt
    (YKSBot/app.py, the reachable template only) and its output-schema
    example. */
module PromptTemplate {
  import opened Json
  import Decimal

  // The template's fixed text, between and around its three placeholders,
  // with the indentation the template literal carries.
  const Intro := @"
    You are ""YKS Koçu,"" an expert AI study coach for Turkey's university exam.
    Your output MUST be a valid JSON object.
    
    **Student Profile:**
    - Target Major: "
  const HoursLabel := "\n    - Weekly Hours: "
  const HistoryLabel := "\n    \n    **Student's Full Exam History (Net Scores):**\n    "
  const Rules := @"
    
    **Your Task and Rules:**
    1.  Analyze the student's progress by comparing their most recent exam to previous ones. Identify subjects where they improved and subjects where they declined or stagnated.
    2.  Write a brief, encouraging summary in the ""weekly_summary"" field based on this analysis.
    3.  Create a 7-day study plan focused on the subjects the student needs to improve in.
    4.  **VERY IMPORTANT:** The student has NOT provided specific topics they are weak in. Therefore, you **MUST NOT** mention specific topics like 'Vektörler', 'Problemler', or 'Paragraf'. 
    5.  Instead, create general, action-oriented tasks. For example: ""AYT Fizik dersinden 2 saat boyunca genel soru çözümü yap."", ""TYT Türkçe dersinden 40 soru çöz."", or ""Bu hafta işlenen konuları tekrar et.""
    6.  The 'tasks' array must contain OBJECTS.

    **--- MANDATORY JSON OUTPUT STRUCTURE ---**
    You must follow this structure exactly. Use these English keys: ""weekly_summary"", ""plan"", ""day"", ""tasks"", ""subject"", ""activity"".
    **DO NOT include a ""topic"" key.**

    "
  const Closing := "\n    "

  /** The output-schema example of the template: one weekly summary and a
      plan of one day with two tasks. */
  const SchemaExample: Json := JObject([
    ("weekly_summary", JString("Your analysis and motivational summary here.")),
    ("plan", JArray([ExampleDay]))])

  const ExampleDay: Json := JObject([
    ("day", JString("Pazartesi")),
    ("tasks", JArray([ExampleTask1, ExampleTask2]))])

  const ExampleTask1: Json := JObject([
    ("subject", JString("AYT Fizik")),
    ("activity", JString("Genel konu tekrarı yap ve 25 soru çöz."))])

  const ExampleTask2: Json := JObject([
    ("subject", JString("TYT Matematik")),
    ("activity", JString("Genel soru bankasından 40 soru çöz."))])

  function Spaces(n: nat): (s: string)
    ensures |s| == n && forall i :: 0 <= i < n ==> s[i] == ' '
  {
    if n == 0 then "" else Spaces(n - 1) + " "
  }

  /** A JSON string literal, for text that needs no escaping. */
  function Quote(s: string): string {
    "\"" + s + "\""
  }

  /** A value laid out the way json.dumps(..., indent=2) lays it out, with
      the closing bracket at column indent. */
  function Pretty(j: Json, indent: nat): string
    decreases j, 1
  {
    match j
    case JNull => "null"
    case JBool(b) => if b then "true" else "false"
    case JInt(i) => Decimal.IntToDecimal(i)
    case JFloat(literal) => literal
    case JString(s) => Quote(s)
    case JArray(items) =>
      if |items| == 0 then "[]" else "[\n" + PrettyItems(j, 0, indent + 2) + "\n" + Spaces(indent) + "]"
    case JObject(fields) =>
      if |fields| == 0 then "{}" else "{\n" + PrettyMembers(j, 0, indent + 2) + "\n" + Spaces(indent) + "}"
  }

  function PrettyItems(j: Json, from: nat, indent: nat): string
    requires j.JArray? && from <= |j.items|
    decreases j, 0, |j.items| - from
  {
    if from == |j.items| then ""
    else
      Spaces(indent) + Pretty(j.items[from], indent)
      + (if from + 1 < |j.items| then ",\n" else "")
      + PrettyItems(j, from + 1, indent)
  }

  function PrettyMembers(j: Json, from: nat, indent: nat): string
    requires j.JObject? && from <= |j.fields|
    decreases j, 0, |j.fields| - from
  {
    if from == |j.fields| then ""
    else
      Spaces(indent) + Quote(j.fields[from].0) + ": " + Pretty(j.fields[from].1, indent)
      + (if from + 1 < |j.fields| then ",\n" else "")
      + PrettyMembers(j, from + 1, indent)
  }

  /** The layout of the schema example in the template. */
  const SchemaText: string := Pretty(SchemaExample, 4)

  /** Every member name used anywhere inside a value. */
  function Keys(j: Json): set<string>
    decreases j, 1
  {
    match j
    case JArray(items) => KeysOfItems(j, 0)
    case JObject(fields) => KeysOfMembers(j, 0)
    case _ => {}
  }

  function KeysOfItems(j: Json, from: nat): set<string>
    requires j.JArray? && from <= |j.items|
    decreases j, 0, |j.items| - from
  {
    if from == |j.items| then {} else Keys(j.items[from]) + KeysOfItems(j, from + 1)
  }

  function KeysOfMembers(j: Json, from: nat): set<string>
    requires j.JObject? && from <= |j.fields|
    decreases j, 0, |j.fields| - from
  {
    if from == |j.fields| then {}
    else {j.fields[from].0} + Keys(j.fields[from].1) + KeysOfMembers(j, from + 1)
  }

  lemma KeysOfPair(a: string, x: Json, b: string, y: Json)
    ensures Keys(JObject([(a, x), (b, y)])) == {a, b} + Keys(x) + Keys(y)
  {
    var j := JObject([(a, x), (b, y)]);
    assert KeysOfMembers(j, 1) == {b} + Keys(y) + KeysOfMembers(j, 2);
    assert KeysOfMembers(j, 2) == {};
  }

  lemma KeysOfList(x: Json, y: Json)
    ensures Keys(JArray([x])) == Keys(x)
    ensures Keys(JArray([x, y])) == Keys(x) + Keys(y)
  {
    assert KeysOfItems(JArray([x]), 1) == {};
    var j := JArray([x, y]);
    assert KeysOfItems(j, 1) == Keys(y) + KeysOfItems(j, 2);
    assert KeysOfItems(j, 2) == {};
  }

  /** The schema example names exactly the six keys the template's rules
      list, and no "topic" key. */
  lemma SchemaKeys()
    ensures Keys(SchemaExample) == {"weekly_summary", "plan", "day", "tasks", "subject", "activity"}
    ensures "topic" !in Keys(SchemaExample)
  {
    KeysOfPair("subject", JString("AYT Fizik"), "activity", JString("Genel konu tekrarı yap ve 25 soru çöz."));
    KeysOfPair("subject", JString("TYT Matematik"), "activity", JString("Genel soru bankasından 40 soru çöz."));
    KeysOfList(ExampleTask1, ExampleTask2);
    KeysOfPair("day", JString("Pazartesi"), "tasks", JArray([ExampleTask1, ExampleTask2]));
    KeysOfList(ExampleDay, ExampleDay);
    KeysOfPair("weekly_summary", JString("Your analysis and motivational summary here."), "plan", JArray([ExampleDay]));
  }

  /** The template with its three placeholders filled. */
  function Fill(goal: string, hours: string, history: string): string {
    Intro + goal + HoursLabel + hours + HistoryLabel + history + Rules + SchemaText + Closing
  }
}

/** The prompt builder of YKSBot/app.py (create_contextual_prompt): the
    template with the student's goal, weekly hours and serialised exam
    history put in its three places. */
module Prompt {
  import opened Outcomes
  import opened Json
  import Decimal
  import opened PromptTemplate

  /** The two library renderings the prompt relies on, left open: the text
      json.dumps(value, indent=2, ensure_ascii=False) gives, and Python's
      str() of a float, list or dict found in a profile field. */
  datatype Renderers = Renderers(dumps: Json -> string, str: Json -> string)

  /** f"{v}" of a value read with dict.get: an absent value and null both
      print as None, booleans as True/False, integers in decimal. */
  function Format(v: Option<Json>, str: Json -> string): (s: string)
    ensures v.None? || v == Some(JNull) ==> s == "None"
    ensures v.Some? && v.value.JBool? ==> s == (if v.value.b then "True" else "False")
    ensures v.Some? && v.value.JInt? ==> Decimal.ParseInt(s) == Some(v.value.i)
    ensures v.Some? && v.value.JString? ==> s == v.value.s
  {
    match v
    case None => "None"
    case Some(JNull) => "None"
    case Some(JBool(b)) => if b then "True" else "False"
    case Some(JInt(i)) => Decimal.IntRoundTrip(i); Decimal.IntToDecimal(i)
    case Some(JString(t)) => t
    case Some(other) => str(other)
  }

  /** student_data.get('exam_history', []). */
  function HistoryValue(fields: seq<(string, Json)>): Json {
    match Get(fields, "exam_history")
    case None => JArray([])
    case Some(h) => h
  }

  predicate HasInfo(doc: Json) {
    doc.JObject? && Get(doc.fields, "student_info").Some? && Get(doc.fields, "student_info").value.JObject?
  }

  /** create_contextual_prompt. It fails on a document that is not a dict,
      on a missing student_info (KeyError) and on a student_info that is not
      a dict (AttributeError); a missing goal or weekly_hours prints None. */
  function BuildPrompt(doc: Json, r: Renderers): (p: Result<string>)
    ensures p.Ok? <==> HasInfo(doc)
    ensures !doc.JObject? ==> p == Err(NotAnObject)
    ensures doc.JObject? && Get(doc.fields, "student_info").None? ==> p == Err(MissingKey("student_info"))
    ensures doc.JObject? && Get(doc.fields, "student_info").Some? && !HasInfo(doc) ==>
              p == Err(WrongType("student_info"))
  {
    if !doc.JObject? then Err(NotAnObject)
    else
      var historyText := r.dumps(HistoryValue(doc.fields));
      match Lookup(doc, "student_info")
      case Err(e) => Err(e)
      case Ok(info) =>
        if !info.JObject? then Err(WrongType("student_info"))
        else
          var goal := Format(Get(info.fields, "goal"), r.str);
          var hours := Format(Get(info.fields, "weekly_hours"), r.str);
          Ok(Fill(goal, hours, historyText))
  }

  /** The student's goal as the prompt prints it. */
  function GoalText(doc: Json, r: Renderers): string
    requires HasInfo(doc)
  {
    Format(Get(Get(doc.fields, "student_info").value.fields, "goal"), r.str)
  }

  /** The weekly hours as the prompt prints it. */
  function HoursText(doc: Json, r: Renderers): string
    requires HasInfo(doc)
  {
    Format(Get(Get(doc.fields, "student_info").value.fields, "weekly_hours"), r.str)
  }

  predicate OccursAt(text: string, part: string, i: nat) {
    i + |part| <= |text| && text[i..i + |part|] == part
  }

  ghost predicate Contains(text: string, part: string) {
    exists i: nat :: OccursAt(text, part, i)
  }

  lemma ContainsSuffix(a: string, b: string)
    ensures Contains(a + b, b)
  {
    assert OccursAt(a + b, b, |a|);
  }

  lemma ContainsExtended(x: string, part: string, c: string)
    requires Contains(x, part)
    ensures Contains(x + c, part)
  {
    var i: nat :| OccursAt(x, part, i);
    assert (x + c)[i..i + |part|] == x[i..i + |part|];
    assert OccursAt(x + c, part, i);
  }

  /** The prompt holds the goal, the weekly hours, the serialised history
      whole (every entry, none cut off) and the schema example. */
  lemma PromptEmbedsProfile(doc: Json, r: Renderers)
    requires HasInfo(doc)
    ensures BuildPrompt(doc, r).Ok?
    ensures Contains(BuildPrompt(doc, r).value, GoalText(doc, r))
    ensures Contains(BuildPrompt(doc, r).value, HoursText(doc, r))
    ensures Contains(BuildPrompt(doc, r).value, r.dumps(HistoryValue(doc.fields)))
    ensures Contains(BuildPrompt(doc, r).value, SchemaText)
  {
    var goal := GoalText(doc, r);
    var hours := HoursText(doc, r);
    var history := r.dumps(HistoryValue(doc.fields));
    var s1 := Intro + goal;
    var s2 := s1 + HoursLabel;
    var s3 := s2 + hours;
    var s4 := s3 + HistoryLabel;
    var s5 := s4 + history;
    var s6 := s5 + Rules;
    var s7 := s6 + SchemaText;
    var p := s7 + Closing;
    assert BuildPrompt(doc, r) == Ok(p);
    ContainsSuffix(Intro, goal);
    ContainsExtended(s1, goal, HoursLabel);
    ContainsExtended(s2, goal, hours);
    ContainsExtended(s3, goal, HistoryLabel);
    ContainsExtended(s4, goal, history);
    ContainsExtended(s5, goal, Rules);
    ContainsExtended(s6, goal, SchemaText);
    ContainsExtended(s7, goal, Closing);
    ContainsSuffix(s2, hours);
    ContainsExtended(s3, hours, HistoryLabel);
    ContainsExtended(s4, hours, history);
    ContainsExtended(s5, hours, Rules);
    ContainsExtended(s6, hours, SchemaText);
    ContainsExtended(s7, hours, Closing);
    ContainsSuffix(s4, history);
    ContainsExtended(s5, history, Rules);
    ContainsExtended(s6, history, SchemaText);
    ContainsExtended(s7, history, Closing);
    ContainsSuffix(s6, SchemaText);
    ContainsExtended(s7, SchemaText, Closing);
  }

  /** Two profiles that agree on goal, weekly hours and history get the
      same prompt: nothing else in the document reaches it. */
  lemma PromptDependsOnlyOnGoalHoursHistory(d1: Json, d2: Json, r: Renderers)
    requires HasInfo(d1) && HasInfo(d2)
    requires GoalText(d1, r) == GoalText(d2, r) && HoursText(d1, r) == HoursText(d2, r)
    requires HistoryValue(d1.fields) == HistoryValue(d2.fields)
    ensures BuildPrompt(d1, r) == BuildPrompt(d2, r)
  {
  }

  lemma KeyNamesDiffer()
    ensures "goal" != "name" && "weekly_hours" != "name" && "exam_history" != "student_info"
  {
    assert "goal"[0] != "name"[0] && "weekly_hours"[0] != "name"[0];
    assert "exam_history"[0] != "student_info"[0];
  }

  /** The document with the student's name replaced. */
  function Renamed(doc: Json, name: Json): Json
    requires HasInfo(doc)
  {
    var info := Get(doc.fields, "student_info").value;
    JObject(Put(doc.fields, "student_info", JObject(Put(info.fields, "name", name))))
  }

  lemma RenamedKeepsInputs(doc: Json, name: Json)
    requires HasInfo(doc)
    ensures HasInfo(Renamed(doc, name))
    ensures var info := Get(doc.fields, "student_info").value;
      var info' := Get(Renamed(doc, name).fields, "student_info").value;
      Get(info'.fields, "goal") == Get(info.fields, "goal") &&
      Get(info'.fields, "weekly_hours") == Get(info.fields, "weekly_hours")
    ensures HistoryValue(Renamed(doc, name).fields) == HistoryValue(doc.fields)
  {
    KeyNamesDiffer();
    var info := Get(doc.fields, "student_info").value;
    var info' := JObject(Put(info.fields, "name", name));
    assert Get(Renamed(doc, name).fields, "student_info") == Some(info');
    assert Get(info'.fields, "goal") == Get(info.fields, "goal");
    assert Get(info'.fields, "weekly_hours") == Get(info.fields, "weekly_hours");
  }

  /** The student's name does not reach the prompt: renaming the student
      leaves it unchanged. */
  lemma NameNotEmbedded(doc: Json, name: Json, r: Renderers)
    requires HasInfo(doc)
    ensures BuildPrompt(Renamed(doc, name), r) == BuildPrompt(doc, r)
  {
    RenamedKeepsInputs(doc, name);
    PromptDependsOnlyOnGoalHoursHistory(Renamed(doc, name), doc, r);
  }

  /** The prompt builder alone reads a missing history as an empty list. */
  lemma MissingHistoryReadsAsEmpty(doc: Json, r: Renderers)
    requires doc.JObject? && Get(doc.fields, "exam_history").None?
    ensures BuildPrompt(doc, r) == BuildPrompt(JObject(Put(doc.fields, "exam_history", JArray([]))), r)
  {
    var doc' := JObject(Put(doc.fields, "exam_history", JArray([])));
    assert "exam_history" != "student_info" by {
      assert "exam_history"[0] != "student_info"[0];
    }
    assert Get(doc'.fields, "student_info") == Get(doc.fields, "student_info");
    if HasInfo(doc) {
      assert HasInfo(doc');
      PromptDependsOnlyOnGoalHoursHistory(doc, doc', r);
    }
  }
}
