/** The history accumulator of YKSBot/app.py (generate_plan_with_new_results,
    steps 3 and 4 of its body): a new exam entry named after the current
    history length, appended to the profile's exam_history list. */
module History {
  import opened Outcomes
  import opened Json
  import Decimal

  const ExamNamePrefix := "Deneme Sınavı #"

  /** f"Deneme Sınavı #{n}". */
  function ExamName(n: nat): string {
    ExamNamePrefix + Decimal.NatToDecimal(n)
  }

  /** The number an exam name carries, if it has the generated form. */
  function ExamNumber(name: string): Option<nat> {
    var p := |ExamNamePrefix|;
    if |name| > p && name[..p] == ExamNamePrefix && Decimal.IsCanonical(name[p..])
    then Some(Decimal.DecimalValue(name[p..]))
    else None
  }

  /** A generated name carries the number it was made from ... */
  lemma ExamNumberOfName(n: nat)
    ensures ExamNumber(ExamName(n)) == Some(n)
  {
    var name := ExamName(n);
    var p := |ExamNamePrefix|;
    assert name[..p] == ExamNamePrefix && name[p..] == Decimal.NatToDecimal(n);
    Decimal.ReadBack(n);
  }

  /** ... so two generated names are equal exactly when their numbers are. */
  lemma ExamNameInjective(a: nat, b: nat)
    ensures ExamName(a) == ExamName(b) <==> a == b
  {
    if ExamName(a) == ExamName(b) {
      ExamNumberOfName(a);
      ExamNumberOfName(b);
    }
  }

  /** The entry built for a history that already holds count entries. */
  function NewEntry(today: string, count: nat, results: Json): (e: Json)
    ensures e.JObject? && |e.fields| == 3
    ensures Get(e.fields, "exam_date") == Some(JString(today))
    ensures Get(e.fields, "exam_name") == Some(JString(ExamName(count + 1)))
    ensures Get(e.fields, "results") == Some(results)
  {
    var fields := [
      ("exam_date", JString(today)),
      ("exam_name", JString(ExamName(count + 1))),
      ("results", results)];
    assert Get(fields[2..], "results") == Some(results);
    assert fields[1..][1..] == fields[2..];
    assert "exam_date"[0] != "results"[0] && "exam_name"[0] != "results"[0];
    JObject(fields)
  }

  /** The exam_name of an entry, when it is a string member of a dict. */
  function EntryName(e: Json): Option<string> {
    if e.JObject? && Get(e.fields, "exam_name").Some? && Get(e.fields, "exam_name").value.JString?
    then Some(Get(e.fields, "exam_name").value.s)
    else None
  }

  /** `student_profile['exam_history']`, when it is a list that len() and
      .append accept; otherwise the exception the handler meets first. */
  function HistoryOf(doc: Json): (r: Result<seq<Json>>)
    ensures r.Ok? <==> doc.JObject? && Get(doc.fields, "exam_history").Some?
                       && Get(doc.fields, "exam_history").value.JArray?
    ensures r.Ok? ==> Get(doc.fields, "exam_history") == Some(JArray(r.value))
    ensures !doc.JObject? ==> r == Err(NotAnObject)
    ensures doc.JObject? && Get(doc.fields, "exam_history").None? ==> r == Err(MissingKey("exam_history"))
  {
    match Lookup(doc, "exam_history")
    case Err(e) => Err(e)
    case Ok(h) => if h.JArray? then Ok(h.items) else Err(WrongType("exam_history"))
  }

  /** The whole document after the new entry is appended to its history
      list (the dict holds that list by reference, so the document changes
      with it). Nothing is validated: the results go in as they came. */
  function AppendExam(doc: Json, today: string, results: Json): (r: Result<Json>)
    ensures HistoryOf(doc).Err? ==> r == Err(HistoryOf(doc).error)
    ensures HistoryOf(doc).Ok? ==>
              r.Ok? &&
              HistoryOf(r.value) == Ok(HistoryOf(doc).value + [NewEntry(today, |HistoryOf(doc).value|, results)])
    ensures r.Ok? ==>
              r.value.JObject? && |r.value.fields| == |doc.fields| &&
              (forall i :: 0 <= i < |doc.fields| ==> r.value.fields[i].0 == doc.fields[i].0) &&
              (forall k :: k != "exam_history" ==> Get(r.value.fields, k) == Get(doc.fields, k))
  {
    match HistoryOf(doc)
    case Err(e) => Err(e)
    case Ok(h) =>
      var entry := NewEntry(today, |h|, results);
      Ok(JObject(Put(doc.fields, "exam_history", JArray(h + [entry]))))
  }

  /** Every entry is named after its 1-based position. */
  ghost predicate WellNumbered(h: seq<Json>) {
    forall i :: 0 <= i < |h| ==> EntryName(h[i]) == Some(ExamName(i + 1))
  }

  /** The entries that successive submissions (date, results) produce from
      an empty history. */
  function Entries(subs: seq<(string, Json)>): (h: seq<Json>)
    ensures |h| == |subs|
  {
    if |subs| == 0 then []
    else
      var last := subs[|subs| - 1];
      Entries(subs[..|subs| - 1]) + [NewEntry(last.0, |subs| - 1, last.1)]
  }

  /** Submission i (from 0) becomes entry i: its date, its results
      unchanged, and the name "Deneme Sınavı #" followed by i + 1. */
  lemma {:induction false} EntriesInOrder(subs: seq<(string, Json)>)
    ensures forall i :: 0 <= i < |subs| ==> Entries(subs)[i] == NewEntry(subs[i].0, i, subs[i].1)
    ensures WellNumbered(Entries(subs))
  {
    if |subs| > 0 {
      EntriesInOrder(subs[..|subs| - 1]);
    }
  }

  /** In a well-numbered history no two entries share a name. */
  lemma NamesDistinct(h: seq<Json>)
    requires WellNumbered(h)
    ensures forall i, j :: 0 <= i < j < |h| ==> EntryName(h[i]) != EntryName(h[j])
  {
    forall i, j | 0 <= i < j < |h|
      ensures EntryName(h[i]) != EntryName(h[j])
    {
      ExamNameInjective(i + 1, j + 1);
    }
  }

  /** The exam_history list object of the loaded profile. */
  class ExamHistory {
    var entries: seq<Json>

    constructor (entries: seq<Json>)
      ensures this.entries == entries
    {
      this.entries := entries;
    }

    /** Builds the entry for this submission and appends it in place;
        earlier entries keep their values and positions. */
    method Record(today: string, results: Json) returns (entry: Json)
      modifies this
      ensures entry == NewEntry(today, |old(entries)|, results)
      ensures entries == old(entries) + [entry]
      ensures |entries| == |old(entries)| + 1 && entries[|entries| - 1] == entry
      ensures forall i :: 0 <= i < |old(entries)| ==> entries[i] == old(entries)[i]
      ensures old(WellNumbered(entries)) ==> WellNumbered(entries)
    {
      entry := NewEntry(today, |entries|, results);
      entries := entries + [entry];
    }
  }
}
