/** The profile store of YKSBot/app.py: one JSON document in a file,
    read whole by load_student_profile and rewritten whole by
    save_student_profile, with a fixed seed profile when no file exists. */
module Store {
  import opened Outcomes
  import opened Json

  const DefaultName := "Ayşe Yılmaz"
  const DefaultGoal := "Bilgisayar Mühendisliği"
  const DefaultWeeklyHours := 20

  /** The seed profile returned when the profile file does not exist. */
  function DefaultProfile(): (d: Json)
    ensures d.JObject? && |d.fields| == 2
    ensures d.fields[0].0 == "student_info" && d.fields[1].0 == "exam_history"
    ensures Get(d.fields, "exam_history") == Some(JArray([]))
    ensures Get(d.fields, "student_info").Some?
    ensures var info := Get(d.fields, "student_info").value;
      info.JObject? &&
      Get(info.fields, "name") == Some(JString(DefaultName)) &&
      Get(info.fields, "goal") == Some(JString(DefaultGoal)) &&
      Get(info.fields, "weekly_hours") == Some(JInt(DefaultWeeklyHours))
  {
    var info := [
      ("name", JString(DefaultName)),
      ("goal", JString(DefaultGoal)),
      ("weekly_hours", JInt(DefaultWeeklyHours))];
    assert Get(info[2..], "weekly_hours") == Some(JInt(DefaultWeeklyHours));
    assert info[1..][1..] == info[2..];
    assert "name"[0] != "weekly_hours"[0] && "goal"[0] != "weekly_hours"[0];
    JObject([("student_info", JObject(info)), ("exam_history", JArray([]))])
  }

  /** What the profile file holds: nothing, text json.load rejects (or an
      I/O error other than a missing file), or a decoded document. */
  datatype StoredFile = Missing | Unreadable | Holds(doc: Json)

  /** load_student_profile: a missing file is the bootstrap path and yields
      the seed profile; an unreadable file raises; otherwise the stored
      document comes back as it is, whatever its shape. */
  function LoadProfile(file: StoredFile): (r: Result<Json>)
    ensures r.Err? <==> file.Unreadable?
    ensures r.Err? ==> r.error == StoreUnreadable
    ensures file.Missing? ==> r == Ok(DefaultProfile())
    ensures file.Holds? ==> r == Ok(file.doc)
  {
    match file
    case Missing => Ok(DefaultProfile())
    case Unreadable => Err(StoreUnreadable)
    case Holds(doc) => Ok(doc)
  }

  /** The profile file. */
  class ProfileStore {
    var file: StoredFile

    constructor (file: StoredFile)
      ensures this.file == file
    {
      this.file := file;
    }

    /** load_student_profile. */
    method Load() returns (r: Result<Json>)
      ensures r == LoadProfile(file)
      ensures file.Missing? ==> r == Ok(DefaultProfile())
      ensures file.Holds? ==> r == Ok(file.doc)
      ensures file.Unreadable? ==> r == Err(StoreUnreadable)
    {
      match file
      case Missing => r := Ok(DefaultProfile());
      case Unreadable => r := Err(StoreUnreadable);
      case Holds(doc) => r := Ok(doc);
    }

    /** save_student_profile: replaces the whole document. */
    method Save(doc: Json)
      modifies this
      ensures file == Holds(doc)
      ensures LoadProfile(file) == Ok(doc)
    {
      file := Holds(doc);
    }
  }
}
