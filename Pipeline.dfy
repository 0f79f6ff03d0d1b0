/** The request handler generate_plan_with_new_results of YKSBot/app.py:
    read the body, load the profile, append the new exam entry, save the
    profile, build the prompt, call the language model, respond. Any
    exception on the way becomes an error response; whatever was saved
    before it stays saved. */
module Pipeline {
  import opened Outcomes
  import opened Json
  import opened Store
  import opened History
  import opened Prompt

  /** What the language-model call gives back: the content of its first
      choice, or an exception. */
  datatype ModelReply = Reply(content: string) | Failed(reason: string)

  /** The HTTP response: the model's text with status 200, or a JSON error
      object with status 500. */
  datatype Response = Plan(body: string) | ServerError(cause: Failure)

  /** The effects of one request that outlive it or leave the process, in
      the order they happen. */
  datatype Effect = Saved(doc: Json) | AskedModel(prompt: string)

  datatype Outcome = Outcome(response: Response, file: StoredFile, effects: seq<Effect>)

  /** One request, as a function of the stored file, the request body
      (None when it is not JSON), today's date, the two library renderings
      and the model. */
  function Handle(file: StoredFile, body: Option<Json>, today: string, r: Renderers,
                  callModel: string -> ModelReply): (o: Outcome)
    ensures |o.effects| <= 2
    ensures o.effects == [] ==> o.file == file && o.response.ServerError?
    ensures o.effects != [] ==> o.effects[0].Saved? && o.file == Holds(o.effects[0].doc)
    ensures o.response.Plan? ==> |o.effects| == 2
    ensures |o.effects| == 2 ==>
      o.effects[1].AskedModel? && BuildPrompt(o.effects[0].doc, r) == Ok(o.effects[1].prompt)
  {
    if body.None? then Outcome(ServerError(BadRequestBody), file, [])
    else match LoadProfile(file)
      case Err(e) => Outcome(ServerError(e), file, [])
      case Ok(doc) =>
        match AppendExam(doc, today, body.value)
        case Err(e) => Outcome(ServerError(e), file, [])
        case Ok(updated) =>
          match BuildPrompt(updated, r)
          case Err(e) => Outcome(ServerError(e), Holds(updated), [Saved(updated)])
          case Ok(prompt) =>
            var effects := [Saved(updated), AskedModel(prompt)];
            match callModel(prompt)
            case Failed(reason) => Outcome(ServerError(ModelFailure(reason)), Holds(updated), effects)
            case Reply(content) => Outcome(Plan(content), Holds(updated), effects)
  }

  /** The handler, step by step, against the profile file. */
  method HandleSubmission(store: ProfileStore, body: Option<Json>, today: string, r: Renderers,
                          callModel: string -> ModelReply)
    returns (response: Response, effects: seq<Effect>)
    modifies store
    ensures Outcome(response, store.file, effects) == Handle(old(store.file), body, today, r, callModel)
  {
    effects := [];
    if body.None? {
      response := ServerError(BadRequestBody);
      return;
    }
    var loaded := store.Load();
    if loaded.Err? {
      response := ServerError(loaded.error);
      return;
    }
    var doc := loaded.value;
    var found := HistoryOf(doc);
    if found.Err? {
      response := ServerError(found.error);
      return;
    }
    var history := new ExamHistory(found.value);
    var entry := history.Record(today, body.value);
    var updated := JObject(Put(doc.fields, "exam_history", JArray(history.entries)));
    assert AppendExam(doc, today, body.value) == Ok(updated);
    store.Save(updated);
    effects := [Saved(updated)];
    var prompt := BuildPrompt(updated, r);
    if prompt.Err? {
      response := ServerError(prompt.error);
      return;
    }
    effects := effects + [AskedModel(prompt.value)];
    var reply := callModel(prompt.value);
    match reply
    case Failed(reason) => response := ServerError(ModelFailure(reason));
    case Reply(content) => response := Plan(content);
  }

  /** The request reaches the save exactly when the body is JSON, the
      profile loads and its exam_history is a list; otherwise it fails with
      the first exception met and leaves the file as it was. */
  lemma FailsBeforeSave(file: StoredFile, body: Option<Json>, today: string, r: Renderers,
                        callModel: string -> ModelReply)
    ensures var o := Handle(file, body, today, r, callModel);
      o.effects == [] <==>
        body.None? || LoadProfile(file).Err? || HistoryOf(LoadProfile(file).value).Err?
    ensures var o := Handle(file, body, today, r, callModel);
      o.effects == [] ==>
        o.file == file &&
        o.response == ServerError(
          if body.None? then BadRequestBody
          else if LoadProfile(file).Err? then LoadProfile(file).error
          else HistoryOf(LoadProfile(file).value).error)
  {
  }

  /** Once the body is JSON and the history is a list, the file ends up
      holding the profile with the new entry last, earlier entries and every
      other member unchanged, whatever the prompt builder and the model do. */
  lemma SubmissionIsRecorded(file: StoredFile, body: Option<Json>, today: string, r: Renderers,
                             callModel: string -> ModelReply)
    requires body.Some? && LoadProfile(file).Ok? && HistoryOf(LoadProfile(file).value).Ok?
    ensures var doc := LoadProfile(file).value;
      var h := HistoryOf(doc).value;
      var o := Handle(file, body, today, r, callModel);
      o.file.Holds? && o.effects[0] == Saved(o.file.doc) &&
      HistoryOf(o.file.doc) == Ok(h + [NewEntry(today, |h|, body.value)]) &&
      (forall k :: k != "exam_history" ==> Get(o.file.doc.fields, k) == Get(doc.fields, k))
  {
  }

  /** The model is asked only after the save, and it is asked with the
      prompt built from exactly the saved profile. */
  lemma SaveBeforeModelCall(file: StoredFile, body: Option<Json>, today: string, r: Renderers,
                            callModel: string -> ModelReply)
    ensures var o := Handle(file, body, today, r, callModel);
      forall i :: 0 <= i < |o.effects| && o.effects[i].AskedModel? ==>
        i == 1 && o.effects[0].Saved? && BuildPrompt(o.effects[0].doc, r) == Ok(o.effects[i].prompt)
  {
  }

  /** The response carries a plan exactly when the model was asked and
      answered, and then it is the model's text as it came. A failed model
      call gives an error response while the file keeps the new entry. */
  lemma ResponseFollowsModel(file: StoredFile, body: Option<Json>, today: string, r: Renderers,
                             callModel: string -> ModelReply)
    ensures var o := Handle(file, body, today, r, callModel);
      o.response.Plan? <==>
        |o.effects| == 2 && callModel(o.effects[1].prompt).Reply?
    ensures var o := Handle(file, body, today, r, callModel);
      o.response.Plan? ==> o.response.body == callModel(o.effects[1].prompt).content
    ensures var o := Handle(file, body, today, r, callModel);
      |o.effects| == 2 && callModel(o.effects[1].prompt).Failed? ==>
        o.response == ServerError(ModelFailure(callModel(o.effects[1].prompt).reason)) &&
        o.file == Holds(o.effects[0].doc)
  {
  }

  /** A stored profile without exam_history makes the handler fail before
      anything is saved, although the prompt builder on its own would read
      the missing history as an empty list. */
  lemma MissingHistoryFailsBeforeSave(doc: Json, body: Json, today: string, r: Renderers,
                                      callModel: string -> ModelReply)
    requires doc.JObject? && Get(doc.fields, "exam_history").None?
    ensures var o := Handle(Holds(doc), Some(body), today, r, callModel);
      o.response == ServerError(MissingKey("exam_history")) && o.file == Holds(doc) && o.effects == []
    ensures BuildPrompt(doc, r) == BuildPrompt(JObject(Put(doc.fields, "exam_history", JArray([]))), r)
  {
    MissingHistoryReadsAsEmpty(doc, r);
  }

  /** One request as the handler receives it. */
  datatype Request = Request(body: Option<Json>, today: string, callModel: string -> ModelReply)

  /** The stored file after the requests, handled one after another. */
  function Replay(file: StoredFile, reqs: seq<Request>, r: Renderers): StoredFile {
    if |reqs| == 0 then file
    else
      var last := reqs[|reqs| - 1];
      Handle(Replay(file, reqs[..|reqs| - 1], r), last.body, last.today, r, last.callModel).file
  }

  /** The (date, results) of the requests whose body was JSON, in order. */
  function Accepted(reqs: seq<Request>): (subs: seq<(string, Json)>)
    ensures |subs| <= |reqs|
  {
    if |reqs| == 0 then []
    else
      var last := reqs[|reqs| - 1];
      Accepted(reqs[..|reqs| - 1]) + (if last.body.Some? then [(last.today, last.body.value)] else [])
  }

  /** From no stored profile, the requests leave a profile with the seed's
      student_info and exactly one entry per accepted request, in order,
      each named after its position. */
  lemma {:induction false} ReplayFromSeed(reqs: seq<Request>, r: Renderers)
    ensures LoadProfile(Replay(Missing, reqs, r)).Ok?
    ensures var doc := LoadProfile(Replay(Missing, reqs, r)).value;
      HistoryOf(doc) == Ok(Entries(Accepted(reqs))) &&
      Get(doc.fields, "student_info") == Get(DefaultProfile().fields, "student_info")
  {
    if |reqs| > 0 {
      var prefix := reqs[..|reqs| - 1];
      var last := reqs[|reqs| - 1];
      ReplayFromSeed(prefix, r);
      var before := Replay(Missing, prefix, r);
      if last.body.Some? {
        SubmissionIsRecorded(before, last.body, last.today, r, last.callModel);
        var subs := Accepted(reqs);
        assert subs == Accepted(prefix) + [(last.today, last.body.value)];
        assert subs[..|subs| - 1] == Accepted(prefix);
        assert "exam_history" != "student_info" by {
          assert "exam_history"[0] != "student_info"[0];
        }
      } else {
        assert Accepted(reqs) == Accepted(prefix);
      }
    }
  }

  /** Sequential naming from the seed: after the requests, entry i (from 0)
      is named "Deneme Sınavı #" followed by i + 1, so no two entries share
      a name, and there is one entry per accepted request. */
  lemma NamesFromSeed(reqs: seq<Request>, r: Renderers)
    ensures LoadProfile(Replay(Missing, reqs, r)).Ok?
    ensures var doc := LoadProfile(Replay(Missing, reqs, r)).value;
      HistoryOf(doc).Ok? && |HistoryOf(doc).value| == |Accepted(reqs)| &&
      WellNumbered(HistoryOf(doc).value) &&
      forall i, j :: 0 <= i < j < |HistoryOf(doc).value| ==>
        EntryName(HistoryOf(doc).value[i]) != EntryName(HistoryOf(doc).value[j])
  {
    ReplayFromSeed(reqs, r);
    var h := Entries(Accepted(reqs));
    EntriesInOrder(Accepted(reqs));
    NamesDistinct(h);
  }
}
