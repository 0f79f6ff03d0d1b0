# YKSBot study-coach endpoint: a verified model of its core

YKSBot is a small web endpoint for a student preparing for YKS, Turkey's university entrance exam. The student submits the net scores of one practice exam. The endpoint appends them to the exam history kept in a local profile file, builds a prompt that embeds the student's goal, weekly hours and full history, and asks a language model for a weekly study plan.

This project models the core of `YKSBot/app.py` in Dafny:

- **Profile store** (`Store.dfy`). The profile file is either missing, unreadable or holds a JSON document. Loading a missing file gives the seed profile: "Ayşe Yılmaz", goal "Bilgisayar Mühendisliği", 20 weekly hours and an empty history. Saving replaces the whole document. The class `ProfileStore` holds the file state.
- **History accumulator** (`History.dfy`). A new entry holds today's date, the name "Deneme Sınavı #" followed by the history length plus one, and the submitted results unchanged. It is appended to the history list in place (class `ExamHistory`). The file also has lemmas on naming, numbering and distinct names.
- **Prompt builder** (`Prompt.dfy`). The reachable template of `create_contextual_prompt` is kept as fixed text. The goal, the weekly hours and the serialised history fill its three placeholders. The file also states which keys the schema example uses.
- **Request pipeline** (`Pipeline.dfy`). The steps run in this order: read body, load, append, save, build prompt, call model, respond. Every exception becomes an error response. Effects are recorded in order, so the proofs can show the save comes before the model call.
- Supporting modules: `Outcomes.dfy` (Option, Result, and the Python exceptions the handler can meet), `Json.dfy` (decoded JSON values; dict lookup and update) and `Decimal.dfy` (Python's `str()` of an integer, with its inverse).

All documents are values of one `Json` datatype, so the shape-dependent failures of the source are modelled rather than excluded. These are a profile that is not a dict, a missing or non-list `exam_history`, and a missing or non-dict `student_info`.

Exam names are unique only in histories built by this handler from the seed profile. A stored file can hold any names, so uniqueness is proved only from the seed (`Pipeline.NamesFromSeed`).

An I/O failure other than a missing file does not escape the handler. Its `except Exception` (app.py:150-152) turns it into an error response (`Pipeline.FailsBeforeSave`).

## Model

| member | source | states |
|---|---|---|
| `Decimal.NatToDecimal` | YKSBot/app.py:126 | the number in an exam name is a canonical decimal numeral (digits only, no leading zero); it starts with '0' only for 0 |
| `Decimal.ReadBack` | YKSBot/app.py:126 | reading the printed numeral back gives the number |
| `Decimal.WriteBack` | YKSBot/app.py:126 | every canonical numeral is the printed form of its value |
| `Decimal.NatToDecimalInjective` | YKSBot/app.py:126 | two numbers print the same exactly when they are equal |
| `Decimal.IntToDecimal` | YKSBot/app.py:48 | `str()` of an integer weekly-hours value: a minus sign exactly when negative, then the magnitude's numeral |
| `Decimal.IntRoundTrip` | YKSBot/app.py:48 | parsing a printed integer gives the integer back |
| `Decimal.IntCanonical` | YKSBot/app.py:48 | every string that parses as an integer is how that integer prints |
| `Json.Put` | YKSBot/app.py:129 | replacing a dict member: the key reads back the new value, every other key reads as before, and an existing key keeps its position |
| `Json.Lookup` | YKSBot/app.py:126 | `doc[key]` succeeds exactly on a dict holding the key; a non-dict raises TypeError, a missing key raises KeyError |
| `Store.DefaultProfile` | YKSBot/app.py:25-32 | the seed profile has student_info then exam_history; name "Ayşe Yılmaz", goal "Bilgisayar Mühendisliği", weekly_hours 20, empty history |
| `Store.LoadProfile` | YKSBot/app.py:18-32 | loading fails exactly when the file is unreadable; a missing file gives the seed profile, and a readable file gives its document unchanged |
| `Store.ProfileStore.Load` | YKSBot/app.py:18-32 | the method returns exactly what `LoadProfile` gives for the current file: the seed profile, the stored document, or an error |
| `Store.ProfileStore.Save` | YKSBot/app.py:34-37 | the file now holds exactly the saved document, and loading it gives that document back |
| `History.ExamNumberOfName` | YKSBot/app.py:126 | the name made from n carries n: reading the number back from the name gives n |
| `History.ExamNameInjective` | YKSBot/app.py:126 | two generated names are equal exactly when their numbers are |
| `History.NewEntry` | YKSBot/app.py:124-128 | the entry has exactly three members: exam_date is today's date, exam_name is the name for count + 1, and results is the submitted value unchanged |
| `History.HistoryOf` | YKSBot/app.py:126-129 | the history can be appended to exactly when the document is a dict whose exam_history is a list; a non-dict gives NotAnObject and a missing key gives KeyError |
| `History.AppendExam` | YKSBot/app.py:124-129 | on success the history is the old one plus the new entry last; member order, length and every other member are unchanged; an unusable history gives that same error |
| `History.Entries` | YKSBot/app.py:124-129 | successive submissions from an empty history give one entry each |
| `History.EntriesInOrder` | YKSBot/app.py:124-129 | entry i is built from submission i with the name for i + 1, so the history is well numbered |
| `History.NamesDistinct` | YKSBot/app.py:126 | in a well-numbered history no two entries share a name |
| `History.ExamHistory.Record` | YKSBot/app.py:124-129 | the appended entry is `NewEntry` for the current length; the list grows by one entry, appended last; earlier entries keep value and position; good numbering is preserved |
| `PromptTemplate.SchemaKeys` | YKSBot/app.py:61-82 | the schema example uses exactly the keys weekly_summary, plan, day, tasks, subject, activity, and no "topic" key |
| `Prompt.Format` | YKSBot/app.py:47-48 | a placeholder filled from `.get`: an absent value or null prints as None, booleans as True/False, an integer as a numeral that parses back to it, a string as itself |
| `Prompt.BuildPrompt` | YKSBot/app.py:39-84 | the prompt is built exactly when the document is a dict with a dict student_info; otherwise NotAnObject, KeyError or AttributeError (WrongType), as the source raises them |
| `Prompt.PromptEmbedsProfile` | YKSBot/app.py:40-51 | the prompt contains the goal, the weekly hours, the whole serialised history and the schema example |
| `Prompt.PromptDependsOnlyOnGoalHoursHistory` | YKSBot/app.py:40-51 | documents that agree on goal, weekly hours and history get the same prompt |
| `Prompt.NameNotEmbedded` | YKSBot/app.py:46-48 | renaming the student does not change the prompt |
| `Prompt.MissingHistoryReadsAsEmpty` | YKSBot/app.py:40 | on its own, the prompt builder reads a missing exam_history as an empty list |
| `Pipeline.Handle` | YKSBot/app.py:115-152 | a request has at most two effects; with none, the file is unchanged and the response is an error; otherwise the first effect is the save and the file holds the saved document; a second effect is always the model call, with the prompt built from the saved document; a plan response means the model was asked |
| `Pipeline.HandleSubmission` | YKSBot/app.py:115-152 | the step-by-step handler produces exactly Handle's response, effects and new file |
| `Pipeline.FailsBeforeSave` | YKSBot/app.py:116-132 | nothing is saved exactly when the body is not JSON, the profile is unreadable, or its history cannot be appended to; the file is then unchanged and the response reports that first failure |
| `Pipeline.SubmissionIsRecorded` | YKSBot/app.py:121-132 | once the history can be appended to, the saved file holds the old history plus the new entry and every other member unchanged, whatever the prompt builder and the model do |
| `Pipeline.SaveBeforeModelCall` | YKSBot/app.py:132-145 | the model is asked only as the second effect, after the save, with the prompt built from the saved document |
| `Pipeline.ResponseFollowsModel` | YKSBot/app.py:138-152 | the response is a plan exactly when the model answered, and then it is the model's text; a failed call gives an error response while the file keeps the new entry |
| `Pipeline.MissingHistoryFailsBeforeSave` | YKSBot/app.py:121-132 | a stored dict without exam_history makes the handler fail with KeyError before any save, though the prompt builder alone would read it as empty |
| `Pipeline.ReplayFromSeed` | YKSBot/app.py:115-132 | from no file, any sequence of requests leaves the seed's student_info and a history of exactly one entry per accepted request, in order |
| `Pipeline.NamesFromSeed` | YKSBot/app.py:118-132 | from no file, entry i is named after i + 1, names are distinct, and there is one entry per accepted request |

Some helper definitions model source expressions directly. Their properties are stated by the members above, so they have no rows:

- `Json.Get` is `dict.get(key)`: the first member with that key, or None.
- `Prompt.HistoryValue` is `student_data.get('exam_history', [])` (YKSBot/app.py:40). See `Prompt.MissingHistoryReadsAsEmpty`.
- `History.ExamName` is the f-string at YKSBot/app.py:126. See `History.ExamNumberOfName` and `History.ExamNameInjective`.
- `PromptTemplate.Fill` is the whole f-string template at YKSBot/app.py:42-83. See `Prompt.PromptEmbedsProfile`, `Prompt.PromptDependsOnlyOnGoalHoursHistory` and `Prompt.NameNotEmbedded`.

## Left out

- Flask routing, CORS, dotenv and the API-key setup (YKSBot/app.py:1-13, 114, 154-155) are framework glue.
- File I/O and JSON text are not modelled. The store holds a decoded document or is marked unreadable. A failing or partial write during the save is not modelled.
- `json.dumps` of the history and Python's `str()` of floats, lists and dicts come from libraries. They are the two functions of `Prompt.Renderers`, passed in as parameters.
- The language-model call (model name, system message, response format) is the parameter `callModel`. It either returns content or fails. A reply whose content is None is not modelled.
- `date.today()` is the parameter `today`, the date's ISO text.
- Exception message texts and the error log line are not modelled. Each exception is a `Failure` case.
- A request body that is not JSON is the `None` body. Any JSON body is stored as it came, whether or not it is a mapping of scores.
- Floats are kept as their numerals. Nothing computes with them.
- Objects with repeated keys: `json.load` keeps the last value, while `Json.Get` returns the first. Decoded dicts have distinct keys, so this case is not covered.
- `PromptTemplate.SchemaText` is defined as the layout of `SchemaExample`, not as a character literal. No proof checks it character for character against lines 65-82: the verifier cannot compare strings of this length. `Quote` does no escaping, because the example's strings need none.
- The second template after the first `return` in `create_contextual_prompt` (YKSBot/app.py:85-112) is unreachable and is not modelled.
- Concurrent requests racing on the profile file are out of scope.
- YKSBot/test_ai_with_memory.py is a manual script: file I/O, a network call and printing, with one hard-coded entry. YKSBot/script.js is browser UI: DOM updates, fetch and float parsing. Neither is part of this model.
