/** One poll of `GET <api_url>/api/ps` as a pure step: `get_running_models` takes
    the previous `last_status` and the outcome of the request, and yields the status
    text shown in the tray, the new `last_status` and the notification fired, if any. */
module Poller {
  import opened Wrappers
  import opened Json

  const NotRunning := "Ollama Not Running"
  const NoModel := "No Model Running"
  /** Notification texts for the two fixed statuses. */
  const ServiceStopped := "Ollama Service Stopped"
  const ModelStopped := "Model Stopped"

  /** `details` of a model entry: an object that may lack `parameter_size`, or a
      JSON value that cannot be indexed by a string key. */
  datatype Details = Details(parameterSize: Option<Value>) | DetailsNotObject

  /** An element of `models`: an object whose `name` and `details` may be missing,
      or a JSON value that cannot be indexed by a string key. */
  datatype Entry = Entry(name: Option<Value>, details: Option<Details>) | EntryNotObject

  /** The `models` member of the reply: absent (read as `[]`), a list, or some other
      JSON value, which Python only tests for truthiness before indexing it. */
  datatype Models = ModelsAbsent | ModelsList(entries: seq<Entry>) | ModelsOther(truthy: bool)

  /** The decoded reply body: a JSON object, any other JSON value, or text that is
      not JSON at all. */
  datatype Body = Object(models: Models) | NotObject | NotJson

  /** How the request ended: a response with a status code and a body, or one of
      the exceptions the code distinguishes. */
  datatype Outcome = Response(code: int, body: Body) | Timeout | ConnectError | Unexpected

  /** The result of one call of `get_running_models`. */
  datatype Tick = Tick(display: string, last: Option<string>, notify: Option<string>)

  /** The status text of a running model: `f"{name} ({parameter_size})"`. */
  function ModelInfo(name: Value, size: Value): string {
    PyStr(name) + " (" + PyStr(size) + ")"
  }

  /** Python's truthiness of `data.get('models', [])`. */
  predicate Truthy(m: Models) {
    match m
    case ModelsAbsent => false
    case ModelsList(es) => |es| > 0
    case ModelsOther(t) => t
  }

  /** `model['name']` and `model['details']['parameter_size']` of one entry, or
      `None` where one of the lookups raises. */
  function EntryInfo(e: Entry): Option<string> {
    match e
    case EntryNotObject => None
    case Entry(name, details) =>
      match details
      case Some(Details(Some(size))) =>
        if name.Some? then Some(ModelInfo(name.value, size)) else None
      case _ => None
  }

  /** The tracked branches: the status is remembered and, when it differs from the
      remembered one, announced with `note`. */
  function Track(last: Option<string>, status: string, note: string): Tick {
    if last != Some(status) then Tick(status, Some(status), Some(note))
    else Tick(status, last, None)
  }

  /** The silent branches: "Ollama Not Running" without touching `last_status`. */
  function Silent(last: Option<string>): Tick {
    Tick(NotRunning, last, None)
  }

  /** The texts `get_running_models` can return. */
  predicate IsStatusText(s: string) {
    s == NotRunning || s == NoModel || (|s| > 0 && s[|s| - 1] == ')')
  }

  /** The notification announcing a change to status `s`. */
  function NoteFor(s: string): string {
    if s == NotRunning then ServiceStopped
    else if s == NoModel then ModelStopped
    else s
  }

  /** `get_running_models` as a step. Only the branches of a 200 reply that reach a
      `return` normally, and a connection error, record the status and notify; a
      non-200 code, a timeout and any other exception answer "Ollama Not Running"
      silently and leave `last_status` as it was. */
  function Step(last: Option<string>, o: Outcome): (t: Tick)
    ensures IsStatusText(t.display)
    ensures t.last == last || t.last == Some(t.display)
    ensures t.notify.Some? <==> t.last != last
    ensures t.notify.Some? ==> t.notify.value == NoteFor(t.display)
  {
    match o
    case Response(code, body) =>
      if code != 200 then Silent(last)
      else (
        match body
        case Object(models) =>
          if !Truthy(models) then Track(last, NoModel, ModelStopped)
          else if models.ModelsList? then (
            match EntryInfo(models.entries[0])
            case Some(info) => Track(last, info, info)
            case None => Silent(last))
          else Silent(last)
        case _ => Silent(last))
    case Timeout => Silent(last)
    case ConnectError => Track(last, NotRunning, ServiceStopped)
    case Unexpected => Silent(last)
  }

  // ---------------------------------------------------------------------------
  // The three-state view of the server: an independent reading of the reply.

  /** Which of the three states the reply shows. */
  datatype ModelStatus = ServerUnreachable | NoModelLoaded | ModelActive(name: Value, size: Value)

  /** The entry is an object with a `name` and a `details` object holding a
      `parameter_size`. */
  predicate WellFormed(e: Entry) {
    && e.Entry?
    && e.name.Some?
    && e.details.Some?
    && e.details.value.Details?
    && e.details.value.parameterSize.Some?
  }

  /** The state a reply shows: a 200 reply with an empty, missing or falsy model
      list means no model; one whose first entry is well formed means that model;
      everything else means the server cannot be used. */
  function Classify(o: Outcome): ModelStatus {
    if o.Response? && o.code == 200 && o.body.Object? then
      var m := o.body.models;
      if !Truthy(m) then NoModelLoaded
      else if m.ModelsList? && WellFormed(m.entries[0]) then
        ModelActive(m.entries[0].name.value, m.entries[0].details.value.parameterSize.value)
      else ServerUnreachable
    else ServerUnreachable
  }

  /** The text shown for a state. */
  function StatusText(s: ModelStatus): string {
    match s
    case ServerUnreachable => NotRunning
    case NoModelLoaded => NoModel
    case ModelActive(name, size) => ModelInfo(name, size)
  }

  /** The outcomes after which `last_status` is brought up to date. */
  predicate Tracked(o: Outcome) {
    o.ConnectError? || Classify(o) != ServerUnreachable
  }

  /** A model's status text ends in ')', so it is never one of the fixed texts. */
  lemma ModelInfoIsDistinct(name: Value, size: Value)
    ensures IsStatusText(ModelInfo(name, size))
    ensures ModelInfo(name, size) != NotRunning && ModelInfo(name, size) != NoModel
  {
    var s := ModelInfo(name, size);
    assert s[|s| - 1] == ')';
  }

  /** The step agrees with the three-state view: it shows the text of the state
      the reply classifies to, it records that text exactly for the tracked
      outcomes, and it notifies exactly when a tracked text differs from the
      remembered one. */
  lemma StepMatchesClassify(last: Option<string>, o: Outcome)
    ensures Step(last, o).display == StatusText(Classify(o))
    ensures Step(last, o).last == (if Tracked(o) then Some(StatusText(Classify(o))) else last)
    ensures Step(last, o).notify.Some? <==> Tracked(o) && last != Some(StatusText(Classify(o)))
  {
  }

  /** A 200 reply with a non-empty list is described by its first entry alone;
      later entries never affect the step. */
  lemma FirstEntryOnly(last: Option<string>, e: Entry, rest1: seq<Entry>, rest2: seq<Entry>)
    ensures Step(last, Response(200, Object(ModelsList([e] + rest1))))
         == Step(last, Response(200, Object(ModelsList([e] + rest2))))
  {
  }

  /** A running model is shown as "<name> (<parameter_size>)" of the first entry,
      remembered, and announced with that same text when it is new. */
  lemma ModelRunning(last: Option<string>, name: Value, size: Value, rest: seq<Entry>)
    ensures var t := Step(last, Response(200, Object(ModelsList([Entry(Some(name), Some(Details(Some(size))))] + rest))));
            && t.display == PyStr(name) + " (" + PyStr(size) + ")"
            && t.last == Some(t.display)
            && t.notify == (if last == Some(t.display) then None else Some(t.display))
  {
  }

  /** A 200 reply whose model list is empty, missing or otherwise falsy shows
      "No Model Running", announced as "Model Stopped" when new. */
  lemma NoModelRunning(last: Option<string>, models: Models)
    requires !Truthy(models)
    ensures var t := Step(last, Response(200, Object(models)));
            && t.display == "No Model Running"
            && t.last == Some("No Model Running")
            && t.notify == (if last == Some("No Model Running") then None else Some("Model Stopped"))
  {
  }

  /** A refused connection shows "Ollama Not Running", announced as
      "Ollama Service Stopped" when new. */
  lemma ConnectionRefused(last: Option<string>)
    ensures var t := Step(last, ConnectError);
            && t.display == "Ollama Not Running"
            && t.last == Some("Ollama Not Running")
            && t.notify == (if last == Some("Ollama Not Running") then None else Some("Ollama Service Stopped"))
  {
  }

  /** Every outcome that is not tracked (non-200 codes, timeouts, other
      exceptions, a body that is not a JSON object, a truthy `models` that is not a
      list, a malformed first entry) shows "Ollama Not Running" with no
      notification and `last_status` unchanged. */
  lemma SilentOutcomes(last: Option<string>, o: Outcome)
    requires !Tracked(o)
    ensures Step(last, o) == Tick("Ollama Not Running", last, None)
  {
  }

  /** Feeding the same outcome twice in a row notifies at most once, and shows the
      same text both times. */
  lemma RepeatNotifiesOnce(last: Option<string>, o: Outcome)
    ensures Step(Step(last, o).last, o).notify == None
    ensures Step(Step(last, o).last, o).display == Step(last, o).display
  {
  }

  /** The concrete reply `{"models": [{"name": "llama3", "details":
      {"parameter_size": "8B"}}]}` shows "llama3 (8B)". */
  lemma Llama3Example(last: Option<string>)
    ensures Step(last, Response(200, Object(ModelsList([Entry(Some(Str("llama3")), Some(Details(Some(Str("8B")))))])))).display
         == "llama3 (8B)"
  {
  }

  /** A status change is not always announced: after a model was shown, a timeout
      switches the display to "Ollama Not Running" without any notification, and a
      later refused connection is what announces the stop. */
  lemma TimeoutAfterModelIsSilent()
    ensures var t := Step(Some("llama3 (8B)"), Timeout);
            && t.display == "Ollama Not Running"
            && t.notify == None
            && t.last == Some("llama3 (8B)")
            && Step(t.last, ConnectError).notify == Some("Ollama Service Stopped")
  {
  }

  // ---------------------------------------------------------------------------
  // The polling loop: one step per tick, threading `last_status` through.

  /** Per tick: the text shown, the `last_status` the tick started from and the
      notification it fired, if any; then the notifications in the order they
      fired, and the final `last_status`. */
  datatype Trace = Trace(
    displays: seq<string>, before: seq<Option<string>>, notices: seq<Option<string>>,
    notes: seq<string>, last: Option<string>)

  /** Successive calls of `get_running_models` on the outcomes of successive ticks.
      Tick k shows the text of the state its reply classifies to; it notifies
      exactly when its outcome is tracked and that text differs from the
      `last_status` it started from; and the next tick starts from that text when
      the outcome is tracked, from the same `last_status` otherwise. */
  function Run(last: Option<string>, outcomes: seq<Outcome>): (tr: Trace)
    ensures |tr.displays| == |tr.before| == |tr.notices| == |outcomes|
    ensures |tr.notes| <= |outcomes|
    ensures forall k :: 0 <= k < |outcomes| ==> tr.displays[k] == StatusText(Classify(outcomes[k]))
    decreases |outcomes|
  {
    if |outcomes| == 0 then Trace([], [], [], [], last)
    else
      var t := Step(last, outcomes[0]);
      StepMatchesClassify(last, outcomes[0]);
      var rest := Run(t.last, outcomes[1..]);
      Trace([t.display] + rest.displays,
            [last] + rest.before,
            [t.notify] + rest.notices,
            (if t.notify.Some? then [t.notify.value] else []) + rest.notes,
            rest.last)
  }

  /** Tick k of the loop seen as one step: it starts from the `last_status` the
      earlier ticks left, and shows, remembers and announces what `get_running_models`
      does from there. */
  lemma {:induction false} RunTickIsStep(last: Option<string>, outcomes: seq<Outcome>, k: nat)
    requires k < |outcomes|
    ensures var tr := Run(last, outcomes);
            var t := Step(tr.before[k], outcomes[k]);
            && tr.displays[k] == t.display
            && tr.notices[k] == t.notify
            && (if k + 1 < |outcomes| then tr.before[k + 1] else tr.last) == t.last
    decreases k
  {
    var tr := Run(last, outcomes);
    var t := Step(last, outcomes[0]);
    var rest := Run(t.last, outcomes[1..]);
    assert tr.displays == [t.display] + rest.displays;
    assert tr.before == [last] + rest.before;
    assert tr.notices == [t.notify] + rest.notices;
    assert tr.last == rest.last;
    if k == 0 {
      if |outcomes| > 1 {
        assert rest.before[0] == t.last;
      }
    } else {
      RunTickIsStep(t.last, outcomes[1..], k - 1);
      assert outcomes[1..][k - 1] == outcomes[k];
      assert tr.displays[k] == rest.displays[k - 1];
      assert tr.before[k] == rest.before[k - 1];
      assert tr.notices[k] == rest.notices[k - 1];
    }
  }

  /** Tick k starts from the initial `last_status`, or from the one the tick before
      left: that tick's text when its outcome was tracked, unchanged otherwise. */
  lemma RunTickStart(last: Option<string>, outcomes: seq<Outcome>, k: nat)
    requires k < |outcomes|
    ensures var tr := Run(last, outcomes);
            tr.before[k] == (if k == 0 then last else
                               if Tracked(outcomes[k - 1]) then Some(tr.displays[k - 1]) else tr.before[k - 1])
  {
    if k > 0 {
      var tr := Run(last, outcomes);
      RunTickIsStep(last, outcomes, k - 1);
      StepMatchesClassify(tr.before[k - 1], outcomes[k - 1]);
    }
  }

  /** Tick k notifies exactly when its outcome is tracked and its text differs
      from the `last_status` it started from, and then with the announcement of
      that text. */
  lemma RunTickNotifies(last: Option<string>, outcomes: seq<Outcome>, k: nat)
    requires k < |outcomes|
    ensures var tr := Run(last, outcomes);
            && (tr.notices[k].Some? <==> Tracked(outcomes[k]) && tr.before[k] != Some(tr.displays[k]))
            && (tr.notices[k].Some? ==> tr.notices[k].value == NoteFor(tr.displays[k]))
  {
    var tr := Run(last, outcomes);
    RunTickIsStep(last, outcomes, k);
    StepMatchesClassify(tr.before[k], outcomes[k]);
  }

  /** No two consecutive notifications are the same. */
  predicate NoAdjacentRepeats(notes: seq<string>) {
    forall k :: 0 < k < |notes| ==> notes[k - 1] != notes[k]
  }

  /** Different status texts are announced differently. */
  lemma NoteForInjective(a: string, b: string)
    requires IsStatusText(a) && IsStatusText(b) && a != b
    ensures NoteFor(a) != NoteFor(b)
  {
  }

  /** The notification stream never repeats itself, and its first entry differs
      from the announcement of the status remembered at the start. */
  lemma {:induction false} RunNotesNoAdjacentRepeats(last: Option<string>, outcomes: seq<Outcome>)
    requires last.None? || IsStatusText(last.value)
    ensures NoAdjacentRepeats(Run(last, outcomes).notes)
    ensures last.Some? && |Run(last, outcomes).notes| > 0 ==>
            Run(last, outcomes).notes[0] != NoteFor(last.value)
    decreases |outcomes|
  {
    if |outcomes| > 0 {
      var t := Step(last, outcomes[0]);
      var rest := Run(t.last, outcomes[1..]);
      RunNotesNoAdjacentRepeats(t.last, outcomes[1..]);
      var notes := Run(last, outcomes).notes;
      if t.notify.Some? {
        assert notes == [NoteFor(t.display)] + rest.notes;
        if last.Some? {
          NoteForInjective(last.value, t.display);
        }
        forall k | 0 < k < |notes|
          ensures notes[k - 1] != notes[k]
        {
          if k > 1 {
            assert notes[k - 1] == rest.notes[k - 2] && notes[k] == rest.notes[k - 1];
          }
        }
      } else {
        assert notes == rest.notes;
      }
    }
  }
}
