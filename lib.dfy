/** The glue of `src/lib.rs`: the conversation state `StateJs` and its
    mutators, the rendering of its diagnoses, the workflow entry points that
    hand the state to the prompt modules, the citation list of `cite_js` and
    the content projection of `ChatMessageUpdates::next`.

    The prompt modules themselves (notes, initial and refined diagnoses,
    responses, citations) are parameters: each is a function from the
    arguments it is handed to the outcome it produced. */
module Lib {
  import opened Wrappers
  import opened Text
  import Hex
  import DB = DocDb
  import Chat
  import Diagnosis

  /** `prompt::utils::Error`, whose variants this model does not tell apart. */
  datatype PromptFailure = PromptFailure(message: string)

  /** `lib::Error` */
  datatype Error =
    | StreamingError
    | ArrayError
    | OpenAIError(Chat.Error)
    | DocumentDbError(DB.Error)
    | PromptError(PromptFailure)
    | SerdeError

  /** `prompt::notes::Notes`: the three sections of the clinical notes. */
  datatype Notes = Notes(chiefComplaint: string, historyOfPresentIllness: string, patientHistory: string)

  // ---------------------------------------------------------------------
  // Flattening

  /** `Iterator::flatten` over options: the present values, in order. */
  function Somes<T>(xs: seq<Option<T>>): (r: seq<T>)
    ensures |r| <= |xs|
    ensures forall j :: 0 <= j < |r| ==> Some(r[j]) in xs
    ensures forall k :: 0 <= k < |xs| && xs[k].Some? ==> xs[k].value in r
  {
    if xs == [] then []
    else (if xs[0].Some? then [xs[0].value] else []) + Somes(xs[1..])
  }

  /** Flattening two runs is flattening each. */
  lemma {:induction false} SomesAppend<T>(a: seq<Option<T>>, b: seq<Option<T>>)
    ensures Somes(a + b) == Somes(a) + Somes(b)
  {
    if a == [] {
      assert a + b == b;
    } else {
      assert (a + b)[0] == a[0] && (a + b)[1..] == a[1..] + b;
      SomesAppend(a[1..], b);
    }
  }

  /** Nothing is dropped when every value is present. */
  lemma {:induction false} SomesAll<T>(xs: seq<Option<T>>)
    requires forall k :: 0 <= k < |xs| ==> xs[k].Some?
    ensures |Somes(xs)| == |xs|
    ensures forall k :: 0 <= k < |xs| ==> Somes(xs)[k] == xs[k].value
  {
    if xs != [] {
      SomesAll(xs[1..]);
    }
  }

  // ---------------------------------------------------------------------
  // The chat history

  /** A history entry as the mutators write it: a user or assistant turn
      with content and no name or function call. */
  predicate IsTurn(m: Chat.Message) {
    (m.role == Chat.User || m.role == Chat.Assistant) && m.content.Some? && m.name.None? && m.functionCall.None?
  }

  predicate IsTranscript(ms: seq<Chat.Message>) {
    forall k :: 0 <= k < |ms| ==> IsTurn(ms[k])
  }

  // ---------------------------------------------------------------------
  // Diagnoses as Markdown

  /** Each diagnosis rendered at `depth`, in order, separated by a blank line. */
  function DiagnosesText(ds: seq<Diagnosis.ResolvedDiagnosis>, depth: nat): string
  {
    Join(seq(|ds|, k requires 0 <= k < |ds| => Diagnosis.ResolvedText(ds[k], depth)), "\n\n")
  }

  /** No diagnoses render as the empty string and one renders as itself. */
  lemma DiagnosesTextFew(d: Diagnosis.ResolvedDiagnosis, depth: nat)
    ensures DiagnosesText([], depth) == ""
    ensures DiagnosesText([d], depth) == Diagnosis.ResolvedText(d, depth)
  {
  }

  /** Two runs of diagnoses render as the two renderings, a blank line apart. */
  lemma DiagnosesTextAppend(a: seq<Diagnosis.ResolvedDiagnosis>, b: seq<Diagnosis.ResolvedDiagnosis>, depth: nat)
    requires a != [] && b != []
    ensures DiagnosesText(a + b, depth) == DiagnosesText(a, depth) + "\n\n" + DiagnosesText(b, depth)
  {
    var ra := seq(|a|, k requires 0 <= k < |a| => Diagnosis.ResolvedText(a[k], depth));
    var rb := seq(|b|, k requires 0 <= k < |b| => Diagnosis.ResolvedText(b[k], depth));
    assert seq(|a + b|, k requires 0 <= k < |a + b| => Diagnosis.ResolvedText((a + b)[k], depth)) == ra + rb;
    JoinAppend(ra, rb, "\n\n");
  }

  /** The rendering opens with the first diagnosis's heading. */
  lemma DiagnosesTextOpens(ds: seq<Diagnosis.ResolvedDiagnosis>, depth: nat)
    requires ds != []
    ensures var h := Diagnosis.Heading(depth, ds[0].diagnosis.name);
      |h| <= |DiagnosesText(ds, depth)| && DiagnosesText(ds, depth)[..|h|] == h
  {
    var parts := seq(|ds|, k requires 0 <= k < |ds| => Diagnosis.ResolvedText(ds[k], depth));
    var first := Diagnosis.ResolvedText(ds[0], depth);
    var h := Diagnosis.Heading(depth, ds[0].diagnosis.name);
    Diagnosis.ResolvedTextHeading(ds[0], depth, "", "");
    if |ds| > 1 {
      JoinCons(parts, "\n\n");
      var tail := "\n\n" + Join(parts[1..], "\n\n");
      assert DiagnosesText(ds, depth) == first + tail;
      PrefixOfConcat(h, first, tail);
    }
  }

  lemma PrefixOfConcat<T>(h: seq<T>, a: seq<T>, b: seq<T>)
    requires |h| <= |a| && a[..|h|] == h
    ensures |h| <= |a + b| && (a + b)[..|h|] == h
  {
    assert (a + b)[..|h|] == a[..|h|];
  }

  // ---------------------------------------------------------------------
  // The conversation state

  /** `StateJs`: the statement, the clinical notes, the candidate diagnoses
      and the chat history of one conversation. */
  class StateJs {
    var statement: Option<string>
    var notes: Option<Notes>
    var diagnoses: Option<seq<Diagnosis.ResolvedDiagnosis>>
    var messages: seq<Chat.Message>

    /** `StateJs::new` */
    constructor ()
      ensures statement.None? && notes.None? && diagnoses.None? && messages == []
      ensures IsTranscript(messages)
    {
      statement := None;
      notes := None;
      diagnoses := None;
      messages := [];
    }

    /** `set_statement` */
    method SetStatement(statement: Option<string>)
      modifies this
      ensures this.statement == statement
      ensures notes == old(notes) && diagnoses == old(diagnoses) && messages == old(messages)
    {
      this.statement := statement;
    }

    /** `diagnoses_to_markdown` */
    function DiagnosesToMarkdown(depth: nat): (md: string)
      reads this
      ensures diagnoses.None? ==> md == ""
      ensures diagnoses.Some? ==> md == DiagnosesText(diagnoses.value, depth)
    {
      match diagnoses
      case None => ""
      case Some(ds) => DiagnosesText(ds, depth)
    }

    /** `add_user_message` */
    method AddUserMessage(message: string)
      modifies this
      ensures messages == old(messages) + [Chat.Message(Chat.User, Some(message), None, None)]
      ensures statement == old(statement) && notes == old(notes) && diagnoses == old(diagnoses)
      ensures IsTranscript(old(messages)) ==> IsTranscript(messages)
    {
      messages := messages + [Chat.Message(Chat.User, Some(message), None, None)];
    }

    /** `add_assistant_message` */
    method AddAssistantMessage(message: string)
      modifies this
      ensures messages == old(messages) + [Chat.Message(Chat.Assistant, Some(message), None, None)]
      ensures statement == old(statement) && notes == old(notes) && diagnoses == old(diagnoses)
      ensures IsTranscript(old(messages)) ==> IsTranscript(messages)
    {
      messages := messages + [Chat.Message(Chat.Assistant, Some(message), None, None)];
    }
  }

  // ---------------------------------------------------------------------
  // Streamed replies

  /** The content of the first choice of a pulled response, the end of the
      stream as `None`, and a failure wrapped as `OpenAIError`. */
  function FirstContent(pulled: Result<Option<Chat.Response>, Chat.Error>): (r: Result<Option<string>, Error>)
    ensures r.Failure? <==> pulled.Failure?
    ensures pulled.Failure? ==> r.error == OpenAIError(pulled.error)
    ensures pulled == Success(None) ==> r == Success(None)
    ensures pulled.Success? && pulled.value.Some? && pulled.value.value.choices == [] ==> r == Success(None)
    ensures r.Success? && r.value.Some? ==>
      pulled.Success? && pulled.value.Some? && pulled.value.value.choices != []
      && pulled.value.value.choices[0].message.content == r.value
  {
    match pulled
    case Failure(e) => Failure(OpenAIError(e))
    case Success(None) => Success(None)
    case Success(Some(response)) =>
      if response.choices == [] then Success(None)
      else Success(response.choices[0].message.content)
  }

  /** `ChatMessageUpdates`: a stream of chat-completion deltas read as the
      growing text of the reply. */
  class ChatMessageUpdates {
    const parts: Chat.ChatCompletionParts

    constructor (parts: Chat.ChatCompletionParts)
      ensures this.parts == parts
    {
      this.parts := parts;
    }

    /** `ChatMessageUpdates::next` */
    method Next() returns (r: Result<Option<string>, Error>)
      modifies parts
      ensures Chat.Pull(old(parts.events), old(parts.response)) == Chat.Pulled(Chat.Pull(old(parts.events), old(parts.response)).result, parts.events, parts.response)
      ensures r == FirstContent(Chat.Pull(old(parts.events), old(parts.response)).result)
    {
      var pulled := parts.Next();
      r := FirstContent(pulled);
    }
  }

  /** A stream of an assistant role delta, two content deltas and the end
      marker reads as the empty reply, then `first`, then `first + second`,
      then the end. */
  lemma StreamedReply(texts: seq<string>, first: string, second: string, events: seq<Chat.Event>)
    requires |texts| == 3 && forall k :: 0 <= k < 3 ==> texts[k] != [] && texts[k][0] == '{'
    requires events == [Chat.MessageEvent(Chat.Utf8(texts[0], Some(Chat.ResponseUpdate([Chat.ChoiceUpdate(Chat.MessageUpdate(Some(Chat.Assistant), None, None, None), None)])))),
                        Chat.ContentDelta(texts[1], first), Chat.ContentDelta(texts[2], second), Chat.MessageEvent(Chat.Utf8("[DONE]", None))]
    ensures var p1 := Chat.Pull(events, Chat.Response([]));
      var p2 := Chat.Pull(p1.rest, p1.response);
      var p3 := Chat.Pull(p2.rest, p2.response);
      var p4 := Chat.Pull(p3.rest, p3.response);
      && FirstContent(p1.result) == Success(Some(""))
      && FirstContent(p2.result) == Success(Some(first))
      && FirstContent(p3.result) == Success(Some(first + second))
      && FirstContent(p4.result) == Success(None)
  {
    Chat.TwoDeltaStream(texts, first, second, events);
  }

  // ---------------------------------------------------------------------
  // Workflows

  /** `create_notes_js`: without a statement the state comes back as it is;
      otherwise the notes are created or updated from the statement. */
  method CreateNotesJs(state: StateJs, createUpdateNotes: (string, Option<Notes>) -> Result<Notes, PromptFailure>)
    returns (r: Result<StateJs, Error>)
    modifies state
    ensures old(state.statement).None? ==> r == Success(state) && unchanged(state)
    ensures old(state.statement).Some? ==>
      match createUpdateNotes(old(state.statement).value, old(state.notes))
      case Failure(e) => r == Failure(PromptError(e)) && unchanged(state)
      case Success(notes) =>
        && r == Success(state) && state.notes == Some(notes)
        && state.statement == old(state.statement) && state.diagnoses == old(state.diagnoses) && state.messages == old(state.messages)
  {
    var statement;
    match state.statement
    case None =>
      return Success(state);
    case Some(s) =>
      statement := s;
    match createUpdateNotes(statement, state.notes)
    case Failure(e) =>
      r := Failure(PromptError(e));
    case Success(notes) =>
      state.statement := Some(statement);
      state.notes := Some(notes);
      r := Success(state);
  }

  /** `initial_diagnosis_js`: without notes the state comes back as it is;
      otherwise the initial candidate diagnoses replace the old ones. */
  method InitialDiagnosisJs(state: StateJs, initialDiagnosis: (Notes, Option<string>) -> Result<seq<Diagnosis.ResolvedDiagnosis>, PromptFailure>)
    returns (r: Result<StateJs, Error>)
    modifies state
    ensures old(state.notes).None? ==> r == Success(state) && unchanged(state)
    ensures old(state.notes).Some? ==>
      match initialDiagnosis(old(state.notes).value, old(state.statement))
      case Failure(e) => r == Failure(PromptError(e)) && unchanged(state)
      case Success(ds) =>
        && r == Success(state) && state.diagnoses == Some(ds)
        && state.statement == old(state.statement) && state.notes == old(state.notes) && state.messages == old(state.messages)
  {
    var notes;
    match state.notes
    case None =>
      return Success(state);
    case Some(n) =>
      notes := n;
    match initialDiagnosis(notes, state.statement)
    case Failure(e) =>
      r := Failure(PromptError(e));
    case Success(ds) =>
      state.diagnoses := Some(ds);
      r := Success(state);
  }

  /** At most this many diagnoses are refined; the rest are dropped. */
  const MaxRefined := 8

  /** One refinement, as `flatten` sees it: its value, or nothing when it failed. */
  function Attempt(refine: Diagnosis.ResolvedDiagnosis -> Result<Diagnosis.ResolvedDiagnosis, PromptFailure>, d: Diagnosis.ResolvedDiagnosis): Option<Diagnosis.ResolvedDiagnosis>
  {
    if refine(d).Success? then Some(refine(d).value) else None
  }

  /** The refinements of the first `MaxRefined` diagnoses that succeed, in
      the order of the diagnoses. */
  function Refined(ds: seq<Diagnosis.ResolvedDiagnosis>, refine: Diagnosis.ResolvedDiagnosis -> Result<Diagnosis.ResolvedDiagnosis, PromptFailure>): (r: seq<Diagnosis.ResolvedDiagnosis>)
    ensures |r| <= MaxRefined && |r| <= |ds|
  {
    var taken := if |ds| <= MaxRefined then ds else ds[..MaxRefined];
    Somes(seq(|taken|, k requires 0 <= k < |taken| => Attempt(refine, taken[k])))
  }

  /** Every kept diagnosis is the refinement of one of the first
      `MaxRefined`, and every successful refinement of one of them is kept. */
  lemma RefinedKept(ds: seq<Diagnosis.ResolvedDiagnosis>, refine: Diagnosis.ResolvedDiagnosis -> Result<Diagnosis.ResolvedDiagnosis, PromptFailure>)
    ensures forall d :: d in Refined(ds, refine) ==>
      exists k :: 0 <= k < |ds| && k < MaxRefined && refine(ds[k]) == Success(d)
    ensures forall k :: 0 <= k < |ds| && k < MaxRefined && refine(ds[k]).Success? ==> refine(ds[k]).value in Refined(ds, refine)
  {
    var taken := if |ds| <= MaxRefined then ds else ds[..MaxRefined];
    var outcomes := seq(|taken|, k requires 0 <= k < |taken| => Attempt(refine, taken[k]));
    forall d | d in Refined(ds, refine)
      ensures exists k :: 0 <= k < |ds| && k < MaxRefined && refine(ds[k]) == Success(d)
    {
      var j :| 0 <= j < |Refined(ds, refine)| && Refined(ds, refine)[j] == d;
      var k :| 0 <= k < |outcomes| && outcomes[k] == Some(d);
      assert taken[k] == ds[k];
    }
    forall k | 0 <= k < |ds| && k < MaxRefined && refine(ds[k]).Success?
      ensures refine(ds[k]).value in Refined(ds, refine)
    {
      assert taken[k] == ds[k];
      assert outcomes[k].Some?;
    }
  }

  /** When every refinement succeeds, the first `MaxRefined` diagnoses are
      replaced one for one, in order. */
  lemma RefinedAllSucceed(ds: seq<Diagnosis.ResolvedDiagnosis>, refine: Diagnosis.ResolvedDiagnosis -> Result<Diagnosis.ResolvedDiagnosis, PromptFailure>)
    requires forall k :: 0 <= k < |ds| ==> refine(ds[k]).Success?
    ensures |Refined(ds, refine)| == if |ds| <= MaxRefined then |ds| else MaxRefined
    ensures forall k :: 0 <= k < |Refined(ds, refine)| ==> Success(Refined(ds, refine)[k]) == refine(ds[k])
  {
    var taken := if |ds| <= MaxRefined then ds else ds[..MaxRefined];
    var outcomes := seq(|taken|, k requires 0 <= k < |taken| => Attempt(refine, taken[k]));
    SomesAll(outcomes);
  }

  /** `refine_diagnosis_js`: without notes or without diagnoses the state
      comes back as it is; otherwise the diagnoses are replaced by the
      successful refinements of the first `MaxRefined`. */
  method RefineDiagnosisJs(state: StateJs, refineDiagnosis: (Notes, Diagnosis.ResolvedDiagnosis, Option<string>) -> Result<Diagnosis.ResolvedDiagnosis, PromptFailure>)
    returns (r: Result<StateJs, Error>)
    modifies state
    ensures r == Success(state)
    ensures old(state.notes).None? || old(state.diagnoses).None? ==> unchanged(state)
    ensures old(state.notes).Some? && old(state.diagnoses).Some? ==>
      var notes, statement := old(state.notes).value, old(state.statement);
      && state.diagnoses == Some(Refined(old(state.diagnoses).value, d => refineDiagnosis(notes, d, statement)))
      && state.statement == old(state.statement) && state.notes == old(state.notes) && state.messages == old(state.messages)
  {
    var notes;
    match state.notes
    case None =>
      return Success(state);
    case Some(n) =>
      notes := n;
    var diagnoses;
    match state.diagnoses
    case None =>
      return Success(state);
    case Some(ds) =>
      diagnoses := ds;
    state.diagnoses := None;
    var statement := state.statement;
    state.diagnoses := Some(Refined(diagnoses, d => refineDiagnosis(notes, d, statement)));
    r := Success(state);
  }

  /** What `respond` is handed: the notes, the message, the diagnoses when
      they are asked for, the statement and the chat history. */
  datatype RespondCall = RespondCall(
    notes: Notes,
    message: string,
    diagnoses: Option<seq<Diagnosis.ResolvedDiagnosis>>,
    statement: Option<string>,
    messages: seq<Chat.Message>)

  /** `respond_js`: no reply without notes; otherwise the reply streams the
      events `respond` opened, from an empty response. The diagnoses go
      along only when `diagnosis` is set. */
  method RespondJs(state: StateJs, message: string, diagnosis: bool, respond: RespondCall -> Result<seq<Chat.Event>, PromptFailure>)
    returns (r: Result<Option<ChatMessageUpdates>, Error>)
    ensures state.notes.None? ==> r == Success(None)
    ensures state.notes.Some? ==>
      var call := RespondCall(state.notes.value, message, if diagnosis then state.diagnoses else None, state.statement, state.messages);
      match respond(call)
      case Failure(e) => r == Failure(PromptError(e))
      case Success(events) =>
        && r.Success? && r.value.Some? && fresh(r.value.value) && fresh(r.value.value.parts)
        && r.value.value.parts.events == events && r.value.value.parts.response == Chat.Response([])
  {
    var notes;
    match state.notes
    case None =>
      return Success(None);
    case Some(n) =>
      notes := n;
    var call := RespondCall(notes, message, if diagnosis then state.diagnoses else None, state.statement, state.messages);
    match respond(call)
    case Failure(e) =>
      r := Failure(PromptError(e));
    case Success(events) =>
      var parts := new Chat.ChatCompletionParts(events);
      var updates := new ChatMessageUpdates(parts);
      r := Success(Some(updates));
  }

  // ---------------------------------------------------------------------
  // Citations

  /** `prompt::cite::CiteExcerpt`: the id and title of a cited excerpt. */
  datatype CiteExcerpt = CiteExcerpt(id: string, title: string)

  /** The Markdown link line of one cited excerpt, or nothing when its id is
      not 32 hexadecimal digits or the document has no URL. */
  function CiteLine(db: DB.DocDb, x: CiteExcerpt): (line: Option<string>)
    ensures line.Some? <==>
      DB.DocIdFromHex(Utf8Encode(x.id)).Success? && DB.DocIdFromHex(Utf8Encode(x.id)).value in db.urls
    ensures line.Some? ==>
      line.value == "- [" + x.title + "](" + db.urls[DB.DocIdFromHex(Utf8Encode(x.id)).value] + ")"
  {
    match DB.DocIdFromHex(Utf8Encode(x.id))
    case Failure(_) => None
    case Success(hash) =>
      match DB.GetUrl(db, hash)
      case Some(url) => Some("- [" + x.title + "](" + url + ")")
      case None => None
  }

  /** The link lines of the excerpts that can be cited, in order. */
  function CiteLines(db: DB.DocDb, excerpts: seq<CiteExcerpt>): seq<string>
  {
    Somes(seq(|excerpts|, k requires 0 <= k < |excerpts| => CiteLine(db, excerpts[k])))
  }

  /** `cite_js` after the citation prompt: its failure, or the link lines
      one per line. */
  function CiteJs(db: DB.DocDb, cited: Result<seq<CiteExcerpt>, PromptFailure>): (r: Result<string, Error>)
    ensures cited.Failure? ==> r == Failure(PromptError(cited.error))
    ensures cited.Success? ==> r == Success(Join(CiteLines(db, cited.value), "\n"))
  {
    match cited
    case Failure(e) => Failure(PromptError(e))
    case Success(excerpts) => Success(Join(CiteLines(db, excerpts), "\n"))
  }

  /** An excerpt named by the hexadecimal form of a document id, as the
      excerpts handed to the citation prompt name their documents, is cited
      exactly when the document has a URL. */
  lemma CitesDocument(db: DB.DocDb, id: DB.DocId, title: string)
    ensures CiteLine(db, CiteExcerpt(Hex.Encode(id), title)).Some? <==> id in db.urls
    ensures id in db.urls ==> CiteLine(db, CiteExcerpt(Hex.Encode(id), title)) == Some("- [" + title + "](" + db.urls[id] + ")")
  {
    DB.DocIdRoundTrip(id);
  }

  /** Citing two runs of excerpts cites each run, in order. */
  lemma CiteLinesAppend(db: DB.DocDb, a: seq<CiteExcerpt>, b: seq<CiteExcerpt>)
    ensures CiteLines(db, a + b) == CiteLines(db, a) + CiteLines(db, b)
  {
    var la := seq(|a|, k requires 0 <= k < |a| => CiteLine(db, a[k]));
    var lb := seq(|b|, k requires 0 <= k < |b| => CiteLine(db, b[k]));
    assert seq(|a + b|, k requires 0 <= k < |a + b| => CiteLine(db, (a + b)[k])) == la + lb;
    SomesAppend(la, lb);
  }

  /** A link line holds a line break only when its title or URL does. */
  lemma LinkLineUnbroken(title: string, url: string)
    requires '\n' !in title && '\n' !in url
    ensures '\n' !in "- [" + title + "](" + url + ")"
  {
    var line := "- [" + title + "](" + url + ")";
    assert line == "- [" + (title + ("](" + (url + ")")));
  }

  /** When no title and no URL holds a line break, the citation text splits
      back into exactly the link lines. */
  lemma CiteTextSplits(db: DB.DocDb, excerpts: seq<CiteExcerpt>)
    requires CiteLines(db, excerpts) != []
    requires forall k :: 0 <= k < |excerpts| ==> '\n' !in excerpts[k].title
    requires forall id :: id in db.urls ==> '\n' !in db.urls[id]
    ensures Split(Join(CiteLines(db, excerpts), "\n"), '\n') == CiteLines(db, excerpts)
  {
    var lines := CiteLines(db, excerpts);
    var outcomes := seq(|excerpts|, k requires 0 <= k < |excerpts| => CiteLine(db, excerpts[k]));
    forall j | 0 <= j < |lines|
      ensures '\n' !in lines[j]
    {
      var k :| 0 <= k < |outcomes| && outcomes[k] == Some(lines[j]);
      var x := excerpts[k];
      LinkLineUnbroken(x.title, db.urls[DB.DocIdFromHex(Utf8Encode(x.id)).value]);
    }
    SplitJoin(lines, '\n');
  }
}
