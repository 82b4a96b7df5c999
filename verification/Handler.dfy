/** The demo's verdict on one request (demo/handler.h, `Handler::AnalyzeContent`). */
module DemoHandler {
  import opened Common
  import opened Protocol
  import opened ResponseEdits
  import opened AnalysisEvents

  const KEYWORD := "block"

  predicate KeywordAt(content: string, k: nat) {
    k + |KEYWORD| <= |content| && content[k..k + |KEYWORD|] == KEYWORD
  }

  /** `std::string::find` succeeds. */
  predicate ShouldBlockRequest(content: string) {
    exists k :: 0 <= k < |content| && KeywordAt(content, k)
  }

  datatype Finding = CannotRead | Blocks | Allows

  function Judge(content: string): Finding {
    if ShouldBlockRequest(content) then Blocks else Allows
  }

  /** `file` is what the named file holds, or `None` if it cannot be opened or is too large. The source
      reads it with a terminating null. */
  function Find(request: Request, file: Option<string>): Finding {
    match request.content
    case TextContent(text) => Judge(text)
    case FilePath(_) => if file.None? then CannotRead else Judge(file.value + "\0")
    case PrintData => Judge(request.url)
    case NoContent => Allows
  }

  /** The edits `AnalyzeContent` makes for a finding. */
  function EditsFor(finding: Finding): seq<Edit> {
    match finding
    case CannotRead => [Update("", StatusFailure)]
    case Blocks => [Verdict(Block)]
    case Allows => []
  }

  /** The event after analysis: edited, and then sent unless it had been. */
  function Analyzed(s: EventState, finding: Finding): EventState
    requires s.message.response.Some?
  {
    AfterSend(s.(message := AgentToChrome(Some(EditedAll(s.message.response.value, EditsFor(finding))))))
  }

  method AnalyzeContent(event: ContentAnalysisEventWin, file: Option<string>, io: Option<HardError>,
                        writes: nat -> WriteOutcome) returns (rc: ResultCode)
    requires MakesProgress(writes) && event.hasResponse
    modifies event`responseSent, event`attempts, event.response
    ensures event.State() == Analyzed(old(event.State()), Find(event.request, file))
    ensures rc == SendCode(old(event.State()), WriteMessage(event.putResponse(event.Message()), io, writes).err)
  {
    var block, success := false, true;
    match event.request.content {
      case TextContent(text) =>
        block := ShouldBlockRequest(text);
      case FilePath(_) =>
        success := file.Some?;
        if success {
          block := ShouldBlockRequest(file.value + "\0");
        }
      case PrintData =>
        block := ShouldBlockRequest(event.request.url);
      case NoContent =>
    }
    ghost var before := event.response.State();
    if !success {
      var _ := UpdateResponse(event.response, "", StatusFailure);
      OneEdit(before, Update("", StatusFailure));
    } else if block {
      var _ := SetEventVerdictTo(event.response, Block);
      OneEdit(before, Verdict(Block));
    }
    rc := event.Send(io, writes);
  }

  lemma OneEdit(r: Response, e: Edit)
    ensures EditedAll(r, [e]) == Edited(r, e)
  {
    assert EditedAll(r, [e]) == EditedAll(Edited(r, e), [e][1..]);
  }

  /** Whether what is to be analysed holds the keyword. */
  predicate HoldsKeyword(request: Request, file: Option<string>) {
    match request.content
    case TextContent(text) => ShouldBlockRequest(text)
    case FilePath(_) => file.Some? && ShouldBlockRequest(file.value)
    case PrintData => ShouldBlockRequest(request.url)
    case NoContent => false
  }

  /** The one response written for an initialised event is this: it names its request and its first tag, fails
      exactly when the named file could not be read, and blocks exactly when the content holds the keyword. */
  lemma ResponseCarriesTheFinding(request: Request, file: Option<string>)
    requires InitResponse(request).Some?
    ensures var message := AgentToChrome(InitResponse(request));
            var tag := if |request.tags| > 0 && request.tags[0] != "" then Some(request.tags[0]) else None;
            var status := if request.content.FilePath? && file.None? then StatusFailure else StatusSuccess;
            var rules := if HoldsKeyword(request, file) then [TriggeredRule(Some(Block))] else [];
            AfterShutdown(Analyzed(Fresh(true, message), Find(request, file))).attempts
            == [Attempt(true, AgentToChrome(Some(Response(request.token, [Result(tag, Some(status), rules)]))))]
  {
    var edits := EditsFor(Find(request, file));
    EditsKeepOneResult(request, edits);
    if edits != [] {
      assert edits[..0] == [];
    }
    if file.Some? {
      TerminatorIsHarmless(file.value);
    }
  }

  /** The null that ends a file's content never makes or hides a keyword. */
  lemma TerminatorIsHarmless(content: string)
    ensures ShouldBlockRequest(content + "\0") <==> ShouldBlockRequest(content)
  {
    var longer := content + "\0";
    if k :| 0 <= k < |content| && KeywordAt(content, k) {
      assert longer[k..k + |KEYWORD|] == content[k..k + |KEYWORD|];
      assert KeywordAt(longer, k);
    }
    if k :| 0 <= k < |longer| && KeywordAt(longer, k) {
      assert KEYWORD[4] == 'k' && longer[k..k + |KEYWORD|][4] == longer[k + 4];
      assert content[k..k + |KEYWORD|] == longer[k..k + |KEYWORD|];
      assert KeywordAt(content, k);
    }
  }
}
