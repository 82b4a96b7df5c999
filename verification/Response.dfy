/** In-place edits of a response (agent/src/event_base.cc). */
module ResponseEdits {
  import opened Common
  import opened Protocol

  const EMPTY_RESULT := Result(None, None, [])

  function WithResult(r: Response, result: Result): Response {
    r.(results := if |r.results| > 0 then r.results[0 := result] else [result])
  }

  function Updated(r: Response, tag: string, status: Status): Response {
    var base := if |r.results| > 0 then r.results[0] else EMPTY_RESULT;
    var tagged := if tag != "" then base.(tag := Some(tag)) else base;
    WithResult(r, if !status.StatusUnknown? then tagged.(status := Some(status)) else tagged)
  }

  function WithVerdict(r: Response, action: Action): Response
    requires |r.results| > 0
  {
    var base := r.results[0];
    var rules := if |base.rules| > 0 then base.rules[0 := base.rules[0].(action := Some(action))]
                 else [TriggeredRule(Some(action))];
    WithResult(r, base.(rules := rules))
  }

  class ContentAnalysisResponse {
    var token: string
    var results: seq<Result>

    function State(): Response
      reads this
    {
      Response(token, results)
    }

    constructor ()
      ensures State() == Response("", [])
    {
      token, results := "", [];
    }

    method SetToken(value: string)
      modifies this`token
      ensures State() == old(State()).(token := value)
    {
      token := value;
    }
  }

  /** Editing a request's response: both SDK entry points that write into it. */
  method UpdateResponse(response: ContentAnalysisResponse, tag: string, status: Status) returns (rc: ResultCode)
    modifies response`results
    ensures rc == Ok
    ensures response.State() == Updated(old(response.State()), tag, status)
  {
    if |response.results| == 0 {
      response.results := response.results + [EMPTY_RESULT];
    }
    if tag != "" {
      response.results := response.results[0 := response.results[0].(tag := Some(tag))];
    }
    if !status.StatusUnknown? {
      response.results := response.results[0 := response.results[0].(status := Some(status))];
    }
    rc := Ok;
  }

  method SetEventVerdictTo(response: ContentAnalysisResponse, action: Action) returns (rc: ResultCode)
    modifies response`results
    ensures rc == if old(|response.results|) == 0 then ErrMissingResult else Ok
    ensures rc != Ok ==> response.State() == old(response.State())
    ensures rc == Ok ==> response.State() == WithVerdict(old(response.State()), action)
  {
    if |response.results| == 0 {
      return ErrMissingResult;
    }
    var result := response.results[0];
    if |result.rules| > 0 {
      result := result.(rules := result.rules[0 := result.rules[0].(action := Some(action))]);
    } else {
      result := result.(rules := [TriggeredRule(Some(action))]);
    }
    response.results := response.results[0 := result];
    rc := Ok;
  }

  /** `ContentAnalysisEventWin::Init` on an untouched response; `None` when the token is missing. */
  function InitResponse(request: Request): Option<Response> {
    if request.token == "" then None
    else Some(Updated(Response(request.token, []),
                      if |request.tags| > 0 then request.tags[0] else "", StatusSuccess))
  }

  datatype Edit = Update(tag: string, status: Status) | Verdict(action: Action)

  function Edited(r: Response, e: Edit): Response {
    match e
    case Update(tag, status) => Updated(r, tag, status)
    case Verdict(action) => if |r.results| == 0 then r else WithVerdict(r, action)
  }

  function EditedAll(r: Response, edits: seq<Edit>): Response
    decreases edits
  {
    if edits == [] then r else EditedAll(Edited(r, edits[0]), edits[1..])
  }

  /** On any response, one edit writes one field of the first result, which an update adds if there is none;
      everything else stays, and a verdict without a result changes nothing. */
  lemma EditWritesOneField(r: Response, e: Edit)
    ensures var x := Edited(r, e);
            x.token == r.token
            && if e.Verdict? && r.results == [] then x == r
               else
                 var was := if r.results == [] then Result(None, None, []) else r.results[0];
                 && |x.results| == Max(1, |r.results|)
                 && (forall k :: 1 <= k < |r.results| ==> x.results[k] == r.results[k])
                 && var now := x.results[0];
                    match e
                    case Update(tag, status) =>
                      && now.tag == (if tag != "" then Some(tag) else was.tag)
                      && now.status == (if status != StatusUnknown then Some(status) else was.status)
                      && now.rules == was.rules
                    case Verdict(action) =>
                      && now.tag == was.tag && now.status == was.status
                      && |now.rules| == Max(1, |was.rules|) && now.rules[0].action == Some(action)
                      && forall k :: 1 <= k < |was.rules| ==> now.rules[k] == was.rules[k]
  {
  }

  // What a caller expects of a sequence of edits, read off from its end.

  function LastTag(edits: seq<Edit>, default: Option<string>): Option<string> {
    if edits == [] then default
    else
      var e := edits[|edits| - 1];
      if e.Update? && e.tag != "" then Some(e.tag) else LastTag(edits[..|edits| - 1], default)
  }

  function LastStatus(edits: seq<Edit>, default: Option<Status>): Option<Status> {
    if edits == [] then default
    else
      var e := edits[|edits| - 1];
      if e.Update? && !e.status.StatusUnknown? then Some(e.status) else LastStatus(edits[..|edits| - 1], default)
  }

  function LastVerdict(edits: seq<Edit>): seq<TriggeredRule> {
    if edits == [] then []
    else
      var e := edits[|edits| - 1];
      if e.Verdict? then [TriggeredRule(Some(e.action))] else LastVerdict(edits[..|edits| - 1])
  }

  lemma {:induction false} EditedAllSnoc(r: Response, edits: seq<Edit>, e: Edit)
    ensures EditedAll(r, edits + [e]) == Edited(EditedAll(r, edits), e)
    decreases edits
  {
    if edits == [] {
      assert EditedAll(r, [e]) == EditedAll(Edited(r, e), [e][1..]);
    } else {
      assert (edits + [e])[1..] == edits[1..] + [e];
      EditedAllSnoc(Edited(r, edits[0]), edits[1..], e);
    }
  }

  lemma EditOneResult(token: string, result: Result, e: Edit)
    requires |result.rules| <= 1
    ensures Edited(Response(token, [result]), e)
         == Response(token, [Result(if e.Update? && e.tag != "" then Some(e.tag) else result.tag,
                                    if e.Update? && !e.status.StatusUnknown? then Some(e.status) else result.status,
                                    if e.Verdict? then [TriggeredRule(Some(e.action))] else result.rules)])
  {
    if e.Verdict? && |result.rules| == 1 {
      assert result.rules[0 := TriggeredRule(Some(e.action))] == [TriggeredRule(Some(e.action))];
    }
    var r := Response(token, [result]);
    assert Edited(r, e).results == [Edited(r, e).results[0]];
  }

  /** Any edits of an initialised response keep its token, one result and at most one rule;
      each field holds the last value written to it. */
  lemma {:induction false} EditsKeepOneResult(request: Request, edits: seq<Edit>)
    requires InitResponse(request).Some?
    ensures EditedAll(InitResponse(request).value, edits)
         == Response(request.token,
                     [Result(LastTag(edits, if |request.tags| > 0 && request.tags[0] != "" then Some(request.tags[0]) else None),
                             LastStatus(edits, Some(StatusSuccess)),
                             LastVerdict(edits))])
    ensures |LastVerdict(edits)| <= 1
  {
    if edits != [] {
      var front, e := edits[..|edits| - 1], edits[|edits| - 1];
      assert edits == front + [e];
      EditedAllSnoc(InitResponse(request).value, front, e);
      EditsKeepOneResult(request, front);
      EditOneResult(request.token, EditedAll(InitResponse(request).value, front).results[0], e);
    } else {
      var tag := if |request.tags| > 0 then request.tags[0] else "";
      assert InitResponse(request).value.results == [Updated(Response(request.token, []), tag, StatusSuccess).results[0]];
    }
  }
}
