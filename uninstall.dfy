/**
 * The Uninstall button of a row: the request it sends to start the
 * `uninstall` workflow and the alert it raises from the reply.
 */
module Uninstall {
  import opened Wrappers
  import opened JsonText

  /** The backend base URL as the source writes it (single quotes: `${...}` is literal text). */
  const BackendUrl: string := "http://${BACKSTAGE_BACKEND_IP}:7007"

  /** The Cloudify REST API as the Backstage backend proxies it. */
  const ProxyPath: string := "/api/proxy/cloudify/api/"

  const ExecutionsPath: string := ProxyPath + "executions"

  datatype Request = Request(verb: string, url: string, headers: seq<(string, string)>, body: string)

  const UninstallHeaders: seq<(string, string)> := [("Content-Type", "application/json"), ("Tenant", "default_tenant")]

  /** `JSON.stringify({'deployment_id': id, 'workflow_id': 'uninstall'})`. */
  function UninstallBody(id: string): string {
    StringifyObject([("deployment_id", id), ("workflow_id", "uninstall")])
  }

  /** The `fetch` call of the click handler: its URL and its options. */
  function UninstallRequest(backend: string, id: string): Request {
    Request("POST", backend + ExecutionsPath, UninstallHeaders, UninstallBody(id))
  }

  // ---- reading the body back ---------------------------------------------

  /** Everything before the escaped id in the body, and everything after it. */
  const BodyOpen: string := "{" + Quote("deployment_id") + ":" + "\""
  const BodyClose: string := "\"" + "," + (Quote("workflow_id") + ":" + Quote("uninstall")) + "}"

  /** The middle of `s` between a given opening and closing text, if `s` has both. */
  function Between(open: string, close: string, s: string): Option<string> {
    if |open| + |close| <= |s| && s[..|open|] == open && s[|s| - |close|..] == close
    then Some(s[|open|..|s| - |close|])
    else None
  }

  /** The deployment id of a body that asks for the `uninstall` workflow, if it is one. */
  function ParseUninstallBody(body: string): Option<string> {
    match Between(BodyOpen, BodyClose, body)
    case Some(escaped) => Unescape(escaped)
    case None => None
  }

  // ---- properties --------------------------------------------------------

  lemma BetweenRoundTrip(open: string, mid: string, close: string)
    ensures Between(open, close, open + mid + close) == Some(mid)
  {
    var s := open + mid + close;
    assert s[..|open|] == open;
    assert s[|s| - |close|..] == close;
    assert s[|open|..|s| - |close|] == mid;
  }

  /** The body is the id, escaped, between two fixed texts. */
  lemma UninstallBodyShape(id: string)
    ensures UninstallBody(id) == BodyOpen + Escape(id) + BodyClose
  {
    StringifyTwoMembers("deployment_id", id, "workflow_id", "uninstall");
  }

  /** Round trip: the body names exactly the row's deployment and the `uninstall` workflow. */
  lemma UninstallBodyRoundTrip(id: string)
    ensures ParseUninstallBody(UninstallBody(id)) == Some(id)
  {
    UninstallBodyShape(id);
    BetweenRoundTrip(BodyOpen, Escape(id), BodyClose);
    UnescapeEscape(id);
  }

  /** For an id of plain characters the body is the id itself between the two fixed texts. */
  lemma PlainIdBody(id: string)
    requires forall i :: 0 <= i < |id| ==> Plain(id[i])
    ensures UninstallBody(id) == BodyOpen + id + BodyClose
  {
    UninstallBodyShape(id);
    EscapePlain(id);
  }

  /**
   * The request is a POST to the executions endpoint with the two fixed
   * headers, and its body names exactly the given deployment and the
   * `uninstall` workflow.
   */
  lemma UninstallRequestContents(backend: string, id: string)
    ensures var req := UninstallRequest(backend, id);
      && req.verb == "POST"
      && req.url == backend + ExecutionsPath
      && req.headers == [("Content-Type", "application/json"), ("Tenant", "default_tenant")]
      && ParseUninstallBody(req.body) == Some(id)
  {
    UninstallBodyRoundTrip(id);
  }

  /** Distinct rows send distinct requests. */
  lemma UninstallRequestInjective(backend: string, a: string, b: string)
    requires UninstallRequest(backend, a) == UninstallRequest(backend, b)
    ensures a == b
  {
    UninstallBodyRoundTrip(a);
    UninstallBodyRoundTrip(b);
  }

  // ---- the outcome ---------------------------------------------------------

  /**
   * What came back for the request: the `fetch` promise rejected, or a
   * response with its `ok` flag and whether `response.json()` succeeded.
   */
  datatype Reply = Rejected | Replied(ok: bool, bodyParses: bool)

  datatype Notification = NoAlert | Alert(text: string)

  const SuccessText: string := "Deployment uninstalled successfully"
  const ErrorText: string := "Error"

  /**
   * The alert raised after the request.  A rejected fetch or a body that is
   * not JSON ends the handler before either alert.
   */
  function UninstallOutcome(reply: Reply): (n: Notification)
    ensures n != NoAlert <==> reply.Replied? && reply.bodyParses
    ensures n == Alert(SuccessText) <==> reply.Replied? && reply.bodyParses && reply.ok
    ensures n == Alert(ErrorText) <==> reply.Replied? && reply.bodyParses && !reply.ok
  {
    match reply
    case Rejected => NoAlert
    case Replied(ok, parses) =>
      if !parses then NoAlert
      else if ok then Alert(SuccessText)
      else if !ok then Alert(ErrorText)
      else NoAlert
  }
}
