/**
 * `DeploymentsComponent`: the list request, the state `useAsync` keeps for it,
 * and the choice between the progress bar, the error banner and the table.
 */
module DeploymentsView {
  import opened Wrappers
  import opened Records
  import Links
  import Uninstall
  import opened RowTransform

  /** Asks for exactly the four fields a `Deployment` record holds. */
  const IncludeQuery: string := "?_include=id,display_name,blueprint_id,labels"

  function ListUrl(backend: string): string {
    backend + (Uninstall.ProxyPath + ("deployments" + IncludeQuery))
  }

  /** The one list request: `fetch` with no options, so a GET without headers or body. */
  function ListRequest(backend: string): Uninstall.Request {
    Uninstall.Request("GET", ListUrl(backend), [], "")
  }

  /**
   * The list request is a bare GET to the deployments endpoint of the same
   * backend proxy the uninstall requests go to, and it is never mistaken for one.
   */
  lemma ListRequestContents(backend: string, id: string)
    ensures var req, uninstall := ListRequest(backend), Uninstall.UninstallRequest(backend, id);
      && req.verb == "GET" && req.headers == [] && req.body == ""
      && req.url[..|backend + Uninstall.ProxyPath|] == backend + Uninstall.ProxyPath
      && uninstall.url[..|backend + Uninstall.ProxyPath|] == backend + Uninstall.ProxyPath
      && req != uninstall
  {
    SharedPrefix(backend, Uninstall.ProxyPath, "deployments" + IncludeQuery);
    SharedPrefix(backend, Uninstall.ProxyPath, "executions");
    assert "GET" != "POST" by { assert |"GET"| != |"POST"|; }
  }

  /** `a + b` is the start of `a + (b + c)`, for any pieces. */
  lemma SharedPrefix(a: string, b: string, c: string)
    ensures (a + (b + c))[..|a + b|] == a + b
  {
    assert a + (b + c) == (a + b) + c;
  }

  /**
   * What the list request came to: the `fetch` promise rejected, or a response
   * with its `ok` flag and what reading `(await response.json()).items` gave.
   */
  datatype ListReply = FetchRejected(message: string) | Replied(ok: bool, body: ListBody)

  /**
   * `Throws`: the body is not JSON, or it is `null` so reading `.items` throws.
   * `Items`: a JSON object; its `items` field, None when that is missing or `null`.
   */
  datatype ListBody = Throws(message: string) | Items(items: Option<seq<Deployment>>)

  /** The `{ value, loading, error }` triple of `useAsync`; `error` holds the error's message. */
  datatype AsyncState = AsyncState(loading: bool, error: Option<string>, value: Option<seq<Deployment>>)

  /** Before the request settles. */
  const Pending: AsyncState := AsyncState(true, None, None)

  /** The state once the async function has settled: resolved with `data.items`, or rejected. */
  function Settle(reply: ListReply): (s: AsyncState)
    ensures !s.loading
    ensures s.error.Some? <==> reply.FetchRejected? || reply.body.Throws?
    ensures reply.FetchRejected? ==> s.error == Some(reply.message)
    ensures reply.Replied? && reply.body.Throws? ==> s.error == Some(reply.body.message)
    ensures s.error.Some? ==> s.value.None?
    ensures s.error.None? ==> s.value == reply.body.items
  {
    match reply
    case FetchRejected(m) => AsyncState(false, Some(m), None)
    case Replied(_, Throws(m)) => AsyncState(false, Some(m), None)
    case Replied(_, Items(items)) => AsyncState(false, None, items)
  }

  datatype View = Progress | ErrorBanner(message: string) | Table(rows: seq<Row>)

  /** What the component renders for a state. */
  function Render(s: AsyncState): (v: View)
    ensures s.loading ==> v == Progress
    ensures !s.loading && s.error.Some? ==> v == ErrorBanner(s.error.value)
    ensures !s.loading && s.error.None? ==> v.Table? && v.rows == Rows(Links.ManagerUrl, Uninstall.BackendUrl, s.value.GetOr([]))
  {
    if s.loading then Progress
    else if s.error.Some? then ErrorBanner(s.error.value)
    else Table(Rows(Links.ManagerUrl, Uninstall.BackendUrl, s.value.GetOr([])))
  }

  // ---- properties --------------------------------------------------------

  /** While the request is in flight the progress bar shows, whatever else the state holds. */
  lemma LoadingWins(error: Option<string>, value: Option<seq<Deployment>>)
    ensures Render(AsyncState(true, error, value)) == Progress
    ensures Render(Pending) == Progress
  {
  }

  /**
   * Once settled, the view is the error banner exactly when the request or
   * reading its body failed, showing that failure's message, and otherwise a table with one row per item,
   * empty when the body has no `items`.
   */
  lemma SettledView(reply: ListReply)
    ensures var v := Render(Settle(reply));
      && v != Progress
      && (v.ErrorBanner? <==> reply.FetchRejected? || reply.body.Throws?)
      && (reply.FetchRejected? ==> v == ErrorBanner(reply.message))
      && (reply.Replied? && reply.body.Throws? ==> v == ErrorBanner(reply.body.message))
      && (reply.Replied? && reply.body.Items? ==>
            v.Table? && |v.rows| == |reply.body.items.GetOr([])|
            && forall i :: 0 <= i < |v.rows| ==> v.rows[i].idText == reply.body.items.GetOr([])[i].id)
  {
  }

  /** The list request never looks at the status: a non-2xx reply renders like a 2xx one. */
  lemma StatusIgnored(body: ListBody)
    ensures Render(Settle(Replied(false, body))) == Render(Settle(Replied(true, body)))
    ensures body.Items? ==> Render(Settle(Replied(false, body))).Table?
  {
  }
}
