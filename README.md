# Cloudify deployments card: a Dafny model

This project models the deployments card of a Backstage plugin for the
Cloudify orchestrator (`DeploymentsComponent.tsx`). The card asks the Backstage
backend proxy for the manager's deployments. It shows a progress bar while the
request runs, an error banner if the request fails, and otherwise a table.
Each row of the table has:

- a blueprint icon and the deployment id, both linking to the deployment's page
  in the Cloudify console;
- the display name, falling back to the id;
- the blueprint id;
- the labels flattened to `key: value` lines;
- an Uninstall button that POSTs an `uninstall` execution and reports the outcome
  in an alert.

Modules, one per concern of the component:

- `Records`: the JSON records as the component sees them. A property can be
  missing, `null` or a string.
- `Labels`: `resolveLabels`. The imperative `for … of` loop is a `method` proved
  equal to the recursive `LabelText`. The lemmas about `LabelText` say what the
  text is: one line per defined entry, in order.
- `Links`: the image URL and the deep link. Each has a reader that recovers the
  blueprint id or the deployment id, and the round trips are proved.
- `JsonText`: the part of `JSON.stringify` that the request body uses. This is
  the ECMAScript QuoteJSONString algorithm applied to string-valued objects. A
  decoder is included, and `Unescape(Escape(s)) == Some(s)` is proved.
- `Uninstall`: the execution request (method, URL, headers, body) and the alert
  that follows the reply.
- `RowTransform`: `deployments.map(...)`, which turns each deployment into a row.
- `DeploymentsView`: settling the list request and choosing what to render.

The manager and backend base URLs are the source's literal placeholders
`http://${CLOUDIFY_MANAGER_IP}` and `http://${BACKSTAGE_BACKEND_IP}:7007`.
They are single-quoted in the source, so no interpolation happens. The row
functions and link functions take the base URL as a parameter, and the view
passes in these constants.

### Behaviour worth noting

- **Deep link.** The id appears at **four** positions in the deep link: in the
  path, in the two `deploymentId` contexts and in `pageName`.
  `Links.DeepLink` is a four-hole template.
- **List request status.** The list request never reads `response.ok`. A non-2xx
  reply whose body parses to an object without `items` renders an empty table
  (`value || []`). An error banner appears only in three cases:
  - the fetch rejects;
  - `response.json()` throws;
  - the body parses to `null`, so that reading `data.items` throws.

  See `DeploymentsView.StatusIgnored`.
- **Uninstall alert.** Whether an alert is raised depends on whether the reply
  body parses. `await response.json()` runs before `response.ok` is checked, so a
  body that is not JSON rejects the click handler and shows **no** alert at all.
  This holds for a 2xx reply as well as a non-2xx one. See
  `Uninstall.UninstallOutcome`.
- **Label text.** For an element that is present, a missing property prints as
  `undefined` and a `null` property prints as `null`. A `null` element passes
  the `!== undefined` test, and optional chaining then yields `undefined` for
  both of its parts. See `Labels.LineQuirks`.

## Model

| member | source | states |
|---|---|---|
| Labels.ResolveLabels | src/components/DeploymentsComponent/DeploymentsComponent.tsx:39-47 | The loop's result is exactly `LabelText` of the whole input. The invariant is that after `i` entries the accumulator is the text of the first `i`. |
| Labels.LabelTextAppend | src/components/DeploymentsComponent/DeploymentsComponent.tsx:41-45 | The text of two lists joined is the text of the first followed by the text of the second, so entries are appended in order. |
| Labels.LabelTextIsLinesOfDefinedSlots | src/components/DeploymentsComponent/DeploymentsComponent.tsx:41-45 | The label text is the concatenation of one `key: value\n` line per non-`undefined` entry, in input order. |
| Labels.DefinedSlots | src/components/DeploymentsComponent/DeploymentsComponent.tsx:42 | The kept entries contain no `undefined`. As a multiset they are the input with every `undefined` removed and nothing else lost. |
| Labels.LabelTextAllUndefined | src/components/DeploymentsComponent/DeploymentsComponent.tsx:40-46 | A list made only of `undefined` entries, including the empty list, gives the empty string. |
| Labels.LabelTextSingle | src/components/DeploymentsComponent/DeploymentsComponent.tsx:42-44 | One entry contributes nothing if it is `undefined` and its line otherwise. |
| Labels.LineQuirks | src/components/DeploymentsComponent/DeploymentsComponent.tsx:42-43 | A `null` element gives `undefined: undefined`. A missing key or value prints `undefined`, and `null` properties print `null`. |
| Links.ImageUrlRoundTrip | src/components/DeploymentsComponent/DeploymentsComponent.tsx:61 | Reading the blueprint id back from the image URL returns it. A URL reads back a given blueprint id exactly when it is that id's image URL. |
| Links.FourHoles | src/components/DeploymentsComponent/DeploymentsComponent.tsx:62-67 | In a four-hole template such as the deep link: the length, the same id at each of the four positions, and every fixed piece between them. |
| Links.TemplateRoundTrip | src/components/DeploymentsComponent/DeploymentsComponent.tsx:62-67 | The template reader recovers the value filled into all four holes. |
| Links.DeepLinkRoundTrip | src/components/DeploymentsComponent/DeploymentsComponent.tsx:62-67 | The id is recovered from the deep link. A link reads back an id exactly when it is that id's deep link. |
| Links.DeepLinkInjective | src/components/DeploymentsComponent/DeploymentsComponent.tsx:62-67 | Different ids give different deep links. |
| JsonText.UnescapeEscape | src/components/DeploymentsComponent/DeploymentsComponent.tsx:93-96 | Decoding the JSON string escape of any string gives that string back. |
| JsonText.EscapeInjective | src/components/DeploymentsComponent/DeploymentsComponent.tsx:93-96 | Different strings have different JSON escapes. |
| JsonText.StringifyTwoMembers | src/components/DeploymentsComponent/DeploymentsComponent.tsx:93-96 | A two-member string object is written as `{<quoted k0>:"<escaped v0>",<quoted k1>:<quoted v1>}`, members in insertion order. The escaped first value stands between two texts that depend only on the keys and the second value. |
| JsonText.EscapePlain | src/components/DeploymentsComponent/DeploymentsComponent.tsx:94 | A string with no quote, backslash or control character is written unchanged. |
| Uninstall.UninstallBodyShape | src/components/DeploymentsComponent/DeploymentsComponent.tsx:93-96 | The body is the fixed text `{"deployment_id":"`, then the escaped id, then `","workflow_id":"uninstall"}`. |
| Uninstall.PlainIdBody | src/components/DeploymentsComponent/DeploymentsComponent.tsx:93-96 | For an id with no character that needs escaping, the body holds the id verbatim. |
| Uninstall.UninstallBodyRoundTrip | src/components/DeploymentsComponent/DeploymentsComponent.tsx:93-96 | Parsing the body recovers exactly the deployment id. |
| Uninstall.UninstallRequestContents | src/components/DeploymentsComponent/DeploymentsComponent.tsx:87-100 | The request is a POST to the backend's executions path with the two fixed headers, and its body names the deployment id. |
| Uninstall.UninstallRequestInjective | src/components/DeploymentsComponent/DeploymentsComponent.tsx:87-100 | Two deployments with different ids send different requests. |
| Uninstall.UninstallOutcome | src/components/DeploymentsComponent/DeploymentsComponent.tsx:98-107 | An alert appears exactly when the fetch resolves and the body parses. It is the success text exactly when the reply is also ok, and `Error` exactly when it is not. |
| RowTransform.DisplayName | src/components/DeploymentsComponent/DeploymentsComponent.tsx:81 | A truthy display name is shown as is. A missing, null or empty one is replaced by the id. |
| RowTransform.MapSeq | src/components/DeploymentsComponent/DeploymentsComponent.tsx:60 | Mapping keeps the length, and element `i` of the result is the function applied to element `i`. |
| RowTransform.MapSeqAppend | src/components/DeploymentsComponent/DeploymentsComponent.tsx:60 | Mapping a joined list gives the joined mapped lists. |
| RowTransform.Rows | src/components/DeploymentsComponent/DeploymentsComponent.tsx:60-114 | There is one row per deployment, in order, and row `i` is built from deployment `i` alone. |
| RowTransform.RowsAppend | src/components/DeploymentsComponent/DeploymentsComponent.tsx:60-114 | The rows of two joined lists are the rows of each, one after the other. |
| RowTransform.RowContents | src/components/DeploymentsComponent/DeploymentsComponent.tsx:60-97 | For a row, read back from the row alone: the icon and id cells share one deep link, and it names the id. The image URL names the blueprint. The image alt and the id cell are the id. The display name and the label text are as above. The uninstall request is a POST to the executions path with the fixed headers, and its body names the id. |
| RowTransform.RowsDistinguishIds | src/components/DeploymentsComponent/DeploymentsComponent.tsx:60-100 | Rows of deployments with different ids link to different pages and send different uninstall requests. |
| Labels.LabelText | src/components/DeploymentsComponent/DeploymentsComponent.tsx:39-47 | The label text as a recursive definition, with no contract of its own. `Labels.ResolveLabels` proves the loop computes it, and `Labels.LabelTextIsLinesOfDefinedSlots` and `Labels.LabelTextAppend` state what it is. |
| Links.ImageUrl | src/components/DeploymentsComponent/DeploymentsComponent.tsx:61 | The icon URL, with no contract of its own. `Links.ImageUrlRoundTrip` states that it determines the blueprint id and is the only URL that reads back that id. |
| Links.DeepLink | src/components/DeploymentsComponent/DeploymentsComponent.tsx:62-67 | The deep link, with no contract of its own. The pieces are the source's literals around four copies of the id. `Links.FourHoles` gives its layout, and `Links.DeepLinkRoundTrip` and `Links.DeepLinkInjective` state that it determines the id. |
| JsonText.Escape | src/components/DeploymentsComponent/DeploymentsComponent.tsx:93-96 | The escaping of a string value as ECMAScript QuoteJSONString does it, with no contract of its own. `JsonText.UnescapeEscape`, `JsonText.EscapeInjective` and `JsonText.EscapePlain` state its properties. |
| JsonText.StringifyObject | src/components/DeploymentsComponent/DeploymentsComponent.tsx:93-96 | `JSON.stringify` of an object with string-valued members, with no contract of its own. `JsonText.StringifyTwoMembers` states its layout for two members. |
| Uninstall.UninstallBody | src/components/DeploymentsComponent/DeploymentsComponent.tsx:93-96 | The request body, with no contract of its own. `Uninstall.UninstallBodyShape`, `Uninstall.PlainIdBody` and `Uninstall.UninstallBodyRoundTrip` state what it contains. |
| Uninstall.UninstallRequest | src/components/DeploymentsComponent/DeploymentsComponent.tsx:87-100 | The request of the click handler, with no contract of its own. `Uninstall.UninstallRequestContents` and `Uninstall.UninstallRequestInjective` state its contents. |
| RowTransform.ToRow | src/components/DeploymentsComponent/DeploymentsComponent.tsx:60-114 | The `map` callback, with no contract of its own. `RowTransform.RowContents` states every cell of the row it builds. |
| DeploymentsView.ListRequest | src/components/DeploymentsComponent/DeploymentsComponent.tsx:129-132 | The list request, with no contract of its own. `DeploymentsView.ListRequestContents` states its contents. |
| DeploymentsView.ListRequestContents | src/components/DeploymentsComponent/DeploymentsComponent.tsx:129-132 | The list request is a GET with no headers and no body, since `fetch` gets no options. It goes to the same backend proxy path as the uninstall requests, and it never equals an uninstall request. |
| DeploymentsView.Settle | src/components/DeploymentsComponent/DeploymentsComponent.tsx:127-136 | After settling the state is not loading. There is an error exactly when the fetch rejects, or when reading the body throws: it is not JSON, or it is `null` so that `data.items` throws. The error carries the message of that rejection or throw, and then no value is kept. Otherwise the value is the body's `items`, which may be absent. |
| DeploymentsView.Render | src/components/DeploymentsComponent/DeploymentsComponent.tsx:138-144 | Loading shows progress, whatever the error and value are. Otherwise an error shows its message. Otherwise the table shows the rows of `value`, or of the empty list when there is no value. |
| DeploymentsView.LoadingWins | src/components/DeploymentsComponent/DeploymentsComponent.tsx:138-139 | While loading, including the initial state, the progress bar is shown. |
| DeploymentsView.SettledView | src/components/DeploymentsComponent/DeploymentsComponent.tsx:127-144 | A settled request never shows progress. It shows the error banner exactly when the fetch rejected or reading the body threw, and the banner shows that failure's message. Otherwise there is one table row per item, carrying that item's id. |
| DeploymentsView.StatusIgnored | src/components/DeploymentsComponent/DeploymentsComponent.tsx:129-135 | A non-ok reply renders exactly as an ok reply with the same body. A parsed non-ok reply renders a table, never an error. |

## Left out

- JSX, the styles (`makeStyles`, the avatar class) and the column titles are
  presentation only. A row is modelled as the values its cells carry.
- The `Table` widget's search, paging and page size (line 119) are not modelled,
  since they are behaviour of a library component.
- `fetch`, `response.json()`, `alert` and `useAsync` are I/O. A reply is a
  parameter of the model: whether the fetch rejected, `response.ok`, and whether
  the body parses or what it parsed to. The JSON decoder of the list reply is
  not modelled, and its result is given directly as the records.
- Concurrency is not modelled: several clicks in flight, and the async hook
  re-running or being cancelled on unmount.
- The label fields `created_at` and `creator_id` are declared in the source type
  but never read.
- Records.Deployment: `id` and `blueprint_id` are modelled as strings, as the
  source's type declares. A record lacking them, or a `labels` property that is
  not an array (which `for … of` would throw on), is not modelled.
- Labels.LabelText: label properties that are non-string JSON values (numbers,
  booleans, objects) are not modelled. Only missing, `null` and string are.
- JsonText.Unescape decodes the JSON string grammar of RFC 8259, section 7, with
  one exception: a `\u` escape that denotes half of a surrogate pair is
  rejected, because Dafny characters are Unicode scalar values. The grammar
  includes `\/`, hex digits in either case and a `\uXXXX` escape of any other
  character, so other spellings of the same text decode too. For the same
  reason, lone surrogates in a deployment id do not arise, although
  `JSON.stringify` would write them as `\udxxx`.
- Uninstall.ParseUninstallBody: `ParseUninstallBody(body) == Some(id)` does not
  force `body == UninstallBody(id)`. A body that spells some of the id's
  characters as `\u` escapes reads back the same id. The exact body is pinned by
  `Uninstall.UninstallBodyShape`.
- URL structure is not modelled. The links are plain string concatenation, just
  as in the source, and no percent-encoding of the id happens.
