/**
 * The `deployments.map` of `DenseTable`: one table row per deployment record,
 * carrying the two links, the display name, the label text and the request
 * its Uninstall button sends.
 */
module RowTransform {
  import opened Wrappers
  import opened Records
  import opened Labels
  import opened Links
  import opened Uninstall

  datatype Row = Row(
    iconHref: string,     // the link around the icon
    imageSrc: string,     // the icon image
    imageAlt: string,
    idHref: string,       // the link around the id
    idText: string,
    displayName: string,
    blueprintId: string,
    labels: string,
    uninstall: Request)   // what a click on Uninstall sends

  /** JavaScript truthiness of a field: `undefined`, `null` and the empty string are falsy. */
  predicate Truthy(f: Field) {
    f.Text? && f.s != ""
  }

  /** `deployment.display_name || deployment.id`. */
  function DisplayName(d: Deployment): (name: string)
    ensures d.displayName.Text? && d.displayName.s != "" ==> name == d.displayName.s
    ensures d.displayName.Absent? || d.displayName.Null? || d.displayName == Text("") ==> name == d.id
  {
    if Truthy(d.displayName) then d.displayName.s else d.id
  }

  /** The body of the `map` callback. */
  function ToRow(manager: string, backend: string, d: Deployment): Row {
    var imgSrc := ImageUrl(manager, d.blueprintId);
    var deploymentUrl := DeepLink(manager, d.id);
    Row(deploymentUrl, imgSrc, d.id, deploymentUrl, d.id, DisplayName(d), d.blueprintId,
        LabelText(d.labels), UninstallRequest(backend, d.id))
  }

  /** `Array.prototype.map`: `f` applied to each element, in order. */
  function MapSeq<A, B>(f: A -> B, xs: seq<A>): (ys: seq<B>)
    ensures |ys| == |xs|
    ensures forall i :: 0 <= i < |xs| ==> ys[i] == f(xs[i])
  {
    if xs == [] then [] else [f(xs[0])] + MapSeq(f, xs[1..])
  }

  /** `deployments.map(...)`: one row per deployment, in input order. */
  function Rows(manager: string, backend: string, ds: seq<Deployment>): (rows: seq<Row>)
    ensures |rows| == |ds|
    ensures forall i :: 0 <= i < |ds| ==> rows[i] == ToRow(manager, backend, ds[i])
  {
    MapSeq(d => ToRow(manager, backend, d), ds)
  }

  // ---- properties --------------------------------------------------------

  /**
   * What a row shows, read back from the row alone: both links are the same
   * deep link and it names the deployment's id; the image URL names its
   * blueprint; the uninstall request names the id and the `uninstall` workflow.
   */
  lemma RowContents(manager: string, backend: string, d: Deployment)
    ensures var row := ToRow(manager, backend, d);
      && row.iconHref == row.idHref
      && IdOfDeepLink(manager, row.idHref) == Some(d.id)
      && BlueprintOfImageUrl(manager, row.imageSrc) == Some(d.blueprintId)
      && row.idText == d.id && row.imageAlt == d.id && row.blueprintId == d.blueprintId
      && row.displayName == DisplayName(d)
      && row.labels == LabelText(d.labels)
      && row.uninstall.verb == "POST"
      && row.uninstall.url == backend + ExecutionsPath
      && row.uninstall.headers == [("Content-Type", "application/json"), ("Tenant", "default_tenant")]
      && ParseUninstallBody(row.uninstall.body) == Some(d.id)
  {
    DeepLinkRoundTrip(manager, d.id, DeepLink(manager, d.id));
    ImageUrlRoundTrip(manager, d.blueprintId, ImageUrl(manager, d.blueprintId));
    UninstallRequestContents(backend, d.id);
  }

  /** Mapping works element by element: the images of two lists, one after the other. */
  lemma {:induction false} MapSeqAppend<A, B>(f: A -> B, a: seq<A>, b: seq<A>)
    ensures MapSeq(f, a + b) == MapSeq(f, a) + MapSeq(f, b)
  {
    if a == [] {
      assert a + b == b;
    } else {
      assert (a + b)[0] == a[0];
      assert (a + b)[1..] == a[1..] + b;
      MapSeqAppend(f, a[1..], b);
    }
  }

  /** No row is dropped, added or moved: the rows of two lists are the rows of each, one after the other. */
  lemma RowsAppend(manager: string, backend: string, a: seq<Deployment>, b: seq<Deployment>)
    ensures Rows(manager, backend, a + b) == Rows(manager, backend, a) + Rows(manager, backend, b)
  {
    MapSeqAppend(d => ToRow(manager, backend, d), a, b);
  }

  /**
   * Rows of deployments with different ids have different links and
   * different uninstall requests.
   */
  lemma RowsDistinguishIds(manager: string, backend: string, ds: seq<Deployment>, i: nat, j: nat)
    requires i < |ds| && j < |ds| && ds[i].id != ds[j].id
    ensures Rows(manager, backend, ds)[i].idHref != Rows(manager, backend, ds)[j].idHref
    ensures Rows(manager, backend, ds)[i].uninstall != Rows(manager, backend, ds)[j].uninstall
  {
    var rows := Rows(manager, backend, ds);
    if rows[i].idHref == rows[j].idHref {
      DeepLinkInjective(manager, ds[i].id, ds[j].id);
    }
    if rows[i].uninstall == rows[j].uninstall {
      UninstallRequestInjective(backend, ds[i].id, ds[j].id);
    }
  }
}
