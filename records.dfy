/**
 * The records the deployments endpoint returns, as far as the component reads
 * them.  Fields the component concatenates or tests for truthiness may be
 * missing or `null` in the JSON, so they are a `Field`; `id` and
 * `blueprint_id` are taken as always present strings.
 */
module Records {

  /** A JavaScript value read from a JSON record: missing (`undefined`), `null`, or a string. */
  datatype Field = Absent | Null | Text(s: string)

  /** What the `+` operator of JavaScript inserts for a field that is concatenated to a string. */
  function FieldText(f: Field): string {
    match f
    case Absent => "undefined"
    case Null => "null"
    case Text(s) => s
  }

  /**
   * One slot of a deployment's `labels` array.  `created_at` and `creator_id`
   * are not read by the component and are not kept.
   */
  datatype LabelSlot = Undefined | NullLabel | Label(key: Field, value: Field)

  datatype Deployment = Deployment(id: string, displayName: Field, blueprintId: string, labels: seq<LabelSlot>)
}
