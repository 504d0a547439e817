/** Thread manifests, as far as the pipeline looks at them. */
module Manifest {
  import opened Wrappers

  datatype Role = Foreground | Background

  /** A member of a JSON object: missing, `null`, or a value. */
  datatype Json<+T> = Absent | Null | Value(value: T)

  datatype Entry = Entry(role: Role, idType: string, prefix: Json<string>, length: Json<int>)

  datatype Manifest = Manifest(
    application: string,
    identification: string,
    rationale: string,
    defaultRole: Option<Role>,
    threads: seq<Entry>)

  /** Python's `p[:n]`; `None` means no bound, a negative bound counts from the end. */
  function Slice(p: string, n: Option<int>): (r: string)
    ensures r <= p
    ensures n.Some? && n.value >= 0 ==> |r| == if n.value < |p| then n.value else |p|
    ensures n.Some? && n.value < 0 ==> |r| == if |p| + n.value > 0 then |p| + n.value else 0
    ensures n.None? ==> r == p
  {
    if n.None? || n.value >= |p| then p
    else if n.value >= 0 then p[..n.value]
    else if |p| + n.value > 0 then p[..|p| + n.value]
    else ""
  }
}
