/** The clip record as the clip store uses it. */
module Clips {
  import opened Wrappers

  /** Clip identifiers: hex digests or caller-supplied strings. */
  type ClipId = string

  /** A timestamp; the model never inspects it. */
  datatype Date = Date(epochMillis: int)

  /** A copied snippet. `id` is absent until the store assigns one; absent tags are `[]`. */
  datatype Clip = Clip(id: Option<ClipId>, date: Date, data: string, tags: seq<string>)
}
