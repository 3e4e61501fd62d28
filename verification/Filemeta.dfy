/** A folder's metadata map as the relay server publishes it. */
module Filemeta {
  import opened Common
  import opened Dict

  /** File contents. A digest is represented by the contents it belongs to. */
  type Body = string

  /**
   * Absent keys are `None`; so is an empty hash, which the source treats alike.
   * `other` stands for the remaining keys, which only count when entries are compared.
   */
  datatype Meta = NotADict | Meta(id: Option<string>, typ: Option<string>, hash: Option<Body>, other: string)

  type Filemeta = Dict<Meta>

  predicate HasId(m: Meta) { m.Meta? && m.id.Some? }

  predicate IsFolder(m: Meta) { m.Meta? && m.typ == Some("folder") }

  /** What `_file_entry_count` counts. */
  predicate IsFileEntry(m: Meta) { HasId(m) && !IsFolder(m) }

  /** An entry a pass acts on: a file entry whose id is not empty. */
  predicate IsFile(m: Meta) { IsFileEntry(m) && m.id.value != "" }

  function FileCount(fm: Filemeta): nat {
    if fm == [] then 0 else FileCount(fm[..|fm| - 1]) + (if IsFileEntry(fm[|fm| - 1].1) then 1 else 0)
  }

  function Files(fm: Filemeta): Filemeta {
    if fm == [] then []
    else Files(fm[..|fm| - 1]) + (if IsFile(fm[|fm| - 1].1) then [fm[|fm| - 1]] else [])
  }

  /** The entries of `latest` that are new or differ from `before`. */
  function Changed(before: Filemeta, latest: Filemeta): Filemeta {
    if latest == [] then []
    else
      Changed(before, latest[..|latest| - 1])
      + (if Get(before, latest[|latest| - 1].0) == Some(latest[|latest| - 1].1) then [] else [latest[|latest| - 1]])
  }
}
