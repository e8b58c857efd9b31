/** File content and its digest.

  SHA-256 is modelled as an injective constructor: two contents have the same
  digest exactly when they are the same content. */
module Content {
  import opened Wrappers

  newtype byte = x: int | 0 <= x < 256
  type Bytes = seq<byte>
  type Path = string

  datatype Digest = Sha256(content: Bytes)

  type Files = map<Path, Bytes>

  function Get(files: Files, path: Path): Option<Bytes> {
    if path in files then Some(files[path]) else None
  }

  /** The file tree with one path written, or removed when there is no content. */
  function Put(files: Files, path: Path, content: Option<Bytes>): Files {
    if content.Some? then files[path := content.value] else files - {path}
  }

  function Hash(content: Option<Bytes>): Option<Digest> {
    if content.Some? then Some(Sha256(content.value)) else None
  }

  /** What `_path_hash` reads back: no digest for a missing file. */
  function HashAt(files: Files, path: Path): Option<Digest> {
    Hash(Get(files, path))
  }
}
