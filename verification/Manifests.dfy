/** The manifest sidecar of a snapshot, as far as the release machine reads it. */
module Manifests {
  type Bytes = string

  /** A SHA-256 is taken as the wrapped content itself: it has no collisions.  Each
      kind of hashed file has its own digest type. */
  datatype SnapshotId = SnapshotId(of: Bytes)
  datatype ManifestId = ManifestId(of: Body)

  /** Probe field -> ids returned for that field's term. */
  type Answers = map<string, set<string>>
  type Terms = map<string, string>

  /** A manifest without its self-hash; `fts` is the expected full-text table,
      `http` the expected timeline answers for `terms`. */
  datatype Body = Body(snapshot: SnapshotId, fts: Bytes, terms: Terms, http: Answers)

  /** A sidecar file.  `consumable` says that a self-consistent manifest also meets
      the stricter contract of `_load_manifest`. */
  datatype Sidecar = Malformed(raw: Bytes) | Manifest(body: Body, consumable: bool)
}
