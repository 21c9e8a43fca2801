/** The identifiers the modules share, each told apart by its bytes. */
module Ids {
  type PdnId = int
  type NamespaceId = int
  type Hash = int

  datatype PodId = PodId(bytes: int)
}
