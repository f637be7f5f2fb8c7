/**
 * The ingest document as the compound processor sees it: a mutable object
 * whose ingest-metadata map is threaded through every processor of a chain.
 * The source/data payload is not part of this model (no processor here reads
 * or writes it).
 */
module IngestDocuments {

  /** Ingest metadata: string keys to string values. */
  type Metadata = map<string, string>

  class IngestDocument {
    /** The ingest-metadata map, updated in place by the failure handling. */
    var ingestMetadata: Metadata

    /** A fresh document, as every test starts from: both maps empty. */
    constructor ()
      ensures ingestMetadata == map[]
    {
      ingestMetadata := map[];
    }

    /** Puts one entry, overwriting any previous value under `key`. */
    method PutIngestMetadata(key: string, value: string)
      modifies this
      ensures ingestMetadata == old(ingestMetadata)[key := value]
      ensures key in ingestMetadata && ingestMetadata[key] == value
      ensures ingestMetadata.Keys == old(ingestMetadata).Keys + {key}
    {
      ingestMetadata := ingestMetadata[key := value];
    }
  }
}
