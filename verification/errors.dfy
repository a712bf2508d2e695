/** The exceptions that escape the pipeline to its caller. Errors that the
    source catches and logs (a failed embedding, a failed search) never appear
    here: they are recovered where they happen. */
module Errors {

  datatype Error =
    | MissingApiKey        // the describer is on but no API key is configured
    | DescriptionFailed    // the description model raised
    | ExistsCheckFailed    // the app's own existence check, before any ingestion, raised
    | IndexDropFailed      // the existence check or the deletion of the old index raised
    | IndexCreationFailed  // the store refused to create the index
    | BulkFailed           // the store refused a bulk load
}
