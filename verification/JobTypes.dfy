/** The error vocabulary of src/job-types.ts that the modelled operations use. */
module JobTypes {

  datatype StoreError =
    | ValidationFailed
    | RequestKeyConflict
    | NotFound
    | ClaimTaken
    | RevisionStale
    | StoreUnavailable
    | StoreCorrupt
}
