/**
 * The records of internal/models/models.go, as values. JSON tags are not modelled;
 * a Go pointer field becomes an Option.
 */
module Models {
  import opened Wrappers

  /** Basic contact information held by the directory. */
  datatype Contact = Contact(
    id: string,
    firstName: string,
    lastName: string,
    email: string,
    phone: string,
    company: string,
    jobTitle: string)

  /** The four states of an enrichment. */
  datatype EnrichmentStatus = Pending | InProgress | Completed | Failed

  /** A provider known to the directory. */
  datatype Provider = Provider(id: string, name: string, imageUrl: string)

  /** Per-job progress shown to the client; `currentProvider` is the Go `*Provider`. */
  datatype JobStatus = JobStatus(
    currentProvider: Option<Provider>,
    result: string,
    message: string,
    pending: bool)

  /** The values found so far; an empty string is "not found" or "not yet set". */
  datatype EnrichmentResult = EnrichmentResult(phone: string, email: string)

  /** The optional hint a client may send with a start request. */
  datatype EnrichmentContactInfo = EnrichmentContactInfo(
    linkedInUrl: string,
    twitterHandle: string,
    gitHubUsername: string,
    bio: string,
    location: string,
    skills: seq<string>,
    companies: seq<string>)

  /** A third-party profile, keyed in the directory by lower-cased full name. */
  datatype ThirdPartyInfo = ThirdPartyInfo(
    fullName: string,
    linkedInUrl: string,
    twitterHandle: string,
    gitHubUsername: string,
    bio: string,
    location: string,
    skills: seq<string>,
    companies: seq<string>)
}
