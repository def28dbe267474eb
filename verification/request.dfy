/** What the client reads from a MailjetRequest. How the request builds its
    path and query string is not part of this model; each accessor is a field
    holding its result, and the two that may throw hold a `Result`. */
module MailjetRequest {
  import opened Wrappers
  import opened Collaborators

  datatype Request = Request(
    path: Result<string, Failure>,   // buildUrl()
    query: Result<string, Failure>,  // queryString()
    filters: map<string, string>,    // _filters
    body: string,                    // getBody()
    contentType: string              // getContentType()
  )
}
