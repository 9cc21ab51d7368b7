/** Request headers for the source and the destination server, chosen from the
    credentials configured for each side. */
module Headers {
  import opened JsValues

  const CONTENT_TYPE := "content-type"
  const JSON_MEDIA_TYPE := "application/json"
  const API_KEY_HEADER := "x-token"
  const JWT_HEADER := "x-jwt-token"

  datatype User = User(token: Option<string>)

  /** The parts of a configured server client that decide its headers. */
  datatype Credentials = Credentials(apiKey: Option<string>, currentUser: Option<User>)

  /** `formio && formio.apiKey`: a client with a non-empty API key. */
  predicate HasApiKey(formio: Option<Credentials>) {
    formio.Some? && formio.value.apiKey.Some? && formio.value.apiKey.value != ""
  }

  /** `formio && formio.currentUser && formio.currentUser.token`. */
  predicate HasUserToken(formio: Option<Credentials>) {
    formio.Some? && formio.value.currentUser.Some?
    && formio.value.currentUser.value.token.Some? && formio.value.currentUser.value.token.value != ""
  }

  /** The headers a client's credentials call for: the JSON content type always;
      `x-token` with the API key when there is one, otherwise `x-jwt-token` with
      the user's token when there is one; never both, and no other key. */
  predicate HeadersFor(formio: Option<Credentials>, headers: map<string, string>) {
    && CONTENT_TYPE in headers && headers[CONTENT_TYPE] == JSON_MEDIA_TYPE
    && headers.Keys <= {CONTENT_TYPE, API_KEY_HEADER, JWT_HEADER}
    && !(API_KEY_HEADER in headers && JWT_HEADER in headers)
    && (HasApiKey(formio) ==>
          API_KEY_HEADER in headers && headers[API_KEY_HEADER] == formio.value.apiKey.value && JWT_HEADER !in headers)
    && (!HasApiKey(formio) && HasUserToken(formio) ==>
          JWT_HEADER in headers && headers[JWT_HEADER] == formio.value.currentUser.value.token.value
          && API_KEY_HEADER !in headers)
    && (!HasApiKey(formio) && !HasUserToken(formio) ==> headers.Keys == {CONTENT_TYPE})
  }

  /** Builds the header object by assigning keys one at a time: the content type
      always, then the API key if there is one, otherwise the session token. */
  method BuildHeaders(formio: Option<Credentials>) returns (headers: map<string, string>)
    ensures HeadersFor(formio, headers)
  {
    headers := map[CONTENT_TYPE := JSON_MEDIA_TYPE];
    if HasApiKey(formio) {
      headers := headers[API_KEY_HEADER := formio.value.apiKey.value];
    } else if HasUserToken(formio) {
      headers := headers[JWT_HEADER := formio.value.currentUser.value.token.value];
    }
  }
}
