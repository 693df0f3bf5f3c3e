/**
 * `validateRequestPath` (src/helpers/validate-path.ts): matches the request
 * URL against `REQUEST_URL_REGEX` and walks a chain of guards.
 */
module ValidatePath {
  import opened Wrappers
  import opened UrlGrammar
  import opened Constants

  /** `ValidatedRequest` (src/types.ts). */
  datatype ValidatedRequest = ValidatedRequest(
    valid: bool,
    message: Option<string>,
    webhookId: Option<string>,
    webhookToken: Option<string>)

  /** `requestParts.groups` of a match: each named group is `undefined` when it did not take part. */
  datatype Groups = Groups(webhookId: Option<string>, webhookToken: Option<string>)

  /** `path.match(REQUEST_URL_REGEX)?.groups`; both groups are mandatory, so a match sets both. */
  function MatchGroups(path: string): Option<Groups> {
    match RequestUrlMatch(path)
    case None => None
    case Some(c) => Some(Groups(Some(c.id), Some(c.token)))
  }

  const InvalidPath: string := "Invalid path."
  const MissingId: string := "Missing webhook id."
  const MissingToken: string := "Missing webhook token."

  function Invalid(message: string): ValidatedRequest {
    ValidatedRequest(false, Some(message), None, None)
  }

  /**
   * The guard chain. Only two outcomes can occur: "Invalid path." when the
   * regex finds no match anywhere in `path`, and a valid result carrying
   * the two named captures otherwise; the missing-id and missing-token
   * results are out of reach. `valid` holds exactly when both id and token
   * are set, and fails exactly when a message is set.
   */
  function ValidateRequestPath(path: string): (r: ValidatedRequest)
    ensures r.message == Some(InvalidPath) <==> RequestUrlMatch(path).None?
    ensures r.valid <==> RequestUrlMatch(path).Some?
    ensures r.valid ==> r.webhookId == Some(RequestUrlMatch(path).value.id)
                        && r.webhookToken == Some(RequestUrlMatch(path).value.token)
    ensures r.message != Some(MissingId) && r.message != Some(MissingToken)
    ensures r.valid <==> r.webhookId.Some? && r.webhookToken.Some?
    ensures !r.valid <==> r.message.Some?
  {
    var groups := MatchGroups(path);
    if groups.None? then Invalid(InvalidPath)
    else if groups.value.webhookId.None? then Invalid(MissingId)
    else if groups.value.webhookToken.None? then Invalid(MissingToken)
    else ValidatedRequest(true, None, groups.value.webhookId, groups.value.webhookToken)
  }

  /** The id and token a valid result carries have the shapes of their groups. */
  lemma ValidCapturesShape(path: string)
    requires ValidateRequestPath(path).valid
    ensures IdShape(ValidateRequestPath(path).webhookId.value)
    ensures TokenShape(ValidateRequestPath(path).webhookToken.value)
  {
    FirstMatchLeast(path, 0);
    var q := FirstMatch(path, 0).value;
    assert RequestUrlMatch(path) == TailAt(path, q);
    CapturesShape(path, q);
  }
}
