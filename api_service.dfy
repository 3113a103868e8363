/** The axios-based REST service (services/api.ts): file URLs, the multipart
    form of a file message, the auth-header and 401 interceptors, and the
    empty-list defaults of the list endpoints. */
module ApiService {
  import opened Wrappers
  import opened Text
  import opened Types

  const ApiBaseUrl: string := "http://10.0.2.2:3000/api"

  /** The first "/api" in the base URL is the path segment at index 20. */
  lemma FirstApiSegment()
    ensures IndexOfFrom(ApiBaseUrl, "/api", 0) == Some(20)
  {
    assert OccursAt(ApiBaseUrl, "/api", 20);
    forall k: nat | k < 20
      ensures !OccursAt(ApiBaseUrl, "/api", k)
    {
      assert ApiBaseUrl[k] != '/' || ApiBaseUrl[k + 1] != 'a';
      assert ApiBaseUrl[k..k + 4][0] == ApiBaseUrl[k] && ApiBaseUrl[k..k + 4][1] == ApiBaseUrl[k + 1];
    }
  }

  /** `API_BASE_URL.replace("/api", "")`: the origin uploaded files are served from. */
  function FileOrigin(): (r: string)
    ensures r == "http://10.0.2.2:3000"
  {
    FirstApiSegment();
    ReplaceFirst(ApiBaseUrl, "/api", "")
  }

  /** `getFileUrl`: absolute URLs pass through, server paths get the origin in front. */
  function GetFileUrl(fileUrl: string): (r: string)
    ensures StartsWith(fileUrl, "http") ==> r == fileUrl
    ensures !StartsWith(fileUrl, "http") ==> r == "http://10.0.2.2:3000" + fileUrl
    ensures StartsWith(r, "http")
  {
    if StartsWith(fileUrl, "http") then fileUrl
    else
      var origin := FileOrigin();
      assert (origin + fileUrl)[..4] == "http";
      origin + fileUrl
  }

  lemma GetFileUrlIdempotent(fileUrl: string)
    ensures GetFileUrl(GetFileUrl(fileUrl)) == GetFileUrl(fileUrl)
  {
  }

  /** One `formData.append(name, value)`. */
  datatype FormEntry = TextEntry(name: string, value: string) | FileEntry(name: string, file: FileData)

  function Names(form: seq<FormEntry>): (r: seq<string>)
    ensures |r| == |form| && forall i :: 0 <= i < |form| ==> r[i] == form[i].name
  {
    if form == [] then [] else [form[0].name] + Names(form[1..])
  }

  /** The form `sendFileMessage` posts to `/messages/file`. */
  method FileMessageForm(username: string, file: FileData, message: Option<string>, receiverId: Option<int>)
    returns (form: seq<FormEntry>)
    ensures Names(form) == ["username"] + (if IsTruthyText(message) then ["message"] else [])
      + (if IsTruthyId(receiverId) then ["receiverId"] else []) + ["file"]
    ensures form[0] == TextEntry("username", username)
    ensures form[|form| - 1] == FileEntry("file", file)
    ensures IsTruthyText(message) ==> form[1] == TextEntry("message", message.value)
    ensures IsTruthyId(receiverId) ==> form[|form| - 2] == TextEntry("receiverId", IntToString(receiverId.value))
    ensures IsTruthyId(receiverId) ==>
      var e := form[|form| - 2]; e.TextEntry? && IsIntLiteral(e.value) && ParseInt(e.value) == receiverId.value
  {
    form := [TextEntry("username", username)];
    if IsTruthyText(message) {
      form := form + [TextEntry("message", message.value)];
    }
    if IsTruthyId(receiverId) {
      IntToStringRoundTrip(receiverId.value);
      form := form + [TextEntry("receiverId", IntToString(receiverId.value))];
    }
    form := form + [FileEntry("file", file)];
  }

  /** The token an `Authorization` header carries, if it is a bearer header. */
  function BearerToken(header: string): Option<string> {
    if StartsWith(header, "Bearer ") then Some(header[7..]) else None
  }

  /** The request interceptor: a stored token becomes `Authorization: Bearer <token>`. */
  method AuthorizeRequest(headers: map<string, string>, storedToken: Option<string>)
    returns (out: map<string, string>)
    ensures IsTruthyText(storedToken) ==> "Authorization" in out && BearerToken(out["Authorization"]) == storedToken
    ensures forall k :: k in headers && (k != "Authorization" || !IsTruthyText(storedToken)) ==> k in out && out[k] == headers[k]
    ensures out.Keys == if IsTruthyText(storedToken) then headers.Keys + {"Authorization"} else headers.Keys
  {
    out := headers;
    if IsTruthyText(storedToken) {
      out := out["Authorization" := "Bearer " + storedToken.value];
      assert out["Authorization"][7..] == storedToken.value;
    }
  }

  /** The two stored credentials (token and user). */
  datatype StoredCredentials = StoredCredentials(token: Option<string>, user: Option<User>)

  /** `StorageService.clearAll`: both removals run; each one that fails is logged and
      leaves its credential stored, and the clear itself never rejects. */
  function ClearAll(stored: StoredCredentials, tokenRemoved: bool, userRemoved: bool): (r: StoredCredentials)
    ensures r.token == (if tokenRemoved then None else stored.token)
    ensures r.user == (if userRemoved then None else stored.user)
    ensures tokenRemoved && userRemoved ==> r == StoredCredentials(None, None)
  {
    StoredCredentials(if tokenRemoved then None else stored.token, if userRemoved then None else stored.user)
  }

  /** The response interceptor's error path: a 401 clears the stored credentials
      (as far as each removal succeeds), and the request is rejected with its error
      in every case. */
  function OnResponseError(stored: StoredCredentials, error: Error, tokenRemoved: bool, userRemoved: bool)
    : (r: (StoredCredentials, Completion))
    ensures r.1 == Threw(error)
    ensures error.status == Some(401) ==> r.0 == ClearAll(stored, tokenRemoved, userRemoved)
    ensures error.status == Some(401) && tokenRemoved && userRemoved ==> r.0.token.None? && r.0.user.None?
    ensures error.status != Some(401) ==> r.0 == stored
  {
    if error.status == Some(401) then (ClearAll(stored, tokenRemoved, userRemoved), Threw(error)) else (stored, Threw(error))
  }

  /** `response.data.data || []` of the list endpoints: an absent list reads as empty. */
  function DataOrEmpty<T>(data: Option<seq<T>>): (r: seq<T>)
    ensures data.None? ==> r == []
    ensures data.Some? ==> r == data.value
  {
    if data.Some? then data.value else []
  }
}
