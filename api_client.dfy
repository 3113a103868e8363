/** The fetch-based REST client (utils/api.ts): the request URL and options,
    the error raised for a non-ok response, the file-message form and file URLs. */
module ApiClient {
  import opened Wrappers
  import opened Text
  import opened Types
  import ApiService

  const ApiBaseUrl: string := "http://10.0.2.2:3000/api"

  /** `API_BASE_URL.replace("/api", "")` here gives the same origin as in the service. */
  lemma FileOrigin()
    ensures ReplaceFirst(ApiBaseUrl, "/api", "") == "http://10.0.2.2:3000"
  {
    assert ApiBaseUrl == ApiService.ApiBaseUrl;
    var origin := ApiService.FileOrigin();
  }

  /** `ApiClient.getFileUrl`, written separately from the service's copy. */
  function GetFileUrl(fileUrl: string): (r: string)
    ensures StartsWith(fileUrl, "http") ==> r == fileUrl
    ensures !StartsWith(fileUrl, "http") ==> r == "http://10.0.2.2:3000" + fileUrl
    ensures StartsWith(r, "http")
  {
    if StartsWith(fileUrl, "http") then fileUrl
    else
      FileOrigin();
      assert ("http://10.0.2.2:3000" + fileUrl)[..4] == "http";
      ReplaceFirst(ApiBaseUrl, "/api", "") + fileUrl
  }

  /** Both copies of `getFileUrl` agree on every input. */
  lemma SameFileUrlAsService(fileUrl: string)
    ensures GetFileUrl(fileUrl) == ApiService.GetFileUrl(fileUrl)
  {
  }

  lemma GetFileUrlIdempotent(fileUrl: string)
    ensures GetFileUrl(GetFileUrl(fileUrl)) == GetFileUrl(fileUrl)
  {
    SameFileUrlAsService(fileUrl);
    SameFileUrlAsService(GetFileUrl(fileUrl));
    ApiService.GetFileUrlIdempotent(fileUrl);
  }

  /** The caller's `RequestInit`: its HTTP method, its headers (`None` when the caller gives
      no headers key) and its body. */
  datatype RequestOptions = RequestOptions(verb: Option<string>, headers: Option<map<string, string>>, body: Option<string>)

  /** The `RequestInit` handed to `fetch`. */
  datatype RequestConfig = RequestConfig(verb: Option<string>, headers: map<string, string>, body: Option<string>)

  const JsonHeaders: map<string, string> := map["Content-Type" := "application/json"]

  /** `${API_BASE_URL}${endpoint}`. */
  function RequestUrl(endpoint: string): (r: string)
    ensures StartsWith(r, ApiBaseUrl) && r[|ApiBaseUrl|..] == endpoint
  {
    ApiBaseUrl + endpoint
  }

  /** The config as written: the merged headers are built, then `...options` puts the
      caller's own `headers` back over them. */
  function ConfigAsWritten(options: RequestOptions): (c: RequestConfig)
    ensures c.verb == options.verb && c.body == options.body
    ensures options.headers.Some? ==> c.headers == options.headers.value
    ensures options.headers.None? ==> c.headers == JsonHeaders
  {
    var merged := JsonHeaders + (if options.headers.Some? then options.headers.value else map[]);
    RequestConfig(options.verb, if options.headers.Some? then options.headers.value else merged, options.body)
  }

  /** The config with the merge kept: the caller's headers over the JSON default. */
  function Config(options: RequestOptions): (c: RequestConfig)
    ensures c.verb == options.verb && c.body == options.body
    ensures options.headers.Some? ==>
      forall k :: k in options.headers.value ==> k in c.headers && c.headers[k] == options.headers.value[k]
    ensures options.headers.None? || "Content-Type" !in options.headers.value ==>
      "Content-Type" in c.headers && c.headers["Content-Type"] == "application/json"
    ensures forall k :: k in c.headers ==> k == "Content-Type" || (options.headers.Some? && k in options.headers.value)
  {
    RequestConfig(options.verb, JsonHeaders + (if options.headers.Some? then options.headers.value else map[]), options.body)
  }

  /** A caller that passes any headers loses the JSON Content-Type as the code is written. */
  lemma CallerHeadersDropJsonContentType()
    ensures var options := RequestOptions(Some("POST"), Some(map["Authorization" := "Bearer t"]), Some("{}"));
      "Content-Type" !in ConfigAsWritten(options).headers
      && "Content-Type" in Config(options).headers
  {
    var options := RequestOptions(Some("POST"), Some(map["Authorization" := "Bearer t"]), Some("{}"));
    assert "Content-Type" != "Authorization";
  }

  /** Without caller headers (every call in this file) the two configs are the same. */
  lemma SameConfigWithoutCallerHeaders(options: RequestOptions)
    requires options.headers.None?
    ensures ConfigAsWritten(options) == Config(options)
  {
  }

  /** A parsed JSON body: its `message` and `data` keys. */
  datatype JsonBody<T> = JsonBody(message: Option<string>, data: Option<T>)

  /** How `fetch` and `response.json()` settled. */
  datatype FetchResult<T> = NetworkFailure(error: Error) | Response(ok: bool, body: JsonBody<T>)

  /** A non-ok response throws the body's message, or `fallback` when it has none. */
  function CheckResponse<T>(response: FetchResult<T>, fallback: string): (r: Outcome<JsonBody<T>>)
    requires fallback != ""
    ensures r.Ok? <==> response.Response? && response.ok
    ensures r.Ok? ==> r.value == response.body
    ensures response.NetworkFailure? ==> r == Fail(response.error)
    ensures response.Response? && !response.ok ==>
      r.Fail? && r.error.message != ""
      && r.error.message == if IsTruthyText(response.body.message) then response.body.message.value else fallback
  {
    match response
    case NetworkFailure(error) => Fail(error)
    case Response(ok, body) =>
      if ok then Ok(body)
      else Fail(Error(None, None, if IsTruthyText(body.message) then body.message.value else fallback))
  }

  /** `request`: the URL and config it fetches with, and what it returns or throws.
      The config is the one the code builds; it agrees with the merged `Config`
      whenever the caller passes no headers. */
  method Request<T>(endpoint: string, options: RequestOptions, response: FetchResult<T>)
    returns (url: string, config: RequestConfig, result: Outcome<JsonBody<T>>)
    ensures url == RequestUrl(endpoint)
    ensures config == ConfigAsWritten(options)
    ensures options.headers.None? ==> config == Config(options)
    ensures result == CheckResponse(response, "API request failed")
  {
    url := ApiBaseUrl + endpoint;
    config := ConfigAsWritten(options);
    if options.headers.None? {
      SameConfigWithoutCallerHeaders(options);
    }
    result := CheckResponse(response, "API request failed");
  }

  /** `getMessages`: GET /messages (no `method` key, so `fetch` uses its default GET,
      with the JSON header and no body); an absent `data` reads as no messages. */
  method GetMessages(response: FetchResult<seq<Message>>)
    returns (url: string, config: RequestConfig, result: Outcome<seq<Message>>)
    ensures url == ApiBaseUrl + "/messages"
    ensures config.verb == None && config.body == None && config.headers == JsonHeaders
    ensures result.Ok? <==> response.Response? && response.ok
    ensures result.Ok? ==> result.value == ApiService.DataOrEmpty(response.body.data)
    ensures !(response.Response? && response.ok) ==> result == Fail(CheckResponse(response, "API request failed").error)
    ensures response.NetworkFailure? ==> result == Fail(response.error)
  {
    var body;
    url, config, body := Request("/messages", RequestOptions(None, None, None), response);
    result := if body.Ok? then Ok(ApiService.DataOrEmpty(body.value.data)) else Fail(body.error);
  }

  /** `sendMessage`: POST /messages with the encoded `{ username, message }` as body;
      it returns the body's `data` whether or not it is present. */
  method SendMessage(encoded: string, response: FetchResult<Message>)
    returns (url: string, config: RequestConfig, result: Outcome<Option<Message>>)
    ensures url == ApiBaseUrl + "/messages"
    ensures config.verb == Some("POST") && config.body == Some(encoded)
    ensures config.headers == JsonHeaders
    ensures result.Ok? <==> response.Response? && response.ok
    ensures result.Ok? ==> result.value == response.body.data
    ensures !(response.Response? && response.ok) ==> result == Fail(CheckResponse(response, "API request failed").error)
  {
    var body;
    url, config, body := Request("/messages", RequestOptions(Some("POST"), None, Some(encoded)), response);
    result := if body.Ok? then Ok(body.value.data) else Fail(body.error);
  }

  /** `getUserMessages`: GET /messages/user/<username>, with the same default GET config
      and the same empty default. */
  method GetUserMessages(username: string, response: FetchResult<seq<Message>>)
    returns (url: string, config: RequestConfig, result: Outcome<seq<Message>>)
    ensures url == ApiBaseUrl + "/messages/user/" + username
    ensures config.verb == None && config.body == None && config.headers == JsonHeaders
    ensures result.Ok? <==> response.Response? && response.ok
    ensures result.Ok? ==> result.value == ApiService.DataOrEmpty(response.body.data)
    ensures !(response.Response? && response.ok) ==> result == Fail(CheckResponse(response, "API request failed").error)
    ensures response.NetworkFailure? ==> result == Fail(response.error)
  {
    var body;
    url, config, body := Request("/messages/user/" + username, RequestOptions(None, None, None), response);
    result := if body.Ok? then Ok(ApiService.DataOrEmpty(body.value.data)) else Fail(body.error);
  }

  /** The form `ApiClient.sendFileMessage` posts: no receiver id, and a file part
      made of the uri, type and name only. */
  method FileMessageForm(username: string, file: FileData, message: Option<string>)
    returns (form: seq<ApiService.FormEntry>)
    ensures ApiService.Names(form) == ["username"] + (if IsTruthyText(message) then ["message"] else []) + ["file"]
    ensures "receiverId" !in ApiService.Names(form)
    ensures form[0] == ApiService.TextEntry("username", username)
    ensures IsTruthyText(message) ==> form[1] == ApiService.TextEntry("message", message.value)
    ensures form[|form| - 1] == ApiService.FileEntry("file", FileData(file.uri, file.name, file.mimeType, None))
  {
    form := [ApiService.TextEntry("username", username)];
    if IsTruthyText(message) {
      form := form + [ApiService.TextEntry("message", message.value)];
    }
    var fileObject := FileData(file.uri, file.name, file.mimeType, None);
    form := form + [ApiService.FileEntry("file", fileObject)];
  }

  /** `sendFileMessage`: POST of the form to /messages/file, checked like `request`
      but with its own error text; it returns the body's `data`. It calls `fetch`
      directly, so no JSON Content-Type is set and the form picks its own. */
  method SendFileMessage(username: string, file: FileData, message: Option<string>, response: FetchResult<Message>)
    returns (url: string, verb: string, headers: map<string, string>, form: seq<ApiService.FormEntry>, result: Outcome<Option<Message>>)
    ensures url == ApiBaseUrl + "/messages/file"
    ensures verb == "POST" && headers == map[]
    ensures ApiService.Names(form) == ["username"] + (if IsTruthyText(message) then ["message"] else []) + ["file"]
    ensures form[0] == ApiService.TextEntry("username", username)
    ensures IsTruthyText(message) ==> form[1] == ApiService.TextEntry("message", message.value)
    ensures form[|form| - 1] == ApiService.FileEntry("file", FileData(file.uri, file.name, file.mimeType, None))
    ensures result.Ok? <==> response.Response? && response.ok
    ensures result.Ok? ==> result.value == response.body.data
    ensures response.Response? && !response.ok ==>
      result.Fail? && result.error.message == if IsTruthyText(response.body.message) then response.body.message.value else "Failed to send file"
    ensures response.NetworkFailure? ==> result == Fail(response.error)
  {
    url := ApiBaseUrl + "/messages/file";
    verb, headers := "POST", map[];
    form := FileMessageForm(username, file, message);
    var body := CheckResponse(response, "Failed to send file");
    result := if body.Ok? then Ok(body.value.data) else Fail(body.error);
  }
}
