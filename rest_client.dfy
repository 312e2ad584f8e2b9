/**
 * `RestClient`: how each request to the Orchestrator server is authenticated,
 * how a submission's response is judged, and how a response body is read.
 * The network is not modelled: each server answer is an input. A token
 * exchange's answer is given already parsed (`Result<Json>`, an `Err` standing
 * for a transport or parse failure); an HTTP response is given as status,
 * status line, headers and body text.
 */
module RestClient {
  import opened Lang
  import opened Json
  import opened Encoding

  const Accept := "Accept"
  const JsonContentType := "application/json"
  const Authorization := "Authorization"
  const LocationHeader := "Location"
  const ScAccepted := 202

  /** The server address and credentials a `RestClient` is built with. */
  datatype Credentials = Credentials(
    serverUrl: Nullable<string>, userName: Nullable<string>, password: Nullable<string>, tenant: Nullable<string>)

  datatype Verb = Get | Post

  /** A request as it leaves the client: the body is the JSON whose text is sent,
      with content type application/json, or no body at all. */
  datatype Request = Request(verb: Verb, url: string, headers: map<string, string>, entity: Nullable<Json>)

  datatype Header = Header(name: string, value: string)

  /** A server response: status code, status line, headers in order and the body
      text (Null when the response has no entity). */
  datatype Response = Response(statusCode: int, statusLine: string, headers: seq<Header>, entity: Nullable<string>)

  // ---------------------------------------------------------------------------
  // Authentication

  /** `constructAuthorizationHeader`: base 64 of the UTF-8 bytes of `userName:password`.
      The credential carries exactly `userName:password`: decoding it gives them back. */
  function BasicCredential(c: Credentials): (r: string)
    ensures Utf8Decode(Base64Decode(r)) == Show(c.userName) + ":" + Show(c.password)
  {
    var s := Show(c.userName) + ":" + Show(c.password);
    Base64RoundTrip(Utf8(s));
    Utf8RoundTrip(s);
    Base64Encode(Utf8(s))
  }

  /** The token request of `getAuthToken`, as `httpPost` sends it: a POST to the
      identity service with only the Accept header and the three credentials as body. */
  function TokenRequest(c: Credentials): (r: Request)
    ensures r.verb == Post && r.url == Show(c.serverUrl) + "/identity/api/tokens"
    ensures r.headers.Keys == {Accept} && r.headers[Accept] == JsonContentType && Authorization !in r.headers
    ensures r.entity.Val? && r.entity.v.JObject? && r.entity.v.fields.Keys == {"username", "password", "tenant"}
    ensures r.entity.v.fields["username"] == FromNullable(c.userName)
    ensures r.entity.v.fields["password"] == FromNullable(c.password)
    ensures r.entity.v.fields["tenant"] == FromNullable(c.tenant)
  {
    Request(Post, Show(c.serverUrl) + "/identity/api/tokens", map[Accept := JsonContentType],
            Val(JObject(map["username" := FromNullable(c.userName),
                            "password" := FromNullable(c.password),
                            "tenant" := FromNullable(c.tenant)])))
  }

  /** The token in the identity service's answer: its "id" member as a string. */
  function AuthToken(tokenReply: Result<Json>): (r: Result<string>)
    ensures tokenReply.Err? ==> r == Err(tokenReply.error)
    ensures (tokenReply.Ok? && tokenReply.value.JObject? && "id" in tokenReply.value.fields
             && tokenReply.value.fields["id"].JString?) ==> r == Ok(tokenReply.value.fields["id"].s)
    ensures tokenReply.Ok? && tokenReply.value.JObject? && "id" !in tokenReply.value.fields ==> r == Err(NullPointer)
  {
    var reply :- tokenReply;
    var obj :- AsObject(reply);
    StringMember(obj, "id")
  }

  /** `getRequestHeaders`: Accept, plus Basic authorization when the tenant is blank
      and otherwise a Bearer token fetched for this request. `sent` is the token
      request that goes out on the way. */
  method GetRequestHeaders(c: Credentials, tokenReply: Result<Json>)
    returns (sent: seq<Request>, r: Result<map<string, string>>)
    ensures sent == if IsBlank(c.tenant) then [] else [TokenRequest(c)]
    ensures IsBlank(c.tenant) ==> r == Ok(AuthenticatedHeaders("Basic " + BasicCredential(c)))
    ensures !IsBlank(c.tenant) ==> (r.Ok? <==> AuthToken(tokenReply).Ok?)
    ensures !IsBlank(c.tenant) && r.Ok? ==> r.value == AuthenticatedHeaders("Bearer " + AuthToken(tokenReply).value)
    ensures r.Err? ==> r.error == AuthToken(tokenReply).error
  {
    var headers: map<string, string> := map[];
    headers := headers[Accept := JsonContentType];
    sent := [];
    if IsBlank(c.tenant) {
      headers := headers[Authorization := "Basic " + BasicCredential(c)];
    } else {
      sent := [TokenRequest(c)];
      var token := AuthToken(tokenReply);
      if token.Err? {
        return sent, Err(token.error);
      }
      headers := headers[Authorization := "Bearer " + token.value];
    }
    r := Ok(headers);
  }

  // ---------------------------------------------------------------------------
  // Reading responses

  predicate IsLineBreak(c: char)
  {
    c == '\r' || c == '\n'
  }

  /** The text with every line terminator character removed. */
  function WithoutLineBreaks(s: string): (r: string)
    ensures |r| <= |s|
  {
    if s == [] then []
    else WithoutLineBreaks(s[..|s| - 1]) + (if IsLineBreak(s[|s| - 1]) then [] else [s[|s| - 1]])
  }

  lemma {:induction false} WithoutLineBreaksAppend(a: string, b: string)
    ensures WithoutLineBreaks(a + b) == WithoutLineBreaks(a) + WithoutLineBreaks(b)
  {
    if b != [] {
      var n := |b| - 1;
      assert (a + b)[..|a + b| - 1] == a + b[..n];
      WithoutLineBreaksAppend(a, b[..n]);
    } else {
      assert a + b == a;
    }
  }

  lemma {:induction false} WithoutLineBreaksKeeps(s: string)
    requires forall i :: 0 <= i < |s| ==> !IsLineBreak(s[i])
    ensures WithoutLineBreaks(s) == s
  {
    if s != [] {
      WithoutLineBreaksKeeps(s[..|s| - 1]);
    }
  }

  /** Where the line starting at `pos` ends: the first terminator character at or
      after `pos`, or the end of the text. */
  function LineEnd(text: string, pos: nat): (e: nat)
    requires pos <= |text|
    ensures pos <= e <= |text|
    ensures forall i :: pos <= i < e ==> !IsLineBreak(text[i])
    ensures e < |text| ==> IsLineBreak(text[e])
    decreases |text| - pos
  {
    if pos == |text| || IsLineBreak(text[pos]) then pos else LineEnd(text, pos + 1)
  }

  /** The position after the terminator of a line that ends at `e`: "\r\n" counts as one. */
  function AfterTerminator(text: string, e: nat): (next: nat)
    requires e <= |text|
    ensures e <= next <= |text| && (e < |text| ==> e < next)
    ensures forall i :: e < i < next ==> text[i] == '\n'
  {
    if e == |text| then e
    else if text[e] == '\r' && e + 1 < |text| && text[e + 1] == '\n' then e + 2
    else e + 1
  }

  /** Consuming a line and its terminator adds exactly the line to the joined text. */
  lemma LineStep(text: string, pos: nat, e: nat, next: nat)
    requires pos <= e <= next <= |text|
    requires forall i :: pos <= i < e ==> !IsLineBreak(text[i])
    requires forall i :: e <= i < next ==> IsLineBreak(text[i])
    ensures WithoutLineBreaks(text[..next]) == WithoutLineBreaks(text[..pos]) + text[pos..e]
  {
    assert text[..next] == text[..pos] + text[pos..e] + text[e..next];
    WithoutLineBreaksAppend(text[..pos] + text[pos..e], text[e..next]);
    WithoutLineBreaksAppend(text[..pos], text[pos..e]);
    WithoutLineBreaksKeeps(text[pos..e]);
    WithoutLineBreaksDrops(text[e..next]);
  }

  lemma {:induction false} WithoutLineBreaksDrops(s: string)
    requires forall i :: 0 <= i < |s| ==> IsLineBreak(s[i])
    ensures WithoutLineBreaks(s) == []
  {
    if s != [] {
      WithoutLineBreaksDrops(s[..|s| - 1]);
    }
  }

  /** `BufferedReader.readLine` at `pos`: the line without its terminator ("\n",
      "\r" or "\r\n"), and the position after the terminator. */
  function ReadLine(text: string, pos: nat): (r: (string, nat))
    requires pos < |text|
    ensures pos < r.1 <= |text|
    ensures WithoutLineBreaks(text[..r.1]) == WithoutLineBreaks(text[..pos]) + r.0
  {
    var e := LineEnd(text, pos);
    var next := AfterTerminator(text, e);
    LineStep(text, pos, e, next);
    (text[pos..e], next)
  }

  /** `parseResponse`: the body's lines concatenated with their terminators dropped;
      null for a null response; a response without an entity is dereferenced. */
  method ParseResponse(response: Nullable<Response>) returns (r: Result<Nullable<string>>)
    ensures response.Null? ==> r == Ok(Null)
    ensures response.Val? && response.v.entity.Null? ==> r == Err(NullPointer)
    ensures response.Val? && response.v.entity.Val? ==> r == Ok(Val(WithoutLineBreaks(response.v.entity.v)))
  {
    if response.Null? {
      return Ok(Null);
    }
    if response.v.entity.Null? {
      return Err(NullPointer);
    }
    var text := response.v.entity.v;
    var sb := "";
    var pos := 0;
    while pos < |text|
      invariant pos <= |text|
      invariant sb == WithoutLineBreaks(text[..pos])
      decreases |text| - pos
    {
      var line := ReadLine(text, pos);
      sb := sb + line.0;
      pos := line.1;
    }
    assert text[..pos] == text;
    r := Ok(Val(sb));
  }

  /** The values of the headers called `name` (compared ignoring case, as the HTTP
      client does), in header order. */
  function HeaderValues(headers: seq<Header>, name: string): (r: seq<string>)
    ensures |r| <= |headers|
  {
    if headers == [] then []
    else
      var n := |headers| - 1;
      HeaderValues(headers[..n], name) + (if EqualsIgnoreCase(headers[n].name, name) then [headers[n].value] else [])
  }

  /** The first header value collected is that of the first header with the name,
      and there is one when some header has it. */
  lemma {:induction false} HeaderValuesFirst(headers: seq<Header>, name: string, k: nat)
    requires k < |headers| && EqualsIgnoreCase(headers[k].name, name)
    requires forall j :: 0 <= j < k ==> !EqualsIgnoreCase(headers[j].name, name)
    ensures HeaderValues(headers, name) != [] && HeaderValues(headers, name)[0] == headers[k].value
  {
    var n := |headers| - 1;
    if k < n {
      assert forall j :: 0 <= j < n ==> headers[..n][j] == headers[j];
      HeaderValuesFirst(headers[..n], name, k);
    } else {
      assert forall j :: 0 <= j < n ==> headers[..n][j] == headers[j];
      HeaderValuesNone(headers[..n], name);
    }
  }

  /** No header with the name, no values. */
  lemma {:induction false} HeaderValuesNone(headers: seq<Header>, name: string)
    requires forall j :: 0 <= j < |headers| ==> !EqualsIgnoreCase(headers[j].name, name)
    ensures HeaderValues(headers, name) == []
  {
    if headers != [] {
      var n := |headers| - 1;
      assert forall j :: 0 <= j < n ==> headers[..n][j] == headers[j];
      HeaderValuesNone(headers[..n], name);
    }
  }

  /** `parseResponseLocationHeader`: every Location value, in header order. */
  method ParseResponseLocationHeader(response: Response) returns (locations: seq<string>)
    ensures locations == HeaderValues(response.headers, LocationHeader)
  {
    var headers := response.headers;
    locations := [];
    for i := 0 to |headers|
      invariant locations == HeaderValues(headers[..i], LocationHeader)
    {
      assert headers[..i + 1][..i] == headers[..i];
      if EqualsIgnoreCase(headers[i].name, LocationHeader) {
        locations := locations + [headers[i].value];
      }
    }
    assert headers[..|headers|] == headers;
  }

  /** The decision of `httpPostForLocationHeader` on the server's response. */
  function SubmissionLocation(response: Nullable<Response>): (r: Result<Nullable<string>>)
    ensures response.Null? ==> r == Ok(Null)
    ensures r.Ok? && r.value.Val? ==> response.Val? && response.v.statusCode == ScAccepted
    ensures response.Val? && response.v.statusCode != ScAccepted ==>
              r == Err(IOError("Server responded with status code " + response.v.statusLine))
    ensures response.Val? && response.v.statusCode == ScAccepted ==>
              (r.Ok? <==> HeaderValues(response.v.headers, LocationHeader) != [])
    ensures response.Val? && response.v.statusCode == ScAccepted && HeaderValues(response.v.headers, LocationHeader) == [] ==>
              r == Err(IndexOutOfBounds)
    ensures r.Ok? && r.value.Val? ==> r.value.v == HeaderValues(response.v.headers, LocationHeader)[0]
  {
    match response
    case Null => Ok(Null)
    case Val(resp) =>
      if resp.statusCode == ScAccepted then
        var locations := HeaderValues(resp.headers, LocationHeader);
        if locations == [] then Err(IndexOutOfBounds) else Ok(Val(locations[0]))
      else Err(IOError("Server responded with status code " + resp.statusLine))
  }

  /** An accepted submission yields the value of its first Location header. */
  lemma AcceptedYieldsFirstLocation(resp: Response, k: nat)
    requires resp.statusCode == ScAccepted
    requires k < |resp.headers| && EqualsIgnoreCase(resp.headers[k].name, LocationHeader)
    requires forall j :: 0 <= j < k ==> !EqualsIgnoreCase(resp.headers[j].name, LocationHeader)
    ensures SubmissionLocation(Val(resp)) == Ok(Val(resp.headers[k].value))
  {
    HeaderValuesFirst(resp.headers, LocationHeader, k);
  }

  // ---------------------------------------------------------------------------
  // The two authenticated calls

  /** The two headers of an authenticated request: JSON is accepted, and the
      request carries the given authorization. */
  function AuthenticatedHeaders(authorization: string): map<string, string>
  {
    map[Accept := JsonContentType, Authorization := authorization]
  }

  /** What `parseResponse` makes of an answer: null for none, a null dereference
      for one without a body, and otherwise the body with its line breaks dropped. */
  function ResponseText(response: Nullable<Response>): Result<Nullable<string>>
  {
    if response.Null? then Ok(Null)
    else if response.v.entity.Null? then Err(NullPointer)
    else Ok(Val(WithoutLineBreaks(response.v.entity.v)))
  }

  /** A body of two lines comes back as the two lines joined, whichever of
      "\n", "\r" or "\r\n" separates them. */
  lemma ResponseTextJoinsLines(resp: Response, a: string, t: string, b: string)
    requires t == "\n" || t == "\r" || t == "\r\n"
    requires forall i :: 0 <= i < |a| ==> !IsLineBreak(a[i])
    requires forall i :: 0 <= i < |b| ==> !IsLineBreak(b[i])
    requires resp.entity == Val(a + t + b)
    ensures ResponseText(Val(resp)) == Ok(Val(a + b))
  {
    WithoutLineBreaksAppend(a + t, b);
    WithoutLineBreaksAppend(a, t);
    WithoutLineBreaksKeeps(a);
    WithoutLineBreaksKeeps(b);
    assert forall i :: 0 <= i < |t| ==> IsLineBreak(t[i]);
    WithoutLineBreaksDrops(t);
    assert WithoutLineBreaks(a + t) == a;
  }

  /** `httpGet`: headers are built afresh (with a new token when a tenant is set),
      the GET goes out without a body, and the answer's body is read. */
  method HttpGet(c: Credentials, url: string, tokenReply: Result<Json>, reply: Nullable<Response>)
    returns (sent: seq<Request>, r: Result<Nullable<string>>)
    ensures IsBlank(c.tenant) ==>
      sent == [Request(Get, url, AuthenticatedHeaders("Basic " + BasicCredential(c)), Null)]
      && r == ResponseText(reply)
    ensures !IsBlank(c.tenant) && AuthToken(tokenReply).Ok? ==>
      sent == [TokenRequest(c), Request(Get, url, AuthenticatedHeaders("Bearer " + AuthToken(tokenReply).value), Null)]
      && r == ResponseText(reply)
    ensures !IsBlank(c.tenant) && AuthToken(tokenReply).Err? ==>
      sent == [TokenRequest(c)] && r == Err(AuthToken(tokenReply).error)
  {
    var headers;
    sent, headers := GetRequestHeaders(c, tokenReply);
    if headers.Err? {
      return sent, Err(headers.error);
    }
    sent := sent + [Request(Get, url, headers.value, Null)];
    r := ParseResponse(reply);
  }

  /** `httpPostForLocationHeader`: a body is attached only when there is a payload,
      headers are built afresh, and only a 202 answer yields its first Location. */
  method HttpPostForLocationHeader(c: Credentials, url: string, payload: Nullable<Json>,
                                   tokenReply: Result<Json>, reply: Nullable<Response>)
    returns (sent: seq<Request>, r: Result<Nullable<string>>)
    ensures IsBlank(c.tenant) ==>
      sent == [Request(Post, url, AuthenticatedHeaders("Basic " + BasicCredential(c)), payload)]
      && r == SubmissionLocation(reply)
    ensures !IsBlank(c.tenant) && AuthToken(tokenReply).Ok? ==>
      sent == [TokenRequest(c), Request(Post, url, AuthenticatedHeaders("Bearer " + AuthToken(tokenReply).value), payload)]
      && r == SubmissionLocation(reply)
    ensures !IsBlank(c.tenant) && AuthToken(tokenReply).Err? ==> sent == [TokenRequest(c)] && r == Err(AuthToken(tokenReply).error)
  {
    var headers;
    sent, headers := GetRequestHeaders(c, tokenReply);
    if headers.Err? {
      return sent, Err(headers.error);
    }
    sent := sent + [Request(Post, url, headers.value, payload)];
    if reply.Null? {
      return sent, Ok(Null);
    }
    if reply.v.statusCode == ScAccepted {
      var locations := ParseResponseLocationHeader(reply.v);
      if locations == [] {
        return sent, Err(IndexOutOfBounds);
      }
      r := Ok(Val(locations[0]));
    } else {
      r := Err(IOError("Server responded with status code " + reply.v.statusLine));
    }
  }
}
