/**
 * Building the outgoing HTTP request of one connection attempt: the
 * configured method and URL, every configured header except the one keyed
 * exactly "Content-Type", and a JSON body only when the payload is not empty.
 */
module Requests {
  import opened Wrappers
  import opened Dtos

  const ContentTypeKey: string := "Content-Type"

  /** `new StringContent(text, Encoding.UTF8, mediaType)`. */
  datatype StringContent = StringContent(text: string, encoding: string, mediaType: string)

  /** An `HttpRequestMessage`: method, URI, request headers in insertion order, optional content. */
  datatype Request = Request(
    httpMethod: string,
    requestUri: string,
    headers: seq<Header>,
    content: Option<StringContent>)

  /** The configured headers whose key is not exactly "Content-Type", in enumeration order. */
  function FilterHeaders(hs: seq<Header>): (r: seq<Header>)
    ensures forall h :: h in r <==> h in hs && h.key != ContentTypeKey
    ensures |r| <= |hs|
  {
    if hs == [] then []
    else (if hs[0].key != ContentTypeKey then [hs[0]] else []) + FilterHeaders(hs[1..])
  }

  /** The filter keeps the enumeration order: filtering distributes over concatenation. */
  lemma {:induction false} FilterHeadersAppend(a: seq<Header>, b: seq<Header>)
    ensures FilterHeaders(a + b) == FilterHeaders(a) + FilterHeaders(b)
    decreases |a|
  {
    if a == [] {
      assert a + b == b;
    } else {
      assert (a + b)[1..] == a[1..] + b;
      FilterHeadersAppend(a[1..], b);
    }
  }

  /** The body attached when the payload is not empty. */
  function JsonContent(payload: string): StringContent {
    StringContent(payload, "utf-8", "application/json")
  }

  /** The request one attempt sends, as a value. */
  function RequestFor(httpMethod: string, url: string, headers: seq<Header>, payload: string): (r: Request)
    ensures r.httpMethod == httpMethod && r.requestUri == url
    ensures forall h :: h in r.headers <==> h in headers && h.key != ContentTypeKey
    ensures r.content.Some? <==> payload != ""
    ensures r.content.Some? ==> r.content.value.text == payload
  {
    Request(httpMethod, url, FilterHeaders(headers),
            if payload == "" then None else Some(JsonContent(payload)))
  }

  /**
   * The request-building statements of one attempt: the headers are
   * enumerated through the filter and added one at a time, then the
   * content is attached when the payload is not empty.
   */
  method BuildRequest(httpMethod: string, url: string, headers: seq<Header>, payload: string)
    returns (request: Request)
    ensures request == RequestFor(httpMethod, url, headers, payload)
  {
    var added: seq<Header> := [];
    for i := 0 to |headers|
      invariant added == FilterHeaders(headers[..i])
    {
      var header := headers[i];
      FilterHeadersAppend(headers[..i], [header]);
      assert headers[..i + 1] == headers[..i] + [header];
      if header.key != ContentTypeKey {
        added := added + [header];
      }
    }
    assert headers[..|headers|] == headers;
    var content: Option<StringContent> := None;
    if payload != "" {
      content := Some(JsonContent(payload));
    }
    request := Request(httpMethod, url, added, content);
  }

  /** A lower-case "content-type" key is not the excluded key and is sent unchanged. */
  lemma OnlyExactContentTypeKeyIsDropped(v: string)
    ensures FilterHeaders([Header("content-type", v), Header(ContentTypeKey, v)])
            == [Header("content-type", v)]
  {
    assert [Header("content-type", v), Header(ContentTypeKey, v)][1..] == [Header(ContentTypeKey, v)];
  }

  /** Without a "Content-Type" entry every header is sent, in order. */
  lemma {:induction false} FilterKeepsOtherHeaders(hs: seq<Header>)
    requires forall i :: 0 <= i < |hs| ==> hs[i].key != ContentTypeKey
    ensures FilterHeaders(hs) == hs
    decreases |hs|
  {
    if hs != [] {
      FilterKeepsOtherHeaders(hs[1..]);
    }
  }

  /**
   * A client configured with "POST", a payload and a "Content-Type" header
   * sends no request header and the payload as its JSON body.
   */
  lemma PostWithContentTypeHeader(url: string, payload: string, mediaType: string)
    requires payload != ""
    ensures RequestFor("POST", url, [Header(ContentTypeKey, mediaType)], payload)
            == Request("POST", url, [], Some(StringContent(payload, "utf-8", "application/json")))
  {
    assert [Header(ContentTypeKey, mediaType)][1..] == [];
  }
}
