/**
 * The client's HTTP layer: the URL and body of an API request, the URL a
 * query key stands for, and the error a failed response turns into.
 * `fetch` itself, the base URL's origin and JSON serialisation are
 * parameters.
 */
module QueryClient {
  import opened Common
  import opened Text

  // ---------------------------------------------------------------- URLs

  /** `path` under `base`, with exactly one slash between them when `path` does not bring its own. */
  function JoinUrl(base: string, path: string): (url: string)
    ensures |url| > |base| && url[..|base|] == base && url[|base|] == '/'
    ensures path != [] && path[0] == '/' ==> url[|base|..] == path
    ensures !(path != [] && path[0] == '/') ==> url[|base| + 1..] == path
  {
    if path != [] && path[0] == '/' then base + path else base + "/" + path
  }

  /** "/x" and "x" name the same URL. */
  lemma LeadingSlashOptional(base: string, path: string)
    requires !(path != [] && path[0] == '/')
    ensures JoinUrl(base, "/" + path) == JoinUrl(base, path)
  {
    var a, b := JoinUrl(base, "/" + path), JoinUrl(base, path);
    assert a == base + "/" + path;
    assert |a| == |b|;
    assert forall i :: 0 <= i < |a| ==> a[i] == b[i];
  }

  // ------------------------------------------------------------ requests

  /** The `data` argument: whether it is truthy, and its JSON text. */
  datatype Payload = Payload(truthy: bool, json: string)

  /** What `apiRequest` hands to `fetch`. */
  datatype Request = Request(verb: string, url: string, jsonHeader: bool, body: Option<string>, withCredentials: bool)

  /** `apiRequest`'s request: a JSON body and its Content-Type exactly when there is truthy data; credentials always. */
  function ApiRequest(base: string, verb: string, url: string, data: Option<Payload>): (r: Request)
    ensures r.url == JoinUrl(base, url) && r.verb == verb && r.withCredentials
    ensures r.jsonHeader <==> data.Some? && data.value.truthy
    ensures r.body.Some? <==> r.jsonHeader
    ensures r.body.Some? ==> r.body.value == data.value.json
  {
    var send := data.Some? && data.value.truthy;
    Request(verb, JoinUrl(base, url), send, if send then Some(data.value.json) else None, true)
  }

  // ---------------------------------------------------------- query keys

  /** A query-key element after the first: a string path segment, an object of parameters, or anything else. */
  datatype KeyPart = Segment(s: string) | Params(entries: seq<(string, Option<string>)>) | Other

  /** A query key: a plain value (taken by its string form) or an array whose first element is taken by its string form. */
  datatype QueryKey = Plain(s: string) | Parts(head: string, rest: seq<KeyPart>)

  /** The entries whose value is truthy, in order. */
  function TruthyParams(entries: seq<(string, Option<string>)>): (ps: seq<(string, string)>)
    ensures |ps| <= |entries|
    ensures forall p :: p in ps ==> p.1 != "" && (p.0, Some(p.1)) in entries
    ensures forall e :: e in entries && Truthy(e.1) ==> (e.0, e.1.value) in ps
  {
    if entries == [] then []
    else
      assert forall e :: e in entries <==> e == entries[0] || e in entries[1..];
      TruthyHead(entries[0]) + TruthyParams(entries[1..])
  }

  /** One entry as a parameter, or nothing when its value is falsy. */
  function TruthyHead(e: (string, Option<string>)): seq<(string, string)> {
    if Truthy(e.1) then [(e.0, e.1.value)] else []
  }

  lemma {:induction false} TruthyParamsAppend(a: seq<(string, Option<string>)>, b: seq<(string, Option<string>)>)
    ensures TruthyParams(a + b) == TruthyParams(a) + TruthyParams(b)
  {
    if a == [] {
      assert a + b == b;
    } else {
      var c := a + b;
      assert c[0] == a[0] && c[1..] == a[1..] + b;
      var h, ta, tb := TruthyHead(a[0]), TruthyParams(a[1..]), TruthyParams(b);
      TruthyParamsAppend(a[1..], b);
      calc {
        TruthyParams(c);
        h + TruthyParams(a[1..] + b);
        h + (ta + tb);
        (h + ta) + tb;
        TruthyParams(a) + tb;
      }
    }
  }

  /**
   * The application/x-www-form-urlencoded serializer (section 5.2 of the
   * WHATWG URL Standard): each name and value percent-encoded by `escape`,
   * joined by "=", the pairs joined by "&".
   */
  function FormEncode(ps: seq<(string, string)>, escape: string -> string): (s: string)
    ensures s == "" <==> ps == []
  {
    if ps == [] then ""
    else
      var pair := escape(ps[0].0) + "=" + escape(ps[0].1);
      assert pair[|escape(ps[0].0)|] == '=';
      if |ps| == 1 then pair else pair + "&" + FormEncode(ps[1..], escape)
  }

  /** The URL a query key stands for. */
  function KeyUrl(base: string, key: QueryKey, escape: string -> string): (url: string)
    ensures key.Plain? ==> url == JoinUrl(base, key.s)
    ensures key.Parts? ==> |url| >= |JoinUrl(base, key.head)| && url[..|JoinUrl(base, key.head)|] == JoinUrl(base, key.head)
    ensures key.Parts? && (key.rest == [] || key.rest[0].Other?) ==> url == JoinUrl(base, key.head)
  {
    match key
    case Plain(s) => JoinUrl(base, s)
    case Parts(head, rest) =>
      var url := JoinUrl(base, head);
      if rest == [] then url
      else match rest[0]
        case Segment(s) => url + "/" + s
        case Params(entries) =>
          var query := FormEncode(TruthyParams(entries), escape);
          if query != "" then url + "?" + query else url
        case Other => url
  }

  /** `getQueryFn`'s URL, built as the source builds it: parameters appended one entry at a time. */
  method QueryUrl(base: string, key: QueryKey, escape: string -> string) returns (url: string)
    ensures url == KeyUrl(base, key, escape)
  {
    var path := if key.Plain? then key.s else key.head;
    url := JoinUrl(base, path);
    if key.Parts? && |key.rest| >= 1 {
      match key.rest[0]
      case Segment(s) =>
        url := url + "/" + s;
      case Params(entries) =>
        var params := CollectParams(entries);
        var query := FormEncode(params, escape);
        if query != "" {
          url := url + "?" + query;
        }
      case Other =>
    }
  }

  /** The truthy entries of a parameter object, collected one entry at a time. */
  method CollectParams(entries: seq<(string, Option<string>)>) returns (params: seq<(string, string)>)
    ensures params == TruthyParams(entries)
  {
    params := [];
    for i := 0 to |entries|
      invariant params == TruthyParams(entries[..i])
    {
      TruthyParamsSnoc(entries, i);
      if Truthy(entries[i].1) {
        params := params + [(entries[i].0, entries[i].1.value)];
      }
    }
    assert entries[..|entries|] == entries;
  }

  lemma TruthyParamsSnoc(entries: seq<(string, Option<string>)>, i: nat)
    requires i < |entries|
    ensures TruthyParams(entries[..i + 1]) == TruthyParams(entries[..i]) + TruthyHead(entries[i])
  {
    assert entries[..i + 1] == entries[..i] + [entries[i]];
    TruthyParamsAppend(entries[..i], [entries[i]]);
    assert TruthyParams([entries[i]]) == TruthyHead(entries[i]) + TruthyParams([]);
  }

  /** A string second element adds one path segment. */
  lemma SegmentKey(base: string, head: string, s: string, more: seq<KeyPart>, escape: string -> string)
    ensures KeyUrl(base, Parts(head, [Segment(s)] + more), escape) == JoinUrl(base, head) + "/" + s
  {
  }

  /** Parameters add a query string exactly when some value is truthy, and then only the truthy entries. */
  lemma ParamsKey(base: string, head: string, entries: seq<(string, Option<string>)>, more: seq<KeyPart>, escape: string -> string)
    ensures var url := KeyUrl(base, Parts(head, [Params(entries)] + more), escape);
            && ((exists e :: e in entries && Truthy(e.1)) ==> url == JoinUrl(base, head) + "?" + FormEncode(TruthyParams(entries), escape))
            && ((forall e :: e in entries ==> !Truthy(e.1)) ==> url == JoinUrl(base, head))
  {
    if forall e :: e in entries ==> !Truthy(e.1) {
      if TruthyParams(entries) != [] {
        var p := TruthyParams(entries)[0];
        assert p in TruthyParams(entries);
      }
    } else {
      var e :| e in entries && Truthy(e.1);
      assert (e.0, e.1.value) in TruthyParams(entries);
    }
  }

  /** Key elements after the second never change the URL. */
  lemma LaterPartsIgnored(base: string, head: string, p: KeyPart, more: seq<KeyPart>, escape: string -> string)
    ensures KeyUrl(base, Parts(head, [p] + more), escape) == KeyUrl(base, Parts(head, [p]), escape)
  {
  }

  // -------------------------------------------------------------- errors

  /**
   * A non-ok response as the client reads it: its body text, its status text,
   * and what JSON parsing the text gives — no object at all, or an object
   * with the given `message` field (absent when it has none).
   */
  datatype Failure = Failure(text: string, statusText: string, parsed: Option<Option<string>>)

  /** The error message as `throwIfResNotOk` is written: the throw inside `try` is caught by its own `catch`, which always rethrows `text || statusText`. */
  function MessageAsWritten(f: Failure): (m: string)
    ensures f.text != "" ==> m == f.text
    ensures f.text == "" ==> m == f.statusText
  {
    OrElse(Some(f.text), f.statusText)
  }

  /** A JSON error body's message is never shown: the raw JSON text is. */
  lemma JsonMessageLost()
    ensures var f := Failure("{\"message\":\"Release not found\"}", "Not Found", Some(Some("Release not found")));
            MessageAsWritten(f) == f.text && MessageAsWritten(f) != "Release not found"
  {
  }

  /** The error message `throwIfResNotOk` evidently means: a JSON body's truthy `message`, else the text, else the status text. */
  function Message(f: Failure): (m: string)
    ensures f.parsed.Some? && Truthy(f.parsed.value) ==> m == f.parsed.value.value
    ensures !(f.parsed.Some? && Truthy(f.parsed.value)) ==> m == MessageAsWritten(f)
    ensures m == "" ==> f.text == "" && f.statusText == ""
  {
    if f.parsed.Some? && Truthy(f.parsed.value) then f.parsed.value.value
    else OrElse(Some(f.text), f.statusText)
  }

  /** What a query resolves to. */
  datatype QueryResult<T> = Null | Failed(message: string) | Data(value: T)

  /**
   * A query's result from the response: null for a 401 when the query asks
   * for it, an error for any other non-ok response, else the parsed body.
   * The error carries the corrected `Message`; `QueryOutcomeAsWritten` is the
   * same result with the message `throwIfResNotOk` produces as written.
   */
  function QueryOutcome<T>(returnNullOn401: bool, status: int, ok: bool, failure: Failure, body: T): (r: QueryResult<T>)
    ensures r.Null? <==> returnNullOn401 && status == 401
    ensures r.Failed? <==> !(returnNullOn401 && status == 401) && !ok
    ensures r.Failed? ==> r.message == Message(failure)
    ensures r.Data? ==> r.value == body
  {
    if returnNullOn401 && status == 401 then Null
    else if !ok then Failed(Message(failure))
    else Data(body)
  }

  /** `getQueryFn` as written: the same result, with the error message of `MessageAsWritten`. */
  function QueryOutcomeAsWritten<T>(returnNullOn401: bool, status: int, ok: bool, failure: Failure, body: T): (r: QueryResult<T>)
    ensures r.Null? <==> returnNullOn401 && status == 401
    ensures r.Failed? <==> !(returnNullOn401 && status == 401) && !ok
    ensures r.Failed? ==> r.message == MessageAsWritten(failure)
    ensures r.Data? ==> r.value == body
  {
    if returnNullOn401 && status == 401 then Null
    else if !ok then Failed(MessageAsWritten(failure))
    else Data(body)
  }

  /**
   * The two outcomes differ only in the message of a failed query, and only
   * when the error body is JSON with a truthy `message`.
   */
  lemma OutcomesDifferOnlyInMessage<T>(returnNullOn401: bool, status: int, ok: bool, failure: Failure, body: T)
    ensures var w, c := QueryOutcomeAsWritten(returnNullOn401, status, ok, failure, body),
                        QueryOutcome(returnNullOn401, status, ok, failure, body);
            && (w.Failed? <==> c.Failed?)
            && (w != c ==> w.Failed? && failure.parsed.Some? && Truthy(failure.parsed.value))
  {
  }
}
