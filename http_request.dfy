/**
 * The preparation step of `HTTPClient.request` (httpclient.py): the HTTP method check,
 * the serialisation of the body and the defaulting of `Content-Type` and
 * `Content-Length`, and the status description used when the response is logged.
 *
 * `json.dumps` is a parameter `dumps`: nothing is assumed about the text it produces.
 */
module HttpRequest {
  import opened Wrappers
  import opened Json
  import opened Decimal

  /** The methods `request` accepts, compared after upper-casing. */
  const Methods: seq<string> := ["POST", "GET", "PUT", "DELETE", "HEAD", "OPTIONS", "PATCH"]

  const ContentType := "Content-Type"
  const ContentLength := "Content-Length"
  const JsonMediaType := "application/json"

  /** `str.upper` on one character, for the ASCII letters. */
  function UpperChar(c: char): char
  {
    if 'a' <= c <= 'z' then (c as int - 32) as char else c
  }

  function Upper(s: string): (r: string)
    ensures |r| == |s|
    ensures forall i :: 0 <= i < |s| ==> r[i] == UpperChar(s[i])
  {
    seq(|s|, i requires 0 <= i < |s| => UpperChar(s[i]))
  }

  /** `method.upper()` is one of the seven methods; an accepted spelling has 3 to 7 letters. */
  predicate AcceptedMethod(verb: string)
    ensures AcceptedMethod(verb) ==> 3 <= |verb| <= 7
  {
    Upper(verb) in Methods
  }

  /** The `ValueError` raised for a method outside the list; it names the upper-cased method. */
  datatype RequestError = InvalidMethod(upper: string)

  /** Two spellings of the same word up to the case of its letters. */
  predicate SameIgnoringCase(a: string, b: string)
  {
    |a| == |b| && forall i :: 0 <= i < |a| ==> UpperChar(a[i]) == UpperChar(b[i])
  }

  /** The method check does not depend on the case of the letters. */
  lemma AcceptedMethodIgnoresCase(a: string, b: string)
    requires SameIgnoringCase(a, b)
    ensures AcceptedMethod(a) <==> AcceptedMethod(b)
  {
    assert Upper(a) == Upper(b);
  }

  /** Upper-casing twice is upper-casing once, so an upper-cased name is accepted iff the original is. */
  lemma UpperIdempotent(s: string)
    ensures Upper(Upper(s)) == Upper(s)
    ensures AcceptedMethod(Upper(s)) <==> AcceptedMethod(s)
  {
    assert forall i :: 0 <= i < |s| ==> UpperChar(UpperChar(s[i])) == UpperChar(s[i]);
    assert Upper(Upper(s)) == Upper(s);
  }

  /** `if data and type(data) != str: data = json.dumps(data)`. */
  function SerialisedData(data: Json, dumps: Json -> string): (r: Json)
    ensures Truthy(data) ==> r.JStr?
    ensures !Truthy(data) || data.JStr? ==> r == data
    ensures Truthy(data) && !data.JStr? ==> r == JStr(dumps(data))
  {
    if Truthy(data) && !data.JStr? then JStr(dumps(data)) else data
  }

  /**
   * The headers after the two defaults, over the prepared `data`. Every property of
   * lines 127-130 is an ensures clause: the content type is added only to a truthy body
   * that has none, an existing value of either key is kept, the length is the decimal
   * length of the body or "0", and no other entry changes.
   */
  function PreparedHeaders(h: map<string, string>, data: Json): (r: map<string, string>)
    requires Truthy(data) ==> data.JStr?
    ensures r.Keys == h.Keys + {ContentLength} + (if Truthy(data) then {ContentType} else {})
    ensures ContentType in h ==> r[ContentType] == h[ContentType]
    ensures ContentType !in h && Truthy(data) ==> r[ContentType] == JsonMediaType
    ensures ContentLength in h ==> r[ContentLength] == h[ContentLength]
    ensures ContentLength !in h && Truthy(data) ==> r[ContentLength] == NatToString(|data.s|)
    ensures ContentLength !in h && !Truthy(data) ==> r[ContentLength] == "0"
    ensures forall k :: k in h && k != ContentType && k != ContentLength ==> r[k] == h[k]
  {
    var withType := if Truthy(data) && ContentType !in h then h[ContentType := JsonMediaType] else h;
    if ContentLength !in withType
    then withType[ContentLength := if Truthy(data) then NatToString(|data.s|) else "0"]
    else withType
  }

  /** A defaulted `Content-Length` reads back as the number of characters of the body. */
  lemma ContentLengthReadsBack(h: map<string, string>, data: Json)
    requires Truthy(data) ==> data.JStr?
    requires ContentLength !in h
    ensures var v := PreparedHeaders(h, data)[ContentLength];
            AllDigits(v) && DigitsToNat(v) == (if Truthy(data) then |data.s| else 0)
  {
    if Truthy(data) {
      NatToStringRoundTrip(|data.s|);
    } else {
      assert DigitsToNat("0") == DigitsToNat("") * 10 + DigitValue('0');
    }
  }

  /** A Python `dict`, which `request` may change in place. */
  class HeaderDict {
    var entries: map<string, string>

    constructor (entries: map<string, string>)
      ensures this.entries == entries
    {
      this.entries := entries;
    }
  }

  /** The body and the header dictionary that are handed to the HTTP session. */
  datatype Prepared = Prepared(data: Json, headers: HeaderDict)

  /**
   * Lines 118-130 of `request`. A truthy `headers` dictionary is the caller's own and is
   * updated in place; `None` or an empty dictionary is replaced by a fresh one and the
   * caller's is left as it was.
   */
  method PrepareRequest(verb: string, data: Json, headers: HeaderDict?, dumps: Json -> string)
    returns (r: Result<Prepared, RequestError>)
    modifies headers
    ensures !AcceptedMethod(verb) ==> r == Err(InvalidMethod(Upper(verb)))
    ensures !AcceptedMethod(verb) && headers != null ==> headers.entries == old(headers.entries)
    ensures AcceptedMethod(verb) ==> r.Ok? && r.value.data == SerialisedData(data, dumps)
    ensures AcceptedMethod(verb) && headers != null && old(headers.entries) != map[] ==>
              r.value.headers == headers
              && headers.entries == PreparedHeaders(old(headers.entries), r.value.data)
    ensures AcceptedMethod(verb) && (headers == null || old(headers.entries) == map[]) ==>
              fresh(r.value.headers)
              && r.value.headers.entries == PreparedHeaders(map[], r.value.data)
              && (headers != null ==> headers.entries == old(headers.entries))
  {
    if !AcceptedMethod(verb) {
      return Err(InvalidMethod(Upper(verb)));
    }
    var body := data;
    if Truthy(body) && !body.JStr? {
      body := JStr(dumps(body));
    }
    var h: HeaderDict;
    if headers == null || headers.entries == map[] {
      h := new HeaderDict(map[]);
    } else {
      h := headers;
    }
    if Truthy(body) && ContentType !in h.entries {
      h.entries := h.entries[ContentType := JsonMediaType];
    }
    if ContentLength !in h.entries {
      h.entries := h.entries[ContentLength := if Truthy(body) then NatToString(|body.s|) else "0"];
    }
    r := Ok(Prepared(body, h));
  }

  // ---------------------------------------------------------------------------
  // Response descriptions

  /** `HTTPResponse.responses`. */
  const Responses: map<int, string> := map[
    200 := "OK",
    201 := "CREATED",
    204 := "NO CONTENT",
    304 := "NOT MODIFIED",
    400 := "BAD REQUEST",
    401 := "UNAUTHORIZED",
    403 := "FORBIDDEN",
    404 := "NOT FOUND",
    405 := "METHOD NOT ALLOWED",
    429 := "TOO MANY REQUESTS",
    502 := "GATEWAY UNAVAILABLE"
  ]

  /** `HTTPResponse.responses.get(status, "???")`. */
  function StatusText(status: int): (r: string)
    ensures r == "???" <==> status !in Responses
    ensures status in Responses ==> r == Responses[status]
  {
    if status in Responses then Responses[status] else "???"
  }
}
