/** The wrapper around an HTTP client response: the content read once and kept, its
    character set, and the header fields grouped by name. The response itself is a value;
    reading and decoding its entity stream is a parameter. */
module HttpResponse {
  import opened Wrappers
  import opened Strings

  /** A status code is the three-digit code of the status line (section 3.1.2 of RFC 7230). */
  type StatusCode = c: int | 100 <= c <= 999 witness 200

  datatype Header = Header(name: string, value: string)

  /** A parsed content type, as far as its character set goes. */
  datatype ContentType = ContentType(charset: Option<string>)

  /** The response: its status code, its headers in order, and the content type the
      entity reports (ContentType.getOrDefault's answer for the entity). */
  datatype Response = Response(statusCode: StatusCode, headers: seq<Header>, entityContentType: ContentType)

  /** The name of the header that carries the content type. */
  const ContentTypeName := "Content-Type"

  /** An I/O failure while reading the entity stream. */
  datatype IOException = IOException

  /** The default input stream encoding. */
  const DefaultEncoding := "UTF-8"

  /** Header names compare without regard to case (section 3.2 of RFC 7230). */
  predicate SameName(a: string, b: string) {
    ToLower(a) == ToLower(b)
  }

  /** getFirstHeader: the first header with the given name. */
  function FirstHeader(headers: seq<Header>, name: string): (r: Option<Header>)
    ensures r.None? <==> forall h :: h in headers ==> !SameName(h.name, name)
    ensures r.Some? ==> r.value in headers && SameName(r.value.name, name)
    ensures r.Some? ==> exists i :: 0 <= i < |headers| && headers[i] == r.value
                                     && forall j :: 0 <= j < i ==> !SameName(headers[j].name, name)
  {
    if headers == [] then None
    else if SameName(headers[0].name, name) then Some(headers[0])
    else FirstHeader(headers[1..], name)
  }

  /** The values of the headers whose lower-cased name is k, in header order. */
  function ValuesFor(headers: seq<Header>, k: string): seq<string> {
    if headers == [] then []
    else ValuesFor(headers[..|headers| - 1], k)
         + (if ToLower(headers[|headers| - 1].name) == k then [headers[|headers| - 1].value] else [])
  }

  /** The set of lower-cased header names. */
  function Names(headers: seq<Header>): set<string> {
    set h | h in headers :: ToLower(h.name)
  }

  lemma ValuesForSnoc(headers: seq<Header>, h: Header)
    ensures forall k :: ValuesFor(headers + [h], k)
                        == ValuesFor(headers, k) + (if ToLower(h.name) == k then [h.value] else [])
  {
    assert (headers + [h])[..|headers|] == headers;
  }

  lemma NamesSnoc(headers: seq<Header>, h: Header)
    ensures Names(headers + [h]) == Names(headers) + {ToLower(h.name)}
  {
    assert forall x :: x in headers + [h] <==> x in headers || x == h;
  }

  /** The lower-cased header names, each once, in order of first occurrence. */
  function DistinctNames(headers: seq<Header>): (r: seq<string>)
    ensures forall i, j :: 0 <= i < j < |r| ==> r[i] != r[j]
    ensures forall k :: k in r <==> exists h :: h in headers && ToLower(h.name) == k
  {
    if headers == [] then []
    else
      var prefix := headers[..|headers| - 1];
      var last := headers[|headers| - 1];
      var names := DistinctNames(prefix);
      assert forall h :: h in headers <==> h in prefix || h == last by {
        assert headers == prefix + [last];
      }
      if ToLower(last.name) in names then names else names + [ToLower(last.name)]
  }

  /** The number of values over the given keys. */
  function CountValues(headers: seq<Header>, keys: seq<string>): nat {
    if keys == [] then 0 else |ValuesFor(headers, keys[0])| + CountValues(headers, keys[1..])
  }

  /** A name no header has gets no value. */
  lemma {:induction false} ValuesForAbsent(headers: seq<Header>, k: string)
    requires k !in DistinctNames(headers)
    ensures ValuesFor(headers, k) == []
  {
    if headers != [] {
      ValuesForAbsent(headers[..|headers| - 1], k);
    }
  }

  /** One more header adds one value, to its own key. */
  lemma {:induction false} CountValuesSnoc(headers: seq<Header>, h: Header, keys: seq<string>)
    requires forall i, j :: 0 <= i < j < |keys| ==> keys[i] != keys[j]
    ensures CountValues(headers + [h], keys) == CountValues(headers, keys) + (if ToLower(h.name) in keys then 1 else 0)
  {
    if keys != [] {
      assert (headers + [h])[..|headers + [h]| - 1] == headers;
      CountValuesSnoc(headers, h, keys[1..]);
      assert ToLower(h.name) in keys <==> ToLower(h.name) == keys[0] || ToLower(h.name) in keys[1..] by {
        assert keys == [keys[0]] + keys[1..];
      }
    }
  }

  lemma {:induction false} CountValuesAppend(headers: seq<Header>, keys: seq<string>, k: string)
    ensures CountValues(headers, keys + [k]) == CountValues(headers, keys) + |ValuesFor(headers, k)|
  {
    if keys != [] {
      assert (keys + [k])[1..] == keys[1..] + [k];
      CountValuesAppend(headers, keys[1..], k);
    } else {
      assert CountValues(headers, [k]) == |ValuesFor(headers, k)| + CountValues(headers, []);
    }
  }

  /** Grouping neither drops nor duplicates a value: over all distinct names there are as
      many values as headers. */
  lemma {:induction false} GroupingKeepsEveryValue(headers: seq<Header>)
    ensures CountValues(headers, DistinctNames(headers)) == |headers|
  {
    if headers != [] {
      var prefix := headers[..|headers| - 1];
      var last := headers[|headers| - 1];
      var k := ToLower(last.name);
      GroupingKeepsEveryValue(prefix);
      assert headers == prefix + [last];
      var names := DistinctNames(prefix);
      CountValuesSnoc(prefix, last, names);
      if k !in names {
        CountValuesAppend(headers, names, k);
        ValuesForAbsent(prefix, k);
      }
    }
  }

  class HttpResponseHandler {
    const response: Response
    var contentAsString: Option<string>
    var statusCode: int
    /** How often the entity stream has been read. */
    ghost var streamReads: nat

    constructor (response: Response)
      ensures this.response == response && contentAsString == None && statusCode == -1 && streamReads == 0
    {
      this.response := response;
      contentAsString := None;
      statusCode := -1;
      streamReads := 0;
    }

    /** getContentType: the charset of the Content-Type header if there is one, of the
        entity's content type otherwise, and the default encoding when that type has no
        charset. parse stands for ContentType.parse. */
    function GetContentType(parse: string -> ContentType): (charset: string)
      ensures var header := FirstHeader(response.headers, ContentTypeName);
        var contentType := if header.Some? then parse(header.value.value) else response.entityContentType;
        (contentType.charset.Some? ==> charset == contentType.charset.value)
        && (contentType.charset.None? ==> charset == DefaultEncoding)
    {
      var header := FirstHeader(response.headers, ContentTypeName);
      var contentType := if header.Some? then parse(header.value.value) else response.entityContentType;
      contentType.charset.GetOr(DefaultEncoding)
    }

    /** getContent: hand out the stream, and note the status code. */
    method GetContent()
      modifies this`statusCode
      ensures statusCode == response.statusCode
    {
      statusCode := response.statusCode;
    }

    /** getContentAsString: the stream is read, in the content type's charset, only while no
        status code has been noted; after that the kept string is returned, or "" for a
        status 500 when asked to. readContent stands for reading the stream in a charset, None
        when that throws an IOException: the status code is then already noted, so the stream
        is not read again and later calls return the string kept before. */
    method GetContentAsString(returnNullOnFault: bool, parse: string -> ContentType,
                              readContent: string -> Option<string>)
      returns (r: Result<Option<string>, IOException>)
      modifies this`statusCode, this`contentAsString, this`streamReads
      ensures old(statusCode) < 0 ==> statusCode == response.statusCode && streamReads == old(streamReads) + 1
      ensures old(statusCode) < 0 && readContent(GetContentType(parse)).Some? ==>
        contentAsString == readContent(GetContentType(parse)) && r == Success(contentAsString)
      ensures old(statusCode) < 0 && readContent(GetContentType(parse)).None? ==>
        contentAsString == old(contentAsString) && r == Failure(IOException)
      ensures old(statusCode) >= 0 ==>
        statusCode == old(statusCode) && contentAsString == old(contentAsString) && streamReads == old(streamReads)
      ensures old(statusCode) >= 0 && returnNullOnFault && statusCode == 500 ==> r == Success(Some(""))
      ensures old(statusCode) >= 0 && !(returnNullOnFault && statusCode == 500) ==> r == Success(contentAsString)
      ensures statusCode >= 0
    {
      if statusCode < 0 {
        GetContent();
        var charset := GetContentType(parse);
        var read := readContent(charset);
        streamReads := streamReads + 1;
        if read.None? {
          return Failure(IOException);
        }
        contentAsString := read;
        r := Success(contentAsString);
      } else if returnNullOnFault && statusCode == 500 {
        r := Success(Some(""));
      } else {
        r := Success(contentAsString);
      }
    }

    /** getHeaderFields: the header values grouped under the lower-cased names. */
    method GetHeaderFields() returns (headerMap: map<string, seq<string>>)
      ensures headerMap.Keys == Names(response.headers)
      ensures forall k :: k in headerMap ==> headerMap[k] == ValuesFor(response.headers, k) && headerMap[k] != []
    {
      var headers := response.headers;
      headerMap := map[];
      var i := 0;
      while i < |headers|
        invariant 0 <= i <= |headers|
        invariant GroupedSoFar(headerMap, headers[..i])
      {
        var header := headers[i];
        var name := ToLower(header.name);
        var value: seq<string>;
        if name in headerMap {
          value := headerMap[name];
        } else {
          value := [];
        }
        value := value + [header.value];
        assert headers[..i + 1] == headers[..i] + [header];
        GroupStep(headerMap, headers[..i], header);
        headerMap := headerMap[name := value];
        i := i + 1;
      }
      assert headers[..i] == headers;
    }
  }

  /** The map getHeaderFields has built from the headers so far. */
  ghost predicate GroupedSoFar(m: map<string, seq<string>>, headers: seq<Header>) {
    m.Keys == Names(headers)
    && (forall k :: k in m ==> m[k] == ValuesFor(headers, k) && m[k] != [])
    && (forall k :: k !in m ==> ValuesFor(headers, k) == [])
  }

  /** One header more: its value is appended to the list of its lower-cased name. */
  lemma GroupStep(m: map<string, seq<string>>, headers: seq<Header>, h: Header)
    requires GroupedSoFar(m, headers)
    ensures var k := ToLower(h.name);
      GroupedSoFar(m[k := (if k in m then m[k] else []) + [h.value]], headers + [h])
  {
    var k0 := ToLower(h.name);
    var m' := m[k0 := (if k0 in m then m[k0] else []) + [h.value]];
    NamesSnoc(headers, h);
    ValuesForSnoc(headers, h);
    GroupStepPresent(m, headers, h);
    GroupStepAbsent(m, headers, h);
  }

  /** After one header more, every key of the map holds the values of its headers. */
  lemma GroupStepPresent(m: map<string, seq<string>>, headers: seq<Header>, h: Header)
    requires GroupedSoFar(m, headers)
    ensures var k0 := ToLower(h.name);
      var m' := m[k0 := (if k0 in m then m[k0] else []) + [h.value]];
      forall k :: k in m' ==> m'[k] == ValuesFor(headers + [h], k) && m'[k] != []
  {
    var k0 := ToLower(h.name);
    var m' := m[k0 := (if k0 in m then m[k0] else []) + [h.value]];
    ValuesForSnoc(headers, h);
    forall k | k in m'
      ensures m'[k] == ValuesFor(headers + [h], k) && m'[k] != []
    {
      if k != k0 {
        assert m'[k] == m[k];
      }
    }
  }

  /** After one header more, a name outside the map still has no values. */
  lemma GroupStepAbsent(m: map<string, seq<string>>, headers: seq<Header>, h: Header)
    requires GroupedSoFar(m, headers)
    ensures var k0 := ToLower(h.name);
      var m' := m[k0 := (if k0 in m then m[k0] else []) + [h.value]];
      forall k :: k !in m' ==> ValuesFor(headers + [h], k) == []
  {
    var k0 := ToLower(h.name);
    ValuesForSnoc(headers, h);
    forall k | k != k0 && k !in m
      ensures ValuesFor(headers + [h], k) == []
    {
    }
  }

  /** Every value of the grouped map comes from a header of that name, and the values over
      all keys number exactly the headers. */
  lemma HeaderFieldsComplete(headers: seq<Header>)
    ensures (set k | k in DistinctNames(headers)) == Names(headers)
    ensures CountValues(headers, DistinctNames(headers)) == |headers|
  {
    GroupingKeepsEveryValue(headers);
  }
}
