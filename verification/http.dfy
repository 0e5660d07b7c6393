/** HTTP vocabulary shared by the client and the server halves of the
    model: request methods, the request descriptor a client endpoint
    produces, and the split of a URL path into the segments the Express
    router matches against. */
module Http {
  import opened Js

  datatype Method = GET | POST | PUT | DELETE

  /** An opaque request body: the field names and values the client sends. */
  datatype Data = Data(fields: map<string, string>)

  datatype Body = NoBody | Payload(data: Data)

  /** What an endpoint's `query` builder returns: a method (GET when the
      builder names none), a URL, query-string parameters and a body. */
  datatype Descriptor = Descriptor(
    verb: Method,
    url: string,
    params: seq<(string, Option<string>)>,
    body: Body)

  /** A request given to the base query as a bare string is a GET of that URL. */
  function Get(url: string): (d: Descriptor)
    ensures d.verb == GET && d.url == url && d.params == [] && d.body == NoBody
  {
    Descriptor(GET, url, [], NoBody)
  }

  /** A property of a request body as a template literal prints it. */
  function FieldArg(d: Data, key: string): Option<string>
  {
    if key in d.fields then Some(d.fields[key]) else None
  }

  /** Fields of `s` separated by '/', as `String.prototype.split('/')`. */
  function Split(s: string): (r: seq<string>)
    ensures |r| >= 1
    decreases |s|
  {
    if s == [] then [""]
    else if s[0] == '/' then [""] + Split(s[1..])
    else
      var rest := Split(s[1..]);
      [[s[0]] + rest[0]] + rest[1..]
  }

  /** The path segments the router sees: the leading empty field before the
      first '/' is dropped, and so is one trailing empty field, because the
      router is not strict about a trailing slash. */
  function Segments(url: string): (r: seq<string>)
  {
    var raw := Split(url);
    var tail := if raw[0] == "" then raw[1..] else raw;
    if |tail| > 0 && tail[|tail| - 1] == "" then tail[..|tail| - 1] else tail
  }

  /** A segment a URL can carry unambiguously: non-empty and slash-free. */
  predicate PlainSegment(s: string)
  {
    s != [] && '/' !in s
  }

  /** A segment the browser's URL parser delivers to the server as it is
      written. It is plain, and it is not a dot segment (`.` or `..`, which
      the parser resolves away). Every character is printable ASCII other
      than space. The parser removes tabs and newlines, trims spaces at the
      end of the URL, and percent-encodes every other character outside
      that range. Several printable characters are excluded as well:
      - `?` and `#`, where the parser ends the path;
      - `\`, which it reads as `/`;
      - `%`, so there is no encoded dot segment either;
      - `"`, `<`, `>`, `` ` ``, `{`, `}` and `^`, which it percent-encodes. */
  predicate UrlSegment(s: string)
  {
    PlainSegment(s) && s != "." && s != ".." &&
    forall i :: 0 <= i < |s| ==> ' ' < s[i] <= '~' && s[i] !in "?#\\%\"<>`{}^"
  }

  /** The path of a URL as the browser's URL parser reads it: everything
      before the first `?` (the query) or `#` (the fragment). */
  function Pathname(url: string): (r: string)
    ensures r <= url && '?' !in r && '#' !in r
    ensures |r| < |url| ==> url[|r|] == '?' || url[|r|] == '#'
    decreases |url|
  {
    if url == [] || url[0] == '?' || url[0] == '#' then ""
    else [url[0]] + Pathname(url[1..])
  }

  /** A leading part with neither a query nor a fragment mark is path. */
  lemma {:induction false} PathnameAppend(a: string, b: string)
    requires '?' !in a && '#' !in a
    ensures Pathname(a + b) == a + Pathname(b)
    decreases |a|
  {
    if a == [] {
      assert a + b == b;
    } else {
      assert a[0] in a;
      assert (a + b)[1..] == a[1..] + b;
      PathnameAppend(a[1..], b);
      assert [a[0]] + (a[1..] + Pathname(b)) == a + Pathname(b);
    }
  }

  /** A URL with neither a query nor a fragment is all path. */
  lemma PathnameWhole(url: string)
    requires '?' !in url && '#' !in url
    ensures Pathname(url) == url
  {
    PathnameAppend(url, "");
    assert url + "" == url;
  }

  /** The URL path `/s1/s2/...` for a list of segments. */
  function Join(segs: seq<string>): string
  {
    if segs == [] then "" else "/" + segs[0] + Join(segs[1..])
  }

  lemma {:induction false} SplitPlain(seg: string, t: string)
    requires '/' !in seg
    ensures Split(seg + t) == [seg + Split(t)[0]] + Split(t)[1..]
    decreases |seg|
  {
    var st := Split(t);
    if seg != [] {
      assert seg[0] in seg;
      assert (seg + t)[0] == seg[0];
      assert (seg + t)[1..] == seg[1..] + t;
      SplitPlain(seg[1..], t);
      assert [seg[0]] + (seg[1..] + Split(t)[0]) == seg + Split(t)[0];
    } else {
      assert seg + t == t;
      assert seg + st[0] == st[0];
      assert [st[0]] + st[1..] == st;
    }
  }

  lemma {:induction false} SplitJoin(segs: seq<string>)
    requires forall i :: 0 <= i < |segs| ==> PlainSegment(segs[i])
    ensures Split(Join(segs)) == [""] + segs
    decreases |segs|
  {
    if segs != [] {
      var rest := Join(segs[1..]);
      var s := "/" + segs[0] + rest;
      assert s[0] == '/';
      assert s[1..] == segs[0] + rest;
      SplitJoin(segs[1..]);
      SplitPlain(segs[0], rest);
      assert Split(rest)[0] == "";
      assert segs[0] + "" == segs[0];
      assert Split(segs[0] + rest) == [segs[0]] + segs[1..];
      assert [segs[0]] + segs[1..] == segs;
    }
  }

  /** Round trip: the router recovers exactly the segments a URL was built
      from, provided each segment is non-empty and slash-free. */
  lemma SegmentsJoin(segs: seq<string>)
    requires forall i :: 0 <= i < |segs| ==> PlainSegment(segs[i])
    ensures Segments(Join(segs)) == segs
  {
    SplitJoin(segs);
    assert Split(Join(segs))[1..] == segs;
  }

  /** Unfolds `Join` for the short fixed paths the client builds. */
  lemma Join1(a: string)
    ensures Join([a]) == "/" + a
  {
    assert Join([a][1..]) == "";
  }

  lemma Join2(a: string, b: string)
    ensures Join([a, b]) == "/" + a + "/" + b
  {
    assert [a, b][1..] == [b];
    Join1(b);
  }

  lemma Join3(a: string, b: string, c: string)
    ensures Join([a, b, c]) == "/" + a + "/" + b + "/" + c
  {
    assert [a, b, c][1..] == [b, c];
    Join2(b, c);
  }

  lemma Join4(a: string, b: string, c: string, d: string)
    ensures Join([a, b, c, d]) == "/" + a + "/" + b + "/" + c + "/" + d
  {
    assert [a, b, c, d][1..] == [b, c, d];
    Join3(b, c, d);
  }
}
