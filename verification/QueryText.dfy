/** The percent-encoded query text of a request URL (sections 2.1 and 2.3 of RFC 3986). */
module QueryText {
  import opened Collections
  import opened Sorting

  /** A signed byte, as the UTF-8 encoding of a string yields them. */
  type SignedByte = b: int | -128 <= b < 128

  type Bytes = seq<SignedByte>

  /** A query entry: the UTF-8 bytes of key and value. */
  datatype Entry = Entry(key: Bytes, value: Bytes)

  function Unsigned(b: SignedByte): (v: nat)
    ensures v < 256
  {
    if b < 0 then b + 256 else b
  }

  predicate IsUnreserved(c: char) {
    'A' <= c <= 'Z' || 'a' <= c <= 'z' || '0' <= c <= '9' || c in {'-', '.', '_', '~'}
  }

  function HexDigit(v: nat): char {
    "0123456789ABCDEF"[v % 16]
  }

  function EncodeByte(b: SignedByte): string {
    var v := Unsigned(b);
    if IsUnreserved(v as char) then [v as char] else ['%', HexDigit(v / 16), HexDigit(v % 16)]
  }

  function Encode(bytes: Bytes): string {
    if bytes == [] then "" else EncodeByte(bytes[0]) + Encode(bytes[1..])
  }

  lemma {:induction false} EncodeAppend(bytes: Bytes, b: SignedByte)
    ensures Encode(bytes + [b]) == Encode(bytes) + EncodeByte(b)
  {
    if bytes == [] {
      assert Encode([b]) == EncodeByte(b) + Encode([b][1..]);
    } else {
      assert (bytes + [b])[1..] == bytes[1..] + [b];
      EncodeAppend(bytes[1..], b);
    }
  }

  method EncodeQueryComponent(bytes: Bytes) returns (output: string)
    ensures output == Encode(bytes)
  {
    output := "";
    for i := 0 to |bytes|
      invariant output == Encode(bytes[..i])
    {
      assert bytes[..i + 1] == bytes[..i] + [bytes[i]];
      EncodeAppend(bytes[..i], bytes[i]);
      var v := Unsigned(bytes[i]);
      if IsUnreserved(v as char) {
        output := output + [v as char];
      } else {
        output := output + ['%'];
        output := output + [HexDigit(v / 16)];
        output := output + [HexDigit(v % 16)];
      }
    }
    assert bytes[..|bytes|] == bytes;
  }

  function EntryText(e: Entry): string {
    Encode(e.key) + "=" + Encode(e.value)
  }

  function Join(entries: seq<Entry>): string {
    if entries == [] then ""
    else if |entries| == 1 then EntryText(entries[0])
    else EntryText(entries[0]) + "&" + Join(entries[1..])
  }

  /** A total order of keys; the code compares the key strings. */
  ghost predicate KeyOrder(leq: (Bytes, Bytes) -> bool) {
    TotalPreorder(leq) && forall a, b :: leq(a, b) && leq(b, a) ==> a == b
  }

  function Sorted(leq: (Bytes, Bytes) -> bool, query: seq<Entry>): seq<Entry> {
    SortBy((a: Entry, b: Entry) => leq(a.key, b.key), query)
  }

  /** `query` lists the entries of the map in the order the map iterates. */
  function BuildUrl(leq: (Bytes, Bytes) -> bool, baseUrl: string, path: string, query: seq<Entry>): string {
    var start := NormalizedBase(baseUrl) + NormalizedPath(path);
    if query == [] then start else start + "?" + Join(Sorted(leq, query))
  }

  function NormalizedBase(baseUrl: string): string {
    if baseUrl != "" && baseUrl[|baseUrl| - 1] == '/' then baseUrl[..|baseUrl| - 1] else baseUrl
  }

  function NormalizedPath(path: string): string {
    if "/" <= path then path else "/" + path
  }

  // ----- reading it back -----

  function Unhex(c: char): Option<nat> {
    if '0' <= c <= '9' then Some(c as int - '0' as int)
    else if 'A' <= c <= 'F' then Some(c as int - 'A' as int + 10)
    else None
  }

  function ToSigned(v: nat): SignedByte
    requires v < 256
  {
    if v < 128 then v else v - 256
  }

  function Decode(s: string): Option<Bytes> {
    if s == "" then Some([])
    else if s[0] == '%' then
      if |s| < 3 || Unhex(s[1]).None? || Unhex(s[2]).None? || Decode(s[3..]).None? then None
      else
        var v := 16 * Unhex(s[1]).value + Unhex(s[2]).value;
        if v >= 256 then None else Some([ToSigned(v)] + Decode(s[3..]).value)
    else
      if s[0] as int >= 128 || Decode(s[1..]).None? then None
      else Some([ToSigned(s[0] as int)] + Decode(s[1..]).value)
  }

  function Split(s: string, sep: char): (parts: seq<string>)
    ensures parts != []
  {
    if s == "" then [""]
    else if s[0] == sep then [""] + Split(s[1..], sep)
    else
      var rest := Split(s[1..], sep);
      [[s[0]] + rest[0]] + rest[1..]
  }

  function IndexOf(s: string, c: char): (i: nat)
    ensures i <= |s| && (i < |s| ==> s[i] == c) && c !in s[..i]
  {
    if s == "" || s[0] == c then 0
    else
      var i := IndexOf(s[1..], c);
      assert s[..i + 1] == [s[0]] + s[1..][..i];
      1 + i
  }

  function ParseEntry(s: string): Option<Entry> {
    var i := IndexOf(s, '=');
    if i == |s| || Decode(s[..i]).None? || Decode(s[i + 1..]).None? then None
    else Some(Entry(Decode(s[..i]).value, Decode(s[i + 1..]).value))
  }

  function ParseParts(parts: seq<string>): Option<seq<Entry>> {
    if parts == [] then Some([])
    else if ParseEntry(parts[0]).None? || ParseParts(parts[1..]).None? then None
    else Some([ParseEntry(parts[0]).value] + ParseParts(parts[1..]).value)
  }

  function ParseQuery(text: string): Option<seq<Entry>> {
    ParseParts(Split(text, '&'))
  }

  lemma HexRoundTrip(v: nat)
    requires v < 16
    ensures Unhex(HexDigit(v)) == Some(v) && HexDigit(v) != '&' && HexDigit(v) != '='
  {
  }

  lemma DecodeLiteral(c: char, s: string)
    requires c != '%' && c as int < 128 && Decode(s).Some?
    ensures Decode([c] + s) == Some([ToSigned(c as int)] + Decode(s).value)
  {
    assert ([c] + s)[1..] == s;
  }

  lemma DecodeEscape(v: nat, s: string)
    requires v < 256 && Decode(s).Some?
    ensures Decode(['%', HexDigit(v / 16), HexDigit(v % 16)] + s) == Some([ToSigned(v)] + Decode(s).value)
  {
    HexRoundTrip(v / 16);
    HexRoundTrip(v % 16);
    assert (['%', HexDigit(v / 16), HexDigit(v % 16)] + s)[3..] == s;
  }

  lemma DecodeOneByte(b: SignedByte, s: string)
    requires Decode(s).Some?
    ensures Decode(EncodeByte(b) + s) == Some([b] + Decode(s).value)
  {
    var v := Unsigned(b);
    assert ToSigned(v) == b;
    if IsUnreserved(v as char) { DecodeLiteral(v as char, s); } else { DecodeEscape(v, s); }
  }

  /** Percent-decoding an encoded component gives its bytes back. */
  lemma {:induction false} DecodeEncodes(bytes: Bytes)
    ensures Decode(Encode(bytes)) == Some(bytes)
  {
    if bytes != [] {
      DecodeEncodes(bytes[1..]);
      DecodeOneByte(bytes[0], Encode(bytes[1..]));
      assert bytes == [bytes[0]] + bytes[1..];
    }
  }

  /** An encoded component contains unreserved characters and percent signs only. */
  lemma {:induction false} EncodedAlphabet(bytes: Bytes)
    ensures forall c :: c in Encode(bytes) ==> IsUnreserved(c) || c == '%'
  {
    if bytes != [] {
      var v := Unsigned(bytes[0]);
      HexIsUnreserved(v / 16);
      HexIsUnreserved(v % 16);
      EncodedAlphabet(bytes[1..]);
    }
  }

  /** A letter, a digit or one of four marks (section 2.3 of RFC 3986), by its code. */
  predicate UnreservedCode(v: int) {
    65 <= v <= 90 || 97 <= v <= 122 || 48 <= v <= 57 || v in {45, 46, 95, 126}
  }

  /** Exactly the unreserved bytes stay as they are; any other becomes a percent sign and two
      digits, hexadecimal in upper case (section 2.1 of RFC 3986). */
  lemma OnlyUnreservedBytesStay(b: SignedByte)
    ensures UnreservedCode(b) <==> Encode([b]) == [Unsigned(b) as char]
    ensures UnreservedCode(b) <==> |Encode([b])| == 1
    ensures !UnreservedCode(b) ==>
              && |Encode([b])| == 3 && Encode([b])[0] == '%'
              && forall i :: 1 <= i <= 2 ==> '0' <= Encode([b])[i] <= '9' || 'A' <= Encode([b])[i] <= 'F'
  {
    var v := Unsigned(b);
    assert [b][1..] == [] && Encode([b]) == EncodeByte(b) + "";
    assert 0 <= v / 16 < 16 && 0 <= v % 16 < 16;
  }

  lemma HexIsUnreserved(v: nat)
    ensures IsUnreserved(HexDigit(v))
  {
    assert v % 16 < 16;
  }

  lemma {:induction false} IndexOfFirst(x: string, rest: string, c: char)
    requires c !in x
    ensures IndexOf(x + [c] + rest, c) == |x|
  {
    if x != "" {
      IndexOfFirst(x[1..], rest, c);
      assert (x + [c] + rest)[1..] == x[1..] + [c] + rest;
      assert (x + [c] + rest)[0] == x[0];
    }
  }

  lemma NoSeparators(bytes: Bytes)
    ensures '&' !in Encode(bytes) && '=' !in Encode(bytes)
  {
    EncodedAlphabet(bytes);
    assert !IsUnreserved('&') && !IsUnreserved('=');
  }

  lemma ParsesAsPair(k: string, v: string)
    requires '=' !in k && Decode(k).Some? && Decode(v).Some?
    ensures ParseEntry(k + ['='] + v) == Some(Entry(Decode(k).value, Decode(v).value))
  {
    IndexOfFirst(k, v, '=');
    assert (k + ['='] + v)[..|k|] == k && (k + ['='] + v)[|k| + 1..] == v;
  }

  lemma EntryParsesBack(e: Entry)
    ensures ParseEntry(EntryText(e)) == Some(e) && '&' !in EntryText(e)
  {
    NoSeparators(e.key);
    NoSeparators(e.value);
    DecodeEncodes(e.key);
    DecodeEncodes(e.value);
    ParsesAsPair(Encode(e.key), Encode(e.value));
  }

  lemma {:induction false} SplitAtFirst(x: string, rest: string, sep: char)
    requires sep !in x
    ensures Split(x, sep) == [x]
    ensures Split(x + [sep] + rest, sep) == [x] + Split(rest, sep)
  {
    if x == "" {
      assert ("" + [sep] + rest)[1..] == rest;
    } else {
      SplitAtFirst(x[1..], rest, sep);
      assert (x + [sep] + rest)[1..] == x[1..] + [sep] + rest;
      assert x == [x[0]] + x[1..];
    }
  }

  lemma PartsOneMore(part: string, e: Entry, parts: seq<string>, entries: seq<Entry>)
    requires ParseEntry(part) == Some(e) && ParseParts(parts) == Some(entries)
    ensures ParseParts([part] + parts) == Some([e] + entries)
  {
    assert ([part] + parts)[0] == part && ([part] + parts)[1..] == parts;
  }

  lemma FirstEntryParses(e: Entry, rest: string, entries: seq<Entry>)
    requires ParseQuery(rest) == Some(entries)
    ensures ParseQuery(EntryText(e) + ['&'] + rest) == Some([e] + entries)
  {
    EntryParsesBack(e);
    SplitAtFirst(EntryText(e), rest, '&');
    PartsOneMore(EntryText(e), e, Split(rest, '&'), entries);
  }

  lemma OnlyEntryParses(e: Entry)
    ensures ParseQuery(EntryText(e)) == Some([e])
  {
    EntryParsesBack(e);
    SplitAtFirst(EntryText(e), "", '&');
    PartsOneMore(EntryText(e), e, [], []);
    assert [EntryText(e)] + [] == [EntryText(e)] && [e] + [] == [e];
  }

  /** Splitting and percent-decoding the query text recovers every entry, in order. */
  lemma {:induction false} QueryParsesBack(entries: seq<Entry>)
    requires entries != []
    ensures ParseQuery(Join(entries)) == Some(entries)
  {
    if |entries| == 1 {
      OnlyEntryParses(entries[0]);
      assert entries == [entries[0]];
    } else {
      QueryParsesBack(entries[1..]);
      FirstEntryParses(entries[0], Join(entries[1..]), entries[1..]);
      assert entries == [entries[0]] + entries[1..];
    }
  }

  ghost predicate DistinctEntryKeys(query: seq<Entry>) {
    forall i, j :: 0 <= i < j < |query| ==> query[i].key != query[j].key
  }

  lemma ByKeyIsTotal(leq: (Bytes, Bytes) -> bool)
    requires TotalPreorder(leq)
    ensures TotalPreorder((a: Entry, b: Entry) => leq(a.key, b.key))
  {
    var byKey := (a: Entry, b: Entry) => leq(a.key, b.key);
    forall a: Entry, b: Entry ensures byKey(a, b) || byKey(b, a) {
      assert leq(a.key, b.key) || leq(b.key, a.key);
    }
    forall a: Entry, b: Entry, c: Entry | byKey(a, b) && byKey(b, c) ensures byKey(a, c) {
      assert leq(a.key, b.key) && leq(b.key, c.key) ==> leq(a.key, c.key);
    }
  }

  /** The sorted entries are the entries of the map, whatever order it iterates in. */
  lemma SortingIgnoresIteration(leq: (Bytes, Bytes) -> bool, q1: seq<Entry>, q2: seq<Entry>)
    requires KeyOrder(leq) && DistinctEntryKeys(q1) && multiset(q1) == multiset(q2)
    ensures Sorted(leq, q1) == Sorted(leq, q2)
  {
    var byKey := (a: Entry, b: Entry) => leq(a.key, b.key);
    ByKeyIsTotal(leq);
    SortBySorts(byKey, q1);
    SortBySorts(byKey, q2);
    SortByPermutes(byKey, q1);
    SortByPermutes(byKey, q2);
    var s := Sorted(leq, q1);
    var key := (e: Entry) => e.key;
    MapOfBag(key, q1, s);
    assert NoRepeats(Map(key, q1));
    NoRepeatsOfBag(Map(key, q1), Map(key, s));
    forall i, j | 0 <= i < j < |s| ensures !byKey(s[j], s[i]) {
      assert Map(key, s)[i] != Map(key, s)[j];
      assert byKey(s[i], s[j]);
    }
    SortedArrangementIsUnique(byKey, s, Sorted(leq, q2));
  }

  ghost predicate KeysAscend(leq: (Bytes, Bytes) -> bool, entries: seq<Entry>) {
    forall i, j :: 0 <= i < j < |entries| ==> leq(entries[i].key, entries[j].key)
  }

  /** The text reads as the entries of the map, in ascending key order. */
  ghost predicate Reads(leq: (Bytes, Bytes) -> bool, text: string, query: seq<Entry>) {
    exists entries ::
      ParseQuery(text) == Some(entries) && multiset(entries) == multiset(query) && KeysAscend(leq, entries)
  }

  lemma JoinedTextReads(leq: (Bytes, Bytes) -> bool, query: seq<Entry>)
    requires TotalPreorder(leq) && query != []
    ensures Reads(leq, Join(Sorted(leq, query)), query)
  {
    var byKey := (a: Entry, b: Entry) => leq(a.key, b.key);
    var sorted := Sorted(leq, query);
    ByKeyIsTotal(leq);
    SortByPermutes(byKey, query);
    SortBySorts(byKey, query);
    SameSize(sorted, query);
    QueryParsesBack(sorted);
    forall i, j | 0 <= i < j < |sorted| ensures leq(sorted[i].key, sorted[j].key) {
      assert byKey(sorted[i], sorted[j]);
    }
  }

  lemma StartIsJoined(baseUrl: string, path: string)
    requires baseUrl == "" || baseUrl[|baseUrl| - 1] != '/'
    requires path == "" || path[0] != '/'
    ensures NormalizedBase(baseUrl) == NormalizedBase(baseUrl + "/") == baseUrl
    ensures NormalizedPath(path) == NormalizedPath("/" + path) == "/" + path
  {
    assert (baseUrl + "/")[..|baseUrl|] == baseUrl;
  }

  /** One slash stands between base and path, whether either brings it or both; a query is put
      behind a question mark, as a text that reads as the entries. */
  lemma UrlIsJoined(leq: (Bytes, Bytes) -> bool, baseUrl: string, path: string, query: seq<Entry>, b: string, p: string)
    requires baseUrl == "" || baseUrl[|baseUrl| - 1] != '/'
    requires path == "" || path[0] != '/'
    requires b in {baseUrl, baseUrl + "/"} && p in {path, "/" + path}
    requires TotalPreorder(leq)
    ensures query == [] ==> BuildUrl(leq, b, p, query) == baseUrl + "/" + path
    ensures query != [] ==>
              exists text :: BuildUrl(leq, b, p, query) == baseUrl + "/" + path + "?" + text && Reads(leq, text, query)
  {
    StartIsJoined(baseUrl, path);
    assert baseUrl + ("/" + path) == baseUrl + "/" + path;
    if query != [] {
      JoinedTextReads(leq, query);
      assert BuildUrl(leq, b, p, query) == baseUrl + "/" + path + "?" + Join(Sorted(leq, query));
    }
  }

  /** For a base and a path, the URL determines the query map and is determined by it: two
      maps give one URL exactly when they have the same entries. */
  lemma UrlDeterminesTheQuery(leq: (Bytes, Bytes) -> bool, baseUrl: string, path: string,
                              q1: seq<Entry>, q2: seq<Entry>)
    requires KeyOrder(leq) && DistinctEntryKeys(q1) && DistinctEntryKeys(q2)
    ensures BuildUrl(leq, baseUrl, path, q1) == BuildUrl(leq, baseUrl, path, q2) <==> multiset(q1) == multiset(q2)
  {
    var byKey := (a: Entry, b: Entry) => leq(a.key, b.key);
    SortByPermutes(byKey, q1);
    SortByPermutes(byKey, q2);
    SameSize(q1, Sorted(leq, q1));
    SameSize(q2, Sorted(leq, q2));
    if multiset(q1) == multiset(q2) {
      SortingIgnoresIteration(leq, q1, q2);
      SameSize(q1, q2);
    }
    if BuildUrl(leq, baseUrl, path, q1) == BuildUrl(leq, baseUrl, path, q2) {
      SameTail(leq, baseUrl, path, q1, q2);
    }
  }

  lemma SameSize<T>(s: seq<T>, t: seq<T>)
    requires multiset(s) == multiset(t)
    ensures |s| == |t|
  {
    assert |multiset(s)| == |s| && |multiset(t)| == |t|;
  }

  lemma SameTail(leq: (Bytes, Bytes) -> bool, baseUrl: string, path: string, q1: seq<Entry>, q2: seq<Entry>)
    requires BuildUrl(leq, baseUrl, path, q1) == BuildUrl(leq, baseUrl, path, q2)
    requires |Sorted(leq, q1)| == |q1| && |Sorted(leq, q2)| == |q2|
    ensures Sorted(leq, q1) == Sorted(leq, q2) && (q1 == [] <==> q2 == [])
  {
    var u := BuildUrl(leq, baseUrl, path, q1);
    var prefix := NormalizedBase(baseUrl) + NormalizedPath(path);
    assert q1 != [] ==> u == prefix + "?" + Join(Sorted(leq, q1));
    assert q2 != [] ==> u == prefix + "?" + Join(Sorted(leq, q2));
    assert (q1 == [] <==> |u| == |prefix|) && (q2 == [] <==> |u| == |prefix|);
    if q1 != [] {
      assert u[|prefix| + 1..] == Join(Sorted(leq, q1));
      assert u[|prefix| + 1..] == Join(Sorted(leq, q2));
      QueryParsesBack(Sorted(leq, q1));
      QueryParsesBack(Sorted(leq, q2));
    }
  }
}
