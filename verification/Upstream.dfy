/** The four named calls the proxy can make, their paths, and the texts that cross back. */
module Upstream {
  import opened Wrappers
  import opened Text

  datatype Verb = GET | POST | DELETE

  datatype Operation =
    | ListSites
    | ListVouchers(site: string)
    | CreateVouchers(site: string)
    | DeleteVoucher(site: string, voucher: string)

  datatype IdError = ImplausibleLength | BadCharacters

  const MAX_ID := 128
  const HOTSPOT := "hotspot"
  const VOUCHERS := "vouchers"
  const SITES := "sites"
  const PAGE_QUERY := "limit=1000"

  predicate IsIdChar(c: char) { IsAlphanumeric(c) || c == '-' || c == '_' }

  /** The alphabet and length of an id that may become a path segment. */
  predicate IsSafeId(value: string) {
    0 < |value| <= MAX_ID && forall i :: 0 <= i < |value| ==> IsIdChar(value[i])
  }

  /** Length is judged in bytes, before the alphabet. */
  function ValidateId(value: string): Result<string, IdError> {
    if value == [] || Utf8Length(value) > MAX_ID then Err(ImplausibleLength)
    else if !(forall i :: 0 <= i < |value| ==> IsIdChar(value[i])) then Err(BadCharacters)
    else Ok(value)
  }

  lemma {:induction false} IdLength(value: string)
    requires forall i :: 0 <= i < |value| ==> IsIdChar(value[i])
    ensures Utf8Length(value) == |value|
  {
    if value != [] { IdLength(value[..|value| - 1]); }
  }

  /** The two refusals together refuse exactly the unsafe ids, and an accepted id passes through unchanged. */
  lemma ValidateIdAcceptsSafeIds(value: string)
    ensures ValidateId(value).Ok? <==> IsSafeId(value)
    ensures ValidateId(value).Ok? <==>
              && 1 <= |value| <= 128
              && forall i :: 0 <= i < |value| ==>
                   'a' <= value[i] <= 'z' || 'A' <= value[i] <= 'Z' || '0' <= value[i] <= '9' || value[i] == '-' || value[i] == '_'
    ensures ValidateId(value).Ok? ==> ValidateId(value).value == value
    ensures ValidateId(value) == Err(ImplausibleLength) <==> value == [] || Utf8Length(value) > 128
  {
    if forall i :: 0 <= i < |value| ==> IsIdChar(value[i]) { IdLength(value); }
  }

  /** A call as it goes on the wire, below the API prefix. */
  datatype Call = Call(verb: Verb, path: string)

  function SitePath(site: string): string {
    "/" + SITES + "/" + site + "/" + HOTSPOT + "/" + VOUCHERS
  }

  /** Builds the call; the first id that is refused decides the error. */
  function BuildCall(op: Operation): Result<Call, IdError> {
    match op
    case ListSites => Ok(Call(GET, "/" + SITES))
    case ListVouchers(site) =>
      (match ValidateId(site)
       case Err(e) => Err(e)
       case Ok(s) => Ok(Call(GET, SitePath(s) + "?" + PAGE_QUERY)))
    case CreateVouchers(site) =>
      (match ValidateId(site)
       case Err(e) => Err(e)
       case Ok(s) => Ok(Call(POST, SitePath(s))))
    case DeleteVoucher(site, voucher) =>
      (match ValidateId(site)
       case Err(e) => Err(e)
       case Ok(s) =>
         match ValidateId(voucher)
         case Err(e) => Err(e)
         case Ok(v) => Ok(Call(DELETE, SitePath(s) + "/" + v)))
  }

  predicate IdsAreSafe(op: Operation) {
    match op
    case ListSites => true
    case ListVouchers(site) => IsSafeId(site)
    case CreateVouchers(site) => IsSafeId(site)
    case DeleteVoucher(site, voucher) => IsSafeId(site) && IsSafeId(voucher)
  }

  /** What the receiver's routes make of the segments of a path, with or without the page query. */
  function ReadSegments(verb: Verb, segments: seq<string>, paged: bool): Option<Operation> {
    if |segments| < 2 || segments[0] != [] || segments[1] != SITES then None
    else if |segments| == 2 then
      if verb == GET && !paged then Some(ListSites) else None
    else if |segments| < 5 || segments[3] != HOTSPOT || segments[4] != VOUCHERS then None
    else if |segments| == 5 then
      match verb
      case GET => if paged then Some(ListVouchers(segments[2])) else None
      case POST => if paged then None else Some(CreateVouchers(segments[2]))
      case DELETE => None
    else if |segments| == 6 && verb == DELETE && !paged then
      Some(DeleteVoucher(segments[2], segments[5]))
    else None
  }

  /** The receiving side: the path is cut at the first `?`, then at every `/`. */
  function ParseCall(call: Call): Option<Operation> {
    var parts := Split(call.path, '?');
    var segments := Split(parts[0], '/');
    if |parts| == 1 then ReadSegments(call.verb, segments, false)
    else if |parts| == 2 && parts[1] == PAGE_QUERY then ReadSegments(call.verb, segments, true)
    else None
  }

  // ----- segments of a path -----

  /** The path with these segments, each after its own slash. */
  function PathOf(segments: seq<string>): string {
    if segments == [] then [] else "/" + segments[0] + PathOf(segments[1..])
  }

  lemma {:induction false} SplitPathOf(segments: seq<string>, first: string)
    requires '/' !in first
    requires forall i :: 0 <= i < |segments| ==> '/' !in segments[i]
    ensures Split(first + PathOf(segments), '/') == [first] + segments
  {
    if segments == [] {
      assert first + PathOf(segments) == first;
      SplitPiece(first, '/');
    } else {
      SplitPathOf(segments[1..], segments[0]);
      var rest := segments[0] + PathOf(segments[1..]);
      assert first + PathOf(segments) == first + ['/'] + rest;
      SplitFirst(first, '/', rest);
      assert segments == [segments[0]] + segments[1..];
    }
  }

  /** The segments an operation is expected to have, after the leading slash. */
  function SegmentsOf(op: Operation): seq<string> {
    match op
    case ListSites => [SITES]
    case ListVouchers(site) => [SITES, site, HOTSPOT, VOUCHERS]
    case CreateVouchers(site) => [SITES, site, HOTSPOT, VOUCHERS]
    case DeleteVoucher(site, voucher) => [SITES, site, HOTSPOT, VOUCHERS, voucher]
  }

  predicate IsPlainSegment(s: string) {
    s != [] && '/' !in s && '?' !in s && s != "." && s != ".."
  }

  lemma SafeIdIsPlain(id: string)
    requires IsSafeId(id)
    ensures IsPlainSegment(id)
  {
    assert IsIdChar(id[0]);
  }

  lemma SegmentsArePlain(op: Operation)
    requires IdsAreSafe(op)
    ensures forall i :: 0 <= i < |SegmentsOf(op)| ==> IsPlainSegment(SegmentsOf(op)[i])
  {
    match op
    case ListSites =>
    case ListVouchers(site) => SafeIdIsPlain(site);
    case CreateVouchers(site) => SafeIdIsPlain(site);
    case DeleteVoucher(site, voucher) => SafeIdIsPlain(site); SafeIdIsPlain(voucher);
  }

  lemma {:induction false} PathOfAppend(segments: seq<string>, last: string)
    ensures PathOf(segments + [last]) == PathOf(segments) + "/" + last
  {
    if segments == [] {
      assert [last][1..] == [];
    } else {
      PathOfAppend(segments[1..], last);
      assert (segments + [last])[1..] == segments[1..] + [last];
    }
  }

  /** The path without its query. */
  function BarePath(op: Operation): string {
    match op
    case ListSites => "/" + SITES
    case ListVouchers(site) => SitePath(site)
    case CreateVouchers(site) => SitePath(site)
    case DeleteVoucher(site, voucher) => SitePath(site) + "/" + voucher
  }

  lemma SitePathSegments(site: string)
    ensures PathOf([SITES, site, HOTSPOT, VOUCHERS]) == SitePath(site)
  {
    var a: seq<string> := [];
    PathOfAppend(a, SITES);
    PathOfAppend([SITES], site);
    PathOfAppend([SITES, site], HOTSPOT);
    PathOfAppend([SITES, site, HOTSPOT], VOUCHERS);
    assert a + [SITES] == [SITES];
    assert [SITES] + [site] == [SITES, site];
    assert [SITES, site] + [HOTSPOT] == [SITES, site, HOTSPOT];
    assert [SITES, site, HOTSPOT] + [VOUCHERS] == [SITES, site, HOTSPOT, VOUCHERS];
  }

  lemma BarePathSegments(op: Operation)
    ensures BarePath(op) == PathOf(SegmentsOf(op))
  {
    match op
    case ListSites => assert [SITES][1..] == [];
    case ListVouchers(site) => SitePathSegments(site);
    case CreateVouchers(site) => SitePathSegments(site);
    case DeleteVoucher(site, voucher) =>
      SitePathSegments(site);
      PathOfAppend([SITES, site, HOTSPOT, VOUCHERS], voucher);
      assert [SITES, site, HOTSPOT, VOUCHERS] + [voucher] == SegmentsOf(op);
  }

  lemma {:induction false} PathHasNoQuery(segments: seq<string>)
    requires forall i :: 0 <= i < |segments| ==> '?' !in segments[i]
    ensures '?' !in PathOf(segments)
  {
    if segments != [] { PathHasNoQuery(segments[1..]); }
  }

  /** A path splits into exactly the expected segments. */
  lemma BarePathSplits(op: Operation)
    requires IdsAreSafe(op)
    ensures Split(BarePath(op), '/') == [[]] + SegmentsOf(op)
    ensures '?' !in BarePath(op)
  {
    SegmentsArePlain(op);
    BarePathSegments(op);
    SplitPathOf(SegmentsOf(op), []);
    assert [] + PathOf(SegmentsOf(op)) == PathOf(SegmentsOf(op));
    PathHasNoQuery(SegmentsOf(op));
  }

  // ----- main results on calls -----

  /** A call is built exactly when every id in it is safe. */
  lemma CallIsBuiltForSafeIds(op: Operation)
    ensures BuildCall(op).Ok? <==> IdsAreSafe(op)
    ensures BuildCall(op).Ok? ==> BarePath(op) <= BuildCall(op).value.path
  {
    match op
    case ListSites =>
    case ListVouchers(site) => ValidateIdAcceptsSafeIds(site);
    case CreateVouchers(site) => ValidateIdAcceptsSafeIds(site);
    case DeleteVoucher(site, voucher) =>
      ValidateIdAcceptsSafeIds(site);
      ValidateIdAcceptsSafeIds(voucher);
  }

  lemma PagedCallParts(op: Operation)
    requires op.ListVouchers? && BuildCall(op).Ok?
    ensures Split(BuildCall(op).value.path, '?') == [BarePath(op), PAGE_QUERY]
  {
    CallIsBuiltForSafeIds(op);
    BarePathSplits(op);
    ValidateIdAcceptsSafeIds(op.site);
    SplitFirst(BarePath(op), '?', PAGE_QUERY);
    SplitPiece(PAGE_QUERY, '?');
    assert BuildCall(op).value.path == BarePath(op) + ['?'] + PAGE_QUERY;
  }

  lemma PlainCallParts(op: Operation)
    requires !op.ListVouchers? && BuildCall(op).Ok?
    ensures BuildCall(op).value.path == BarePath(op)
    ensures Split(BuildCall(op).value.path, '?') == [BarePath(op)]
  {
    CallIsBuiltForSafeIds(op);
    BarePathSplits(op);
    SplitPiece(BarePath(op), '?');
    match op
    case ListSites =>
    case CreateVouchers(site) => ValidateIdAcceptsSafeIds(site);
    case DeleteVoucher(site, voucher) =>
      ValidateIdAcceptsSafeIds(site);
      ValidateIdAcceptsSafeIds(voucher);
  }

  function VerbOf(op: Operation): Verb {
    match op
    case ListSites => GET
    case ListVouchers(_) => GET
    case CreateVouchers(_) => POST
    case DeleteVoucher(_, _) => DELETE
  }

  lemma SegmentsAreRead(op: Operation)
    ensures ReadSegments(VerbOf(op), [[]] + SegmentsOf(op), op.ListVouchers?) == Some(op)
  {
    var segments: seq<string> := [[]] + SegmentsOf(op);
    assert segments[0] == [];
    assert forall i :: 0 <= i < |SegmentsOf(op)| ==> segments[1 + i] == SegmentsOf(op)[i];
  }

  lemma BuiltVerb(op: Operation)
    requires BuildCall(op).Ok?
    ensures BuildCall(op).value.verb == VerbOf(op)
  {
  }

  lemma ParsePlain(call: Call, path: string)
    requires Split(call.path, '?') == [path]
    ensures ParseCall(call) == ReadSegments(call.verb, Split(path, '/'), false)
  {
  }

  lemma ParsePaged(call: Call, path: string)
    requires Split(call.path, '?') == [path, PAGE_QUERY]
    ensures ParseCall(call) == ReadSegments(call.verb, Split(path, '/'), true)
  {
  }

  /** The receiver reads back the very operation that was sent: no two operations share a call. */
  lemma CallRoundTrip(op: Operation)
    requires BuildCall(op).Ok?
    ensures ParseCall(BuildCall(op).value) == Some(op)
  {
    var call := BuildCall(op).value;
    BuiltVerb(op);
    CallIsBuiltForSafeIds(op);
    BarePathSplits(op);
    SegmentsAreRead(op);
    if op.ListVouchers? {
      PagedCallParts(op);
      ParsePaged(call, BarePath(op));
    } else {
      PlainCallParts(op);
      ParsePlain(call, BarePath(op));
    }
  }

  lemma CallsAreDistinct(a: Operation, b: Operation)
    requires BuildCall(a).Ok? && BuildCall(b).Ok?
    ensures BuildCall(a) == BuildCall(b) <==> a == b
  {
    CallRoundTrip(a);
    CallRoundTrip(b);
  }

  lemma {:induction false} PathOfJoin(segments: seq<string>)
    requires segments != [] && segments[0] == []
    ensures Join(segments, '/') == PathOf(segments[1..])
  {
    if |segments| > 1 {
      var rest := segments[1..];
      JoinIsPath(rest);
      assert Join(segments, '/') == [] + ['/'] + Join(rest, '/');
    }
  }

  lemma {:induction false} JoinIsPath(segments: seq<string>)
    requires segments != []
    ensures "/" + Join(segments, '/') == PathOf(segments)
  {
    if |segments| > 1 {
      JoinIsPath(segments[1..]);
      assert "/" + Join(segments, '/') == "/" + segments[0] + ("/" + Join(segments[1..], '/'));
    } else {
      assert segments[1..] == [];
    }
  }

  lemma ReadSegmentsShape(verb: Verb, segments: seq<string>, paged: bool)
    requires ReadSegments(verb, segments, paged).Some?
    ensures var op := ReadSegments(verb, segments, paged).value;
            segments == [[]] + SegmentsOf(op) && verb == VerbOf(op) && paged == op.ListVouchers?
  {
  }

  lemma BuiltCallIs(op: Operation)
    requires IdsAreSafe(op)
    ensures BuildCall(op) == Ok(Call(VerbOf(op), if op.ListVouchers? then BarePath(op) + ['?'] + PAGE_QUERY else BarePath(op)))
  {
    CallIsBuiltForSafeIds(op);
    if op.ListVouchers? {
      ValidateIdAcceptsSafeIds(op.site);
    } else {
      PlainCallParts(op);
    }
  }

  /** The receiver accepts nothing else: an accepted call with safe ids is the one the proxy builds. */
  lemma ParsedCallIsBuilt(call: Call)
    requires ParseCall(call).Some? && IdsAreSafe(ParseCall(call).value)
    ensures BuildCall(ParseCall(call).value) == Ok(call)
  {
    var op := ParseCall(call).value;
    var parts := Split(call.path, '?');
    var segments := Split(parts[0], '/');
    SplitIsInvertible(call.path, '?');
    SplitIsInvertible(parts[0], '/');
    ReadSegmentsShape(call.verb, segments, |parts| == 2);
    PathOfJoin(segments);
    assert segments[1..] == SegmentsOf(op);
    BarePathSegments(op);
    if |parts| == 2 { assert parts[1..] == [PAGE_QUERY]; }
    BuiltCallIs(op);
  }

  /** The four calls as they go on the wire, and no others. */
  lemma CallsOnTheWire(site: string, voucher: string)
    ensures BuildCall(ListSites) == Ok(Call(GET, "/sites"))
    ensures IsSafeId(site) ==>
              && BuildCall(ListVouchers(site)) == Ok(Call(GET, "/sites/" + site + "/hotspot/vouchers?limit=1000"))
              && BuildCall(CreateVouchers(site)) == Ok(Call(POST, "/sites/" + site + "/hotspot/vouchers"))
    ensures IsSafeId(site) && IsSafeId(voucher) ==>
              BuildCall(DeleteVoucher(site, voucher)) == Ok(Call(DELETE, "/sites/" + site + "/hotspot/vouchers/" + voucher))
  {
    ValidateIdAcceptsSafeIds(site);
    ValidateIdAcceptsSafeIds(voucher);
    SitePathInFull(site);
    assert "/" + SITES == "/sites";
    assert "/hotspot/vouchers" + "?" + PAGE_QUERY == "/hotspot/vouchers?limit=1000";
    assert "/hotspot/vouchers" + "/" == "/hotspot/vouchers/";
    assert SitePath(site) + "?" + PAGE_QUERY == "/sites/" + site + ("/hotspot/vouchers" + "?" + PAGE_QUERY);
    assert SitePath(site) + "/" + voucher == "/sites/" + site + ("/hotspot/vouchers" + "/") + voucher;
  }

  lemma SitePathInFull(site: string)
    ensures SitePath(site) == "/sites/" + site + "/hotspot/vouchers"
  {
    assert "/" + SITES + "/" == "/sites/";
    assert "/" + HOTSPOT + "/" + VOUCHERS == "/hotspot/vouchers";
    assert SitePath(site) == ("/" + SITES + "/") + site + ("/" + HOTSPOT + "/" + VOUCHERS);
  }

  // ----- RFC 3986 -----

  /** Characters of section 2.3 of RFC 3986 that never need percent-encoding. */
  predicate IsUnreserved(c: char) {
    IsAlphanumeric(c) || c == '-' || c == '.' || c == '_' || c == '~'
  }

  /** Ids use the unreserved characters other than `.` and `~`. */
  lemma IdCharsAreUnreserved(c: char)
    ensures IsIdChar(c) <==> IsUnreserved(c) && c != '.' && c != '~'
  {
  }

  /** Where the first segment of the buffer ends: the next slash after an initial one. */
  function SegmentEnd(s: string, from: nat): (n: nat)
    requires from <= |s|
    ensures from <= n <= |s|
    ensures forall i :: from <= i < n ==> s[i] != '/'
    ensures n < |s| ==> s[n] == '/'
    decreases |s| - from
  {
    if from < |s| && s[from] != '/' then SegmentEnd(s, from + 1) else from
  }

  /** Drops the last segment and its slash from the output buffer. */
  function DropLast(output: string): string {
    if output == [] then []
    else if output[|output| - 1] == '/' then output[..|output| - 1]
    else DropLast(output[..|output| - 1])
  }

  /** The algorithm of section 5.2.4 of RFC 3986, rule by rule. */
  function RemoveDotSegments(input: string, output: string): string
    decreases |input|
  {
    if input == [] then output
    else if "../" <= input then RemoveDotSegments(input[3..], output)
    else if "./" <= input then RemoveDotSegments(input[2..], output)
    else if "/./" <= input then RemoveDotSegments(input[2..], output)
    else if input == "/." then output + "/"
    else if "/../" <= input then RemoveDotSegments(input[3..], DropLast(output))
    else if input == "/.." then DropLast(output) + "/"
    else if input == "." || input == ".." then output
    else
      var n := SegmentEnd(input, 1);
      RemoveDotSegments(input[n..], output + input[..n])
  }

  lemma {:induction false} PlainPathKept(segments: seq<string>, output: string)
    requires forall i :: 0 <= i < |segments| ==> IsPlainSegment(segments[i])
    ensures RemoveDotSegments(PathOf(segments), output) == output + PathOf(segments)
    decreases |segments|
  {
    if segments != [] {
      var s, rest := segments[0], PathOf(segments[1..]);
      var input := PathOf(segments);
      assert input == "/" + s + rest;
      assert rest == [] || rest[0] == '/';
      PlainStep(s, rest, output);
      PlainPathKept(segments[1..], output + ("/" + s));
      Reassociate(output, "/", s, rest);
    }
  }

  lemma Reassociate(a: string, b: string, c: string, d: string)
    ensures a + (b + c) + d == a + (b + c + d)
  {
  }

  /** One plain segment moves to the output as it is. */
  lemma PlainStep(s: string, rest: string, output: string)
    requires IsPlainSegment(s) && (rest == [] || rest[0] == '/')
    ensures RemoveDotSegments("/" + s + rest, output) == RemoveDotSegments(rest, output + ("/" + s))
  {
    var input := "/" + s + rest;
    PlainHead(s, rest);
    assert input[..1 + |s|] == "/" + s && input[1 + |s|..] == rest;
  }

  lemma PlainHead(s: string, rest: string)
    requires IsPlainSegment(s) && (rest == [] || rest[0] == '/')
    ensures var input := "/" + s + rest;
            && !("../" <= input) && !("./" <= input) && !("/./" <= input) && !("/../" <= input)
            && input != "/." && input != "/.." && input != "." && input != ".."
            && SegmentEnd(input, 1) == 1 + |s|
  {
    var input := "/" + s + rest;
    assert |input| == 1 + |s| + |rest| && input[0] == '/';
    assert forall i :: 0 <= i < |s| ==> input[1 + i] == s[i];
    assert rest != [] ==> input[1 + |s|] == rest[0];
    assert s[0] == input[1];
    assert |s| == 1 ==> s == [s[0]];
    assert |s| == 2 ==> s == [s[0], s[1]];
    assert |s| >= 2 ==> s[1] == input[2] && s[1] in s;
    assert |s| >= 3 ==> s[2] == input[3] && s[2] in s;
  }

  /** No accepted id can make the console's URL name another resource: whatever plain prefix
      the controller is configured with, dot-segment removal changes nothing. */
  lemma PathsCannotEscape(op: Operation, prefix: seq<string>)
    requires BuildCall(op).Ok?
    requires forall i :: 0 <= i < |prefix| ==> IsPlainSegment(prefix[i])
    ensures RemoveDotSegments(PathOf(prefix) + BarePath(op), []) == PathOf(prefix) + BarePath(op)
  {
    CallIsBuiltForSafeIds(op);
    SegmentsArePlain(op);
    BarePathSegments(op);
    PlainPathsJoin(prefix, SegmentsOf(op));
  }

  lemma PlainPathsJoin(a: seq<string>, b: seq<string>)
    requires forall i :: 0 <= i < |a| ==> IsPlainSegment(a[i])
    requires forall i :: 0 <= i < |b| ==> IsPlainSegment(b[i])
    ensures RemoveDotSegments(PathOf(a) + PathOf(b), []) == PathOf(a) + PathOf(b)
  {
    var none: string := [];
    PathOfConcat(a, b);
    PlainPathKept(a + b, none);
    assert none + PathOf(a + b) == PathOf(a + b);
  }

  lemma {:induction false} PathOfConcat(a: seq<string>, b: seq<string>)
    ensures PathOf(a + b) == PathOf(a) + PathOf(b)
  {
    if a == [] {
      assert a + b == b;
    } else {
      PathOfConcat(a[1..], b);
      assert (a + b)[1..] == a[1..] + b;
    }
  }

  // ----- host -----

  const API := "/proxy/network/integration/v1"
  const HTTP := "http://"
  const HTTPS := "https://"

  function NormalizeHost(host: string): string {
    var h := TrimEndOf(Trim(host), '/');
    if HTTP <= h || HTTPS <= h then h else HTTPS + h
  }

  /** The exact hosts that leave the API key without TLS: an explicit, lower-case `http://`
      that survives the removal of trailing slashes. */
  lemma HostIsPlaintextExactlyWhen(host: string)
    ensures HTTPS <= NormalizeHost(host) <==> !(HTTP <= TrimEndOf(Trim(host), '/'))
  {
    var h := TrimEndOf(Trim(host), '/');
    if HTTP <= h {
      assert h[4] == ':' && HTTPS[4] == 's';
    }
  }

  /** A host written without white space or slashes around it. */
  predicate IsBareHost(host: string) {
    host != [] && !IsWhitespace(host[0]) && !IsWhitespace(host[|host| - 1]) && host[|host| - 1] != '/'
  }

  /** White space around a host and slashes after it are dropped, and nothing else of it: with a scheme
      it is the address as it stands, without one it gets `https://`. */
  lemma HostIsKept(before: string, host: string, slashes: string, after: string)
    requires IsBareHost(host) && AllWhitespace(before) && AllWhitespace(after)
    requires forall i :: 0 <= i < |slashes| ==> slashes[i] == '/'
    ensures NormalizeHost(before + host + slashes + after)
            == if "http://" <= host || "https://" <= host then host else "https://" + host
  {
    var t := host + slashes;
    assert t[0] == host[0] && t[|t| - 1] == if slashes == [] then host[|host| - 1] else '/';
    assert before + host + slashes + after == before + t + after;
    TrimIs(before, t, after);
    TrimEndOfIs(host, slashes, '/');
  }

  // ----- messages -----

  const MAX_MESSAGE := 200
  const ELLIPSIS := '…'

  function Cleaned(raw: string): (r: string)
    ensures |r| == |raw|
    ensures forall i :: 0 <= i < |r| ==> !IsControl(r[i])
    ensures forall i :: 0 <= i < |r| ==> r[i] == if IsControl(raw[i]) then ' ' else raw[i]
  {
    seq(|raw|, i requires 0 <= i < |raw| => if IsControl(raw[i]) then ' ' else raw[i])
  }

  /** Byte offset of the n-th character, if there is one. */
  function OffsetOfChar(s: string, n: nat): Option<nat> {
    if n < |s| then Some(Utf8Length(s[..n])) else None
  }

  /** A slice up to a byte offset; none when the offset falls inside a character. */
  function SliceTo(s: string, offset: nat): Option<string> {
    if offset == Utf8Length(s) then Some(s)
    else if s == [] then None
    else SliceTo(s[..|s| - 1], offset)
  }

  function Clamp(raw: string): Option<string> {
    var trimmed := Trim(Cleaned(raw));
    match OffsetOfChar(trimmed, MAX_MESSAGE)
    case None => Some(trimmed)
    case Some(cut) =>
      match SliceTo(trimmed, cut)
      case None => None
      case Some(head) => Some(head + [ELLIPSIS])
  }

  lemma {:induction false} SliceAtChar(s: string, n: nat)
    requires n <= |s|
    ensures SliceTo(s, Utf8Length(s[..n])) == Some(s[..n])
  {
    if n == |s| {
      assert s[..n] == s;
    } else {
      var t := s[..|s| - 1];
      Utf8LengthOfPrefix(s, n, |s|);
      assert s[..|s|] == s;
      assert t[..n] == s[..n];
      SliceAtChar(t, n);
    }
  }

  lemma ClampValue(raw: string)
    ensures var t := Trim(Cleaned(raw));
            Clamp(raw) == Some(if |t| > MAX_MESSAGE then t[..MAX_MESSAGE] + [ELLIPSIS] else t)
  {
    var t := Trim(Cleaned(raw));
    if |t| > MAX_MESSAGE { SliceAtChar(t, MAX_MESSAGE); }
  }

  lemma TrimmedHasNoControl(raw: string)
    ensures forall i :: 0 <= i < |Trim(Cleaned(raw))| ==> !IsControl(Trim(Cleaned(raw))[i])
  {
    var c := Cleaned(raw);
    var l, r := TrimSplits(c);
    forall i | 0 <= i < |Trim(c)| ensures !IsControl(Trim(c)[i]) {
      assert Trim(c)[i] == c[|l| + i];
    }
  }

  /** For every text the cut falls between two characters (so slicing never fails). What is shown is the
      trimmed text whole, up to 200 characters, or its first 200 and an ellipsis; no character of it is
      a control character, and a second pass does not shorten it. */
  lemma ClampBoundsAndSettles(raw: string)
    ensures Clamp(raw).Some?
    ensures var t := Trim(Cleaned(raw));
            Clamp(raw) == Some(if |t| <= 200 then t else t[..200] + "…")
    ensures forall i :: 0 <= i < |Clamp(raw).value| ==> !IsControl(Clamp(raw).value[i])
    ensures Clamp(Clamp(raw).value) == Clamp(raw)
  {
    ClampValue(raw);
    TrimmedHasNoControl(raw);
    var t := Trim(Cleaned(raw));
    var _, _ := TrimSplits(Cleaned(raw));
    var v := Clamp(raw).value;
    assert Cleaned(v) == v;
    TrimKeeps(v);
    ClampValue(v);
    if |t| > MAX_MESSAGE { assert v[..MAX_MESSAGE] == t[..MAX_MESSAGE]; }
  }

  // ----- what of the console's answer reaches the client -----

  function HttpStatus(status: nat): string { "(HTTP " + Decimal(status) + ")" }

  /** A server error shows its status only; a refused key shows a fixed text; anything else shows the
      console's own message, clamped. Reading a success never fails, whatever its body. */
  function Explain(status: nat, message: Option<string>): Result<(), string> {
    if 200 <= status < 300 then Ok(())
    else if 500 <= status < 600 then Err("the controller reported an error " + HttpStatus(status))
    else if status == 401 || status == 403 then Err("the controller rejected the proxy's API key")
    else
      match message
      case Some(m) => Err(Clamp(m).GetOr([]))
      case None => Err("controller request failed " + HttpStatus(status))
  }

  predicate IsSensitive(status: nat) { 500 <= status < 600 || status == 401 || status == 403 }

  /** Two answers with the same sensitive status are told apart by nothing the client sees, however
      their bodies differ; and of any other answer the client sees at most 201 of the console's
      characters, none of them a control character. */
  lemma SensitiveBodiesStayHidden(status: nat, a: Option<string>, b: Option<string>)
    ensures IsSensitive(status) ==> Explain(status, a) == Explain(status, b)
    ensures Explain(status, a).Ok? <==> 200 <= status < 300
    ensures !IsSensitive(status) && Explain(status, a).Err? && a.Some? ==>
              var shown := Explain(status, a).error;
              && Some(shown) == Clamp(a.value)
              && |shown| <= 201
              && forall i :: 0 <= i < |shown| ==> !IsControl(shown[i])
  {
    if a.Some? { ClampBoundsAndSettles(a.value); }
  }
}
