/** The voucher-creation body as a closed set of fields, and the ceilings it must respect. */
module Policy {
  import opened Wrappers
  import opened Text

  datatype Number = Unsigned(n: u64) | Negative(i: int) | Float(r: real)

  datatype Json =
    | Null
    | Bool(b: bool)
    | Num(number: Number)
    | Str(s: string)
    | Arr(elements: seq<Json>)
    | Obj(fields: map<string, Json>)

  datatype CreateVoucherRequest = CreateVoucherRequest(
    name: string,
    count: u32,
    timeLimitMinutes: u64,
    authorizedGuestLimit: u32,
    dataUsageLimitMBytes: Option<u64>,
    rxRateLimitKbps: Option<u64>,
    txRateLimitKbps: Option<u64>)

  const NAME := "name"
  const COUNT := "count"
  const MINUTES := "timeLimitMinutes"
  const GUESTS := "authorizedGuestLimit"
  const DATA := "dataUsageLimitMBytes"
  const RX := "rxRateLimitKbps"
  const TX := "txRateLimitKbps"

  const KNOWN_KEYS: set<string> := {NAME, COUNT, MINUTES, GUESTS, DATA, RX, TX}

  lemma KeysAreDistinct()
    ensures |[NAME, COUNT, MINUTES, GUESTS, DATA, RX, TX]| == 7
    ensures forall i, j :: 0 <= i < j < 7 ==>
              [NAME, COUNT, MINUTES, GUESTS, DATA, RX, TX][i] != [NAME, COUNT, MINUTES, GUESTS, DATA, RX, TX][j]
  {
    assert NAME[0] == 'n' && COUNT[0] == 'c' && MINUTES[0] == 't' && MINUTES[1] == 'i' && GUESTS[0] == 'a'
        && DATA[0] == 'd' && RX[0] == 'r' && TX[0] == 't' && TX[1] == 'x';
  }

  // ----- reading one value -----

  function ReadString(j: Json): Option<string> {
    if j.Str? then Some(j.s) else None
  }

  /** Only a non-negative integer that fits is read; a float such as 2.0 is refused. */
  function ReadU64(j: Json): Option<u64> {
    if j.Num? && j.number.Unsigned? then Some(j.number.n) else None
  }

  function ReadU32(j: Json): Option<u32> {
    if j.Num? && j.number.Unsigned? && j.number.n < 0x1_0000_0000 then Some(j.number.n) else None
  }

  function ReadOptional(j: Json): Option<Option<u64>> {
    if j.Null? then Some(None)
    else if ReadU64(j).Some? then Some(ReadU64(j))
    else None
  }

  /** One value per field, in the order of declaration. */
  function Assemble(name: Json, count: Json, minutes: Json, guests: Json, data: Json, rx: Json, tx: Json): Option<CreateVoucherRequest> {
    if ReadString(name).Some? && ReadU32(count).Some? && ReadU64(minutes).Some? && ReadU32(guests).Some?
       && ReadOptional(data).Some? && ReadOptional(rx).Some? && ReadOptional(tx).Some? then
      Some(CreateVoucherRequest(ReadString(name).value, ReadU32(count).value, ReadU64(minutes).value,
                                ReadU32(guests).value, ReadOptional(data).value, ReadOptional(rx).value,
                                ReadOptional(tx).value))
    else None
  }

  function FieldOr(fields: map<string, Json>, key: string, default: Json): Json {
    if key in fields then fields[key] else default
  }

  const ONE := Num(Unsigned(1))

  /** A missing key takes its default (1) or is absent (the optional ones); an object with any
      other key is refused. The deserializer also takes the seven values positionally, in an
      array, where nothing may be left out. */
  function Parse(body: Json): Option<CreateVoucherRequest> {
    match body
    case Obj(f) =>
      if f.Keys <= KNOWN_KEYS && NAME in f && MINUTES in f then
        Assemble(f[NAME], FieldOr(f, COUNT, ONE), f[MINUTES], FieldOr(f, GUESTS, ONE),
                 FieldOr(f, DATA, Null), FieldOr(f, RX, Null), FieldOr(f, TX, Null))
      else None
    case Arr(e) =>
      if |e| == 7 then Assemble(e[0], e[1], e[2], e[3], e[4], e[5], e[6]) else None
    case _ => None
  }

  function WithOptional(fields: map<string, Json>, key: string, v: Option<u64>): map<string, Json> {
    if v.Some? then fields[key := Num(Unsigned(v.value))] else fields
  }

  /** What goes upstream: absent options stay absent. */
  function ToUpstreamBody(r: CreateVoucherRequest): Json {
    var required := map[
      NAME := Str(r.name),
      COUNT := Num(Unsigned(r.count)),
      MINUTES := Num(Unsigned(r.timeLimitMinutes)),
      GUESTS := Num(Unsigned(r.authorizedGuestLimit))];
    Obj(WithOptional(WithOptional(WithOptional(required, DATA, r.dataUsageLimitMBytes), RX, r.rxRateLimitKbps), TX, r.txRateLimitKbps))
  }

  // ----- ceilings -----

  datatype Ceilings = Ceilings(maxVouchers: u32, maxValidityMinutes: u64)

  datatype Refusal =
    | EmptyName
    | LongName
    | ZeroCount
    | TooManyVouchers
    | ZeroMinutes
    | TooLong
    | GuestsOutOfRange

  const UNIFI_MAX_MINUTES := 1_000_000
  const MAX_NAME := 128
  const MAX_GUESTS := 10_000

  function ValidityCeiling(c: Ceilings): nat {
    if c.maxValidityMinutes < UNIFI_MAX_MINUTES then c.maxValidityMinutes else UNIFI_MAX_MINUTES
  }

  /** Refused, never clamped. */
  function Enforce(r: CreateVoucherRequest, c: Ceilings): Result<(), Refusal> {
    if Trim(r.name) == [] then Err(EmptyName)
    else if |r.name| > MAX_NAME then Err(LongName)
    else if r.count == 0 then Err(ZeroCount)
    else if r.count > c.maxVouchers then Err(TooManyVouchers)
    else if r.timeLimitMinutes == 0 then Err(ZeroMinutes)
    else if r.timeLimitMinutes > ValidityCeiling(c) then Err(TooLong)
    else if r.authorizedGuestLimit == 0 || r.authorizedGuestLimit > MAX_GUESTS then Err(GuestsOutOfRange)
    else Ok(())
  }

  /** Refusals caused by a ceiling are "forbidden"; the rest are "bad request". */
  predicate IsForbidden(e: Refusal) { e.TooManyVouchers? || e.TooLong? }

  ghost predicate WithinCeilings(r: CreateVoucherRequest, c: Ceilings) {
    && 1 <= r.count <= c.maxVouchers
    && 1 <= r.timeLimitMinutes <= c.maxValidityMinutes
    && r.timeLimitMinutes <= 1_000_000
    && 1 <= r.authorizedGuestLimit <= 10_000
    && 1 <= |r.name| <= 128
    && exists i :: 0 <= i < |r.name| && !IsWhitespace(r.name[i])
  }

  /** Past a ceiling in a field that is looked at before any other fault is found. */
  ghost predicate IsOverCeiling(r: CreateVoucherRequest, c: Ceilings) {
    && (exists i :: 0 <= i < |r.name| && !IsWhitespace(r.name[i])) && |r.name| <= 128
    && r.count >= 1
    && (r.count > c.maxVouchers || (r.timeLimitMinutes >= 1 && (r.timeLimitMinutes > c.maxValidityMinutes || r.timeLimitMinutes > 1_000_000)))
  }

  /** Passing every check in turn is being within every bound at once; and of those refused, the ones
      answered "forbidden" are those past a ceiling. */
  lemma EnforceAcceptsExactlyWithin(r: CreateVoucherRequest, c: Ceilings)
    ensures Enforce(r, c).Ok? <==> WithinCeilings(r, c)
    ensures Enforce(r, c).Err? && IsForbidden(Enforce(r, c).error) <==> IsOverCeiling(r, c)
  {
    var a, b := TrimSplits(r.name);
    var t := Trim(r.name);
    if t == [] {
      assert r.name == a + b;
      assert forall i :: 0 <= i < |r.name| ==> IsWhitespace(r.name[i]);
    } else {
      assert r.name[|a|] == t[0];
      assert !IsWhitespace(r.name[|a|]);
    }
  }

  // ----- main results on bodies -----

  lemma EncodedFields(r: CreateVoucherRequest)
    ensures var f := ToUpstreamBody(r).fields;
            && f.Keys <= KNOWN_KEYS
            && NAME in f && f[NAME] == Str(r.name)
            && COUNT in f && f[COUNT] == Num(Unsigned(r.count))
            && MINUTES in f && f[MINUTES] == Num(Unsigned(r.timeLimitMinutes))
            && GUESTS in f && f[GUESTS] == Num(Unsigned(r.authorizedGuestLimit))
            && ReadOptional(FieldOr(f, DATA, Null)) == Some(r.dataUsageLimitMBytes)
            && ReadOptional(FieldOr(f, RX, Null)) == Some(r.rxRateLimitKbps)
            && ReadOptional(FieldOr(f, TX, Null)) == Some(r.txRateLimitKbps)
  {
    KeysAreDistinct();
    var keys := [NAME, COUNT, MINUTES, GUESTS, DATA, RX, TX];
    assert keys[0] == NAME && keys[1] == COUNT && keys[2] == MINUTES && keys[3] == GUESTS
        && keys[4] == DATA && keys[5] == RX && keys[6] == TX;
  }

  function Entry(f: map<string, Json>, key: string): Option<Json> {
    if key in f then Some(f[key]) else None
  }

  function NumberOrAbsent(v: Option<u64>): Option<Json> {
    if v.Some? then Some(Num(Unsigned(v.value))) else None
  }

  /** The body as it goes on the wire: these keys with these values, an absent option absent, and nothing else. */
  lemma BodyOnTheWire(r: CreateVoucherRequest)
    ensures ToUpstreamBody(r).Obj?
    ensures var f := ToUpstreamBody(r).fields;
            && Entry(f, "name") == Some(Str(r.name))
            && Entry(f, "count") == Some(Num(Unsigned(r.count)))
            && Entry(f, "timeLimitMinutes") == Some(Num(Unsigned(r.timeLimitMinutes)))
            && Entry(f, "authorizedGuestLimit") == Some(Num(Unsigned(r.authorizedGuestLimit)))
            && Entry(f, "dataUsageLimitMBytes") == NumberOrAbsent(r.dataUsageLimitMBytes)
            && Entry(f, "rxRateLimitKbps") == NumberOrAbsent(r.rxRateLimitKbps)
            && Entry(f, "txRateLimitKbps") == NumberOrAbsent(r.txRateLimitKbps)
            && f.Keys <= {"name", "count", "timeLimitMinutes", "authorizedGuestLimit", "dataUsageLimitMBytes", "rxRateLimitKbps", "txRateLimitKbps"}
  {
    KeysAreDistinct();
    var keys := [NAME, COUNT, MINUTES, GUESTS, DATA, RX, TX];
    assert keys[0] == NAME && keys[1] == COUNT && keys[2] == MINUTES && keys[3] == GUESTS
        && keys[4] == DATA && keys[5] == RX && keys[6] == TX;
  }

  /** An absent count and an absent guest limit mean 1; an option may be absent or null. */
  ghost predicate SaysCount(j: Option<Json>, n: u64) {
    if j.None? then n == 1 else j == Some(Num(Unsigned(n)))
  }

  ghost predicate SaysOption(j: Option<Json>, v: Option<u64>) {
    if j.None? || j == Some(Null) then v == None else v.Some? && j == Some(Num(Unsigned(v.value)))
  }

  /** What an object must hold to be read as a request, key by key: no float, no negative number, no
      text for a number, and no unknown key. */
  lemma ObjectBodyIsRead(f: map<string, Json>, r: CreateVoucherRequest)
    ensures Parse(Obj(f)) == Some(r) <==>
              && f.Keys <= {"name", "count", "timeLimitMinutes", "authorizedGuestLimit", "dataUsageLimitMBytes", "rxRateLimitKbps", "txRateLimitKbps"}
              && Entry(f, "name") == Some(Str(r.name))
              && SaysCount(Entry(f, "count"), r.count)
              && Entry(f, "timeLimitMinutes") == Some(Num(Unsigned(r.timeLimitMinutes)))
              && SaysCount(Entry(f, "authorizedGuestLimit"), r.authorizedGuestLimit)
              && SaysOption(Entry(f, "dataUsageLimitMBytes"), r.dataUsageLimitMBytes)
              && SaysOption(Entry(f, "rxRateLimitKbps"), r.rxRateLimitKbps)
              && SaysOption(Entry(f, "txRateLimitKbps"), r.txRateLimitKbps)
  {
  }

  /** What the proxy sends says exactly what it understood. */
  lemma BodyRoundTrip(r: CreateVoucherRequest)
    ensures Parse(ToUpstreamBody(r)) == Some(r)
  {
    EncodedFields(r);
  }

  /** Re-encoding is a canonical form: two bodies are forwarded alike exactly when they mean the same request. */
  lemma CanonicalBody(a: Json, b: Json)
    requires Parse(a).Some? && Parse(b).Some?
    ensures ToUpstreamBody(Parse(a).value) == ToUpstreamBody(Parse(b).value) <==> Parse(a) == Parse(b)
    ensures Parse(ToUpstreamBody(Parse(a).value)) == Parse(a)
    ensures ToUpstreamBody(Parse(a).value).fields.Keys <= KNOWN_KEYS
  {
    BodyRoundTrip(Parse(a).value);
    BodyRoundTrip(Parse(b).value);
    EncodedFields(Parse(a).value);
  }

  /** An accepted object has only known keys; an accepted body that is not an object is the positional form. */
  lemma AcceptedBodiesAreClosed(body: Json)
    requires Parse(body).Some?
    ensures body.Obj? || (body.Arr? && |body.elements| == 7)
    ensures body.Obj? ==> {NAME, MINUTES} <= body.fields.Keys <= KNOWN_KEYS
  {
  }

  function Optional(v: Option<u64>): Json {
    if v.Some? then Num(Unsigned(v.value)) else Null
  }

  /** The seven values of a request in the order of declaration, an absent one as null. */
  function Positional(r: CreateVoucherRequest): Json {
    Arr([Str(r.name), Num(Unsigned(r.count)), Num(Unsigned(r.timeLimitMinutes)), Num(Unsigned(r.authorizedGuestLimit)),
         Optional(r.dataUsageLimitMBytes), Optional(r.rxRateLimitKbps), Optional(r.txRateLimitKbps)])
  }

  /** The positional form is accepted although the documented body is an object. Every request has
      exactly one, and nothing else that is not an object is accepted. */
  lemma PositionalBodyIsAccepted(body: Json, r: CreateVoucherRequest)
    ensures Parse(Positional(r)) == Some(r)
    ensures !body.Obj? ==> (Parse(body) == Some(r) <==> body == Positional(r))
  {
    if !body.Obj? && Parse(body) == Some(r) {
      var e, p := body.elements, Positional(r).elements;
      assert e[0] == p[0] && e[1] == p[1] && e[2] == p[2] && e[3] == p[3];
      assert e[4] == p[4] && e[5] == p[5] && e[6] == p[6];
    }
  }
}
