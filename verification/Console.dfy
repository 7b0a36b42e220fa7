/** The controller's store of vouchers, as the stand-in console keeps it. */
module Console {
  import opened Wrappers
  import opened Text
  import opened Policy
  import opened Upstream
  import Sums

  datatype Voucher = Voucher(id: string, code: string, name: string, timeLimitMinutes: u64, authorizedGuestLimit: u32)

  type Sites = map<string, seq<Voucher>>

  datatype Store = Store(sites: Sites, next: nat)

  const EMPTY := Store(map[], 1)

  datatype Order = Order(count: u64, minutes: u64, name: string, guests: u32)

  datatype Reply =
    | Unauthorized
    | OutOfRange
    | NotFound
    | NoRoute
    | SiteList
    | Listed(rows: seq<Voucher>)
    | Made(vouchers: seq<Voucher>)
    | Deleted

  predicate IsSuccess(r: Reply) { r.SiteList? || r.Listed? || r.Made? || r.Deleted? }

  function VouchersAt(sites: Sites, site: string): seq<Voucher> {
    if site in sites then sites[site] else []
  }

  function VoucherId(n: nat): string { "v" + Decimal(n) }

  function VoucherCode(n: nat): string { Decimal(1_000_000_000 + n) }

  function NewVoucher(n: nat, o: Order): Voucher {
    Voucher(VoucherId(n), VoucherCode(n), o.name, o.minutes, o.guests)
  }

  function Issue(first: nat, count: nat, o: Order): seq<Voucher> {
    seq(count, i requires 0 <= i < count => NewVoucher(first + i, o))
  }

  function CreateOn(s: Store, site: string, o: Order): (Reply, Store) {
    if o.minutes == 0 || o.minutes > UNIFI_MAX_MINUTES then (OutOfRange, s)
    else
      var made := Issue(s.next, o.count, o);
      (Made(made), Store(s.sites[site := VouchersAt(s.sites, site) + made], s.next + o.count))
  }

  function Retain(list: seq<Voucher>, id: string): seq<Voucher> {
    if list == [] then []
    else Retain(list[..|list| - 1], id) + (if list[|list| - 1].id == id then [] else [list[|list| - 1]])
  }

  /** Looking for a voucher on an unknown site leaves an empty list there. */
  function DeleteOn(s: Store, site: string, id: string): (Reply, Store) {
    var before := VouchersAt(s.sites, site);
    var after := Retain(before, id);
    (if |after| == |before| then NotFound else Deleted, Store(s.sites[site := after], s.next))
  }

  const PAGE_DEFAULT := 100
  const PAGE_MAX := 1000

  function ListOn(s: Store, site: string, limit: Option<nat>): seq<Voucher> {
    var wanted := limit.GetOr(PAGE_DEFAULT);
    var most := if wanted < PAGE_MAX then wanted else PAGE_MAX;
    var rows := VouchersAt(s.sites, site);
    if most < |rows| then rows[..most] else rows
  }

  function FieldU64(body: Json, key: string, default: u64): u64 {
    if body.Obj? && key in body.fields && ReadU64(body.fields[key]).Some? then ReadU64(body.fields[key]).value else default
  }

  function FieldText(body: Json, key: string, default: string): string {
    if body.Obj? && key in body.fields && body.fields[key].Str? then body.fields[key].s else default
  }

  /** What the console makes of a body; the guest limit is cut to 32 bits. */
  function ReadOrder(body: Json): Order {
    Order(FieldU64(body, COUNT, 1), FieldU64(body, MINUTES, 60), FieldText(body, NAME, "Voucher"),
          FieldU64(body, GUESTS, 1) % 0x1_0000_0000)
  }

  /** A listing without a page size, which the proxy never sends. */
  function BareListing(call: Call): Option<string> {
    if call.verb.GET? && '?' !in call.path then
      match ParseCall(Call(GET, call.path + "?" + PAGE_QUERY))
      case Some(ListVouchers(site)) => Some(site)
      case _ => None
    else None
  }

  /** One request at the console: the key is checked first, then the route decides. */
  function Serve(s: Store, keyOk: bool, call: Call, body: Json): (Reply, Store) {
    match ParseCall(call)
    case None =>
      (match BareListing(call)
       case None => (NoRoute, s)
       case Some(site) => (if keyOk then Listed(ListOn(s, site, None)) else Unauthorized, s))
    case Some(op) =>
      if !keyOk then (Unauthorized, s)
      else
        match op
        case ListSites => (SiteList, s)
        case ListVouchers(site) => (Listed(ListOn(s, site, Some(PAGE_MAX))), s)
        case CreateVouchers(site) => CreateOn(s, site, ReadOrder(body))
        case DeleteVoucher(site, voucher) => DeleteOn(s, site, voucher)
  }

  /** Without a page size the console lists its default of 100, and changes nothing. */
  lemma BareListingIsServed(s: Store, site: string)
    requires IsSafeId(site)
    ensures var call := Call(GET, BarePath(ListVouchers(site)));
            var all := VouchersAt(s.sites, site);
            Serve(s, true, call, Null) == (Listed(if |all| > 100 then all[..100] else all), s)
  {
    var op := ListVouchers(site);
    var path := BarePath(op);
    CallIsBuiltForSafeIds(op);
    ValidateIdAcceptsSafeIds(site);
    BarePathSplits(op);
    SplitPiece(path, '?');
    ParsePlain(Call(GET, path), path);
    BareListingIsNoCall(Split(path, '/'));
    assert BuildCall(op).value == Call(GET, path + "?" + PAGE_QUERY);
    CallRoundTrip(op);
  }

  lemma BareListingIsNoCall(segments: seq<string>)
    requires |segments| == 5
    ensures ReadSegments(GET, segments, false) == None
  {
  }

  // ----- what the store keeps -----

  /** The serial number an id was issued with. */
  function SerialOf(id: string): Option<nat> {
    if id != [] && id[0] == 'v' then ParseDecimal(id[1..]) else None
  }

  lemma SerialOfVoucherId(n: nat)
    ensures SerialOf(VoucherId(n)) == Some(n)
  {
    DecimalRoundTrip(n);
    assert VoucherId(n)[1..] == Decimal(n);
  }

  ghost predicate IsIssued(v: Voucher, next: nat) {
    SerialOf(v.id).Some? && 1 <= SerialOf(v.id).value < next && v.id == VoucherId(SerialOf(v.id).value)
  }

  ghost predicate AllIssued(s: Store) {
    forall site, i :: site in s.sites && 0 <= i < |s.sites[site]| ==> IsIssued(s.sites[site][i], s.next)
  }

  /** No two places of the store, on one site or two, hold the same id. */
  ghost predicate AllDistinct(sites: Sites) {
    forall a, i, b, j ::
      (a in sites && 0 <= i < |sites[a]| && b in sites && 0 <= j < |sites[b]| && sites[a][i].id == sites[b][j].id)
      ==> a == b && i == j
  }

  function Sizes(sites: Sites): map<string, nat> {
    map site | site in sites :: |sites[site]|
  }

  ghost function Stored(sites: Sites): nat { Sums.Total(Sizes(sites)) }

  /** After `made` vouchers were issued and `deleted` removed. */
  ghost predicate Balanced(s: Store, made: nat, deleted: nat) {
    && AllIssued(s)
    && AllDistinct(s.sites)
    && s.next == 1 + made
    && Stored(s.sites) + deleted == made
  }

  lemma StoredAfter(sites: Sites, site: string, list: seq<Voucher>)
    ensures Stored(sites[site := list]) == Stored(sites) + |list| - |VouchersAt(sites, site)|
  {
    Sums.TotalUpdate(Sizes(sites), site, |list|);
    assert Sizes(sites[site := list]) == Sizes(sites)[site := |list|];
  }

  lemma IssueIsFresh(first: nat, o: Order, i: nat)
    requires i < o.count
    ensures Issue(first, o.count, o)[i] == NewVoucher(first + i, o)
    ensures SerialOf(NewVoucher(first + i, o).id) == Some(first + i)
  {
    SerialOfVoucherId(first + i);
  }

  lemma CreateKeepsIds(s: Store, site: string, o: Order)
    requires AllIssued(s) && AllDistinct(s.sites) && s.next >= 1
    requires CreateOn(s, site, o).0.Made?
    ensures AllIssued(CreateOn(s, site, o).1) && AllDistinct(CreateOn(s, site, o).1.sites)
  {
    var t := CreateOn(s, site, o).1;
    var held, made := VouchersAt(s.sites, site), Issue(s.next, o.count, o);
    assert t.sites[site] == held + made;
    forall a, i | a in t.sites && 0 <= i < |t.sites[a]|
      ensures IsIssued(t.sites[a][i], t.next)
      ensures a != site || i < |held| ==> a in s.sites && i < |s.sites[a]| && t.sites[a][i] == s.sites[a][i]
      ensures a == site && i >= |held| ==> SerialOf(t.sites[a][i].id) == Some(s.next + i - |held|)
    {
      if a != site || i < |held| {
        assert IsIssued(s.sites[a][i], s.next);
      } else {
        assert t.sites[a][i] == made[i - |held|];
        IssueIsFresh(s.next, o, i - |held|);
      }
    }
  }

  /** What is issued is what was ordered: under the next serial numbers, at the end of the site's list. */
  ghost predicate IsAsOrdered(made: seq<Voucher>, first: nat, o: Order) {
    && |made| == o.count
    && forall i :: 0 <= i < |made| ==>
         && made[i].id == "v" + Decimal(first + i) && made[i].code == Decimal(1_000_000_000 + first + i)
         && made[i].name == o.name && made[i].timeLimitMinutes == o.minutes && made[i].authorizedGuestLimit == o.guests
  }

  lemma IssuedAsOrdered(first: nat, o: Order)
    ensures IsAsOrdered(Issue(first, o.count, o), first, o)
  {
    forall i | 0 <= i < o.count ensures Issue(first, o.count, o)[i] == NewVoucher(first + i, o) {
      IssueIsFresh(first, o, i);
    }
  }

  /** Creating issues exactly the vouchers ordered, with ids never seen before, after those the site
      already has, and touches no other site. */
  lemma CreateKeepsBalance(s: Store, site: string, o: Order, made: nat, deleted: nat)
    requires Balanced(s, made, deleted)
    requires 1 <= o.minutes <= UNIFI_MAX_MINUTES
    ensures CreateOn(s, site, o).0.Made? && IsAsOrdered(CreateOn(s, site, o).0.vouchers, s.next, o)
    ensures VouchersAt(CreateOn(s, site, o).1.sites, site) == VouchersAt(s.sites, site) + CreateOn(s, site, o).0.vouchers
    ensures Balanced(CreateOn(s, site, o).1, made + o.count, deleted)
    ensures forall other :: other != site ==> VouchersAt(CreateOn(s, site, o).1.sites, other) == VouchersAt(s.sites, other)
  {
    CreateKeepsIds(s, site, o);
    IssuedAsOrdered(s.next, o);
    StoredAfter(s.sites, site, VouchersAt(s.sites, site) + Issue(s.next, o.count, o));
  }

  /** `after` is what is left of `before` without the vouchers of this id: `at` says where each of them
      was, and their order is the same. */
  ghost predicate IsWithoutAt(before: seq<Voucher>, after: seq<Voucher>, id: string, at: seq<nat>) {
    && |at| == |after|
    && (forall j :: 0 <= j < |at| ==> at[j] < |before| && after[j] == before[at[j]] && before[at[j]].id != id)
    && (forall j, k :: 0 <= j < k < |at| ==> at[j] < at[k])
    && (forall i :: 0 <= i < |before| && before[i].id != id ==> i in at)
  }

  ghost predicate IsWithout(before: seq<Voucher>, after: seq<Voucher>, id: string) {
    exists at :: IsWithoutAt(before, after, id, at)
  }

  lemma OneMoreDropped(before: seq<Voucher>, after: seq<Voucher>, id: string, at: seq<nat>, v: Voucher)
    requires IsWithoutAt(before, after, id, at) && v.id == id
    ensures IsWithoutAt(before + [v], after, id, at)
  {
  }

  lemma OneMoreKept(before: seq<Voucher>, after: seq<Voucher>, id: string, at: seq<nat>, v: Voucher)
    requires IsWithoutAt(before, after, id, at) && v.id != id
    ensures IsWithoutAt(before + [v], after + [v], id, at + [|before|])
  {
    var longer: seq<nat> := at + [|before|];
    forall i | 0 <= i < |before| + 1 && (before + [v])[i].id != id ensures i in longer {
      if i < |before| { assert i in at; } else { assert longer[|at|] == i; }
    }
  }

  lemma {:induction false} RetainIsWithoutAt(before: seq<Voucher>, id: string) returns (at: seq<nat>)
    ensures IsWithoutAt(before, Retain(before, id), id, at)
  {
    at := [];
    if before != [] {
      var init, v := before[..|before| - 1], before[|before| - 1];
      at := RetainIsWithoutAt(init, id);
      assert before == init + [v];
      if v.id == id {
        OneMoreDropped(init, Retain(init, id), id, at, v);
        assert Retain(before, id) == Retain(init, id);
      } else {
        OneMoreKept(init, Retain(init, id), id, at, v);
        assert Retain(before, id) == Retain(init, id) + [v];
        at := at + [|init|];
      }
    }
  }

  lemma RetainIsWithout(before: seq<Voucher>, id: string)
    ensures IsWithout(before, Retain(before, id), id)
  {
    var at := RetainIsWithoutAt(before, id);
  }

  /** Nothing is dropped exactly when no voucher has the id. */
  lemma {:induction false} RetainLength(before: seq<Voucher>, id: string)
    ensures |Retain(before, id)| <= |before|
    ensures |Retain(before, id)| == |before| <==> forall i :: 0 <= i < |before| ==> before[i].id != id
  {
    if before != [] { RetainLength(before[..|before| - 1], id); }
  }

  lemma {:induction false} RetainOthers(list: seq<Voucher>, id: string)
    requires forall i :: 0 <= i < |list| ==> list[i].id != id
    ensures Retain(list, id) == list
  {
    if list != [] {
      var last := |list| - 1;
      RetainOthers(list[..last], id);
      assert list == list[..last] + [list[last]];
    }
  }

  lemma {:induction false} RetainDropsOne(list: seq<Voucher>, id: string, k: nat)
    requires k < |list| && list[k].id == id
    requires forall i :: 0 <= i < |list| && i != k ==> list[i].id != id
    ensures Retain(list, id) == list[..k] + list[k + 1..]
  {
    var last := |list| - 1;
    if k == last {
      RetainOthers(list[..last], id);
    } else {
      RetainDropsOne(list[..last], id, k);
      assert list[..last][..k] + list[..last][k + 1..] + [list[last]] == list[..k] + list[k + 1..];
    }
  }

  lemma RemovalKeepsIds(s: Store, site: string, k: nat)
    requires AllIssued(s) && AllDistinct(s.sites)
    requires site in s.sites && k < |s.sites[site]|
    ensures var t := s.(sites := s.sites[site := s.sites[site][..k] + s.sites[site][k + 1..]]);
            AllIssued(t) && AllDistinct(t.sites)
  {
    var list := s.sites[site];
    var t := s.(sites := s.sites[site := list[..k] + list[k + 1..]]);
    forall a, i | a in t.sites && 0 <= i < |t.sites[a]|
      ensures IsIssued(t.sites[a][i], t.next)
      ensures var j := if a == site && i >= k then i + 1 else i; j < |s.sites[a]| && t.sites[a][i] == s.sites[a][j]
    {
      var j := if a == site && i >= k then i + 1 else i;
      assert t.sites[a][i] == s.sites[a][j];
      assert IsIssued(s.sites[a][j], s.next);
    }
    forall a, i, b, j | a in t.sites && 0 <= i < |t.sites[a]| && b in t.sites && 0 <= j < |t.sites[b]|
      && t.sites[a][i].id == t.sites[b][j].id
      ensures a == b && i == j
    {
      var i', j' := if a == site && i >= k then i + 1 else i, if b == site && j >= k then j + 1 else j;
      assert t.sites[a][i] == s.sites[a][i'] && t.sites[b][j] == s.sites[b][j'];
    }
  }

  /** A delete removes exactly the one voucher with that id on that site and leaves the others in their
      order, or reports that there is none. */
  lemma DeleteKeepsBalance(s: Store, site: string, id: string, made: nat, deleted: nat)
    requires Balanced(s, made, deleted)
    ensures var (r, t) := DeleteOn(s, site, id);
            && (r.Deleted? <==> exists k :: 0 <= k < |VouchersAt(s.sites, site)| && VouchersAt(s.sites, site)[k].id == id)
            && (r.Deleted? || r.NotFound?)
            && IsWithout(VouchersAt(s.sites, site), VouchersAt(t.sites, site), id)
            && Balanced(t, made, deleted + (if r.Deleted? then 1 else 0))
            && (r.NotFound? ==> forall a :: VouchersAt(t.sites, a) == VouchersAt(s.sites, a))
            && (forall a :: a != site ==> VouchersAt(t.sites, a) == VouchersAt(s.sites, a))
            && |VouchersAt(t.sites, site)| == |VouchersAt(s.sites, site)| - (if r.Deleted? then 1 else 0)
  {
    DeleteBalances(s, site, id, made, deleted);
    RetainIsWithout(VouchersAt(s.sites, site), id);
  }

  lemma DeleteBalances(s: Store, site: string, id: string, made: nat, deleted: nat)
    requires Balanced(s, made, deleted)
    ensures var (r, t) := DeleteOn(s, site, id);
            && (r.Deleted? <==> exists k :: 0 <= k < |VouchersAt(s.sites, site)| && VouchersAt(s.sites, site)[k].id == id)
            && (r.Deleted? || r.NotFound?)
            && Balanced(t, made, deleted + (if r.Deleted? then 1 else 0))
            && (r.NotFound? ==> forall a :: VouchersAt(t.sites, a) == VouchersAt(s.sites, a))
            && (forall a :: a != site ==> VouchersAt(t.sites, a) == VouchersAt(s.sites, a))
            && |VouchersAt(t.sites, site)| == |VouchersAt(s.sites, site)| - (if r.Deleted? then 1 else 0)
  {
    var list := VouchersAt(s.sites, site);
    var (r, t) := DeleteOn(s, site, id);
    StoredAfter(s.sites, site, Retain(list, id));
    if k :| 0 <= k < |list| && list[k].id == id {
      assert s.sites[site][k].id == id;
      forall i | 0 <= i < |list| && i != k ensures list[i].id != id {
        assert s.sites[site][i] == list[i];
      }
      RetainDropsOne(list, id, k);
      RemovalKeepsIds(s, site, k);
    } else {
      RetainOthers(list, id);
      if site !in s.sites {
        assert list == [];
      }
      DeleteNothingKeepsIds(s, site);
    }
  }

  lemma DeleteNothingKeepsIds(s: Store, site: string)
    requires AllIssued(s) && AllDistinct(s.sites)
    ensures var t := s.(sites := s.sites[site := VouchersAt(s.sites, site)]);
            AllIssued(t) && AllDistinct(t.sites)
  {
    var t := s.(sites := s.sites[site := VouchersAt(s.sites, site)]);
    forall a, i | a in t.sites && 0 <= i < |t.sites[a]|
      ensures a in s.sites && i < |s.sites[a]| && t.sites[a][i] == s.sites[a][i]
      ensures IsIssued(t.sites[a][i], t.next)
    {
      assert IsIssued(s.sites[a][i], s.next);
    }
  }

  /** Of a body that is not the proxy's the console reads what it can; what is absent, or of another
      kind, takes its own default. */
  lemma ForeignBodyIsRead(body: Json)
    ensures var o := ReadOrder(body);
            && (!body.Obj? ==> o == Order(1, 60, "Voucher", 1))
            && (body.Obj? ==>
                  var f := body.fields;
                  && o.count == (if "count" in f && f["count"].Num? && f["count"].number.Unsigned? then f["count"].number.n else 1)
                  && o.minutes == (if "timeLimitMinutes" in f && f["timeLimitMinutes"].Num? && f["timeLimitMinutes"].number.Unsigned?
                                   then f["timeLimitMinutes"].number.n else 60)
                  && o.name == (if "name" in f && f["name"].Str? then f["name"].s else "Voucher")
                  && o.guests == (if "authorizedGuestLimit" in f && f["authorizedGuestLimit"].Num? && f["authorizedGuestLimit"].number.Unsigned?
                                  then f["authorizedGuestLimit"].number.n else 1) % 0x1_0000_0000)
  {
  }

  /** The console reads from the proxy's body exactly the request the proxy enforced, so its own
      range check never fires for one. */
  lemma ProxyBodyIsRead(r: CreateVoucherRequest)
    ensures ReadOrder(ToUpstreamBody(r)) == Order(r.count, r.timeLimitMinutes, r.name, r.authorizedGuestLimit)
  {
    EncodedFields(r);
  }

  /** What the console makes of each of the proxy's calls: with a wrong key nothing changes, and
      neither does it for a listing; a create adds what was ordered at the end of the site's list; a
      delete takes away the vouchers of that id and no other. */
  lemma ProxyCallsAreServed(s: Store, keyOk: bool, op: Operation, body: Json)
    requires IdsAreSafe(op)
    ensures BuildCall(op).Ok?
    ensures var (r, t) := Serve(s, keyOk, BuildCall(op).value, body);
            && (!keyOk ==> r == Unauthorized && t == s)
            && (keyOk && op.ListSites? ==> r == SiteList && t == s)
            && (keyOk && op.ListVouchers? ==>
                  var all := VouchersAt(s.sites, op.site);
                  r == Listed(if |all| > 1000 then all[..1000] else all) && t == s)
            && (keyOk && op.CreateVouchers? ==>
                  var o := ReadOrder(body);
                  if 1 <= o.minutes <= 1_000_000 then
                    && r.Made? && IsAsOrdered(r.vouchers, s.next, o)
                    && t == Store(s.sites[op.site := VouchersAt(s.sites, op.site) + r.vouchers], s.next + o.count)
                  else
                    r == OutOfRange && t == s)
            && (keyOk && op.DeleteVoucher? ==>
                  var before, after := VouchersAt(s.sites, op.site), VouchersAt(t.sites, op.site);
                  && IsWithout(before, after, op.voucher) && t == Store(s.sites[op.site := after], s.next)
                  && r == if forall i :: 0 <= i < |before| ==> before[i].id != op.voucher then NotFound else Deleted)
  {
    CallIsBuiltForSafeIds(op);
    CallRoundTrip(op);
    match op
    case ListSites =>
    case ListVouchers(_) =>
    case CreateVouchers(site) => IssuedAsOrdered(s.next, ReadOrder(body));
    case DeleteVoucher(site, voucher) =>
      RetainIsWithout(VouchersAt(s.sites, site), voucher);
      RetainLength(VouchersAt(s.sites, site), voucher);
  }

  // ----- the console as the code keeps it -----

  class Console {
    var sites: Sites
    var next: nat

    function Value(): Store
      reads this
    {
      Store(sites, next)
    }

    constructor ()
      ensures Value() == EMPTY
    {
      sites, next := map[], 1;
    }

    /** Issues one voucher at a time, bumping the serial counter for each. */
    method CreateVouchers(site: string, body: Json) returns (reply: Reply)
      modifies this
      ensures (reply, Value()) == CreateOn(old(Value()), site, ReadOrder(body))
      ensures var o := ReadOrder(body);
              if 1 <= o.minutes <= 1_000_000 then
                && reply.Made? && IsAsOrdered(reply.vouchers, old(next), o) && next == old(next) + o.count
                && sites == old(sites)[site := old(VouchersAt(sites, site)) + reply.vouchers]
              else
                reply == OutOfRange && unchanged(this)
    {
      var order := ReadOrder(body);
      if order.minutes == 0 || order.minutes > UNIFI_MAX_MINUTES {
        return OutOfRange;
      }
      var list := VouchersAt(sites, site);
      var made: seq<Voucher> := [];
      for i := 0 to order.count
        invariant made == Issue(old(next), i, order)
        invariant list == VouchersAt(old(sites), site) + made
        invariant next == old(next) + i && sites == old(sites)
      {
        var n := next;
        next := next + 1;
        var v := NewVoucher(n, order);
        made := made + [v];
        list := list + [v];
      }
      IssuedAsOrdered(old(next), order);
      sites := sites[site := list];
      reply := Made(made);
    }

    method DeleteVoucher(site: string, id: string) returns (reply: Reply)
      modifies this
      ensures (reply, Value()) == DeleteOn(old(Value()), site, id)
      ensures IsWithout(old(VouchersAt(sites, site)), VouchersAt(sites, site), id)
      ensures sites == old(sites)[site := VouchersAt(sites, site)] && next == old(next)
      ensures reply == if forall i :: 0 <= i < |old(VouchersAt(sites, site))| ==> old(VouchersAt(sites, site))[i].id != id then NotFound else Deleted
    {
      var list := VouchersAt(sites, site);
      var before := |list|;
      var kept: seq<Voucher> := [];
      for i := 0 to |list|
        invariant kept == Retain(list[..i], id)
      {
        assert list[..i + 1][..i] == list[..i];
        if list[i].id != id {
          kept := kept + [list[i]];
        }
      }
      assert list[..|list|] == list;
      RetainIsWithout(list, id);
      RetainLength(list, id);
      sites := sites[site := kept];
      reply := if |kept| == before then NotFound else Deleted;
    }

    method ListVouchers(site: string, limit: Option<nat>) returns (rows: seq<Voucher>)
      ensures rows == ListOn(Value(), site, limit)
      ensures rows <= VouchersAt(sites, site)
      ensures var wanted := limit.GetOr(100);
              |rows| == if |VouchersAt(sites, site)| <= wanted && |VouchersAt(sites, site)| <= 1000 then |VouchersAt(sites, site)|
                        else if wanted < 1000 then wanted else 1000
    {
      var most := limit.GetOr(PAGE_DEFAULT);
      if most > PAGE_MAX {
        most := PAGE_MAX;
      }
      var all := VouchersAt(sites, site);
      rows := if most < |all| then all[..most] else all;
    }
  }
}
