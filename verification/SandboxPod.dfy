/** One sandbox pod: recovering on start, snapshotting on stop. */
module SandboxPod {
  import opened Wrappers
  import opened Dicts
  import opened Seqs
  import opened Recovery

  /** What Redis holds under a key: a JSON object, or a value that is not one. */
  datatype Stored = Object(fields: Dict<string, Field>) | Unreadable

  type Store = map<string, Stored>

  /** `_redis_get_json` */
  function RedisGetJson(store: Store, key: string): Option<Dict<string, Field>> {
    if key in store && store[key].Object? then Some(store[key].fields) else None
  }

  class Redis {
    var store: Store

    constructor ()
      ensures store == map[]
    {
      store := map[];
    }

    method Set(key: string, value: Stored)
      modifies this
      ensures store == old(store)[key := value]
    {
      store := store[key := value];
    }
  }

  /** Where a pod keeps its snapshots, and how it writes amounts. */
  datatype Place = Place(prefix: string, traderId: string, text: MoneyText) {
    function Key(venue: string): string {
      BalanceKey(prefix, traderId, venue)
    }

    /** The snapshot recovery would use for a venue; empty when there is none. */
    function Target(store: Store, venue: string): Totals {
      Decoded(RedisGetJson(store, Key(venue)), text)
    }
  }

  datatype Client = VenueClient | SandboxClient(venue: string)

  function VenuesOf(clients: seq<Client>): seq<string> {
    if clients == [] then []
    else
      var pre := VenuesOf(clients[..|clients| - 1]);
      if clients[|clients| - 1].SandboxClient? then pre + [clients[|clients| - 1].venue] else pre
  }

  /** `_sandbox_clients`: the venues of the clients that have a simulated exchange. */
  function SandboxVenues(clients: Option<seq<Client>>): seq<string> {
    if clients.None? then [] else VenuesOf(clients.value)
  }

  predicate OneClientPerVenue(clients: seq<Client>) {
    clients == [] ||
    (OneClientPerVenue(clients[..|clients| - 1])
     && (clients[|clients| - 1].SandboxClient? ==> clients[|clients| - 1] !in clients[..|clients| - 1]))
  }

  /** Exactly the venues of the sandbox clients, in order, and each once if no two clients share
      one. */
  lemma {:induction false} SandboxClientsOnly(clients: seq<Client>, v: string)
    ensures v in VenuesOf(clients) <==> SandboxClient(v) in clients
    ensures |VenuesOf(clients)| <= |clients|
    ensures Distinct(VenuesOf(clients)) <==> OneClientPerVenue(clients)
  {
    if clients != [] {
      var pre, last := clients[..|clients| - 1], clients[|clients| - 1];
      assert clients == pre + [last];
      SandboxClientsOnly(pre, v);
      if last.SandboxClient? {
        var vs := VenuesOf(clients);
        assert vs[..|vs| - 1] == VenuesOf(pre);
        DistinctFront(vs);
        SandboxClientsOnly(pre, last.venue);
      }
    }
  }

  datatype Order = Order(id: string, instrument: string, accountId: string, emulated: bool)

  /** The orders each matching engine was asked to process, with the account named for each. */
  type Engines = map<(string, string), seq<(Order, string)>>

  /** `open_orders_to_rehydrate` */
  function OpenOrdersToRehydrate(orders: seq<Order>): (r: seq<Order>)
    ensures forall o :: o in r <==> o in orders && !o.emulated
  {
    if orders == [] then []
    else
      var pre := OpenOrdersToRehydrate(orders[..|orders| - 1]);
      assert orders == orders[..|orders| - 1] + [orders[|orders| - 1]];
      if orders[|orders| - 1].emulated then pre else pre + [orders[|orders| - 1]]
  }

  /** `kept` are the orders at the increasing positions `at`, which are those not emulated. */
  ghost predicate Picks(orders: seq<Order>, at: seq<nat>, kept: seq<Order>) {
    && |at| == |kept| && (forall i, j :: 0 <= i < j < |at| ==> at[i] < at[j])
    && (forall p: nat :: p in at <==> p < |orders| && !orders[p].emulated)
    && (forall i :: 0 <= i < |at| ==> at[i] < |orders| && kept[i] == orders[at[i]])
  }

  lemma PickNext(orders: seq<Order>, at: seq<nat>, kept: seq<Order>, order: Order)
    requires Picks(orders, at, kept)
    ensures order.emulated ==> Picks(orders + [order], at, kept)
    ensures !order.emulated ==> Picks(orders + [order], at + [|orders|], kept + [order])
  {
    var all, more := orders + [order], at + [|orders|];
    assert forall p: nat :: p in more <==> p in at || p == |orders|;
    assert forall i :: 0 <= i < |at| ==> all[at[i]] == orders[at[i]];
  }

  /** Exactly the positions that are not emulated are kept, in order. */
  lemma {:induction false} RehydratesInOrder(orders: seq<Order>) returns (at: seq<nat>)
    ensures Picks(orders, at, OpenOrdersToRehydrate(orders))
  {
    at := [];
    if orders != [] {
      var pre, order := orders[..|orders| - 1], orders[|orders| - 1];
      assert orders == pre + [order];
      at := RehydratesInOrder(pre);
      PickNext(pre, at, OpenOrdersToRehydrate(pre), order);
      if !order.emulated {
        at := at + [|pre|];
      }
    }
  }

  // ─── what the loops amount to ────────────────────────────────────────────

  function AccountAt(accounts: map<string, Account>, venue: string): Account {
    if venue in accounts then accounts[venue] else []
  }

  function AccountsRecovered(accounts: map<string, Account>, venues: seq<string>, store: Store, place: Place)
    : map<string, Account>
  {
    if venues == [] then accounts
    else
      var pre := AccountsRecovered(accounts, venues[..|venues| - 1], store, place);
      var venue := venues[|venues| - 1];
      var target := place.Target(store, venue);
      if target == [] then pre else pre[venue := Upsert(AccountAt(pre, venue), Built(target))]
  }

  function Processed(engines: Engines, venue: string, orders: seq<Order>): Engines {
    if orders == [] then engines
    else
      var pre := Processed(engines, venue, orders[..|orders| - 1]);
      var order := orders[|orders| - 1];
      var at := (venue, order.instrument);
      if at in pre then pre[at := pre[at] + [(order, order.accountId)]] else pre
  }

  function OrdersAt(openOrders: map<string, seq<Order>>, venue: string): seq<Order> {
    if venue in openOrders then openOrders[venue] else []
  }

  function Rehydrated(engines: Engines, venues: seq<string>, openOrders: map<string, seq<Order>>): Engines {
    if venues == [] then engines
    else
      var venue := venues[|venues| - 1];
      Processed(Rehydrated(engines, venues[..|venues| - 1], openOrders), venue,
                OpenOrdersToRehydrate(OrdersAt(openOrders, venue)))
  }

  function Snapshotted(store: Store, venues: seq<string>, accounts: map<string, Account>, place: Place): Store {
    if venues == [] then store
    else
      var pre := Snapshotted(store, venues[..|venues| - 1], accounts, place);
      var venue := venues[|venues| - 1];
      var totals := SnapshotAccountTotals(AccountAt(accounts, venue));
      if totals == [] then pre else pre[place.Key(venue) := Object(SerializeBalances(totals, place.text))]
  }

  // ─── the pod ─────────────────────────────────────────────────────────────

  lemma DecodedIsKeyed(raw: Option<Dict<string, Field>>, text: MoneyText)
    ensures Keyed(Decoded(raw, text)) && DistinctKeys(Decoded(raw, text))
  {
    if raw.Some? {
      RestoredIsKeyed(raw.value, text);
    }
  }

  class Pod {
    const place: Place
    const clients: Option<seq<Client>>
    const openOrders: map<string, seq<Order>>
    var accounts: map<string, Account>
    var engines: Engines

    constructor (place: Place, clients: Option<seq<Client>>, openOrders: map<string, seq<Order>>,
                 starting: map<string, Account>, engines: Engines)
      ensures this.place == place && this.clients == clients && this.openOrders == openOrders
      ensures accounts == starting && this.engines == engines
    {
      this.place, this.clients, this.openOrders := place, clients, openOrders;
      this.accounts, this.engines := starting, engines;
    }

    /** `_sandbox_clients` */
    method Pairs() returns (venues: seq<string>)
      ensures venues == SandboxVenues(clients)
    {
      venues := [];
      if clients.None? {
        return;
      }
      for i := 0 to |clients.value|
        invariant venues == VenuesOf(clients.value[..i])
      {
        assert clients.value[..i + 1][..i] == clients.value[..i];
        match clients.value[i] {
          case VenueClient =>
          case SandboxClient(venue) => venues := venues + [venue];
        }
      }
      assert clients.value[..|clients.value|] == clients.value;
    }

    /** `generate_account_state`: the framework applies each balance to the venue's account. */
    method GenerateAccountState(venue: string, balances: seq<Balance>)
      modifies this`accounts
      ensures accounts == old(accounts)[venue := Upsert(AccountAt(old(accounts), venue), balances)]
    {
      accounts := accounts[venue := Upsert(AccountAt(accounts, venue), balances)];
    }

    /** `recover_on_start` */
    method RecoverOnStart(redis: Redis)
      modifies this`accounts, this`engines
      ensures accounts == AccountsRecovered(old(accounts), SandboxVenues(clients), redis.store, place)
      ensures engines == Rehydrated(old(engines), SandboxVenues(clients), openOrders)
    {
      var venues := Pairs();
      for i := 0 to |venues|
        invariant accounts == AccountsRecovered(old(accounts), venues[..i], redis.store, place)
        invariant engines == Rehydrated(old(engines), venues[..i], openOrders)
      {
        assert venues[..i + 1][..i] == venues[..i];
        var venue := venues[i];
        var target := DeserializeBalances(RedisGetJson(redis.store, place.Key(venue)), place.text);
        if target != [] {
          DecodedIsKeyed(RedisGetJson(redis.store, place.Key(venue)), place.text);
          var balances := BuildAccountBalances(target);
          GenerateAccountState(venue, balances);
        }
        Rehydrate(venue);
      }
      assert venues[..|venues|] == venues;
    }

    /** The order half of the recovery loop. */
    method Rehydrate(venue: string)
      modifies this`engines
      ensures engines == Processed(old(engines), venue, OpenOrdersToRehydrate(OrdersAt(openOrders, venue)))
    {
      var orders := OpenOrdersToRehydrate(OrdersAt(openOrders, venue));
      for j := 0 to |orders|
        invariant engines == Processed(old(engines), venue, orders[..j])
      {
        assert orders[..j + 1][..j] == orders[..j];
        var order := orders[j];
        var at := (venue, order.instrument);
        if at !in engines {
          continue;
        }
        engines := engines[at := engines[at] + [(order, order.accountId)]];
      }
      assert orders[..|orders|] == orders;
    }

    /** `snapshot_on_stop` */
    method SnapshotOnStop(redis: Redis)
      modifies redis
      ensures redis.store == Snapshotted(old(redis.store), SandboxVenues(clients), accounts, place)
    {
      var venues := Pairs();
      for i := 0 to |venues|
        invariant redis.store == Snapshotted(old(redis.store), venues[..i], accounts, place)
      {
        assert venues[..i + 1][..i] == venues[..i];
        var venue := venues[i];
        var totals := SnapshotAccountTotals(AccountAt(accounts, venue));
        if totals == [] {
          continue;
        }
        redis.Set(place.Key(venue), Object(SerializeBalances(totals, place.text)));
      }
      assert venues[..|venues|] == venues;
    }
  }

  // ─── what each venue gets ────────────────────────────────────────────────

  lemma InPrefixOrLast(venues: seq<string>, v: string)
    requires venues != []
    ensures v in venues <==> v in venues[..|venues| - 1] || v == venues[|venues| - 1]
  {
    assert venues == venues[..|venues| - 1] + [venues[|venues| - 1]];
  }

  /** What recovery would use for a venue: the object stored under the pod's own key for it, decoded
      as a whole, and nothing when there is none or it is not an object. */
  lemma TargetIsStored(place: Place, store: Store, v: string)
    ensures var key := BalanceKey(place.prefix, place.traderId, v);
            place.Target(store, v)
            == if key in store && store[key].Object? then Decoded(Some(store[key].fields), place.text) else []
  { }

  /** Recovery touches exactly the accounts of sandbox venues that have a usable snapshot. */
  lemma {:induction false} RecoveredAccount(accounts: map<string, Account>, venues: seq<string>, store: Store, place: Place, v: string)
    requires Distinct(venues)
    ensures var after := AccountsRecovered(accounts, venues, store, place);
            if v in venues && place.Target(store, v) != []
            then v in after && after[v] == Recovered(AccountAt(accounts, v), place.Target(store, v))
            else (v in after <==> v in accounts) && (v in accounts ==> after[v] == accounts[v])
  {
    if venues != [] {
      DistinctFront(venues);
      RecoveredAccount(accounts, venues[..|venues| - 1], store, place, v);
      InPrefixOrLast(venues, v);
    }
  }

  predicate SameAt(a: Store, b: Store, key: string) {
    (key in a <==> key in b) && (key in a ==> a[key] == b[key])
  }

  /** A snapshot writes the keys of its own sandbox venues with something to save... */
  lemma {:induction false} SnapshotWrites(store: Store, venues: seq<string>, accounts: map<string, Account>, place: Place, v: string)
    requires ':' !in place.traderId && ':' !in v && forall w :: w in venues ==> ':' !in w
    ensures var after, totals := Snapshotted(store, venues, accounts, place), SnapshotAccountTotals(AccountAt(accounts, v));
            var key := BalanceKey(place.prefix, place.traderId, v);
            if v in venues && totals != []
            then key in after && after[key] == Object(SerializeBalances(totals, place.text))
            else SameAt(after, store, key)
  {
    if venues != [] {
      var pre, last := venues[..|venues| - 1], venues[|venues| - 1];
      InPrefixOrLast(venues, v);
      assert last in venues && forall w :: w in pre ==> w in venues;
      SnapshotWrites(store, pre, accounts, place, v);
      if place.Key(last) == place.Key(v) {
        BalanceKeyInjective(place.prefix, place.traderId, last, place.prefix, place.traderId, v);
      }
    }
  }

  /** ... and no other key. */
  lemma {:induction false} SnapshotLeaves(store: Store, venues: seq<string>, accounts: map<string, Account>, place: Place, key: string)
    requires forall v :: v in venues ==> key != place.Key(v)
    ensures SameAt(Snapshotted(store, venues, accounts, place), store, key)
  {
    if venues != [] {
      var pre, last := venues[..|venues| - 1], venues[|venues| - 1];
      assert last in venues && forall v :: v in pre ==> v in venues;
      SnapshotLeaves(store, pre, accounts, place, key);
    }
  }

  // ─── the orders ──────────────────────────────────────────────────────────

  /** The open orders a given engine is due: not emulated, of its instrument, in order. */
  function Due(orders: seq<Order>, instrument: string): seq<(Order, string)> {
    if orders == [] then []
    else
      var pre, order := Due(orders[..|orders| - 1], instrument), orders[|orders| - 1];
      if !order.emulated && order.instrument == instrument then pre + [(order, order.accountId)] else pre
  }

  lemma {:induction false} DueMeans(orders: seq<Order>, instrument: string, order: Order, account: string)
    ensures multiset(Due(orders, instrument))[(order, account)]
         == if !order.emulated && order.instrument == instrument && account == order.accountId then multiset(orders)[order] else 0
  {
    if orders != [] {
      var pre, last := orders[..|orders| - 1], orders[|orders| - 1];
      assert orders == pre + [last];
      DueMeans(pre, instrument, order, account);
    }
  }

  /** What one engine has after the due orders of one venue were processed. */
  predicate Extended(before: Engines, after: Engines, at: (string, string), due: seq<(Order, string)>) {
    (at in after <==> at in before) && (at in before ==> after[at] == before[at] + due)
  }

  lemma ProcessOne(engines: Engines, venue: string, orders: seq<Order>, order: Order, at: (string, string))
    ensures Extended(Processed(engines, venue, orders), Processed(engines, venue, orders + [order]), at,
                     if at == (venue, order.instrument) then [(order, order.accountId)] else [])
  {
    assert (orders + [order])[..|orders|] == orders;
  }

  lemma ExtendedTwice(a: Engines, b: Engines, c: Engines, at: (string, string), d: seq<(Order, string)>, e: seq<(Order, string)>)
    requires Extended(a, b, at, d) && Extended(b, c, at, e)
    ensures Extended(a, c, at, d + e)
  {
    if at in a {
      assert (a[at] + d) + e == a[at] + (d + e);
    }
  }

  lemma {:induction false} ProcessedEngine(engines: Engines, venue: string, orders: seq<Order>, at: (string, string))
    ensures Extended(engines, Processed(engines, venue, OpenOrdersToRehydrate(orders)), at,
                     if at.0 == venue then Due(orders, at.1) else [])
  {
    if orders != [] {
      var pre, order := orders[..|orders| - 1], orders[|orders| - 1];
      var rest := OpenOrdersToRehydrate(pre);
      ProcessedEngine(engines, venue, pre, at);
      if !order.emulated {
        ProcessOne(engines, venue, rest, order, at);
        ExtendedTwice(engines, Processed(engines, venue, rest), Processed(engines, venue, rest + [order]), at,
                      if at.0 == venue then Due(pre, at.1) else [],
                      if at == (venue, order.instrument) then [(order, order.accountId)] else []);
        assert at.0 == venue && at.1 == order.instrument ==> at == (venue, order.instrument);
      }
    }
  }

  /** Rehydration creates no engine and gives each existing engine of a sandbox venue its due
      orders, once, in order; other engines get nothing. */
  lemma {:induction false} RehydratedOnce(engines: Engines, venues: seq<string>, openOrders: map<string, seq<Order>>, at: (string, string))
    requires Distinct(venues)
    ensures Extended(engines, Rehydrated(engines, venues, openOrders), at,
                     if at.0 in venues then Due(OrdersAt(openOrders, at.0), at.1) else [])
  {
    if venues != [] {
      var pre, last := venues[..|venues| - 1], venues[|venues| - 1];
      DistinctFront(venues);
      InPrefixOrLast(venues, at.0);
      RehydratedOnce(engines, pre, openOrders, at);
      ProcessedEngine(Rehydrated(engines, pre, openOrders), last, OrdersAt(openOrders, last), at);
      ExtendedTwice(engines, Rehydrated(engines, pre, openOrders), Rehydrated(engines, venues, openOrders), at,
                    if at.0 in pre then Due(OrdersAt(openOrders, at.0), at.1) else [],
                    if at.0 == last then Due(OrdersAt(openOrders, last), at.1) else []);
    }
  }
}
