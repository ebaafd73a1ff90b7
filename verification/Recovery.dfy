/** Sandbox restart recovery: snapshot the account on stop, replay it over the fresh one. */
module Recovery {
  import opened Wrappers
  import opened Text
  import opened Dicts

  datatype Currency = Currency(code: string, precision: nat)

  /** An amount in the smallest unit of its currency. */
  datatype Money = Money(amount: int, currency: Currency)

  /** The framework's conversion between money and text. */
  datatype MoneyText = MoneyText(render: Money -> string, parse: string -> Option<Money>)

  ghost predicate Lossless(text: MoneyText) {
    forall m: Money :: text.parse(text.render(m)) == Some(m)
  }

  type Totals = Dict<Currency, Money>

  /** Every entry is filed under its own currency. */
  predicate Keyed(totals: Totals) {
    forall e :: e in totals ==> e.1.currency == e.0
  }

  predicate HasCode(totals: Totals, code: string) {
    exists i :: 0 <= i < |totals| && totals[i].0.code == code
  }

  predicate DistinctCodes(totals: Totals) {
    totals == [] || (!HasCode(totals[..|totals| - 1], totals[|totals| - 1].0.code) && DistinctCodes(totals[..|totals| - 1]))
  }

  // ─── the snapshot codec ──────────────────────────────────────────────────

  /** A JSON value of the snapshot object: text, or something a snapshot never contains. */
  datatype Field = Text(text: string) | NotText

  function SerializeBalances(totals: Totals, text: MoneyText): Dict<string, Field> {
    if totals == [] then []
    else
      var (currency, money) := totals[|totals| - 1];
      Put(SerializeBalances(totals[..|totals| - 1], text), currency.code, Text(text.render(money)))
  }

  function ParseField(field: Field, text: MoneyText): Option<Money> {
    if field.Text? then text.parse(field.text) else None
  }

  /** The readable values, later ones of the same currency winning. */
  function Restore(raw: Dict<string, Field>, text: MoneyText): Totals {
    if raw == [] then []
    else
      var money := ParseField(raw[|raw| - 1].1, text);
      var rest := Restore(raw[..|raw| - 1], text);
      if money.Some? then Put(rest, money.value.currency, money.value) else rest
  }

  predicate AllReadable(raw: Dict<string, Field>, text: MoneyText) {
    forall i :: 0 <= i < |raw| ==> ParseField(raw[i].1, text).Some?
  }

  /** What recovery makes of a stored object; unreadable means no snapshot at all. */
  function Decoded(raw: Option<Dict<string, Field>>, text: MoneyText): Totals {
    if raw.Some? && AllReadable(raw.value, text) then Restore(raw.value, text) else []
  }

  method DeserializeBalances(raw: Option<Dict<string, Field>>, text: MoneyText) returns (restored: Totals)
    ensures restored == Decoded(raw, text)
  {
    restored := [];
    if raw.None? {
      return;
    }
    var values := raw.value;
    for i := 0 to |values|
      invariant AllReadable(values[..i], text) && restored == Restore(values[..i], text)
    {
      assert values[..i + 1][..i] == values[..i];
      var field := values[i].1;
      if field.NotText? {
        return [];
      }
      var money := text.parse(field.text);
      if money.None? {
        return [];
      }
      restored := Put(restored, money.value.currency, money.value);
    }
    assert values[..|values|] == values;
  }

  lemma {:induction false} SerializedCodes(totals: Totals, text: MoneyText, code: string)
    ensures Has(SerializeBalances(totals, text), code) <==> HasCode(totals, code)
  {
    if totals != [] {
      var pre, last := totals[..|totals| - 1], totals[|totals| - 1];
      SerializedCodes(pre, text, code);
      LookupPut(SerializeBalances(pre, text), last.0.code, Text(text.render(last.1)), code);
      if HasCode(pre, code) {
        var i :| 0 <= i < |pre| && pre[i].0.code == code;
        assert totals[i] == pre[i];
      }
      if last.0.code == code {
        assert totals[|pre|].0.code == code;
      }
    }
  }

  /** Each currency's amount is stored, as text, under its code. */
  lemma {:induction false} SerializedField(totals: Totals, text: MoneyText, i: nat)
    requires DistinctCodes(totals) && i < |totals|
    ensures Lookup(SerializeBalances(totals, text), totals[i].0.code) == Some(Text(text.render(totals[i].1)))
  {
    var pre, last := totals[..|totals| - 1], totals[|totals| - 1];
    LookupPut(SerializeBalances(pre, text), last.0.code, Text(text.render(last.1)), totals[i].0.code);
    if i < |pre| {
      assert pre[i] == totals[i];
      SerializedField(pre, text, i);
    }
  }

  /** One serialized entry per currency, exactly when the codes are distinct. */
  lemma {:induction false} SerializedSize(totals: Totals, text: MoneyText)
    ensures |SerializeBalances(totals, text)| <= |totals|
    ensures |SerializeBalances(totals, text)| == |totals| <==> DistinctCodes(totals)
  {
    if totals != [] {
      SerializedSize(totals[..|totals| - 1], text);
      SerializedCodes(totals[..|totals| - 1], text, totals[|totals| - 1].0.code);
    }
  }

  lemma {:induction false} RestoredSize(raw: Dict<string, Field>, text: MoneyText)
    ensures |Restore(raw, text)| <= |raw|
  {
    if raw != [] {
      RestoredSize(raw[..|raw| - 1], text);
    }
  }

  lemma RestoreAppend(raw: Dict<string, Field>, code: string, money: Money, text: MoneyText)
    requires Lossless(text) && AllReadable(raw, text)
    ensures AllReadable(raw + [(code, Text(text.render(money)))], text)
    ensures Restore(raw + [(code, Text(text.render(money)))], text) == Put(Restore(raw, text), money.currency, money)
  {
    var now := raw + [(code, Text(text.render(money)))];
    assert text.parse(text.render(money)) == Some(money);
    assert now[..|now| - 1] == raw;
  }

  lemma KeyedFront(totals: Totals)
    requires Keyed(totals) && totals != []
    ensures Keyed(totals[..|totals| - 1]) && totals[|totals| - 1].1.currency == totals[|totals| - 1].0
  {
    assert totals[|totals| - 1] in totals;
    assert forall e :: e in totals[..|totals| - 1] ==> e in totals;
  }

  lemma {:induction false} RestoreSerialized(totals: Totals, text: MoneyText)
    requires Lossless(text) && Keyed(totals) && DistinctKeys(totals) && DistinctCodes(totals)
    ensures AllReadable(SerializeBalances(totals, text), text)
    ensures Restore(SerializeBalances(totals, text), text) == totals
  {
    if totals != [] {
      var pre, last := totals[..|totals| - 1], totals[|totals| - 1];
      var raw := SerializeBalances(pre, text);
      DistinctKeysFront(totals);
      KeyedFront(totals);
      RestoreSerialized(pre, text);
      SerializedCodes(pre, text, last.0.code);
      PutNew(raw, last.0.code, Text(text.render(last.1)));
      RestoreAppend(raw, last.0.code, last.1, text);
      PutNew(pre, last.0, last.1);
    }
  }

  /** Whatever it was made from, a decoded snapshot files each amount once, under its own currency. */
  lemma {:induction false} RestoredIsKeyed(raw: Dict<string, Field>, text: MoneyText)
    ensures Keyed(Restore(raw, text)) && DistinctKeys(Restore(raw, text))
  {
    if raw != [] {
      var rest := Restore(raw[..|raw| - 1], text);
      RestoredIsKeyed(raw[..|raw| - 1], text);
      var money := ParseField(raw[|raw| - 1].1, text);
      if money.Some? {
        PutDistinct(rest, money.value.currency, money.value);
        PutMembers(rest, money.value.currency, money.value);
      }
    }
  }

  /** No readable value is dropped: the last one of each currency is in the result. */
  lemma {:induction false} RestoredKeepsLast(raw: Dict<string, Field>, text: MoneyText, i: nat)
    requires i < |raw| && ParseField(raw[i].1, text).Some?
    requires forall j :: i < j < |raw| && ParseField(raw[j].1, text).Some?
               ==> ParseField(raw[j].1, text).value.currency != ParseField(raw[i].1, text).value.currency
    ensures var money := ParseField(raw[i].1, text).value;
            Lookup(Restore(raw, text), money.currency) == Some(money)
  {
    var last := ParseField(raw[|raw| - 1].1, text);
    var pre := raw[..|raw| - 1];
    if last.Some? {
      LookupPut(Restore(pre, text), last.value.currency, last.value, ParseField(raw[i].1, text).value.currency);
    }
    if i < |raw| - 1 {
      assert pre[i] == raw[i];
      RestoredKeepsLast(pre, text, i);
    }
  }

  /** The snapshot round-trips exactly when no two currencies share a code. */
  lemma SnapshotRoundTripIff(totals: Totals, text: MoneyText)
    requires Lossless(text) && Keyed(totals) && DistinctKeys(totals)
    ensures Decoded(Some(SerializeBalances(totals, text)), text) == totals <==> DistinctCodes(totals)
  {
    SerializedSize(totals, text);
    RestoredSize(SerializeBalances(totals, text), text);
    if DistinctCodes(totals) {
      RestoreSerialized(totals, text);
    }
  }

  lemma {:induction false} RestoredNonEmpty(raw: Dict<string, Field>, text: MoneyText)
    requires raw != [] && AllReadable(raw, text)
    ensures Restore(raw, text) != []
  {
    assert ParseField(raw[|raw| - 1].1, text).Some?;
  }

  /** All or nothing: a stored object decodes to nothing exactly when it is missing, empty, or
      has at least one unreadable value; it never decodes to a part of itself. */
  lemma DecodesToNothingIff(raw: Option<Dict<string, Field>>, text: MoneyText)
    ensures Decoded(raw, text) == []
       <==> raw.None? || raw.value == [] || exists i :: 0 <= i < |raw.value| && ParseField(raw.value[i].1, text).None?
  {
    if raw.Some? && raw.value != [] && AllReadable(raw.value, text) {
      RestoredNonEmpty(raw.value, text);
    }
  }

  // ─── keys ────────────────────────────────────────────────────────────────

  function BalanceKey(prefix: string, traderId: string, venue: string): string {
    prefix + ":" + traderId + ":" + venue
  }

  /** With colon-free parts the key reads prefix, trader id, venue. */
  lemma KeyNamesItsParts(p: string, t: string, v: string)
    requires ':' !in t && ':' !in v
    ensures var k := BalanceKey(p, t, v);
            |k| > |v| && AfterLastColon(k) == v && k[..|k| - |v| - 1] == p + ":" + t
            && AfterLastColon(k[..|k| - |v| - 1]) == t
  {
    AfterLastColonOfJoin(p + ":" + t, v);
    AfterLastColonOfJoin(p, t);
  }

  /** With colon-free trader ids and venues, keys differ whenever pod, venue or prefix does. */
  lemma BalanceKeyInjective(p1: string, t1: string, v1: string, p2: string, t2: string, v2: string)
    requires ':' !in t1 && ':' !in v1 && ':' !in t2 && ':' !in v2
    requires BalanceKey(p1, t1, v1) == BalanceKey(p2, t2, v2)
    ensures p1 == p2 && t1 == t2 && v1 == v2
  {
    JoinInjective(p1 + ":" + t1, v1, p2 + ":" + t2, v2);
    JoinInjective(p1, t1, p2, t2);
  }

  /** The first colon of a joined string is at the end of a colon-free left part. */
  lemma FirstColon(t: string, v: string, i: nat)
    requires ':' !in v && i < |t + ":" + v| && (t + ":" + v)[i] == ':'
    ensures i <= |t| && (':' !in t ==> i == |t|)
  {
    var k := t + ":" + v;
    assert forall j :: 0 <= j < |t| ==> k[j] == t[j];
    assert forall j :: 0 <= j < |v| ==> k[|t| + 1 + j] == v[j] && v[j] in v;
  }

  lemma SplitIsUnique(t: string, v: string, t2: string, v2: string)
    requires ':' !in t && ':' !in v && t2 + ":" + v2 == t + ":" + v
    ensures t2 == t && v2 == v
  {
    var k := t2 + ":" + v2;
    FirstColon(t, v, |t2|);
    assert t2 == k[..|t|] && v2 == k[|t| + 1..];
  }

  lemma KeyIsJoin(p: string, t: string, v: string)
    ensures BalanceKey(p, t, v) == (p + ":") + (t + ":" + v)
  { }

  lemma MovedColon(p: string, a: string, b: string, c: string)
    ensures BalanceKey(p, a + ":" + b, c) == BalanceKey(p, a, b + ":" + c)
  {
    KeyIsJoin(p, a + ":" + b, c);
    KeyIsJoin(p, a, b + ":" + c);
    assert (a + ":" + b) + ":" + c == a + ":" + (b + ":" + c);
  }

  /** Some other pod or venue with the same prefix has the same key. */
  ghost predicate Collides(p: string, t: string, v: string) {
    exists t2, v2 :: (t2, v2) != (t, v) && BalanceKey(p, t2, v2) == BalanceKey(p, t, v)
  }

  /** A pod's key for a venue is its own exactly when neither trader id nor venue has a colon. */
  lemma CollidesIff(p: string, t: string, v: string)
    ensures Collides(p, t, v) <==> ':' in t || ':' in v
  {
    if ':' in t {
      var i :| 0 <= i < |t| && t[i] == ':';
      assert t == t[..i] + ":" + t[i + 1..];
      MovedColon(p, t[..i], t[i + 1..], v);
      assert (t[..i], t[i + 1..] + ":" + v) != (t, v) by {
        assert |t[..i]| < |t|;
      }
    } else if ':' in v {
      var i :| 0 <= i < |v| && v[i] == ':';
      assert v == v[..i] + ":" + v[i + 1..];
      MovedColon(p, t, v[..i], v[i + 1..]);
      assert (t + ":" + v[..i], v[i + 1..]) != (t, v) by {
        assert |v[i + 1..]| < |v|;
      }
    } else {
      forall t2, v2 | BalanceKey(p, t2, v2) == BalanceKey(p, t, v) ensures (t2, v2) == (t, v) {
        KeyIsJoin(p, t2, v2);
        KeyIsJoin(p, t, v);
        assert ((p + ":") + (t2 + ":" + v2))[|p| + 1..] == t2 + ":" + v2;
        assert ((p + ":") + (t + ":" + v))[|p| + 1..] == t + ":" + v;
        SplitIsUnique(t, v, t2, v2);
      }
    }
  }

  // ─── accounts ────────────────────────────────────────────────────────────

  datatype Balance = Balance(total: Money, locked: Money, free: Money) {
    /** What the framework demands of an account balance. */
    predicate Consistent() {
      total.currency == locked.currency == free.currency && total.amount - locked.amount == free.amount
    }

    predicate Unlocked() {
      locked.amount == 0 && free == total
    }
  }

  type Account = Dict<Currency, Balance>

  predicate AccountOk(account: Account) {
    DistinctKeys(account) && forall e :: e in account ==> e.1.total.currency == e.0
  }

  function BalanceFor(total: Money): Balance {
    Balance(total, Money(0, total.currency), total)
  }

  function Built(target: Totals): seq<Balance> {
    if target == [] then [] else Built(target[..|target| - 1]) + [BalanceFor(target[|target| - 1].1)]
  }

  /** `build_account_balances` */
  method BuildAccountBalances(target: Totals) returns (balances: seq<Balance>)
    requires Keyed(target)
    ensures |balances| == |target|
    ensures forall i :: 0 <= i < |target| ==> balances[i].total == target[i].1 && balances[i].Consistent() && balances[i].Unlocked()
    ensures balances == Built(target)
  {
    balances := [];
    for i := 0 to |target|
      invariant |balances| == i && balances == Built(target[..i])
      invariant forall j :: 0 <= j < i ==> balances[j].total == target[j].1 && balances[j].Consistent() && balances[j].Unlocked()
    {
      var (currency, total) := target[i];
      assert target[i] in target && target[..i + 1][..i] == target[..i];
      balances := balances + [Balance(total, Money(0, currency), total)];
    }
    assert target[..|target|] == target;
  }

  /** Applying an account event: each currency's balance is replaced or added. */
  function Upsert(account: Account, balances: seq<Balance>): Account {
    if balances == [] then account
    else
      var b := balances[|balances| - 1];
      Put(Upsert(account, balances[..|balances| - 1]), b.total.currency, b)
  }

  /** `snapshot_account_totals` */
  function SnapshotAccountTotals(account: Account): Totals {
    if account == [] then []
    else SnapshotAccountTotals(account[..|account| - 1]) + [(account[|account| - 1].0, account[|account| - 1].1.total)]
  }

  function TotalIn(account: Account, c: Currency): Option<Money> {
    match Lookup(account, c)
    case None => None
    case Some(b) => Some(b.total)
  }

  lemma {:induction false} TotalsOfAccount(account: Account)
    requires AccountOk(account)
    ensures Keyed(SnapshotAccountTotals(account)) && DistinctKeys(SnapshotAccountTotals(account))
    ensures |SnapshotAccountTotals(account)| == |account|
    ensures forall c :: Lookup(SnapshotAccountTotals(account), c) == TotalIn(account, c)
  {
    if account != [] {
      var pre, last := account[..|account| - 1], account[|account| - 1];
      DistinctKeysFront(account);
      assert last in account && forall e :: e in pre ==> e in account;
      TotalsOfAccount(pre);
      var ts := SnapshotAccountTotals(pre);
      PutNew(ts, last.0, last.1.total);
      PutDistinct(ts, last.0, last.1.total);
      assert account == pre + [last];
      forall c ensures Lookup(SnapshotAccountTotals(account), c) == TotalIn(account, c) {
        LookupAppend(ts, (last.0, last.1.total), c);
        LookupAppend(pre, last, c);
      }
    }
  }

  /** The balance of c once totals are laid over an account. */
  function Overlaid(account: Account, target: Totals, c: Currency): Option<Balance> {
    match Lookup(target, c)
    case Some(total) => Some(BalanceFor(total))
    case None => Lookup(account, c)
  }

  lemma PutKeepsAccount(account: Account, b: Balance)
    requires AccountOk(account)
    ensures AccountOk(Put(account, b.total.currency, b))
  {
    PutDistinct(account, b.total.currency, b);
    PutMembers(account, b.total.currency, b);
  }

  lemma ReplayOne(account: Account, pre: Totals, last: (Currency, Money))
    ensures Upsert(account, Built(pre + [last]))
         == Put(Upsert(account, Built(pre)), last.1.currency, BalanceFor(last.1))
  {
    assert (pre + [last])[..|pre|] == pre;
    var bs := Built(pre + [last]);
    assert bs[..|bs| - 1] == Built(pre);
  }

  lemma OverlaidOne(account: Account, before: Account, pre: Totals, last: (Currency, Money), c: Currency)
    requires !Has(pre, last.0) && last.1.currency == last.0 && Lookup(before, c) == Overlaid(account, pre, c)
    ensures Lookup(Put(before, last.0, BalanceFor(last.1)), c) == Overlaid(account, pre + [last], c)
  {
    LookupPut(before, last.0, BalanceFor(last.1), c);
    LookupAppend(pre, last, c);
  }

  /** Replaying totals over an account: replayed currencies take the replayed balance, unlocked
      and free; the others keep theirs. */
  lemma {:induction false} Replayed(account: Account, target: Totals)
    requires AccountOk(account) && Keyed(target) && DistinctKeys(target)
    ensures AccountOk(Upsert(account, Built(target)))
    ensures forall c :: Lookup(Upsert(account, Built(target)), c) == Overlaid(account, target, c)
  {
    if target != [] {
      var pre, last := target[..|target| - 1], target[|target| - 1];
      assert target == pre + [last];
      DistinctKeysFront(target);
      KeyedFront(target);
      Replayed(account, pre);
      ReplayOne(account, pre, last);
      var before := Upsert(account, Built(pre));
      PutKeepsAccount(before, BalanceFor(last.1));
      forall c ensures Lookup(Put(before, last.0, BalanceFor(last.1)), c) == Overlaid(account, target, c) {
        OverlaidOne(account, before, pre, last, c);
      }
    }
  }

  /** The account after a restart: fresh starting balances, then the replay if there is one. */
  function Recovered(starting: Account, target: Totals): Account {
    Upsert(starting, Built(target))
  }

  ghost predicate SameTotals(account: Account, totals: Totals) {
    forall c :: TotalIn(account, c) == Lookup(totals, c)
  }

  /** A restart restores the snapshot's totals exactly when every starting currency is in the
      snapshot. */
  lemma RestoresExactlyIff(starting: Account, target: Totals)
    requires AccountOk(starting) && Keyed(target) && DistinctKeys(target)
    ensures SameTotals(Recovered(starting, target), target) <==> forall c :: Has(starting, c) ==> Has(target, c)
    ensures forall c :: Has(target, c) ==>
              Lookup(Recovered(starting, target), c).Some? && Lookup(Recovered(starting, target), c).value.Unlocked()
              && Lookup(Recovered(starting, target), c).value.Consistent()
    ensures target == [] ==> Recovered(starting, target) == starting
  {
    Replayed(starting, target);
    var after := Recovered(starting, target);
    if SameTotals(after, target) {
      forall c | Has(starting, c) ensures Has(target, c) {
        assert TotalIn(after, c) == Lookup(target, c);
      }
    } else {
      var c :| TotalIn(after, c) != Lookup(target, c);
      assert Has(starting, c) && !Has(target, c);
    }
  }
}
