/** Pods that trade, stop, lose their accounts and come back, over one shared Redis. */
module RecoveryRuns {
  import opened Wrappers
  import opened Dicts
  import opened Recovery
  import opened SandboxPod
  import Seqs

  /** No two currencies of the account share a code. */
  ghost predicate CodesApart<V(!new)>(d: Dict<Currency, V>) {
    forall c1, c2 :: Has(d, c1) && Has(d, c2) && c1.code == c2.code ==> c1 == c2
  }

  ghost predicate Healthy(account: Account) {
    AccountOk(account) && CodesApart(account)
  }

  /** The deployment: which venues each pod simulates, and what each account starts with. */
  datatype Deployment = Deployment(prefix: string, text: MoneyText, venues: map<string, seq<string>>,
                                   starting: (string, string) -> Account) {
    function At(t: string): Place {
      Place(prefix, t, text)
    }

    function StartingAccounts(t: string): (r: map<string, Account>)
      requires t in venues
      ensures forall v :: v in r <==> v in venues[t]
    {
      map v | v in venues[t] :: starting(t, v)
    }

    ghost predicate Sound() {
      Lossless(text)
      && (forall t :: t in venues ==> ':' !in t && Seqs.Distinct(venues[t]))
      && (forall t, v :: t in venues && v in venues[t] ==> ':' !in v && Healthy(starting(t, v)))
    }
  }

  ghost predicate Covers<V(!new), W(!new)>(d: Dict<Currency, V>, e: Dict<Currency, W>) {
    forall c :: Has(e, c) ==> Has(d, c)
  }

  datatype System = System(store: Store, pods: map<string, map<string, Account>>)

  datatype Step =
    | Boot(t: string)
    | Trade(t: string, v: string, account: Account)
    | Stop(t: string)
    | Overwrite(key: string, value: Option<Stored>)

  function Start(): System {
    System(map[], map[])
  }

  /** The key of some pod's snapshot. */
  ghost predicate PodKey(d: Deployment, key: string) {
    exists t, v :: t in d.venues && v in d.venues[t] && key == d.At(t).Key(v)
  }

  /** Anything but a usable snapshot: gone, not an object, empty, or with an unreadable amount. */
  predicate Useless(d: Deployment, key: string, value: Option<Stored>) {
    match value
    case None => true
    case Some(Unreadable) => true
    case Some(Object(fields)) => Decoded(Some(fields), d.text) == []
  }

  ghost predicate Enabled(d: Deployment, s: System, step: Step) {
    match step
    case Boot(t) => t in d.venues
    case Trade(t, v, account) =>
      t in s.pods && t in d.venues && v in d.venues[t] && Healthy(account) && Covers(account, d.starting(t, v))
    case Stop(t) => t in s.pods && t in d.venues
    case Overwrite(key, value) => PodKey(d, key) ==> Useless(d, key, value)
  }

  /** A pod's replacement process starts from fresh accounts and then recovers. */
  function Apply(d: Deployment, s: System, step: Step): System
    requires step.Boot? || step.Stop? || step.Trade? ==> step.t in d.venues
  {
    match step
    case Boot(t) =>
      s.(pods := s.pods[t := AccountsRecovered(d.StartingAccounts(t), d.venues[t], s.store, d.At(t))])
    case Trade(t, v, account) =>
      if t in s.pods then s.(pods := s.pods[t := s.pods[t][v := account]]) else s
    case Stop(t) =>
      if t in s.pods then s.(store := Snapshotted(s.store, d.venues[t], s.pods[t], d.At(t))) else s
    case Overwrite(key, value) =>
      s.(store := if value.Some? then s.store[key := value.value] else s.store - {key})
  }

  ghost function Run(d: Deployment, steps: seq<Step>): System {
    if steps == [] then Start()
    else
      var step := steps[|steps| - 1];
      if step.Overwrite? || step.t in d.venues then Apply(d, Run(d, steps[..|steps| - 1]), step)
      else Run(d, steps[..|steps| - 1])
  }

  ghost predicate Legal(d: Deployment, steps: seq<Step>) {
    steps == [] ||
    (Legal(d, steps[..|steps| - 1]) && Enabled(d, Run(d, steps[..|steps| - 1]), steps[|steps| - 1]))
  }

  /** The totals of pod t's account at venue v. */
  ghost function TotalsOf(s: System, t: string, v: string): Totals {
    if t in s.pods then SnapshotAccountTotals(AccountAt(s.pods[t], v)) else []
  }

  /** The totals pod t last saved for venue v, by its own stops and what was lost since. */
  ghost function LastSaved(d: Deployment, steps: seq<Step>, t: string, v: string): Totals {
    if steps == [] then []
    else
      var pre, step := steps[..|steps| - 1], steps[|steps| - 1];
      var now := TotalsOf(Run(d, pre), t, v);
      if step == Stop(t) && now != [] then now
      else if step.Overwrite? && step.key == d.At(t).Key(v) then []
      else LastSaved(d, pre, t, v)
  }

  // ─── invariant ───────────────────────────────────────────────────────────

  ghost predicate GoodTotals(totals: Totals, starting: Account) {
    Keyed(totals) && DistinctKeys(totals) && CodesApart(totals) && Covers(totals, starting)
  }

  ghost predicate GoodAccount(account: Account, starting: Account) {
    Healthy(account) && Covers(account, starting)
  }

  /** What a trade or a foreign write changes, and that it changes nothing else. */
  lemma OutsideSteps(d: Deployment, s: System, t: string, v: string, account: Account, key: string, value: Option<Stored>)
    requires t in d.venues && t in s.pods
    ensures var a := Apply(d, s, Trade(t, v, account));
            a == s.(pods := a.pods) && TotalsOf(a, t, v) == SnapshotAccountTotals(account)
            && forall u, w :: (u, w) != (t, v) ==> TotalsOf(a, u, w) == TotalsOf(s, u, w)
    ensures var b := Apply(d, s, Overwrite(key, value));
            b.pods == s.pods && (key in b.store <==> value.Some?) && (value.Some? ==> b.store[key] == value.value)
            && forall k :: k != key ==> SameAt(b.store, s.store, k)
  {
    var a := Apply(d, s, Trade(t, v, account));
    forall u, w | (u, w) != (t, v) ensures TotalsOf(a, u, w) == TotalsOf(s, u, w) {
      assert u == t ==> AccountAt(a.pods[t], w) == AccountAt(s.pods[t], w);
    }
  }

  /** For one pod and venue: Redis holds what was last saved, and the account is a healthy one. */
  ghost predicate Inv(d: Deployment, s: System, saved: Totals, t: string, v: string) {
    && d.At(t).Target(s.store, v) == saved
    && (saved != [] ==> GoodTotals(saved, d.starting(t, v)))
    && (t in s.pods ==> v in s.pods[t] && GoodAccount(s.pods[t][v], d.starting(t, v)))
  }

  lemma HasInWhole(totals: Totals, c: Currency)
    requires DistinctKeys(totals) && totals != [] && Has(totals[..|totals| - 1], c)
    ensures Has(totals, c) && Has(totals, totals[|totals| - 1].0) && c != totals[|totals| - 1].0
  {
    var pre, last := totals[..|totals| - 1], totals[|totals| - 1];
    DistinctKeysFront(totals);
    HasMember(totals, |pre|);
    LookupAppend(pre, last, c);
    assert totals == pre + [last];
  }

  lemma CodesApartFront(totals: Totals)
    requires DistinctKeys(totals) && CodesApart(totals) && totals != []
    ensures CodesApart(totals[..|totals| - 1]) && DistinctKeys(totals[..|totals| - 1])
    ensures forall c :: Has(totals[..|totals| - 1], c) ==> c.code != totals[|totals| - 1].0.code
  {
    var pre := totals[..|totals| - 1];
    DistinctKeysFront(totals);
    forall c | Has(pre, c) ensures Has(totals, c) && c.code != totals[|totals| - 1].0.code {
      HasInWhole(totals, c);
    }
    forall c1, c2 | Has(pre, c1) && Has(pre, c2) && c1.code == c2.code ensures c1 == c2 {
      assert Has(totals, c1) && Has(totals, c2);
    }
  }

  lemma {:induction false} CodesApartDistinct(totals: Totals)
    requires DistinctKeys(totals) && CodesApart(totals)
    ensures DistinctCodes(totals)
  {
    if totals != [] {
      var pre, last := totals[..|totals| - 1], totals[|totals| - 1];
      CodesApartFront(totals);
      CodesApartDistinct(pre);
      forall i | 0 <= i < |pre| ensures pre[i].0.code != last.0.code {
        HasMember(pre, i);
      }
    }
  }

  lemma TotalsAreGood(account: Account, starting: Account)
    requires GoodAccount(account, starting)
    ensures GoodTotals(SnapshotAccountTotals(account), starting)
    ensures SnapshotAccountTotals(account) == [] <==> account == []
  {
    TotalsOfAccount(account);
    var totals := SnapshotAccountTotals(account);
    forall c ensures Has(totals, c) <==> Has(account, c) {
      assert Lookup(totals, c) == TotalIn(account, c);
    }
  }

  lemma RecoveredIsGood(starting: Account, target: Totals)
    requires Healthy(starting) && (target == [] || GoodTotals(target, starting))
    ensures GoodAccount(Recovered(starting, target), starting)
  {
    if target != [] {
      Replayed(starting, target);
      var after := Recovered(starting, target);
      forall c ensures Has(after, c) <==> Has(target, c) {
        assert Has(starting, c) ==> Has(target, c);
      }
    }
  }

  /** What recovery reads depends on the key alone. */
  lemma SameTarget(place: Place, a: Store, b: Store, v: string)
    requires SameAt(a, b, place.Key(v))
    ensures place.Target(a, v) == place.Target(b, v)
  { }

  /** A good account's totals survive being serialized and read back. */
  lemma SavedIsRead(account: Account, starting: Account, text: MoneyText)
    requires Lossless(text) && GoodAccount(account, starting)
    ensures var totals := SnapshotAccountTotals(account);
            (totals != [] ==> GoodTotals(totals, starting))
            && Decoded(Some(SerializeBalances(totals, text)), text) == totals
  {
    TotalsAreGood(account, starting);
    CodesApartDistinct(SnapshotAccountTotals(account));
    SnapshotRoundTripIff(SnapshotAccountTotals(account), text);
  }

  lemma StopSavesOwn(d: Deployment, s: System, saved: Totals, t: string, v: string)
    requires d.Sound() && t in d.venues && v in d.venues[t] && t in s.pods
    requires Inv(d, s, saved, t, v)
    ensures var now := TotalsOf(s, t, v);
            Inv(d, Apply(d, s, Stop(t)), if now != [] then now else saved, t, v)
  {
    var place, after := d.At(t), Apply(d, s, Stop(t));
    SnapshotWrites(s.store, d.venues[t], s.pods[t], place, v);
    SavedIsRead(s.pods[t][v], d.starting(t, v), d.text);
    if TotalsOf(s, t, v) == [] {
      SameTarget(place, after.store, s.store, v);
    } else {
      assert RedisGetJson(after.store, place.Key(v)) == Some(SerializeBalances(TotalsOf(s, t, v), d.text));
    }
  }

  lemma StopSavesOther(d: Deployment, s: System, saved: Totals, u: string, t: string, v: string)
    requires d.Sound() && t in d.venues && v in d.venues[t] && u in d.venues && u in s.pods && u != t
    requires Inv(d, s, saved, t, v)
    ensures Inv(d, Apply(d, s, Stop(u)), saved, t, v)
  {
    var key, place := d.At(t).Key(v), d.At(u);
    forall w | w in d.venues[u] ensures key != place.Key(w) {
      if key == place.Key(w) {
        BalanceKeyInjective(d.prefix, u, w, d.prefix, t, v);
      }
    }
    SnapshotLeaves(s.store, d.venues[u], s.pods[u], place, key);
    SameTarget(d.At(t), Apply(d, s, Stop(u)).store, s.store, v);
  }

  lemma BootIsGood(d: Deployment, s: System, saved: Totals, u: string, t: string, v: string)
    requires d.Sound() && t in d.venues && v in d.venues[t] && u in d.venues
    requires Inv(d, s, saved, t, v)
    ensures Inv(d, Apply(d, s, Boot(u)), saved, t, v)
    ensures u == t ==> Apply(d, s, Boot(t)).pods[t][v] == Recovered(d.starting(t, v), saved)
  {
    if u == t {
      RecoveredAccount(d.StartingAccounts(t), d.venues[t], s.store, d.At(t), v);
      RecoveredIsGood(d.starting(t, v), saved);
    }
  }

  lemma StepKeepsInv(d: Deployment, s: System, saved: Totals, step: Step, t: string, v: string)
    requires d.Sound() && t in d.venues && v in d.venues[t]
    requires Inv(d, s, saved, t, v) && Enabled(d, s, step)
    ensures var now := TotalsOf(s, t, v);
            var saved' := if step == Stop(t) && now != [] then now
                          else if step.Overwrite? && step.key == d.At(t).Key(v) then [] else saved;
            Inv(d, Apply(d, s, step), saved', t, v)
  {
    match step
    case Boot(u) => BootIsGood(d, s, saved, u, t, v);
    case Trade(_, _, _) =>
    case Stop(u) =>
      if u == t {
        StopSavesOwn(d, s, saved, t, v);
      } else {
        StopSavesOther(d, s, saved, u, t, v);
      }
    case Overwrite(key, value) =>
      if key == d.At(t).Key(v) {
        assert PodKey(d, key);
      }
  }

  /** After any run, what a pod would recover is what it last saved: no other pod or venue ever
      replaces it.  (Writers outside the deployment are assumed to put nothing usable under a
      snapshot key, see `Enabled`; whatever else they put there counts as a loss.) */
  lemma {:induction false} StoreHoldsLastSaved(d: Deployment, steps: seq<Step>, t: string, v: string)
    requires d.Sound() && Legal(d, steps) && t in d.venues && v in d.venues[t]
    ensures Inv(d, Run(d, steps), LastSaved(d, steps, t, v), t, v)
  {
    if steps != [] {
      var pre := steps[..|steps| - 1];
      StoreHoldsLastSaved(d, pre, t, v);
      StepKeepsInv(d, Run(d, pre), LastSaved(d, pre, t, v), steps[|steps| - 1], t, v);
    }
  }

  ghost predicate AllFree(account: Account) {
    forall c :: Has(account, c) ==> Lookup(account, c).value.Unlocked() && Lookup(account, c).value.Consistent()
  }

  /** A restart is the identity on money: whatever came before, the booted account has exactly
      the totals of the last snapshot, all of it free; without a snapshot, exactly its starting
      balances. */
  lemma RestartIdentity(d: Deployment, steps: seq<Step>, t: string, v: string)
    requires d.Sound() && Legal(d, steps + [Boot(t)]) && t in d.venues && v in d.venues[t]
    ensures var after, saved := Run(d, steps + [Boot(t)]), LastSaved(d, steps, t, v);
            t in after.pods && v in after.pods[t]
            && (if saved == [] then after.pods[t][v] == d.starting(t, v)
                else SameTotals(after.pods[t][v], saved) && AllFree(after.pods[t][v]))
  {
    var all, saved := steps + [Boot(t)], LastSaved(d, steps, t, v);
    assert all[..|all| - 1] == steps;
    StoreHoldsLastSaved(d, steps, t, v);
    BootIsGood(d, Run(d, steps), saved, t, t, v);
    if saved != [] {
      RestoresExactlyIff(d.starting(t, v), saved);
      forall c | Has(Recovered(d.starting(t, v), saved), c) ensures Has(saved, c) {
        assert TotalIn(Recovered(d.starting(t, v), saved), c) == Lookup(saved, c);
      }
    }
  }

  /** Steps that neither save for the pod nor lose its snapshot for the venue. */
  predicate LeavesAlone(d: Deployment, step: Step, t: string, v: string) {
    step != Stop(t) && !(step.Overwrite? && step.key == d.At(t).Key(v))
  }

  lemma {:induction false} StillSaved(d: Deployment, steps: seq<Step>, n: nat, t: string, v: string)
    requires n <= |steps| && forall i :: n <= i < |steps| ==> LeavesAlone(d, steps[i], t, v)
    ensures LastSaved(d, steps, t, v) == LastSaved(d, steps[..n], t, v)
  {
    if n == |steps| {
      assert steps[..n] == steps;
    } else {
      var pre := steps[..|steps| - 1];
      assert pre[..n] == steps[..n];
      assert LeavesAlone(d, steps[|steps| - 1], t, v);
      StillSaved(d, pre, n, t, v);
    }
  }

  lemma {:induction false} LegalPrefix(d: Deployment, steps: seq<Step>, n: nat)
    requires Legal(d, steps) && n <= |steps|
    ensures Legal(d, steps[..n])
  {
    if n == |steps| {
      assert steps[..n] == steps;
    } else {
      var pre := steps[..|steps| - 1];
      assert pre[..n] == steps[..n];
      LegalPrefix(d, pre, n);
    }
  }

  /** The account has these totals, and all starting currencies. */
  ghost predicate StandsFor(account: Account, totals: Totals, starting: Account) {
    SameTotals(account, totals) && Covers(account, starting) && (totals == [] ==> account == [])
  }

  lemma GoodStandsFor(account: Account, starting: Account)
    requires GoodAccount(account, starting)
    ensures StandsFor(account, SnapshotAccountTotals(account), starting)
  {
    TotalsOfAccount(account);
  }

  /** A stop saves what the account then holds, if it holds anything. */
  lemma StopIsSaved(d: Deployment, steps: seq<Step>, n: nat, t: string, v: string)
    requires d.Sound() && Legal(d, steps) && t in d.venues && v in d.venues[t]
    requires n < |steps| && steps[n] == Stop(t)
    ensures t in Run(d, steps[..n]).pods && v in Run(d, steps[..n]).pods[t]
    ensures var now := TotalsOf(Run(d, steps[..n]), t, v);
            LastSaved(d, steps[..n + 1], t, v) == if now != [] then now else LastSaved(d, steps[..n], t, v)
    ensures StandsFor(AccountAt(Run(d, steps[..n]).pods[t], v), TotalsOf(Run(d, steps[..n]), t, v), d.starting(t, v))
  {
    LegalPrefix(d, steps, n + 1);
    assert steps[..n + 1][..n] == steps[..n] && steps[..n + 1][n] == Stop(t);
    StoreHoldsLastSaved(d, steps[..n], t, v);
    GoodStandsFor(Run(d, steps[..n]).pods[t][v], d.starting(t, v));
  }

  lemma SameMoney(a: Account, b: Account, totals: Totals)
    requires SameTotals(a, totals) && SameTotals(b, totals)
    ensures forall c :: TotalIn(b, c) == TotalIn(a, c)
  {
    forall c ensures TotalIn(b, c) == TotalIn(a, c) {
      assert TotalIn(a, c) == Lookup(totals, c);
    }
  }

  ghost predicate SameMoneyIn(a: Account, b: Account) {
    forall c :: TotalIn(b, c) == TotalIn(a, c)
  }

  /** What a boot makes of saved totals. */
  ghost predicate BootedFrom(account: Account, saved: Totals, starting: Account) {
    if saved == [] then account == starting else SameTotals(account, saved)
  }

  lemma EmptyAgainIff(after: Account, saved: Totals, starting: Account)
    requires BootedFrom(after, saved, starting) && Covers<Balance, Balance>([], starting)
    ensures SameMoneyIn([], after) <==> saved == []
  {
    if saved != [] {
      HasMember(saved, 0);
      assert TotalIn(after, saved[0].0) == Lookup(saved, saved[0].0) && TotalIn([], saved[0].0) == None;
    } else {
      forall c ensures TotalIn(after, c) == TotalIn([], c) {
        assert !Has(starting, c);
      }
    }
  }

  lemma MoneyKeptIff(before: Account, now: Totals, older: Totals, after: Account, starting: Account)
    requires StandsFor(before, now, starting) && BootedFrom(after, if now != [] then now else older, starting)
    ensures SameMoneyIn(before, after) <==> now != [] || older == []
  {
    if now != [] {
      SameMoney(before, after, now);
    } else {
      EmptyAgainIff(after, older, starting);
    }
  }

  /** Stop, then steps that neither save for the pod nor lose its snapshot, then boot: the
      account's totals are those it stopped with, exactly unless it stopped empty with an older
      snapshot in place, which is then restored. */
  lemma StopThenBootKeepsMoney(d: Deployment, steps: seq<Step>, n: nat, t: string, v: string)
    requires d.Sound() && t in d.venues && v in d.venues[t] && Legal(d, steps + [Boot(t)])
    requires n < |steps| && steps[n] == Stop(t) && forall i :: n < i < |steps| ==> LeavesAlone(d, steps[i], t, v)
    ensures var earlier, later := Run(d, steps[..n]), Run(d, steps + [Boot(t)]);
            t in earlier.pods && t in later.pods
            && (SameMoneyIn(AccountAt(earlier.pods[t], v), AccountAt(later.pods[t], v))
                <==> TotalsOf(earlier, t, v) != [] || LastSaved(d, steps[..n], t, v) == [])
  {
    var all := steps + [Boot(t)];
    assert all[..|steps|] == steps;
    LegalPrefix(d, all, |steps|);
    StopIsSaved(d, steps, n, t, v);
    StillSaved(d, steps, n + 1, t, v);
    RestartIdentity(d, steps, t, v);
    MoneyKeptIff(AccountAt(Run(d, steps[..n]).pods[t], v), TotalsOf(Run(d, steps[..n]), t, v),
                 LastSaved(d, steps[..n], t, v), AccountAt(Run(d, all).pods[t], v), d.starting(t, v));
  }
}
