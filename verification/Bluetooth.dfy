/** Session-local controller identities: two maps kept inverse to each other, and identities never handed out twice. */
module Bluetooth {
  import opened Options
  import CanonicalJson

  const MAX_DEVICES := 16
  const MAX_SESSION_ID := 999_999_999
  const MAX_U32 := 0xFFFF_FFFF
  const MAX_OUTPUT_BYTES := 64 * 1024

  datatype Device = Device(paired: bool, connected: bool)

  datatype Found = Found(address: string, device: Device)

  /** The maps from identities to addresses, from addresses to identities, and from identities to device states. */
  datatype Pairing = Pairing(addresses: map<string, string>, ids: map<string, string>, devices: map<string, Device>, nextId: nat)

  datatype Error = CommandFailed | CommandOutputTooLarge | DeviceUnavailable | DeviceLimit | Io

  function Initial(): Pairing { Pairing(map[], map[], map[], 0) }

  // ---- Identities ----

  function IdOf(n: nat): string { "controller-" + CanonicalJson.Decimal(n) }

  lemma IdOfInjective(m: nat, n: nat)
    requires IdOf(m) == IdOf(n)
    ensures m == n
  {
    CanonicalJson.SameHead("controller-", CanonicalJson.Decimal(m), CanonicalJson.Decimal(n));
    CanonicalJson.DecimalInjective(m, n);
  }

  predicate AllDigits(s: string) { s != "" && forall i :: 0 <= i < |s| ==> CanonicalJson.IsDigit(s[i]) }

  function Value(s: string): nat
    requires forall i :: 0 <= i < |s| ==> CanonicalJson.IsDigit(s[i])
  {
    if s == "" then 0 else 10 * Value(s[..|s| - 1]) + DigitOf(s[|s| - 1])
  }

  function DigitOf(c: char): nat
    requires CanonicalJson.IsDigit(c)
  {
    c as int - '0' as int
  }

  /** Rust's parse of a 32-bit number, which also takes a leading plus. */
  function ParseU32(s: string): Option<nat> {
    var digits := if s != "" && s[0] == '+' then s[1..] else s;
    if !AllDigits(digits) || Value(digits) > MAX_U32 then None else Some(Value(digits))
  }

  function SessionIdNumber(id: string): Option<nat> {
    if !("controller-" <= id) then None else
    var suffix := id[11..];
    if suffix != "" && suffix[0] == '0' then None else
    var n := ParseU32(suffix);
    if n.Some? && n.value <= MAX_SESSION_ID then n else None
  }

  lemma {:induction false} ValueOfDecimal(n: nat)
    ensures Value(CanonicalJson.Decimal(n)) == n
  {
    var s := CanonicalJson.Decimal(n);
    if n >= 10 {
      ValueOfDecimal(n / 10);
      assert s[..|s| - 1] == CanonicalJson.Decimal(n / 10);
      DigitValue(n % 10);
    } else {
      DigitValue(n);
      assert s[..0] == "";
    }
  }

  lemma DigitValue(d: nat)
    requires d < 10
    ensures DigitOf(CanonicalJson.Digit(d)) == d
  {
  }

  lemma {:induction false} NoLeadingZero(n: nat)
    requires n > 0
    ensures CanonicalJson.Decimal(n)[0] != '0' && CanonicalJson.Decimal(n)[0] != '+'
  {
    if n >= 10 { NoLeadingZero(n / 10); }
  }

  /** An identity the service hands out can be selected again exactly while its number has at most nine digits. */
  lemma IdSelectableIff(n: nat)
    requires 0 < n <= MAX_U32
    ensures SessionIdNumber(IdOf(n)) == if n <= MAX_SESSION_ID then Some(n) else None
  {
    var digits := CanonicalJson.Decimal(n);
    assert IdOf(n)[11..] == digits;
    NoLeadingZero(n);
    ValueOfDecimal(n);
  }

  // ---- Refreshing ----

  function AddressesOf(found: seq<Found>): set<string> { set f | f in found :: f.address }

  function Retained(s: Pairing, found: seq<Found>): Pairing {
    s.(addresses := map id | id in s.addresses && s.addresses[id] in AddressesOf(found) :: s.addresses[id],
       ids := map a | a in s.ids && a in AddressesOf(found) :: s.ids[a])
  }

  datatype Admission = Admitted(state: Pairing) | Limit(state: Pairing)

  function AdmitOne(s: Pairing, f: Found): Admission {
    if f.address in s.ids then Admitted(s.(devices := s.devices[s.ids[f.address] := f.device]))
    else if |s.ids| >= MAX_DEVICES || s.nextId == MAX_U32 then Limit(s)
    else
      var id := IdOf(s.nextId + 1);
      Admitted(Pairing(s.addresses[id := f.address], s.ids[f.address := id], s.devices[id := f.device], s.nextId + 1))
  }

  function AdmitAll(s: Pairing, found: seq<Found>): Admission {
    if found == [] then Admitted(s) else
    match AdmitAll(s, found[..|found| - 1])
    case Limit(t) => Limit(t)
    case Admitted(t) => AdmitOne(t, found[|found| - 1])
  }

  function VisibleIds(s: Pairing, found: seq<Found>): set<string> { set f | f in found && f.address in s.ids :: s.ids[f.address] }

  function Shown(s: Pairing, found: seq<Found>): Pairing {
    s.(devices := map id | id in s.devices && id in VisibleIds(s, found) :: s.devices[id])
  }

  function Refreshed(s: Pairing, found: seq<Found>): Admission {
    match AdmitAll(Retained(s, found), found)
    case Limit(t) => Limit(t)
    case Admitted(t) => Admitted(Shown(t, found))
  }

  // ---- The invariant ----

  predicate Numbered(id: string, nextId: nat) { exists n :: 0 < n <= nextId && id == IdOf(n) }

  /** The maps are inverse to each other, over identities already handed out. */
  predicate Linked(s: Pairing) {
    && (forall id :: id in s.addresses ==> s.addresses[id] in s.ids && s.ids[s.addresses[id]] == id && Numbered(id, s.nextId))
    && (forall a :: a in s.ids ==> s.ids[a] in s.addresses && s.addresses[s.ids[a]] == a)
    && s.nextId <= MAX_U32
  }

  /** Every identity has a device state, and nothing else has. */
  predicate Complete(s: Pairing) { s.devices.Keys == s.addresses.Keys }

  predicate Distinct(found: seq<Found>) { forall i, j :: 0 <= i < j < |found| ==> found[i].address != found[j].address }

  lemma RetainedLinked(s: Pairing, found: seq<Found>)
    requires Linked(s)
    ensures Linked(Retained(s, found)) && forall a :: a in Retained(s, found).ids ==> a in AddressesOf(found) && s.ids[a] == Retained(s, found).ids[a]
  {
    hide IdOf;
    var t := Retained(s, found);
    forall id | id in t.addresses ensures t.addresses[id] in t.ids && t.ids[t.addresses[id]] == id && Numbered(id, t.nextId) {
      assert id in s.addresses;
    }
  }

  lemma NewLinked(s: Pairing, f: Found)
    requires Linked(s) && f.address !in s.ids && s.nextId < MAX_U32
    ensures var id := IdOf(s.nextId + 1);
            Linked(Pairing(s.addresses[id := f.address], s.ids[f.address := id], s.devices[id := f.device], s.nextId + 1))
  {
    var id := IdOf(s.nextId + 1);
    FreshId(s);
    assert Numbered(id, s.nextId + 1);
    hide IdOf, Numbered;
    var t := Pairing(s.addresses[id := f.address], s.ids[f.address := id], s.devices[id := f.device], s.nextId + 1);
    forall x | x in t.addresses ensures t.addresses[x] in t.ids && t.ids[t.addresses[x]] == x && Numbered(x, t.nextId) {
      if x != id {
        assert x in s.addresses && s.addresses[x] in s.ids;
        NumberedMore(x, s.nextId);
      }
    }
    forall a | a in t.ids ensures t.ids[a] in t.addresses && t.addresses[t.ids[a]] == a {
      if a != f.address { assert s.ids[a] in s.addresses && s.ids[a] != id; }
    }
  }

  /** What admitting one address changes. */
  predicate Admits(s: Pairing, f: Found, t: Pairing) {
    && t.ids.Keys == s.ids.Keys + {f.address}
    && t.nextId == s.nextId + (if f.address in s.ids then 0 else 1)
    && (forall a :: a in s.ids ==> t.ids[a] == s.ids[a])
    && (f.address !in s.ids ==> t.ids[f.address] == IdOf(s.nextId + 1))
    && t.devices.Keys == s.devices.Keys + {t.ids[f.address]}
  }

  lemma KeysOfUpdate<V>(m: map<string, V>, k: string, v: V)
    ensures m[k := v].Keys == m.Keys + {k} && m[k := v][k] == v
    ensures forall x :: x in m && x != k ==> m[k := v][x] == m[x]
  {
  }

  lemma AdmitOneAdmits(s: Pairing, f: Found)
    requires AdmitOne(s, f).Admitted?
    ensures Admits(s, f, AdmitOne(s, f).state)
  {
    hide IdOf;
    if f.address in s.ids {
      KeysOfUpdate(s.devices, s.ids[f.address], f.device);
      assert s.ids.Keys == s.ids.Keys + {f.address};
    } else {
      NewAdmits(s, f);
    }
  }

  lemma NewAdmits(s: Pairing, f: Found)
    requires f.address !in s.ids
    ensures var id := IdOf(s.nextId + 1);
            Admits(s, f, Pairing(s.addresses[id := f.address], s.ids[f.address := id], s.devices[id := f.device], s.nextId + 1))
  {
    hide IdOf;
    KeysOfUpdate(s.devices, IdOf(s.nextId + 1), f.device);
    KeysOfUpdate(s.ids, f.address, IdOf(s.nextId + 1));
  }

  lemma AdmitOneLinked(s: Pairing, f: Found)
    requires Linked(s) && AdmitOne(s, f).Admitted?
    ensures Linked(AdmitOne(s, f).state)
  {
    if f.address in s.ids {
    } else {
      assert s.nextId < MAX_U32;
      hide IdOf, Linked;
      NewLinked(s, f);
    }
  }

  lemma NumberedMore(id: string, n: nat)
    requires Numbered(id, n)
    ensures Numbered(id, n + 1)
  {
  }

  lemma FreshId(s: Pairing)
    requires Linked(s)
    ensures IdOf(s.nextId + 1) !in s.addresses && forall a :: a in s.ids ==> s.ids[a] != IdOf(s.nextId + 1)
  {
    if IdOf(s.nextId + 1) in s.addresses {
      var n :| 0 < n <= s.nextId && IdOf(s.nextId + 1) == IdOf(n);
      IdOfInjective(s.nextId + 1, n);
    }
  }

  /** How many of the addresses have no identity yet. */
  function NewAmong(s: Pairing, found: seq<Found>): nat {
    if found == [] then 0 else
    NewAmong(s, found[..|found| - 1]) + if found[|found| - 1].address in s.ids then 0 else 1
  }

  lemma AddressesMore(found: seq<Found>)
    requires found != []
    ensures AddressesOf(found) == AddressesOf(found[..|found| - 1]) + {found[|found| - 1].address}
  {
    assert found == found[..|found| - 1] + [found[|found| - 1]];
  }

  lemma LastIsNew(found: seq<Found>)
    requires found != [] && Distinct(found)
    ensures Distinct(found[..|found| - 1]) && found[|found| - 1].address !in AddressesOf(found[..|found| - 1])
  {
    var front, last := found[..|found| - 1], found[|found| - 1];
    assert forall i :: 0 <= i < |front| ==> front[i] == found[i];
    forall f | f in front ensures f.address != last.address {
      var i :| 0 <= i < |front| && front[i] == f;
      assert found[i].address != found[|found| - 1].address;
    }
  }

  /** Which addresses have identities after admitting some, and that nobody's identity changed. */
  predicate Kept(s: Pairing, found: seq<Found>, t: Pairing) {
    && t.ids.Keys == s.ids.Keys + AddressesOf(found) && t.nextId == s.nextId + NewAmong(s, found)
    && (forall a :: a in s.ids ==> t.ids[a] == s.ids[a])
  }

  predicate NewOnes(s: Pairing, t: Pairing) {
    forall a :: a in t.ids && a !in s.ids ==> exists n :: s.nextId < n <= t.nextId && t.ids[a] == IdOf(n)
  }

  predicate HaveDevices(found: seq<Found>, t: Pairing) {
    forall f :: f in found ==> f.address in t.ids && t.ids[f.address] in t.devices
  }

  predicate Progress(s: Pairing, found: seq<Found>, t: Pairing) {
    Linked(t) && Kept(s, found, t) && NewOnes(s, t) && HaveDevices(found, t)
  }

  lemma NewIdsMore(s: Pairing, t: Pairing, f: Found, u: Pairing, a: string)
    requires Admits(t, f, u) && a in u.ids && a !in s.ids && s.nextId <= t.nextId
    requires a in t.ids ==> exists n :: s.nextId < n <= t.nextId && t.ids[a] == IdOf(n)
    ensures exists n :: s.nextId < n <= u.nextId && u.ids[a] == IdOf(n)
  {
    hide IdOf;
    if a in t.ids {
      var n :| s.nextId < n <= t.nextId && t.ids[a] == IdOf(n);
      assert u.ids[a] == IdOf(n) && n <= u.nextId;
    } else {
      assert u.ids[a] == IdOf(t.nextId + 1);
    }
  }

  lemma KeptMore(s: Pairing, found: seq<Found>, t: Pairing, u: Pairing)
    requires found != [] && Distinct(found) && Kept(s, found[..|found| - 1], t) && Admits(t, found[|found| - 1], u)
    ensures Kept(s, found, u) && t.ids.Keys <= u.ids.Keys
  {
    AddressesMore(found);
    LastIsNew(found);
    hide AddressesOf, Distinct, IdOf;
    var f := found[|found| - 1];
    assert f.address in t.ids <==> f.address in s.ids;
    assert u.ids.Keys == s.ids.Keys + AddressesOf(found);
  }

  lemma DevicesMore(found: seq<Found>, t: Pairing, u: Pairing)
    requires found != [] && HaveDevices(found[..|found| - 1], t) && Admits(t, found[|found| - 1], u)
    ensures HaveDevices(found, u)
  {
    hide IdOf;
    assert found == found[..|found| - 1] + [found[|found| - 1]];
    forall g | g in found ensures g.address in u.ids && u.ids[g.address] in u.devices {
      if g in found[..|found| - 1] { assert g.address in t.ids && t.ids[g.address] in t.devices; }
    }
  }

  lemma ProgressMore(s: Pairing, found: seq<Found>, t: Pairing)
    requires found != [] && Distinct(found) && Progress(s, found[..|found| - 1], t) && AdmitOne(t, found[|found| - 1]).Admitted?
    ensures Progress(s, found, AdmitOne(t, found[|found| - 1]).state)
  {
    hide Linked, Distinct, AdmitOne, Admits, HaveDevices, Kept;
    var f := found[|found| - 1];
    var u := AdmitOne(t, f).state;
    AdmitOneLinked(t, f);
    AdmitOneAdmits(t, f);
    KeptMore(s, found, t, u);
    DevicesMore(found, t, u);
    KeptCounts(s, found[..|found| - 1], t);
    forall a | a in u.ids && a !in s.ids ensures exists n :: s.nextId < n <= u.nextId && u.ids[a] == IdOf(n) {
      NewIdsMore(s, t, f, u, a);
    }
  }

  lemma KeptCounts(s: Pairing, found: seq<Found>, t: Pairing)
    requires Kept(s, found, t)
    ensures s.nextId <= t.nextId
  {
  }

  lemma {:induction false} FewAddresses(found: seq<Found>)
    ensures |AddressesOf(found)| <= |found|
  {
    if found != [] {
      AddressesMore(found);
      FewAddresses(found[..|found| - 1]);
    }
  }

  /** One more address, after some have been admitted. */
  lemma OneMore(s: Pairing, all: seq<Found>, n: nat, t: Pairing)
    requires Distinct(all) && 0 < n <= |all| <= MAX_DEVICES && s.ids.Keys <= AddressesOf(all) && Progress(s, all[..n - 1], t)
    ensures AdmitOne(t, all[n - 1]).Admitted? <==> s.nextId + NewAmong(s, all[..n]) <= MAX_U32
    ensures AdmitOne(t, all[n - 1]).Admitted? ==> Progress(s, all[..n], AdmitOne(t, all[n - 1]).state)
    ensures AdmitOne(t, all[n - 1]).Limit? ==> AdmitOne(t, all[n - 1]).state == t && t.nextId == MAX_U32
  {
    hide Linked, Progress, IdOf, AdmitAll, AdmitOne, Distinct, AddressesOf;
    assert all[..n][..n - 1] == all[..n - 1] && all[..n][n - 1] == all[n - 1];
    DistinctPrefix(all, n);
    NeverFull(s, all, n, t);
    AdmittedIff(t, all[n - 1]);
    ProgressLinked(s, all[..n - 1], t);
    if AdmitOne(t, all[n - 1]).Admitted? {
      ProgressMore(s, all[..n], t);
    }
  }

  /** The first `n` addresses are admitted, or the counter has come to its end. */
  ghost predicate AdmitsSoFar(s: Pairing, all: seq<Found>, n: nat)
    requires n <= |all|
  {
    var answer := AdmitAll(s, all[..n]);
    && (answer.Admitted? <==> s.nextId + NewAmong(s, all[..n]) <= MAX_U32)
    && (answer.Admitted? ==> Progress(s, all[..n], answer.state))
    && (answer.Limit? ==> answer.state.nextId == MAX_U32)
    && exists m :: 0 <= m <= n && Progress(s, all[..m], answer.state)
  }

  /** With at most sixteen addresses the only limit ever met is the end of the 32-bit counter. */
  lemma {:induction false} AdmitAllProgress(s: Pairing, all: seq<Found>, n: nat)
    requires Linked(s) && Distinct(all) && |all| <= MAX_DEVICES && n <= |all| && s.ids.Keys <= AddressesOf(all)
    ensures AdmitsSoFar(s, all, n)
  {
    hide Linked, Progress, AdmitAll, AdmitOne, NewAmong, Distinct, AddressesOf;
    if n == 0 {
      NothingAdmitted(s, all);
    } else {
      AdmitAllProgress(s, all, n - 1);
      OneMoreProgress(s, all, n);
    }
  }

  /** One step of the induction. */
  lemma OneMoreProgress(s: Pairing, all: seq<Found>, n: nat)
    requires Linked(s) && Distinct(all) && 0 < n <= |all| <= MAX_DEVICES && s.ids.Keys <= AddressesOf(all)
    requires AdmitsSoFar(s, all, n - 1)
    ensures AdmitsSoFar(s, all, n)
  {
    hide Linked, Progress, AdmitAll, AdmitOne, NewAmong, Distinct, AddressesOf;
    AdmitAllLast(s, all, n);
    if AdmitAll(s, all[..n - 1]).Admitted? { OneMore(s, all, n, AdmitAll(s, all[..n - 1]).state); }
  }

  lemma AdmitAllLast(s: Pairing, all: seq<Found>, n: nat)
    requires 0 < n <= |all|
    ensures AdmitAll(s, all[..n]) == match AdmitAll(s, all[..n - 1])
                                     case Limit(t) => Limit(t)
                                     case Admitted(t) => AdmitOne(t, all[n - 1])
    ensures NewAmong(s, all[..n]) == NewAmong(s, all[..n - 1]) + if all[n - 1].address in s.ids then 0 else 1
  {
    hide AdmitOne;
    assert all[..n][..n - 1] == all[..n - 1];
  }

  lemma AdmittedIff(s: Pairing, f: Found)
    requires s.nextId <= MAX_U32 && (f.address !in s.ids ==> |s.ids| < MAX_DEVICES)
    ensures AdmitOne(s, f).Admitted? <==> f.address in s.ids || s.nextId < MAX_U32
    ensures AdmitOne(s, f).Limit? ==> AdmitOne(s, f).state == s
  {
    hide IdOf;
  }

  lemma ProgressLinked(s: Pairing, found: seq<Found>, t: Pairing)
    requires Progress(s, found, t)
    ensures Linked(t)
  {
  }

  lemma NothingAdmitted(s: Pairing, all: seq<Found>)
    requires Linked(s)
    ensures AdmitsSoFar(s, all, 0)
  {
    assert all[..0] == [];
    assert Progress(s, [], s);
  }

  lemma DistinctPrefix(all: seq<Found>, n: nat)
    requires Distinct(all) && n <= |all|
    ensures Distinct(all[..n])
  {
    assert forall i :: 0 <= i < n ==> all[..n][i] == all[i];
  }

  lemma SmallerThan(a: set<string>, b: set<string>, x: string)
    requires a <= b && x in b && x !in a
    ensures |a| < |b|
  {
    assert |b - {x}| == |b| - 1;
    assert |(b - {x}) - a| == |b - {x}| - |a|;
  }

  /** The device limit of the source is never the reason to refuse an address. */
  lemma NeverFull(s: Pairing, all: seq<Found>, n: nat, t: Pairing)
    requires 0 < n <= |all| <= MAX_DEVICES && Distinct(all) && s.ids.Keys <= AddressesOf(all) && Progress(s, all[..n - 1], t)
    ensures all[n - 1].address !in t.ids ==> |t.ids| < MAX_DEVICES
    ensures all[n - 1].address in t.ids <==> all[n - 1].address in s.ids
    ensures t.nextId == s.nextId + NewAmong(s, all[..n - 1]) <= MAX_U32
  {
    hide IdOf, NewAmong;
    assert all[..n][..n - 1] == all[..n - 1];
    DistinctPrefix(all, n);
    LastIsNew(all[..n]);
    if all[n - 1].address !in t.ids {
      assert all[n - 1] in all;
      assert forall f :: f in all[..n - 1] ==> f in all;
      FewAddresses(all);
      SmallerThan(t.ids.Keys, AddressesOf(all), all[n - 1].address);
      assert |t.ids| == |t.ids.Keys|;
    }
  }

  /** Every identity of the second state is one of the first, for the same address, or has a number not used before. */
  predicate KeptOrNew(s: Pairing, t: Pairing) {
    && s.nextId <= t.nextId
    && forall id :: id in t.addresses ==> (id in s.addresses && s.addresses[id] == t.addresses[id]) || NumberedAfter(id, s.nextId, t.nextId)
  }

  predicate NumberedAfter(id: string, before: nat, now: nat) { exists n :: before < n <= now && id == IdOf(n) }

  lemma ProgressKeepsOrAdds(s: Pairing, found: seq<Found>, some: seq<Found>, t: Pairing)
    requires Linked(s) && Progress(Retained(s, found), some, t)
    ensures KeptOrNew(s, t)
  {
    hide IdOf, NewAmong, Numbered;
    var r := Retained(s, found);
    forall id | id in t.addresses && !(id in s.addresses && s.addresses[id] == t.addresses[id]) ensures NumberedAfter(id, s.nextId, t.nextId) {
      var a := t.addresses[id];
      assert a in t.ids;
    }
  }

  /**
   * A refresh fails exactly when the counter would overflow. Otherwise exactly the reported addresses have identities,
   * each keeps the one it had, new ones get unused numbers, and the device states are those of the reported addresses.
   */
  lemma RefreshAssigns(s: Pairing, found: seq<Found>)
    requires Linked(s) && Distinct(found) && |found| <= MAX_DEVICES
    ensures Linked(Refreshed(s, found).state) && KeptOrNew(s, Refreshed(s, found).state)
    ensures Refreshed(s, found).Admitted? <==> s.nextId + NewAmong(Retained(s, found), found) <= MAX_U32
    ensures Refreshed(s, found).Limit? ==> Refreshed(s, found).state.nextId == MAX_U32
    ensures Refreshed(s, found).Admitted? ==>
              var t := Refreshed(s, found).state;
              && Complete(t) && t.ids.Keys == AddressesOf(found)
              && (forall a :: a in s.ids && a in t.ids ==> t.ids[a] == s.ids[a])
  {
    hide IdOf, NewAmong;
    var r := Retained(s, found);
    RetainedLinked(s, found);
    assert found[..|found|] == found;
    assert r.ids.Keys <= AddressesOf(found);
    AdmitAllProgress(r, found, |found|);
    var t := AdmitAll(r, found).state;
    var m :| 0 <= m <= |found| && Progress(r, found[..m], t);
    ProgressLinked(r, found[..m], t);
    ProgressKeepsOrAdds(s, found, found[..m], t);
    hide Retained, AdmitAll;
    if Refreshed(s, found).Admitted? { ShownComplete(r, t, found); }
    ShownKeeps(s, t, found);
  }

  lemma ShownKeeps(s: Pairing, t: Pairing, found: seq<Found>)
    requires KeptOrNew(s, t)
    ensures KeptOrNew(s, Shown(t, found))
  {
  }

  lemma ShownComplete(r: Pairing, t: Pairing, found: seq<Found>)
    requires Progress(r, found, t) && r.ids.Keys <= AddressesOf(found)
    ensures Linked(Shown(t, found)) && Complete(Shown(t, found)) && t.ids.Keys == AddressesOf(found)
  {
    hide IdOf, Numbered;
    var u := Shown(t, found);
    forall id | id in t.addresses ensures id in u.devices {
      var a := t.addresses[id];
      assert a in AddressesOf(found);
      var f :| f in found && f.address == a;
      assert t.ids[f.address] in t.devices;
    }
    forall id | id in u.devices ensures id in t.addresses {
      var f :| f in found && f.address in t.ids && t.ids[f.address] == id;
    }
  }
}
