/** The pairing service over its shared state, its parser and its bounded reader, and the identities of whole runs. */
module BluetoothService {
  import opened Collections
  import opened Options
  import opened Bluetooth

  // ---- Pairing and forgetting ----

  function AddressFor(s: Pairing, id: string): Option<string> {
    if SessionIdNumber(id).None? || id !in s.addresses then None else Some(s.addresses[id])
  }

  function Updated(s: Pairing, id: string, device: Device): Pairing { s.(devices := s.devices[id := device]) }

  function Forgotten(s: Pairing, id: string, address: string): Pairing {
    s.(addresses := s.addresses - {id}, ids := s.ids - {address}, devices := s.devices - {id})
  }

  lemma UpdateKeeps(s: Pairing, id: string, device: Device)
    requires Linked(s) && AddressFor(s, id).Some?
    ensures Linked(Updated(s, id, device)) && (Complete(s) ==> Complete(Updated(s, id, device)))
    ensures KeptOrNew(s, Updated(s, id, device))
  {
  }

  lemma ForgetKeeps(s: Pairing, id: string)
    requires Linked(s) && AddressFor(s, id).Some?
    ensures var t := Forgotten(s, id, AddressFor(s, id).value);
            && Linked(t) && (Complete(s) ==> Complete(t)) && KeptOrNew(s, t)
            && id !in t.addresses && AddressFor(s, id).value !in t.ids
  {
    hide Numbered;
    var a := AddressFor(s, id).value;
    var t := Forgotten(s, id, a);
    forall x | x in t.addresses ensures t.addresses[x] in t.ids && t.ids[t.addresses[x]] == x && Numbered(x, t.nextId) {
      assert x in s.addresses && s.ids[s.addresses[x]] == x;
    }
    forall b | b in t.ids ensures t.ids[b] in t.addresses && t.addresses[t.ids[b]] == b {
      assert s.addresses[s.ids[b]] == b;
    }
  }

  // ---- Runs ----

  datatype Command = Refreshing(found: seq<Found>) | Updating(id: string, device: Device) | Forgetting(id: string)

  predicate Reportable(command: Command) {
    command.Refreshing? ==> Distinct(command.found) && |command.found| <= MAX_DEVICES
  }

  /** What a command that reaches the state makes of it; one that fails earlier leaves it alone. */
  function Do(s: Pairing, command: Command): Pairing {
    match command
    case Refreshing(found) => Refreshed(s, found).state
    case Updating(id, device) => if AddressFor(s, id).Some? then Updated(s, id, device) else s
    case Forgetting(id) => if AddressFor(s, id).Some? then Forgotten(s, id, AddressFor(s, id).value) else s
  }

  function After(run: seq<Command>): Pairing {
    if run == [] then Initial() else Do(After(run[..|run| - 1]), run[|run| - 1])
  }

  predicate AllReportable(run: seq<Command>) { forall i :: 0 <= i < |run| ==> Reportable(run[i]) }

  /** The counter never ran out. */
  predicate Roomy(s: Pairing, command: Command) { command.Refreshing? ==> Refreshed(s, command.found).Admitted? }

  lemma DoKeeps(s: Pairing, command: Command)
    requires Linked(s) && Reportable(command)
    ensures Linked(Do(s, command)) && KeptOrNew(s, Do(s, command))
    ensures Complete(s) && Roomy(s, command) ==> Complete(Do(s, command))
  {
    match command
    case Refreshing(found) => RefreshAssigns(s, found);
    case Updating(id, device) => if AddressFor(s, id).Some? { UpdateKeeps(s, id, device); }
    case Forgetting(id) => if AddressFor(s, id).Some? { ForgetKeeps(s, id); }
  }

  /** The maps stay inverse to each other over every run, with exactly their identities in the device states. */
  lemma {:induction false} MapsStayInverse(run: seq<Command>)
    requires AllReportable(run)
    ensures Linked(After(run))
    ensures (forall n :: 0 <= n < |run| ==> Roomy(After(run[..n]), run[n])) ==> Complete(After(run))
  {
    if run != [] {
      hide Linked, Complete, Do, Reportable, Roomy;
      var front := run[..|run| - 1];
      assert forall i :: 0 <= i < |front| ==> front[i] == run[i] && front[..i] == run[..i];
      MapsStayInverse(front);
      assert Reportable(run[|run| - 1]);
      DoKeeps(After(front), run[|run| - 1]);
    }
  }

  /** Every identity that has ever been in use, with its address. */
  function Names(run: seq<Command>): map<string, string> {
    if run == [] then map[] else Names(run[..|run| - 1]) + After(run).addresses
  }

  lemma NamesStep(names: map<string, string>, s: Pairing, t: Pairing)
    requires KeptOrNew(s, t) && Linked(t)
    requires forall id :: id in names ==> Numbered(id, s.nextId)
    requires forall id :: id in s.addresses ==> id in names && names[id] == s.addresses[id]
    ensures forall id :: id in names ==> (names + t.addresses)[id] == names[id]
    ensures forall id :: id in names + t.addresses ==> Numbered(id, t.nextId)
  {
    hide IdOf;
    forall id | id in names && id in t.addresses ensures t.addresses[id] == names[id] {
      if id !in s.addresses || s.addresses[id] != t.addresses[id] {
        var m :| s.nextId < m <= t.nextId && id == IdOf(m);
        var n :| 0 < n <= s.nextId && id == IdOf(n);
        IdOfInjective(m, n);
      }
    }
    forall id | id in names + t.addresses ensures Numbered(id, t.nextId) {
      if id in names {
        var n :| 0 < n <= s.nextId && id == IdOf(n);
        assert 0 < n <= t.nextId;
      }
    }
  }

  lemma {:induction false} NamesHold(run: seq<Command>)
    requires AllReportable(run)
    ensures forall id :: id in Names(run) ==> Numbered(id, After(run).nextId)
    ensures forall id :: id in After(run).addresses ==> id in Names(run) && Names(run)[id] == After(run).addresses[id]
  {
    if run != [] {
      hide Linked, Numbered, Do, Reportable, KeptOrNew;
      var front := run[..|run| - 1];
      assert forall i :: 0 <= i < |front| ==> front[i] == run[i];
      NamesHold(front);
      MapsStayInverse(front);
      assert Reportable(run[|run| - 1]);
      DoKeeps(After(front), run[|run| - 1]);
      NamesStep(Names(front), After(front), After(run));
    }
  }

  lemma {:induction false} NamesNeverChange(run: seq<Command>, n: nat, id: string)
    requires AllReportable(run) && n <= |run| && id in Names(run[..n])
    ensures id in Names(run) && Names(run)[id] == Names(run[..n])[id]
    decreases |run|
  {
    if n == |run| {
      assert run[..n] == run;
    } else {
      hide Linked, Numbered, Do, Reportable, KeptOrNew;
      var front := run[..|run| - 1];
      assert forall i :: 0 <= i < |front| ==> front[i] == run[i];
      assert front[..n] == run[..n];
      NamesNeverChange(front, n, id);
      NamesHold(front);
      MapsStayInverse(front);
      assert Reportable(run[|run| - 1]);
      DoKeeps(After(front), run[|run| - 1]);
      NamesStep(Names(front), After(front), After(run));
    }
  }

  /** Over a whole run an identity never names two addresses, however often controllers come and go. */
  lemma IdentityNamesOneAddress(run: seq<Command>, i: nat, j: nat, id: string)
    requires AllReportable(run) && i <= |run| && j <= |run|
    requires id in After(run[..i]).addresses && id in After(run[..j]).addresses
    ensures After(run[..i]).addresses[id] == After(run[..j]).addresses[id]
  {
    forall k | 0 <= k <= |run| ensures AllReportable(run[..k]) {
      assert forall m :: 0 <= m < k ==> run[..k][m] == run[m];
    }
    NamesHold(run[..i]);
    NamesHold(run[..j]);
    NamesNeverChange(run, i, id);
    NamesNeverChange(run, j, id);
  }

  // ---- The service ----

  /** The runner's answer about one address: an error, no controller, or a controller. */
  datatype Info = Failed | NotGaming | Controller(device: Device)

  datatype Result = Snapshot(devices: map<string, Device>) | Err(error: Error)

  class PairingService {
    var addressesById: map<string, string>
    var idsByAddress: map<string, string>
    var deviceStates: map<string, Device>
    var nextId: nat

    function State(): Pairing
      reads this
    {
      Pairing(addressesById, idsByAddress, deviceStates, nextId)
    }

    predicate Valid()
      reads this
    {
      Linked(State())
    }

    constructor ()
      ensures Valid() && State() == Initial()
    {
      addressesById, idsByAddress, deviceStates, nextId := map[], map[], map[], 0;
    }

    /** Reads the list and each of its first sixteen addresses, and only then changes the state. */
    method Refresh(listing: Option<seq<Line>>, info: string -> Info) returns (result: Result)
      requires Valid()
      modifies this
      ensures Valid()
      ensures listing.None? || !AllAnswered(Asked(listing.value), info) ==> State() == old(State()) && result == Err(CommandFailed)
      ensures listing.Some? && AllAnswered(Asked(listing.value), info) ==>
                var refreshed := Refreshed(old(State()), Discovered(Asked(listing.value), info));
                && State() == refreshed.state
                && result == if refreshed.Admitted? then Snapshot(deviceStates) else Err(DeviceLimit)
      ensures result.Snapshot? ==> Complete(State())
      ensures result == Err(DeviceLimit) ==> nextId == MAX_U32
    {
      hide Refreshed, Linked, Complete, Distinct, Discovered, AddressesIn, Asked;
      if listing.None? {
        return Err(CommandFailed);
      }
      AskedIs(listing.value);
      var addresses := ParseDeviceAddresses(listing.value);
      var found: seq<Found> := [];
      var i := 0;
      DiscoveredNone(addresses, info);
      while i < |addresses| && i < MAX_DEVICES
        invariant 0 <= i <= |addresses| && i <= MAX_DEVICES && State() == old(State())
        invariant AllAnswered(addresses[..i], info) && found == Discovered(addresses[..i], info)
      {
        DiscoveredNext(addresses, i, info);
        assert Asked(listing.value)[i] == addresses[i];
        match info(addresses[i]) {
          case Failed => return Err(CommandFailed);
          case NotGaming =>
          case Controller(device) =>
            found := found + [Found(addresses[i], device)];
        }
        i := i + 1;
      }
      assert addresses[..i] == Asked(listing.value);
      DiscoveredDistinct(addresses[..i], info);
      result := Assign(found);
    }

    method Assign(found: seq<Found>) returns (result: Result)
      requires Valid() && Distinct(found) && |found| <= MAX_DEVICES
      modifies this
      ensures Valid() && State() == Refreshed(old(State()), found).state
      ensures result == if Refreshed(old(State()), found).Admitted? then Snapshot(deviceStates) else Err(DeviceLimit)
      ensures result.Snapshot? ==> Complete(State())
      ensures result.Err? ==> nextId == MAX_U32
    {
      ghost var s := State();
      hide Linked, IdOf, AdmitAll, AdmitOne, VisibleIds, Distinct;
      RefreshAssigns(s, found);
      Retain(found);
      AdmitsNone(s, found);
      var visible: set<string> := {};
      var i := 0;
      while i < |found|
        invariant 0 <= i <= |found| && AdmitAll(Retained(s, found), found[..i]) == Admitted(State())
        invariant visible == VisibleIds(State(), found[..i])
      {
        ghost var t := State();
        AdmitsNext(s, found, i, t);
        var ok, id := Admit(found[i]);
        if !ok {
          return Err(DeviceLimit);
        }
        AdmitChanges(t, found[i]);
        VisibleNext(t, State(), found, i);
        visible := visible + {id};
        i := i + 1;
      }
      assert found[..i] == found;
      deviceStates := map id | id in deviceStates && id in visible :: deviceStates[id];
      result := Snapshot(deviceStates);
    }

    /** Forgets the identities of addresses that are no longer reported. */
    method Retain(found: seq<Found>)
      modifies this
      ensures State() == Retained(old(State()), found)
    {
      addressesById := map id | id in addressesById && addressesById[id] in AddressesOf(found) :: addressesById[id];
      idsByAddress := map a | a in idsByAddress && a in AddressesOf(found) :: idsByAddress[a];
    }

    /** Gives an address its identity, a new one if it has none. */
    method Admit(f: Found) returns (ok: bool, id: string)
      modifies this
      ensures AdmitOne(old(State()), f) == if ok then Admitted(State()) else Limit(State())
      ensures ok ==> f.address in idsByAddress && id == idsByAddress[f.address]
    {
      hide IdOf;
      if f.address in idsByAddress {
        id := idsByAddress[f.address];
      } else {
        if |idsByAddress| >= MAX_DEVICES || nextId == MAX_U32 {
          return false, "";
        }
        nextId := nextId + 1;
        id := IdOf(nextId);
        idsByAddress := idsByAddress[f.address := id];
        addressesById := addressesById[id := f.address];
      }
      deviceStates := deviceStates[id := f.device];
      ok := true;
    }

    /** The first answer decides between connecting and pairing; the second is what gets recorded. */
    method Pair(id: string, before: Info, done: bool, after: Info) returns (result: Result)
      requires Valid()
      modifies this
      ensures Valid() && (old(Complete(State())) ==> Complete(State()))
      ensures result.Snapshot? <==> old(AddressFor(State(), id)).Some? && before.Controller? && done && after.Controller?
      ensures result.Snapshot? ==> State() == Updated(old(State()), id, after.device) && result.devices == deviceStates
      ensures result.Err? ==> State() == old(State())
      ensures old(AddressFor(State(), id)).None? ==> result == Err(DeviceUnavailable)
    {
      if AddressFor(State(), id).None? || before.NotGaming? {
        return Err(DeviceUnavailable);
      }
      if before.Failed? || !done || after.Failed? {
        return Err(CommandFailed);
      }
      if after.NotGaming? {
        return Err(DeviceUnavailable);
      }
      UpdateKeeps(State(), id, after.device);
      deviceStates := deviceStates[id := after.device];
      result := Snapshot(deviceStates);
    }

    method Forget(id: string, removed: bool) returns (result: Result)
      requires Valid()
      modifies this
      ensures Valid() && (old(Complete(State())) ==> Complete(State()))
      ensures result.Snapshot? <==> old(AddressFor(State(), id)).Some? && removed
      ensures result.Snapshot? ==>
                State() == Forgotten(old(State()), id, old(AddressFor(State(), id)).value) && result.devices == deviceStates
      ensures result.Err? ==> State() == old(State())
    {
      var address := AddressFor(State(), id);
      if address.None? {
        return Err(DeviceUnavailable);
      }
      if !removed {
        return Err(CommandFailed);
      }
      ForgetKeeps(State(), id);
      addressesById := addressesById - {id};
      idsByAddress := idsByAddress - {address.value};
      deviceStates := deviceStates - {id};
      result := Snapshot(deviceStates);
    }
  }

  // ---- The list of addresses ----

  /** The whitespace-separated fields of one line of output. */
  type Line = seq<string>

  predicate IsHexDigit(c: char) { '0' <= c <= '9' || 'a' <= c <= 'f' || 'A' <= c <= 'F' }

  predicate IsAddress(s: string) {
    |s| == 17 && forall i :: 0 <= i < 17 ==> if i in {2, 5, 8, 11, 14} then s[i] == ':' else IsHexDigit(s[i])
  }

  function Upper(s: string): (r: string)
    ensures |r| == |s|
  {
    seq(|s|, i requires 0 <= i < |s| => if 'a' <= s[i] <= 'z' then (s[i] as int - 32) as char else s[i])
  }

  predicate Lists(line: Line, address: string) {
    |line| >= 2 && line[0] == "Device" && Upper(line[1]) == address && IsAddress(address)
  }

  /** The valid addresses of the device lines, in order, each where it comes first. */
  function AddressesIn(lines: seq<Line>): (r: seq<string>)
    ensures forall a :: a in r <==> exists k :: 0 <= k < |lines| && Lists(lines[k], a)
    ensures forall i, j :: 0 <= i < j < |r| ==> r[i] != r[j]
  {
    if lines == [] then [] else
    var front, last := AddressesIn(lines[..|lines| - 1]), lines[|lines| - 1];
    assert lines == lines[..|lines| - 1] + [last];
    if |last| >= 2 && Lists(last, Upper(last[1])) && Upper(last[1]) !in front then front + [Upper(last[1])] else front
  }

  method ParseDeviceAddresses(lines: seq<Line>) returns (addresses: seq<string>)
    ensures addresses == AddressesIn(lines)
    ensures forall a :: a in addresses <==> exists k :: 0 <= k < |lines| && Lists(lines[k], a)
    ensures forall i, j :: 0 <= i < j < |addresses| ==> addresses[i] != addresses[j]
  {
    addresses := [];
    var n := 0;
    while n < |lines|
      invariant 0 <= n <= |lines| && addresses == AddressesIn(lines[..n])
    {
      var line := lines[n];
      assert lines[..n + 1][..n] == lines[..n];
      if |line| >= 2 && line[0] == "Device" {
        var address := Upper(line[1]);
        if IsAddress(address) && address !in addresses {
          addresses := addresses + [address];
        }
      }
      n := n + 1;
    }
    assert lines[..n] == lines;
  }

  /** The addresses a refresh asks about. */
  function Asked(lines: seq<Line>): (r: seq<string>)
    ensures |r| <= MAX_DEVICES && r <= AddressesIn(lines)
  {
    var all := AddressesIn(lines);
    if |all| <= MAX_DEVICES then all else all[..MAX_DEVICES]
  }

  predicate AllAnswered(addresses: seq<string>, info: string -> Info) {
    forall i :: 0 <= i < |addresses| ==> !info(addresses[i]).Failed?
  }

  /** The controllers among them. */
  function Discovered(addresses: seq<string>, info: string -> Info): (r: seq<Found>)
    ensures |r| <= |addresses|
    ensures forall f :: f in r <==> f.address in addresses && info(f.address) == Controller(f.device)
  {
    if addresses == [] then [] else
    var front, last := addresses[..|addresses| - 1], addresses[|addresses| - 1];
    assert addresses == front + [last];
    Discovered(front, info) + if info(last).Controller? then [Found(last, info(last).device)] else []
  }

  lemma AskedIs(lines: seq<Line>)
    ensures var all := AddressesIn(lines); Asked(lines) == if |all| <= MAX_DEVICES then all else all[..MAX_DEVICES]
    ensures forall i, j :: 0 <= i < j < |Asked(lines)| ==> Asked(lines)[i] != Asked(lines)[j]
  {
  }

  lemma DiscoveredNone(addresses: seq<string>, info: string -> Info)
    ensures Discovered(addresses[..0], info) == []
  {
  }

  lemma DiscoveredNext(addresses: seq<string>, i: nat, info: string -> Info)
    requires i < |addresses|
    ensures Discovered(addresses[..i + 1], info)
         == Discovered(addresses[..i], info) + if info(addresses[i]).Controller? then [Found(addresses[i], info(addresses[i]).device)] else []
  {
    assert addresses[..i + 1][..i] == addresses[..i];
  }

  lemma {:induction false} DiscoveredDistinct(addresses: seq<string>, info: string -> Info)
    requires forall i, j :: 0 <= i < j < |addresses| ==> addresses[i] != addresses[j]
    ensures Distinct(Discovered(addresses, info))
  {
    if addresses != [] {
      var front := addresses[..|addresses| - 1];
      DiscoveredDistinct(front, info);
      assert forall f :: f in Discovered(front, info) ==> f.address in front;
    }
  }

  // ---- Bounded reading ----

  type Bytes = seq<int>

  datatype Output = Whole(bytes: Bytes) | TooLarge

  /** Whatever the chunks, everything is retained if it fits, and the output is refused if it does not. */
  method ReadBounded(chunks: seq<Bytes>) returns (output: Output)
    ensures output == if |Concat(chunks)| <= MAX_OUTPUT_BYTES then Whole(Concat(chunks)) else TooLarge
  {
    var retained: Bytes := [];
    var exceeded := false;
    var i := 0;
    while i < |chunks|
      invariant 0 <= i <= |chunks|
      invariant exceeded == (|Concat(chunks[..i])| > MAX_OUTPUT_BYTES)
      invariant retained == if exceeded then Concat(chunks[..i])[..MAX_OUTPUT_BYTES] else Concat(chunks[..i])
    {
      assert chunks[..i + 1][..i] == chunks[..i];
      ghost var before := Concat(chunks[..i]);
      assert Concat(chunks[..i + 1]) == before + chunks[i];
      var remaining := if |retained| < MAX_OUTPUT_BYTES then MAX_OUTPUT_BYTES - |retained| else 0;
      var read := |chunks[i]|;
      var kept := if read < remaining then read else remaining;
      retained := retained + chunks[i][..kept];
      exceeded := exceeded || read > remaining;
      i := i + 1;
    }
    assert chunks[..i] == chunks;
    output := if exceeded then TooLarge else Whole(retained);
  }

  // ---- Lemmas of the loops ----

  lemma AdmitsNone(s: Pairing, found: seq<Found>)
    ensures AdmitAll(Retained(s, found), found[..0]) == Admitted(Retained(s, found))
    ensures VisibleIds(Retained(s, found), found[..0]) == {}
  {
  }

  lemma AdmitsNext(s: Pairing, found: seq<Found>, i: nat, t: Pairing)
    requires i < |found| && AdmitAll(Retained(s, found), found[..i]) == Admitted(t)
    ensures AdmitAll(Retained(s, found), found[..i + 1]) == AdmitOne(t, found[i])
    ensures AdmitOne(t, found[i]).Limit? ==> AdmitAll(Retained(s, found), found) == AdmitOne(t, found[i])
  {
    hide IdOf, AdmitOne;
    assert found[..i + 1][..i] == found[..i];
    if AdmitOne(t, found[i]).Limit? { LimitStays(Retained(s, found), found, i + 1); }
  }

  /** Admitting an address touches nobody else's identity. */
  lemma AdmitChanges(s: Pairing, f: Found)
    requires AdmitOne(s, f).Admitted?
    ensures var t := AdmitOne(s, f).state;
            && f.address in t.ids
            && forall a :: a != f.address ==> (a in s.ids <==> a in t.ids) && (a in s.ids ==> s.ids[a] == t.ids[a])
  {
    hide IdOf;
  }

  lemma {:induction false} LimitStays(s: Pairing, found: seq<Found>, n: nat)
    requires n <= |found| && AdmitAll(s, found[..n]).Limit?
    ensures AdmitAll(s, found) == AdmitAll(s, found[..n])
    decreases |found|
  {
    hide AdmitOne;
    if n == |found| {
      assert found[..n] == found;
    } else {
      var front := found[..|found| - 1];
      assert front[..n] == found[..n];
      LimitStays(s, front, n);
    }
  }

  lemma VisibleNext(s: Pairing, t: Pairing, found: seq<Found>, i: nat)
    requires i < |found| && Distinct(found) && found[i].address in t.ids
    requires forall a :: a != found[i].address ==> (a in s.ids <==> a in t.ids) && (a in s.ids ==> s.ids[a] == t.ids[a])
    ensures VisibleIds(t, found[..i + 1]) == VisibleIds(s, found[..i]) + {t.ids[found[i].address]}
  {
    assert found[..i + 1] == found[..i] + [found[i]];
    forall f | f in found[..i] ensures f.address != found[i].address {
      var j :| 0 <= j < i && found[..i][j] == f;
      assert found[j].address != found[i].address;
    }
  }
}
