/** The preference directory as a disk sees it: what a crash may leave behind, and what reopening makes of it. */
module PreferenceDisk {
  import opened Collections

  datatype Scale = StandardScale | LargeScale
  datatype Contrast = StandardContrast | HighContrast
  datatype Motion = SystemMotion | ReducedMotion
  datatype Seated = StandardSeated | PreferredSeated
  datatype Confirm = South | West
  datatype Cues = CuesOn | CuesOff

  datatype Preferences = Preferences(
    textScale: Scale, contrast: Contrast, motion: Motion, seatedPlay: Seated, confirmButton: Confirm, audioCues: Cues)

  const MAX_DIRECTORY_ENTRIES := 4
  const MAX_ORDINAL: nat := 0xFFFF_FFFF_FFFF_FFFF

  type Ordinal = o: nat | 1 <= o <= MAX_ORDINAL witness 1

  datatype Name = Incoming(ordinal: Ordinal) | Generation(ordinal: Ordinal)

  /** A file's bytes: something that does not parse, or the canonical bytes of one document. */
  datatype Content = Torn | Document(preferences: Preferences)

  type Directory = map<Name, Content>

  /** The states of the generations directory and of the reset marker since each was last synchronized:
      the first is on the platter, the last is what the process sees. */
  datatype Disk = Disk(gens: seq<Directory>, marker: seq<bool>)

  predicate WellFormed(d: Disk) { |d.gens| > 0 && |d.marker| > 0 }

  function Live(d: Disk): Directory
    requires WellFormed(d)
  {
    d.gens[|d.gens| - 1]
  }

  function Marked(d: Disk): bool
    requires WellFormed(d)
  {
    d.marker[|d.marker| - 1]
  }

  // ---- Steps ----

  function Put(d: Disk, n: Name, c: Content): Disk
    requires WellFormed(d)
  {
    d.(gens := d.gens + [Live(d)[n := c]])
  }

  function Drop(d: Disk, n: Name): Disk
    requires WellFormed(d)
  {
    d.(gens := d.gens + [Live(d) - {n}])
  }

  function Move(d: Disk, from: Name, to: Name): Disk
    requires WellFormed(d) && from in Live(d)
  {
    d.(gens := d.gens + [(Live(d) - {from})[to := Live(d)[from]]])
  }

  function SyncGens(d: Disk): Disk
    requires WellFormed(d)
  {
    d.(gens := [Live(d)])
  }

  function SetMarker(d: Disk, present: bool): Disk { d.(marker := d.marker + [present]) }

  function SyncRoot(d: Disk): Disk
    requires WellFormed(d)
  {
    d.(marker := [Marked(d)])
  }

  // ---- Crashes ----

  datatype Entry = Absent | Present(content: Content)

  function Look(dir: Directory, n: Name): Entry {
    if n in dir then Present(dir[n]) else Absent
  }

  ghost predicate KeepsState(gens: seq<Directory>, image: Directory, n: Name) {
    exists i :: 0 <= i < |gens| && Look(image, n) == Look(gens[i], n)
  }

  /** Every name independently keeps one of its states since the last synchronization. */
  ghost predicate Scattered(gens: seq<Directory>, image: Directory) {
    forall n :: KeepsState(gens, image, n)
  }

  /** The file system persists directory updates in order, so a crash keeps one of the states. */
  ghost predicate Ordered(gens: seq<Directory>, image: Directory) { image in gens }

  // ---- Reopening ----

  datatype Outcome = Fresh | Saved(preferences: Preferences) | Rejected | Refused

  ghost function Ordinals(dir: Directory): (r: set<Ordinal>)
    ensures forall o: Ordinal :: o in r <==> Generation(o) in dir
  {
    set n | n in dir && n.Generation? :: n.ordinal
  }

  ghost function Newest(ordinals: set<Ordinal>): (o: Ordinal)
    requires ordinals != {}
    ensures o in ordinals && forall other :: other in ordinals ==> other <= o
    decreases ordinals
  {
    var some :| some in ordinals;
    if ordinals == {some} then some else
    var rest := Newest(ordinals - {some});
    assert forall other :: other in ordinals ==> other == some || other in ordinals - {some};
    if rest < some then some else rest
  }

  ghost predicate IsNewest(dir: Directory, o: Ordinal) {
    Generation(o) in dir && forall other: Ordinal :: Generation(other) in dir ==> other <= o
  }

  /** What the newest generation says, if there is one. */
  ghost function Shown(view: Directory): Outcome {
    if Ordinals(view) == {} then Fresh else OutcomeOf(view[Generation(Newest(Ordinals(view)))])
  }

  lemma ShownNewest(view: Directory, o: Ordinal)
    requires IsNewest(view, o)
    ensures Shown(view) == OutcomeOf(view[Generation(o)]) && Newest(Ordinals(view)) == o
  {
    assert o in Ordinals(view);
  }

  lemma NewestIs(view: Directory)
    requires Ordinals(view) != {}
    ensures IsNewest(view, Newest(Ordinals(view)))
  {
  }

  lemma SameShown(view: Directory, other: Directory)
    requires forall o: Ordinal :: Look(view, Generation(o)) == Look(other, Generation(o))
    ensures Shown(view) == Shown(other)
  {
    forall o: Ordinal ensures o in Ordinals(view) <==> o in Ordinals(other) {
      assert Look(view, Generation(o)) == Look(other, Generation(o));
    }
    assert Ordinals(view) == Ordinals(other);
    if Ordinals(view) != {} {
      assert Look(view, Generation(Newest(Ordinals(view)))) == Look(other, Generation(Newest(Ordinals(view))));
    }
  }

  /** What opening a directory with or without a reset marker reports when no operation fails. */
  ghost function Reopened(image: Directory, marked: bool): Outcome {
    if |image| > MAX_DIRECTORY_ENTRIES then Refused
    else if marked || Ordinals(image) == {} then Fresh
    else if Newest(Ordinals(image)) == MAX_ORDINAL then Refused
    else Shown(image)
  }

  function OutcomeOf(content: Content): Outcome {
    if content.Torn? then Rejected else Saved(content.preferences)
  }

  /** Whatever a crash leaves behind, reopening reports an allowed outcome. */
  ghost predicate CrashSafe(d: Disk, allowed: set<Outcome>) {
    forall image, marked :: Scattered(d.gens, image) && marked in d.marker ==> Reopened(image, marked) in allowed
  }

  /** As `CrashSafe`, when directory updates persist in order. */
  ghost predicate OrderedSafe(d: Disk, allowed: set<Outcome>) {
    forall image, marked :: Ordered(d.gens, image) && marked in d.marker ==> Reopened(image, marked) in allowed
  }

  // ---- What the directory holds ----

  type Index = k: nat | k <= MAX_ORDINAL

  /** Generation `k` (none when zero) holds one of the bases; older ones are superseded, newer ones hold attempts,
      and the newest of each single state is among those shown. */
  datatype Claim = Claim(k: Index, bases: set<Content>, attempts: set<Content>, next: Ordinal, shown: set<Outcome>)

  ghost predicate ViewHolds(view: Directory, c: Claim) {
    && (c.k > 0 ==> Generation(c.k) in view && view[Generation(c.k)] in c.bases)
    && forall o: Ordinal :: Generation(o) in view ==>
         o <= c.next && (o > c.k ==> view[Generation(o)] in c.attempts)
  }

  ghost predicate Holds(gens: seq<Directory>, c: Claim) {
    |gens| > 0 && forall i :: 0 <= i < |gens| ==> ViewHolds(gens[i], c) && Shown(gens[i]) in c.shown
  }

  function OutcomesOf(contents: set<Content>): set<Outcome> { set x | x in contents :: OutcomeOf(x) }

  /** The stored document, or one complete later attempt. */
  function Outcomes(c: Claim): set<Outcome> {
    (if c.k == 0 then {Fresh} else OutcomesOf(c.bases)) + OutcomesOf(c.attempts)
  }

  /** The same, or defaults where a reset marker may be found. */
  function Possible(d: Disk, c: Claim): set<Outcome> {
    Outcomes(c) + (if true in d.marker then {Fresh} else {})
  }

  /** What crashes that keep directory updates in order may end in. */
  function Seen(d: Disk, c: Claim): set<Outcome> {
    c.shown + (if true in d.marker then {Fresh} else {})
  }

  ghost predicate Bounded(gens: seq<Directory>) {
    forall i :: 0 <= i < |gens| ==> |gens[i]| <= MAX_DIRECTORY_ENTRIES
  }

  /** The disk keeps the claim, or a durable marker has made it void. */
  ghost predicate Guarded(d: Disk, c: Claim) {
    WellFormed(d) && Bounded(d.gens) && (Holds(d.gens, c) || false !in d.marker)
  }

  lemma ScatteredHolds(gens: seq<Directory>, c: Claim, image: Directory)
    requires Holds(gens, c) && Scattered(gens, image)
    ensures ViewHolds(image, c)
  {
    if c.k > 0 {
      assert KeepsState(gens, image, Generation(c.k));
      var i :| 0 <= i < |gens| && Look(image, Generation(c.k)) == Look(gens[i], Generation(c.k));
      assert ViewHolds(gens[i], c);
    }
    forall o: Ordinal | Generation(o) in image
      ensures o <= c.next
      ensures o > c.k ==> image[Generation(o)] in c.attempts
    {
      assert KeepsState(gens, image, Generation(o));
      var i :| 0 <= i < |gens| && Look(image, Generation(o)) == Look(gens[i], Generation(o));
      assert ViewHolds(gens[i], c);
    }
  }

  /** Such a directory reopens as its base or as a later attempt, never as anything older or torn. */
  lemma ViewOutcome(image: Directory, c: Claim)
    requires ViewHolds(image, c)
    ensures Reopened(image, false) in Outcomes(c) + {Refused}
    ensures |image| <= MAX_DIRECTORY_ENTRIES && c.next < MAX_ORDINAL ==> Reopened(image, false) in Outcomes(c)
  {
    if |image| <= MAX_DIRECTORY_ENTRIES && Ordinals(image) != {} {
      var newest := Newest(Ordinals(image));
      assert Generation(newest) in image;
      if c.k > 0 {
        assert c.k in Ordinals(image);
      }
    }
  }

  ghost predicate Within(gens: seq<Directory>, names: set<Name>) {
    forall i :: 0 <= i < |gens| ==> gens[i].Keys <= names
  }

  /** The contents of the generations in one state. */
  ghost function Contents(view: Directory): (r: set<Content>)
    ensures forall o: Ordinal :: Generation(o) in view ==> view[Generation(o)] in r
  {
    set n | n in view && n.Generation? :: view[n]
  }

  ghost predicate Stores(gens: seq<Directory>, contents: set<Content>) {
    forall i :: 0 <= i < |gens| ==> Contents(gens[i]) <= contents
  }

  /** The names and generation contents, the same of the live directory, and the marker states that an operation's disk
      states may contain. */
  datatype Scope = Scope(names: set<Name>, contents: set<Content>, live: set<Name>, held: set<Content>, marks: set<bool>)

  ghost predicate InScope(d: Disk, scope: Scope) {
    && Within(d.gens, scope.names) && Stores(d.gens, scope.contents)
    && (d.gens != [] ==> d.gens[|d.gens| - 1].Keys <= scope.live && Contents(d.gens[|d.gens| - 1]) <= scope.held)
    && forall b :: b in d.marker ==> b in scope.marks
  }

  ghost function NamesOf(gens: seq<Directory>): set<Name> {
    set i, n | 0 <= i < |gens| && n in gens[i] :: n
  }

  ghost function ContentsOf(gens: seq<Directory>): (r: set<Content>)
    ensures Stores(gens, r)
  {
    set i, c | 0 <= i < |gens| && c in Contents(gens[i]) :: c
  }

  lemma WithinBounds(gens: seq<Directory>, names: set<Name>, image: Directory)
    requires Within(gens, names) && Scattered(gens, image)
    ensures image.Keys <= names && |image| <= |names|
  {
    forall n | n in image ensures n in names {
      assert KeepsState(gens, image, n);
      var i :| 0 <= i < |gens| && Look(image, n) == Look(gens[i], n);
      assert n in gens[i].Keys;
    }
    SubsetSize(image.Keys, names);
    assert |image.Keys| == |image|;
  }

  /** Atomicity at one disk state. Any crash reopens as the stored document, a complete later attempt, or
      (where a marker may be found) defaults; or the store refuses to open. */
  lemma GuardedSafe(d: Disk, c: Claim)
    requires Guarded(d, c)
    ensures CrashSafe(d, Possible(d, c) + {Refused})
  {
    forall image, marked | Scattered(d.gens, image) && marked in d.marker
      ensures Reopened(image, marked) in Possible(d, c) + {Refused}
    {
      if !marked {
        ScatteredHolds(d.gens, c, image);
        ViewOutcome(image, c);
      }
    }
  }

  /** Refusal is impossible when crashes keep directory updates in order ... */
  lemma OrderedNeverRefused(d: Disk, c: Claim)
    requires Guarded(d, c) && c.next < MAX_ORDINAL
    ensures OrderedSafe(d, Possible(d, c)) && OrderedSafe(d, Seen(d, c))
  {
    forall image, marked | Ordered(d.gens, image) && marked in d.marker
      ensures Reopened(image, marked) in Possible(d, c) && Reopened(image, marked) in Seen(d, c)
    {
      if !marked {
        ScatteredHolds(d.gens, c, image);
        ViewOutcome(image, c);
        OrderedShown(d.gens, c, image);
      }
    }
  }

  lemma OrderedShown(gens: seq<Directory>, c: Claim, image: Directory)
    requires Holds(gens, c) && Ordered(gens, image) && |image| <= MAX_DIRECTORY_ENTRIES && c.next < MAX_ORDINAL
    ensures Reopened(image, false) in c.shown
  {
    var i :| 0 <= i < |gens| && gens[i] == image;
    assert ViewHolds(gens[i], c);
    if Ordinals(image) != {} { NewestIs(image); }
  }

  ghost function ContentIn(gens: seq<Directory>, n: Name): Content
    requires n in NamesOf(gens)
  {
    var i :| 0 <= i < |gens| && n in gens[i];
    gens[i][n]
  }

  /** The largest directory a crash may leave: every name in one of the states that has it. */
  ghost function Everything(gens: seq<Directory>): Directory {
    map n | n in NamesOf(gens) :: ContentIn(gens, n)
  }

  lemma EverythingScattered(gens: seq<Directory>)
    requires |gens| > 0
    ensures Scattered(gens, Everything(gens)) && |Everything(gens)| == |NamesOf(gens)|
  {
    var image := Everything(gens);
    forall n ensures KeepsState(gens, image, n) {
      if n in NamesOf(gens) {
        var i :| 0 <= i < |gens| && n in gens[i] && gens[i][n] == ContentIn(gens, n);
        assert Look(image, n) == Look(gens[i], n);
      } else {
        assert Look(image, n) == Look(gens[0], n);
      }
    }
    assert image.Keys == NamesOf(gens) && |image| == |image.Keys|;
  }

  /** ... and under any crash exactly while at most four names are in play. */
  lemma NeverOverfullIff(gens: seq<Directory>)
    requires |gens| > 0
    ensures (forall image :: Scattered(gens, image) ==> |image| <= MAX_DIRECTORY_ENTRIES)
            <==> |NamesOf(gens)| <= MAX_DIRECTORY_ENTRIES
  {
    EverythingScattered(gens);
    forall image | Scattered(gens, image) ensures |image| <= |NamesOf(gens)| {
      WithinBounds(gens, NamesOf(gens), image);
    }
  }

  lemma OverfullRefused(d: Disk, allowed: set<Outcome>)
    requires WellFormed(d) && |NamesOf(d.gens)| > MAX_DIRECTORY_ENTRIES && Refused !in allowed
    ensures !CrashSafe(d, allowed)
  {
    EverythingScattered(d.gens);
    assert Marked(d) in d.marker && Reopened(Everything(d.gens), Marked(d)) == Refused;
  }

  lemma NeverRefusedIff(d: Disk, c: Claim)
    requires Guarded(d, c) && c.next < MAX_ORDINAL
    ensures CrashSafe(d, Possible(d, c)) <==> |NamesOf(d.gens)| <= MAX_DIRECTORY_ENTRIES
  {
    if |NamesOf(d.gens)| <= MAX_DIRECTORY_ENTRIES {
      FewNamesNeverRefused(d, c, NamesOf(d.gens));
    } else {
      OverfullRefused(d, Possible(d, c));
    }
  }

  lemma FewNamesNeverRefused(d: Disk, c: Claim, names: set<Name>)
    requires Guarded(d, c) && c.next < MAX_ORDINAL
    requires Within(d.gens, names) && |names| <= MAX_DIRECTORY_ENTRIES
    ensures CrashSafe(d, Possible(d, c))
  {
    forall image, marked | Scattered(d.gens, image) && marked in d.marker
      ensures Reopened(image, marked) in Possible(d, c)
    {
      WithinBounds(d.gens, names, image);
      if !marked {
        ScatteredHolds(d.gens, c, image);
        ViewOutcome(image, c);
      }
    }
  }

  // ---- Where the guarantees end ----

  /** A save up to its rename: the incoming file is created, written and moved into place. */
  function Renamed(d: Disk, p: Preferences, next: Ordinal): (r: Disk)
    requires WellFormed(d)
    ensures WellFormed(r) && r.marker == d.marker
  {
    Move(Put(Put(d, Incoming(next), Torn), Incoming(next), Document(p)), Incoming(next), Generation(next))
  }

  lemma RenamedViews(d: Disk, p: Preferences, next: Ordinal)
    requires WellFormed(d)
    ensures Renamed(d, p, next).gens
            == d.gens + [Live(d)[Incoming(next) := Torn], Live(d)[Incoming(next) := Document(p)],
                         (Live(d) - {Incoming(next)})[Generation(next) := Document(p)]]
  {
    assert Live(d)[Incoming(next) := Torn][Incoming(next) := Document(p)] == Live(d)[Incoming(next) := Document(p)];
    assert Live(d)[Incoming(next) := Document(p)] - {Incoming(next)} == Live(d) - {Incoming(next)};
  }

  /** An acknowledged document survives every crash exactly when no crash can bring the marker back:
      a save acknowledged while a failed reset's marker is still there is wiped by the next open. */
  lemma AcknowledgedIffUnmarked(d: Disk, c: Claim, p: Preferences)
    requires WellFormed(d) && Bounded(d.gens) && Holds(d.gens, c)
    requires c.k > 0 && c.bases == {Document(p)} && c.attempts == {}
    ensures CrashSafe(d, {Saved(p), Refused}) <==> true !in d.marker
    ensures c.next < MAX_ORDINAL ==> (OrderedSafe(d, {Saved(p)}) <==> true !in d.marker)
  {
    if true in d.marker {
      MarkedWipes(d, {Saved(p), Refused});
      MarkedWipes(d, {Saved(p)});
    } else {
      GuardedSafe(d, c);
      if c.next < MAX_ORDINAL { OrderedNeverRefused(d, c); }
    }
  }

  lemma LastScattered(gens: seq<Directory>)
    requires |gens| > 0
    ensures Scattered(gens, gens[|gens| - 1]) && Ordered(gens, gens[|gens| - 1])
  {
    var last := gens[|gens| - 1];
    forall n ensures KeepsState(gens, last, n) {
      assert Look(last, n) == Look(gens[|gens| - 1], n);
    }
  }

  /** A reset that could create its marker but not synchronize it, and then a complete acknowledged save of `q`. */
  function SavedOverMarker(p: Preferences, q: Preferences): (d: Disk)
    ensures WellFormed(d)
  {
    var marked := SetMarker(Disk([map[Generation(1) := Document(p)]], [false]), true);
    SyncGens(Drop(SyncGens(Renamed(marked, q, 2)), Generation(1)))
  }

  /** What is acknowledged there reopens as defaults. */
  lemma AcknowledgedSaveWiped(p: Preferences, q: Preferences)
    ensures SavedOverMarker(p, q) == Disk([map[Generation(2) := Document(q)]], [false, true])
    ensures !CrashSafe(SavedOverMarker(p, q), {Saved(q), Refused})
  {
    var first, second: Directory := map[Generation(1) := Document(p)], map[Generation(2) := Document(q)];
    RenamedViews(SetMarker(Disk([first], [false]), true), q, 2);
    assert (first - {Incoming(2)})[Generation(2) := Document(q)] - {Generation(1)} == second;
    assert SavedOverMarker(p, q) == Disk([second], [false, true]);
    MarkedWipes(Disk([second], [false, true]), {Saved(q), Refused});
  }

  lemma MarkedWipes(d: Disk, allowed: set<Outcome>)
    requires WellFormed(d) && true in d.marker && Fresh !in allowed && |Live(d)| <= MAX_DIRECTORY_ENTRIES
    ensures !CrashSafe(d, allowed) && !OrderedSafe(d, allowed)
  {
    LastScattered(d.gens);
    assert Reopened(Live(d), true) == Fresh;
  }

  /** A disk after the removal of the entries listed, none of it synchronized. */
  function DropAll(d: Disk, names: seq<Name>): (r: Disk)
    requires WellFormed(d)
    ensures WellFormed(r) && r.marker == d.marker && d.gens <= r.gens
  {
    if names == [] then d else Drop(DropAll(d, names[..|names| - 1]), names[|names| - 1])
  }

  ghost predicate PartOf(small: Directory, large: Directory) {
    small.Keys <= large.Keys && forall n :: n in small ==> small[n] == large[n]
  }

  lemma {:induction false} DropAllViews(d: Disk, names: seq<Name>)
    requires WellFormed(d)
    ensures Live(DropAll(d, names)).Keys == Live(d).Keys - (set n | n in names)
    ensures forall i :: |d.gens| - 1 <= i < |DropAll(d, names).gens| ==> PartOf(DropAll(d, names).gens[i], Live(d))
    ensures forall i :: |d.gens| - 1 <= i < |DropAll(d, names).gens| ==>
              Live(d).Keys - (set n | n in names) <= DropAll(d, names).gens[i].Keys
  {
    if names != [] {
      DropAllViews(d, names[..|names| - 1]);
      assert names == names[..|names| - 1] + [names[|names| - 1]];
    }
  }

  /** What remains of a claim when any entries may be gone. */
  ghost predicate Remnant(view: Directory, c: Claim) {
    forall o: Ordinal :: Generation(o) in view ==>
      o <= c.next && (o == c.k ==> view[Generation(o)] in c.bases) && (o > c.k ==> view[Generation(o)] in c.attempts)
  }

  ghost predicate SupersededHarmless(gens: seq<Directory>, c: Claim, allowed: set<Outcome>) {
    forall i, o: Ordinal :: 0 <= i < |gens| && Generation(o) in gens[i] && o < c.k
                            ==> OutcomeOf(gens[i][Generation(o)]) in allowed
  }

  lemma RemnantScattered(gens: seq<Directory>, c: Claim, allowed: set<Outcome>, image: Directory)
    requires forall i :: 0 <= i < |gens| ==> Remnant(gens[i], c)
    requires c.next < MAX_ORDINAL && SupersededHarmless(gens, c, allowed)
    requires Outcomes(c) <= allowed && Fresh in allowed && Scattered(gens, image)
    ensures Reopened(image, false) in allowed + {Refused}
  {
    if |image| <= MAX_DIRECTORY_ENTRIES && Ordinals(image) != {} {
      var newest := Newest(Ordinals(image));
      assert Generation(newest) in image && KeepsState(gens, image, Generation(newest));
      var i :| 0 <= i < |gens| && Look(image, Generation(newest)) == Look(gens[i], Generation(newest));
      assert Remnant(gens[i], c);
    }
  }

  lemma LoneGeneration(gens: seq<Directory>, i: nat, o: Ordinal) returns (image: Directory)
    requires i < |gens| && Generation(o) in gens[i] && o != MAX_ORDINAL && gens[|gens| - 1] == map[]
    ensures Scattered(gens, image) && Reopened(image, false) == OutcomeOf(gens[i][Generation(o)])
  {
    image := map[Generation(o) := gens[i][Generation(o)]];
    assert Ordinals(image) == {o} && |image| == 1;
    assert Newest(Ordinals(image)) == o;
    forall n ensures KeepsState(gens, image, n) {
      assert Look(image, n) == Look(gens[if n == Generation(o) then i else |gens| - 1], n);
    }
  }

  lemma RemnantsLeft(d: Disk, c: Claim, names: seq<Name>)
    requires Guarded(d, c) && false in d.marker && forall n :: n in Live(d) ==> n in names
    ensures var e := DropAll(d, names); Live(e) == map[] && forall i :: 0 <= i < |e.gens| ==> Remnant(e.gens[i], c)
  {
    var e := DropAll(d, names);
    DropAllViews(d, names);
    assert Live(e) == map[];
    forall i | 0 <= i < |e.gens| ensures Remnant(e.gens[i], c) {
      assert ViewHolds(if i < |d.gens| then d.gens[i] else Live(d), c);
    }
  }

  lemma HarmlessSuffices(d: Disk, c: Claim, names: seq<Name>)
    requires Guarded(d, c) && false in d.marker && c.next < MAX_ORDINAL && forall n :: n in Live(d) ==> n in names
    requires SupersededHarmless(d.gens, c, Outcomes(c) + {Fresh})
    ensures CrashSafe(DropAll(d, names), Outcomes(c) + {Fresh, Refused})
  {
    RemnantsLeft(d, c, names);
    DropAllViews(d, names);
    HarmlessAfter(d, DropAll(d, names), c);
    hide *;
    RemnantsSafe(DropAll(d, names), c);
  }

  lemma RemnantsSafe(e: Disk, c: Claim)
    requires c.next < MAX_ORDINAL && forall i :: 0 <= i < |e.gens| ==> Remnant(e.gens[i], c)
    requires SupersededHarmless(e.gens, c, Outcomes(c) + {Fresh})
    ensures CrashSafe(e, Outcomes(c) + {Fresh, Refused})
  {
    hide Remnant, SupersededHarmless, Outcomes, Scattered;
    forall image, marked | Scattered(e.gens, image) && marked in e.marker
      ensures Reopened(image, marked) in Outcomes(c) + {Fresh, Refused}
    {
      if !marked { RemnantScattered(e.gens, c, Outcomes(c) + {Fresh}, image); }
    }
  }

  /** Deleting everything while the marker may still be lost is harmless exactly when no superseded
      generation is left on the disk: otherwise that one can come back. */
  lemma UnsettledResetIffSuperseded(d: Disk, c: Claim, names: seq<Name>)
    requires Guarded(d, c) && false in d.marker && c.k <= c.next < MAX_ORDINAL
    requires forall n :: n in Live(d) ==> n in names
    ensures CrashSafe(DropAll(d, names), Outcomes(c) + {Fresh, Refused})
            <==> SupersededHarmless(d.gens, c, Outcomes(c) + {Fresh})
  {
    if SupersededHarmless(d.gens, c, Outcomes(c) + {Fresh}) {
      HarmlessSuffices(d, c, names);
    } else {
      var i, o: Ordinal :| 0 <= i < |d.gens| && Generation(o) in d.gens[i] && o < c.k
                           && OutcomeOf(d.gens[i][Generation(o)]) !in Outcomes(c) + {Fresh};
      SupersededLeft(d, c, names, i, o);
    }
  }

  lemma SupersededLeft(d: Disk, c: Claim, names: seq<Name>, i: nat, o: Ordinal)
    requires Guarded(d, c) && false in d.marker && forall n :: n in Live(d) ==> n in names
    requires i < |d.gens| && Generation(o) in d.gens[i] && o < MAX_ORDINAL
    requires OutcomeOf(d.gens[i][Generation(o)]) !in Outcomes(c) + {Fresh}
    ensures !CrashSafe(DropAll(d, names), Outcomes(c) + {Fresh, Refused})
  {
    RemnantsLeft(d, c, names);
    hide Outcomes, Guarded, Remnant, Reopened;
    var image := LoneGeneration(DropAll(d, names).gens, i, o);
  }

  lemma HarmlessAfter(d: Disk, e: Disk, c: Claim)
    requires WellFormed(d) && d.gens <= e.gens && SupersededHarmless(d.gens, c, Outcomes(c) + {Fresh})
    requires forall i :: |d.gens| - 1 <= i < |e.gens| ==> PartOf(e.gens[i], Live(d))
    ensures SupersededHarmless(e.gens, c, Outcomes(c) + {Fresh})
  {
    forall i, o: Ordinal | 0 <= i < |e.gens| && Generation(o) in e.gens[i] && o < c.k
      ensures OutcomeOf(e.gens[i][Generation(o)]) in Outcomes(c) + {Fresh}
    {
      var j := if i < |d.gens| then i else |d.gens| - 1;
      assert Generation(o) in d.gens[j] && d.gens[j][Generation(o)] == e.gens[i][Generation(o)];
    }
  }

  /** A durable save of `q` over `p` whose cleanup failed. */
  function Uncleaned(p: Preferences, q: Preferences): (d: Disk)
    ensures WellFormed(d)
  {
    SyncGens(Renamed(Disk([map[Generation(1) := Document(p)]], [false]), q, 2))
  }

  /** There `q` survives every crash. After a reset that could not synchronize its marker, and a second one that
      finds the marker and starts deleting, `p` can come back. */
  lemma SupersededReturns(p: Preferences, q: Preferences)
    requires p != q
    ensures CrashSafe(Uncleaned(p, q), {Saved(q)})
    ensures !CrashSafe(Drop(SetMarker(Uncleaned(p, q), true), Generation(2)), {Saved(q), Fresh, Refused})
  {
    hide Renamed, Uncleaned;
    UncleanedViews(p, q);
    var both := Both(p, q);
    var left := both - {Generation(2)};
    BothSafe(p, q);
    LeftReopens(p, q);
    LastScattered([both, left]);
    assert Drop(SetMarker(Uncleaned(p, q), true), Generation(2)) == Disk([both, left], [false, true]);
  }

  function Both(p: Preferences, q: Preferences): Directory { map[Generation(1) := Document(p), Generation(2) := Document(q)] }

  lemma BothSafe(p: Preferences, q: Preferences)
    ensures CrashSafe(Disk([Both(p, q)], [false]), {Saved(q)})
  {
    var d, c := Disk([Both(p, q)], [false]), Claim(2, {Document(q)}, {}, 3, {Saved(q)});
    BothHolds(p, q);
    hide Both, Guarded, Within;
    FewNamesNeverRefused(d, c, Both(p, q).Keys);
  }

  lemma BothHolds(p: Preferences, q: Preferences)
    ensures var d, c := Disk([Both(p, q)], [false]), Claim(2, {Document(q)}, {}, 3, {Saved(q)});
            Guarded(d, c) && Within(d.gens, Both(p, q).Keys) && |Both(p, q).Keys| <= MAX_DIRECTORY_ENTRIES
  {
    assert Both(p, q).Keys == {Generation(1), Generation(2)} && |Both(p, q)| == |Both(p, q).Keys|;
    assert ViewHolds(Both(p, q), Claim(2, {Document(q)}, {}, 3, {Saved(q)}));
    ShownNewest(Both(p, q), 2);
  }

  lemma LeftReopens(p: Preferences, q: Preferences)
    ensures Reopened(Both(p, q) - {Generation(2)}, false) == Saved(p)
  {
    var left := Both(p, q) - {Generation(2)};
    assert left.Keys == {Generation(1)} && Ordinals(left) == {1} && |left| == |left.Keys|;
    assert Newest(Ordinals(left)) == 1;
  }

  lemma UncleanedViews(p: Preferences, q: Preferences)
    ensures Uncleaned(p, q) == Disk([Both(p, q)], [false])
  {
    var first: Directory := map[Generation(1) := Document(p)];
    RenamedViews(Disk([first], [false]), q, 2);
    assert (first - {Incoming(2)})[Generation(2) := Document(q)] == Both(p, q);
  }

  // ---- Opening without a loss of power ----

  /** The generation is in every state that may persist. */
  ghost predicate Everywhere(gens: seq<Directory>, o: Ordinal) {
    forall i :: 0 <= i < |gens| ==> Generation(o) in gens[i]
  }

  function After(o: Ordinal): Ordinal { if o < MAX_ORDINAL then o + 1 else o }

  function Later(o: Ordinal, p: Ordinal): Ordinal { if o < p then p else o }

  /** The claim of a generation that is everywhere. */
  ghost function AtNewest(gens: seq<Directory>, c: Claim, o: Ordinal): Claim {
    Claim(o, set i | 0 <= i < |gens| && Generation(o) in gens[i] :: gens[i][Generation(o)], c.attempts, Later(c.next, After(o)), c.shown)
  }

  lemma AtNewestHolds(gens: seq<Directory>, c: Claim, o: Ordinal)
    requires Holds(gens, c) && Everywhere(gens, o) && c.k <= o
    ensures Holds(gens, AtNewest(gens, c, o)) && Outcomes(AtNewest(gens, c, o)) <= Outcomes(c)
  {
    var n := AtNewest(gens, c, o);
    forall i | 0 <= i < |gens| ensures ViewHolds(gens[i], n) && gens[i][Generation(o)] in (if o == c.k then c.bases else c.attempts) {
      assert ViewHolds(gens[i], c) && gens[i][Generation(o)] in n.bases;
    }
  }

  /** The removals keep a claim whose base they spare, and what the newest generation says. */
  lemma DropAllHolds(d: Disk, c: Claim, o: Ordinal, names: seq<Name>)
    requires WellFormed(d) && Holds(d.gens, c) && IsNewest(Live(d), o) && Generation(o) !in names
    requires forall n :: n in names && n.Generation? ==> n.ordinal != c.k
    ensures Holds(DropAll(d, names).gens, c)
  {
    DropAllViews(d, names);
    var gens := DropAll(d, names).gens;
    ShownNewest(Live(d), o);
    assert ViewHolds(Live(d), c);
    forall i | 0 <= i < |gens| ensures ViewHolds(gens[i], c) && Shown(gens[i]) in c.shown {
      if i < |d.gens| {
        assert gens[i] == d.gens[i];
      } else {
        assert PartOf(gens[i], Live(d)) && Generation(o) in gens[i];
        ShownNewest(gens[i], o);
      }
    }
  }

  lemma {:induction false} DropAllBounded(d: Disk, names: seq<Name>)
    requires WellFormed(d) && Bounded(d.gens)
    ensures Bounded(DropAll(d, names).gens)
  {
    if names != [] {
      var e := DropAll(d, names[..|names| - 1]);
      DropAllBounded(d, names[..|names| - 1]);
      var view := Live(e) - {names[|names| - 1]};
      SubsetSize(view.Keys, Live(e).Keys);
      assert |view| == |view.Keys| && |Live(e)| == |Live(e).Keys|;
    }
  }

  /** Everything but the newest generation. */
  ghost predicate ListsOlder(live: Directory, o: Ordinal, older: seq<Name>) {
    (forall n :: n in older <==> n in live && n != Generation(o)) && forall n :: n in live ==> n.Generation?
  }

  /** Cleaning up before the newest generation is synchronized, as an open after a killed or failed save does, is safe
      under every crash exactly when nothing was stored before or the newest generation is already everywhere:
      otherwise both the stored document and the attempt can be gone. */
  lemma CleaningSafeIff(d: Disk, c: Claim, o: Ordinal, older: seq<Name>)
    requires Guarded(d, c) && true !in d.marker && c.next < MAX_ORDINAL
    requires IsNewest(Live(d), o) && ListsOlder(Live(d), o, older)
    ensures CrashSafe(DropAll(d, older), Outcomes(c) + {Refused}) <==> c.k == 0 || Everywhere(d.gens, o)
  {
    UnmarkedHolds(d, c);
    hide Guarded, Holds, CrashSafe, ListsOlder, Outcomes;
    if c.k == 0 || Everywhere(d.gens, o) {
      CleaningSafe(d, c, o, older);
    } else {
      NeverFresh(c);
      EmptyScattered(d, o, older);
      VanishedUnsafe(DropAll(d, older), Outcomes(c) + {Refused});
    }
  }

  lemma UnmarkedHolds(d: Disk, c: Claim)
    requires Guarded(d, c) && true !in d.marker
    ensures Holds(d.gens, c) && ViewHolds(Live(d), c) && forall b :: b in d.marker ==> !b
  {
    assert d.marker[0] in d.marker && d.marker[0] == false;
  }

  lemma NeverFresh(c: Claim)
    requires c.k > 0
    ensures Fresh !in Outcomes(c)
  {
  }

  lemma VanishedUnsafe(d: Disk, allowed: set<Outcome>)
    requires WellFormed(d) && Scattered(d.gens, map[]) && Fresh !in allowed
    ensures !CrashSafe(d, allowed)
  {
    assert Ordinals(map[]) == {};
    assert d.marker[0] in d.marker && Reopened(map[], d.marker[0]) == Fresh;
  }

  lemma CleaningSafe(d: Disk, c: Claim, o: Ordinal, older: seq<Name>)
    requires Guarded(d, c) && true !in d.marker && Holds(d.gens, c) && c.k <= o
    requires IsNewest(Live(d), o) && ListsOlder(Live(d), o, older) && (c.k == 0 || Everywhere(d.gens, o))
    ensures CrashSafe(DropAll(d, older), Outcomes(c) + {Refused})
  {
    DropAllBounded(d, older);
    if Everywhere(d.gens, o) {
      AtNewestHolds(d.gens, c, o);
      DropAllHolds(d, AtNewest(d.gens, c, o), o, older);
      GuardedSafe(DropAll(d, older), AtNewest(d.gens, c, o));
    } else {
      DropAllHolds(d, c, o, older);
      GuardedSafe(DropAll(d, older), c);
    }
  }

  lemma EmptyScattered(d: Disk, o: Ordinal, older: seq<Name>)
    requires WellFormed(d) && IsNewest(Live(d), o) && ListsOlder(Live(d), o, older) && !Everywhere(d.gens, o)
    ensures Scattered(DropAll(d, older).gens, map[])
  {
    DropAllViews(d, older);
    var e := DropAll(d, older);
    var i :| 0 <= i < |d.gens| && Generation(o) !in d.gens[i];
    forall n ensures KeepsState(e.gens, map[], n) {
      assert Look(map[], n) == Look(e.gens[if n == Generation(o) then i else |e.gens| - 1], n);
    }
  }

  /** Crashes that keep directory updates in order never lose anything there. */
  lemma CleaningOrderedSafe(d: Disk, c: Claim, o: Ordinal, older: seq<Name>)
    requires Guarded(d, c) && true !in d.marker && c.next < MAX_ORDINAL
    requires IsNewest(Live(d), o) && ListsOlder(Live(d), o, older)
    ensures OrderedSafe(DropAll(d, older), c.shown)
  {
    UnmarkedHolds(d, c);
    var e := Claim(0, {}, ContentsOf(d.gens), c.next, c.shown);
    forall i | 0 <= i < |d.gens| ensures ViewHolds(d.gens[i], e) && Shown(d.gens[i]) in e.shown {
      assert ViewHolds(d.gens[i], c);
    }
    DropAllBounded(d, older);
    DropAllHolds(d, e, o, older);
    OrderedNeverRefused(DropAll(d, older), e);
  }

  /** A save of `q` over a durable `p`, killed after its rename: the next process reports `q` and deletes `p` before
      the rename is synchronized, and a loss of power leaves neither. */
  lemma ReopenedUnsynchronized(p: Preferences, q: Preferences)
    ensures var d := Renamed(Disk([map[Generation(1) := Document(p)]], [false]), q, 2);
            && Reopened(Live(d), Marked(d)) == Saved(q)
            && !CrashSafe(Drop(d, Generation(1)), {Saved(p), Saved(q), Rejected, Refused})
  {
    var d := Renamed(Disk([map[Generation(1) := Document(p)]], [false]), q, 2);
    RenamedOver(p, q);
    BothReports(p, q);
    hide Renamed, Both, Reopened, CrashSafe;
    assert DropAll(d, []) == d;
    EmptyScattered(d, 2, [Generation(1)]);
    assert DropAll(d, [Generation(1)]) == Drop(d, Generation(1));
    VanishedUnsafe(Drop(d, Generation(1)), {Saved(p), Saved(q), Rejected, Refused});
  }

  lemma RenamedOver(p: Preferences, q: Preferences)
    ensures var d := Renamed(Disk([map[Generation(1) := Document(p)]], [false]), q, 2);
            && Live(d) == Both(p, q) && d.marker == [false] && Generation(2) !in d.gens[0]
  {
    var first: Directory := map[Generation(1) := Document(p)];
    RenamedViews(Disk([first], [false]), q, 2);
    assert (first - {Incoming(2)})[Generation(2) := Document(q)] == Both(p, q);
  }

  lemma BothReports(p: Preferences, q: Preferences)
    ensures Reopened(Both(p, q), false) == Saved(q) && IsNewest(Both(p, q), 2) && ListsOlder(Both(p, q), 2, [Generation(1)])
  {
    assert Both(p, q).Keys == {Generation(1), Generation(2)} && |Both(p, q)| == |Both(p, q).Keys|;
    ShownNewest(Both(p, q), 2);
  }

  /** A reset of a stored `p` up to its last synchronization: the marker is made durable, the generation and then the
      marker are deleted, but the last deletion is not synchronized. */
  function HalfReset(p: Preferences): (d: Disk)
    ensures WellFormed(d)
  {
    var marked := SyncRoot(SetMarker(Disk([map[Generation(1) := Document(p)]], [false]), true));
    SetMarker(SyncGens(Drop(marked, Generation(1))), false)
  }

  /** The next process finds no marker, and saves `q`: a loss of power brings the marker back. */
  lemma MarkerReturns(p: Preferences, q: Preferences)
    ensures HalfReset(p) == Disk([map[]], [true, false]) && !Marked(HalfReset(p))
    ensures var d := SyncGens(Renamed(HalfReset(p), q, 1));
            Reopened(Live(d), Marked(d)) == Saved(q) && !CrashSafe(d, {Saved(q), Refused})
  {
    assert map[Generation(1) := Document(p)] - {Generation(1)} == map[];
    assert HalfReset(p) == Disk([map[]], [true, false]);
    RenamedViews(HalfReset(p), q, 1);
    var d := SyncGens(Renamed(HalfReset(p), q, 1));
    hide Renamed;
    var only: Directory := map[Generation(1) := Document(q)];
    assert (map[] - {Incoming(1)})[Generation(1) := Document(q)] == only;
    assert d == Disk([only], [true, false]) && |only| == 1;
    ShownNewest(only, 1);
    MarkedWipes(d, {Saved(q), Refused});
  }

  /** A directory with the superseded `p` beneath `q`: an open removes `p` and fails to synchronize, the next process finds
      nothing to clean up, one reset leaves its marker unsynchronized and another deletes `q`. */
  function Leftover(p: Preferences, q: Preferences): (d: Disk)
    ensures WellFormed(d)
  {
    Drop(SetMarker(Drop(Disk([Both(p, q)], [false]), Generation(1)), true), Generation(2))
  }

  /** Then `p`, which nothing has reported, can be back, unless crashes keep directory updates in order. */
  lemma LeftoverReturns(p: Preferences, q: Preferences)
    requires p != q
    ensures Reopened(Both(p, q), false) == Saved(q)
    ensures !CrashSafe(Leftover(p, q), {Saved(q), Fresh, Refused}) && OrderedSafe(Leftover(p, q), {Saved(q), Fresh})
  {
    var d := Leftover(p, q);
    LeftoverStates(p, q);
    hide Both, Reopened, Leftover;
    var image := LoneGeneration(d.gens, 0, 1);
    assert d.marker[0] in d.marker;
  }

  lemma LeftoverStates(p: Preferences, q: Preferences)
    ensures var d := Leftover(p, q);
            && d.marker == [false, true] && |d.gens| == 3 && d.gens[0] == Both(p, q) && d.gens[2] == map[]
            && Generation(1) in Both(p, q) && Both(p, q)[Generation(1)] == Document(p)
    ensures Reopened(Both(p, q), false) == Saved(q)
    ensures forall i, b :: 0 <= i < 3 ==> Reopened(Leftover(p, q).gens[i], b) in {Saved(q), Fresh}
  {
    BothReports(p, q);
    SecondReports(p, q);
    hide Reopened, ListsOlder;
    var second := Both(p, q) - {Generation(1)};
    assert second - {Generation(2)} == map[];
    assert Leftover(p, q).gens == [Both(p, q), second, map[]];
    forall b, i | 0 <= i < 3 ensures Reopened(Leftover(p, q).gens[i], b) in {Saved(q), Fresh} {
      SmallReports(Leftover(p, q).gens[i], b);
    }
  }

  lemma SecondReports(p: Preferences, q: Preferences)
    ensures |Both(p, q)| == 2 && |Both(p, q) - {Generation(1)}| == 1
    ensures Reopened(Both(p, q) - {Generation(1)}, false) == Saved(q) && Reopened(map[], false) == Fresh
  {
    var second := Both(p, q) - {Generation(1)};
    assert Both(p, q).Keys == {Generation(1), Generation(2)} && |Both(p, q)| == |Both(p, q).Keys|;
    assert second.Keys == {Generation(2)} && |second| == |second.Keys|;
    ShownNewest(second, 2);
    assert Ordinals(map[]) == {};
  }

  lemma SmallReports(image: Directory, marked: bool)
    requires |image| <= MAX_DIRECTORY_ENTRIES
    ensures marked ==> Reopened(image, marked) == Fresh
  {
  }

  function FourGenerations(p: Preferences): Directory {
    map[Generation(1) := Document(p), Generation(2) := Document(p), Generation(3) := Document(p), Generation(4) := Document(p)]
  }

  /** Four generations that cleanup could not remove, one removal that went unsynchronized when the next one
      failed, and a publication on top of it. */
  function CrowdedDisk(p: Preferences): (d: Disk)
    ensures WellFormed(d)
  {
    Renamed(Drop(Disk([FourGenerations(p)], [false]), Generation(1)), p, 5)
  }

  lemma CrowdedViews(p: Preferences)
    ensures var gens := CrowdedDisk(p).gens;
            && |gens| == 5 && Bounded(gens) && Generation(5) in gens[4]
            && Generation(1) in gens[0] && Generation(2) in gens[0] && Generation(3) in gens[0] && Generation(4) in gens[0]
  {
    hide FourGenerations, CrowdedDisk;
    var shrunk := FourGenerations(p) - {Generation(1)};
    CrowdedSizes(p);
    CrowdedList(p);
    RoomForOne(shrunk, Incoming(5), Torn);
    RoomForOne(shrunk, Incoming(5), Document(p));
    RoomForOne(shrunk - {Incoming(5)}, Generation(5), Document(p));
  }

  lemma CrowdedList(p: Preferences)
    ensures var first := FourGenerations(p); var shrunk := first - {Generation(1)};
            CrowdedDisk(p).gens == [first, shrunk, shrunk[Incoming(5) := Torn], shrunk[Incoming(5) := Document(p)],
                                    (shrunk - {Incoming(5)})[Generation(5) := Document(p)]]
  {
    hide FourGenerations, Renamed;
    RenamedViews(Drop(Disk([FourGenerations(p)], [false]), Generation(1)), p, 5);
  }

  lemma CrowdedSizes(p: Preferences)
    ensures var first := FourGenerations(p); var shrunk := first - {Generation(1)};
            && Generation(1) in first && Generation(2) in first && Generation(3) in first && Generation(4) in first
            && |first| == 4 && |shrunk| == 3 && |shrunk - {Incoming(5)}| == 3
  {
    var first := FourGenerations(p);
    var shrunk := first - {Generation(1)};
    assert first.Keys == {Generation(1), Generation(2), Generation(3), Generation(4)};
    assert shrunk.Keys == {Generation(2), Generation(3), Generation(4)};
    assert shrunk - {Incoming(5)} == shrunk;
    assert |first| == |first.Keys| && |shrunk| == |shrunk.Keys|;
  }

  lemma RoomForOne(view: Directory, n: Name, content: Content)
    ensures |view[n := content]| <= |view| + 1
  {
    assert view[n := content].Keys == view.Keys + {n};
    assert |view| == |view.Keys| && |view[n := content]| == |view[n := content].Keys|;
  }

  /** Every state of that disk keeps the bound of four, yet a crash that does not keep directory updates in
      order leaves more entries, and the store refuses to open. */
  lemma ScatteredOverflow(p: Preferences)
    ensures Bounded(CrowdedDisk(p).gens) && |NamesOf(CrowdedDisk(p).gens)| > MAX_DIRECTORY_ENTRIES
    ensures !CrashSafe(CrowdedDisk(p), {Fresh, Rejected, Saved(p)})
  {
    CrowdedViews(p);
    hide CrowdedDisk, FourGenerations, CrashSafe;
    CrowdedNames(CrowdedDisk(p).gens);
    OverfullRefused(CrowdedDisk(p), {Fresh, Rejected, Saved(p)});
  }

  lemma CrowdedNames(gens: seq<Directory>)
    requires |gens| == 5 && Generation(5) in gens[4]
    requires Generation(1) in gens[0] && Generation(2) in gens[0] && Generation(3) in gens[0] && Generation(4) in gens[0]
    ensures |NamesOf(gens)| >= 5
  {
    var five := {Generation(1), Generation(2), Generation(3), Generation(4), Generation(5)};
    SubsetSize(five, NamesOf(gens));
  }
}
