/**
 Extraction of listed resources by any number of worklets at once, each of
 which may stop at any step: every file is written aside and moved into place.
 */
module Extract {

  type Path = string
  type Data = seq<char>
  type Files = map<Path, Data>

  /**
   What `readResource` returns, by name; the application's name; the non-empty
   lines of its listing; and where the file system has a resource of some name.
   Any `join` at all will do, so that several names may share one path.
   */
  datatype Package = Package(resources: map<string, Data>, name: string, keys: seq<string>, join: string -> Path) {
    /** The name of the `i`-th resource to extract; the listing comes last. */
    function Source(i: nat): string
      requires i <= |keys|
    {
      name + (if i == |keys| then ".assets" else keys[i])
    }

    /** Where it goes. */
    function Target(i: nat): Path
      requires i <= |keys|
    {
      join(Source(i))
    }

    function Listing(): Path {
      Target(|keys|)
    }

    predicate IsTarget(p: Path) {
      exists i :: 0 <= i <= |keys| && Target(i) == p
    }
  }

  datatype Pc =
    | Starting
    | Next(i: nat)               // About to read and write the `i`-th file
    | Filling(i: nat, tmp: Path) // Its temporary file holds a part of it
    | Filled(i: nat, tmp: Path)  // Its temporary file is whole
    | Done
    | Stopped                    // By a missing resource or a crash

  datatype World = World(files: Files, extractors: map<nat, Pc>)

  datatype Step =
    | Begin(e: nat)
    | CheckListing(e: nat)
    | Create(e: nat, suffix: string)
    | Append(e: nat, part: Data)
    | Finish(e: nat)
    | Rename(e: nat)
    | Crash(e: nat)

  /** The suffix is random, so the temporary name is new and none of the final ones. */
  ghost predicate FreshName(k: Package, w: World, tmp: Path) {
    tmp !in w.files && !k.IsTarget(tmp)
  }

  ghost predicate Enabled(k: Package, w: World, step: Step) {
    match step
    case Begin(e) => e !in w.extractors
    case CheckListing(e) => e in w.extractors && w.extractors[e].Starting?
    case Create(e, suffix) =>
      && e in w.extractors && w.extractors[e].Next? && w.extractors[e].i <= |k.keys|
      && (k.Source(w.extractors[e].i) in k.resources ==>
            FreshName(k, w, k.Target(w.extractors[e].i) + "." + suffix))
    case Append(e, part) =>
      && e in w.extractors && w.extractors[e].Filling? && w.extractors[e].i <= |k.keys|
      && k.Source(w.extractors[e].i) in k.resources
      && part <= k.resources[k.Source(w.extractors[e].i)]
    case Finish(e) => e in w.extractors && w.extractors[e].Filling?
    case Rename(e) => e in w.extractors && w.extractors[e].Filled?
    case Crash(e) => e in w.extractors
  }

  function Set(w: World, e: nat, pc: Pc): World {
    w.(extractors := w.extractors[e := pc])
  }

  function Whole(k: Package, i: nat): Data {
    if i <= |k.keys| && k.Source(i) in k.resources then k.resources[k.Source(i)] else []
  }

  /** What the extractor does after its `i`-th file is in place. */
  function Following(k: Package, i: nat): Pc {
    if i < |k.keys| then Next(i + 1) else Done
  }

  function Do(k: Package, w: World, step: Step): World {
    match step
    case Begin(e) => Set(w, e, Starting)
    case CheckListing(e) =>
      Set(w, e, if k.Listing() in w.files || k.Source(|k.keys|) !in k.resources then Done else Next(0))
    case Create(e, suffix) =>
      if e in w.extractors && w.extractors[e].Next? && w.extractors[e].i <= |k.keys| then
        var i := w.extractors[e].i;
        var tmp := k.Target(i) + "." + suffix;
        if k.Source(i) !in k.resources then Set(w, e, Stopped)
        else Set(w.(files := w.files[tmp := []]), e, Filling(i, tmp))
      else w
    case Append(e, part) =>
      if e in w.extractors && w.extractors[e].Filling? then
        w.(files := w.files[w.extractors[e].tmp := part])
      else w
    case Finish(e) =>
      if e in w.extractors && w.extractors[e].Filling? then
        var (i, tmp) := (w.extractors[e].i, w.extractors[e].tmp);
        Set(w.(files := w.files[tmp := Whole(k, i)]), e, Filled(i, tmp))
      else w
    case Rename(e) =>
      if e in w.extractors && w.extractors[e].Filled? && w.extractors[e].i <= |k.keys| && w.extractors[e].tmp in w.files then
        var (i, tmp) := (w.extractors[e].i, w.extractors[e].tmp);
        Set(w.(files := (w.files - {tmp})[k.Target(i) := w.files[tmp]]), e, Following(k, i))
      else w
    case Crash(e) => Set(w, e, Stopped)
  }

  // Safety

  /** A path holds the whole of a resource that goes there. */
  ghost predicate HoldsWhole(k: Package, files: Files, p: Path) {
    p in files &&
    exists i :: 0 <= i <= |k.keys| && k.Target(i) == p && k.Source(i) in k.resources && files[p] == k.resources[k.Source(i)]
  }

  /** No final path holds anything but the whole of a resource. */
  ghost predicate NothingPartial(k: Package, files: Files) {
    forall p :: p in files && k.IsTarget(p) ==> HoldsWhole(k, files, p)
  }

  /** If the listing is there, so is everything that it lists. */
  ghost predicate ListedIsThere(k: Package, files: Files) {
    k.Listing() in files ==> forall i :: 0 <= i < |k.keys| ==> k.Target(i) in files
  }

  /** The first `n` files are in place. */
  ghost predicate Placed(k: Package, files: Files, n: nat)
    requires n <= |k.keys| + 1
  {
    forall i :: 0 <= i < n ==> k.Target(i) in files
  }

  /** An extractor that is at its `i`-th file found the listing, and every resource before. */
  ghost predicate Reached(k: Package, files: Files, i: nat) {
    i <= |k.keys| && k.Source(|k.keys|) in k.resources && AllPresent(k, i) && Placed(k, files, i)
  }

  ghost predicate ExtractorOk(k: Package, w: World, e: nat)
    requires e in w.extractors
  {
    match w.extractors[e]
    case Next(i) => Reached(k, w.files, i)
    case Filling(i, tmp) => Reached(k, w.files, i) && TmpOk(k, w, i, tmp)
    case Filled(i, tmp) =>
      Reached(k, w.files, i) && TmpOk(k, w, i, tmp) && w.files[tmp] == k.resources[k.Source(i)]
    case Done => k.Source(|k.keys|) in k.resources ==> k.Listing() in w.files
    case _ => true
  }

  ghost predicate TmpOk(k: Package, w: World, i: nat, tmp: Path)
    requires i <= |k.keys|
  {
    k.Source(i) in k.resources && tmp in w.files && !k.IsTarget(tmp)
  }

  predicate Uses(pc: Pc, tmp: Path) {
    (pc.Filling? || pc.Filled?) && pc.tmp == tmp
  }

  /** Extractors do not share temporary files. */
  ghost predicate TmpsApart(w: World) {
    forall e, f, tmp ::
      e in w.extractors && f in w.extractors && Uses(w.extractors[e], tmp) && Uses(w.extractors[f], tmp) ==> e == f
  }

  ghost predicate Inv(k: Package, w: World) {
    && NothingPartial(k, w.files)
    && (forall e :: e in w.extractors ==> ExtractorOk(k, w, e))
    && TmpsApart(w)
  }

  /**
   A key that names the listing itself makes it appear early. That does no harm
   exactly when by then everything listed is in place, or extraction never gets
   that far.
   */
  ghost predicate KeysSafe(k: Package) {
    k.Source(|k.keys|) in k.resources ==>
    forall j :: 0 <= j < |k.keys| && k.Target(j) == k.Listing() && AllPresent(k, j + 1) ==>
                forall m :: j < m < |k.keys| ==> exists i :: 0 <= i <= j && k.Target(i) == k.Target(m)
  }

  /** The first `n` files exist as resources. */
  ghost predicate AllPresent(k: Package, n: nat)
    requires n <= |k.keys| + 1
  {
    forall i :: 0 <= i < n ==> k.Source(i) in k.resources
  }

  /** A change of the files that keeps final paths, and gives new ones whole. */
  ghost predicate Grows(k: Package, files: Files, files': Files) {
    forall p :: k.IsTarget(p) && p in files ==> p in files'
  }

  lemma OthersKept(k: Package, w: World, w': World, e: nat)
    requires Inv(k, w) && e in w'.extractors && w'.extractors == w.extractors[e := w'.extractors[e]]
    requires Grows(k, w.files, w'.files)
    requires forall f, tmp :: f in w.extractors && f != e && Uses(w.extractors[f], tmp) ==>
               tmp in w'.files && w'.files[tmp] == w.files[tmp]
    ensures forall f :: f in w.extractors && f != e ==> ExtractorOk(k, w', f)
  {
    forall f | f in w.extractors && f != e
      ensures ExtractorOk(k, w', f)
    {
      assert ExtractorOk(k, w, f);
      assert w'.extractors[f] == w.extractors[f];
      var pc := w.extractors[f];
      if pc.Next? || pc.Filling? || pc.Filled? {
        forall i | 0 <= i < pc.i
          ensures k.Target(i) in w'.files
        {
          assert k.IsTarget(k.Target(i));
        }
      }
      if pc.Filling? || pc.Filled? {
        assert Uses(pc, pc.tmp);
      }
    }
  }

  lemma CreateKeepsInv(k: Package, w: World, e: nat, suffix: string)
    requires Inv(k, w) && Enabled(k, w, Create(e, suffix))
    ensures Inv(k, Do(k, w, Create(e, suffix)))
  {
    var w' := Do(k, w, Create(e, suffix));
    assert ExtractorOk(k, w, e);
    forall f, tmp | f in w.extractors && Uses(w.extractors[f], tmp)
      ensures tmp in w.files
    {
      assert ExtractorOk(k, w, f);
    }
    OthersKept(k, w, w', e);
    assert ExtractorOk(k, w', e);
  }

  lemma FillKeepsInv(k: Package, w: World, step: Step)
    requires Inv(k, w) && Enabled(k, w, step) && (step.Append? || step.Finish?)
    ensures Inv(k, Do(k, w, step))
  {
    var e := step.e;
    var w' := Do(k, w, step);
    assert ExtractorOk(k, w, e);
    assert Uses(w.extractors[e], w.extractors[e].tmp);
    forall f, tmp | f in w.extractors && f != e && Uses(w.extractors[f], tmp)
      ensures tmp in w'.files && w'.files[tmp] == w.files[tmp]
    {
      assert ExtractorOk(k, w, f);
    }
    OthersKept(k, w, w', e);
    assert ExtractorOk(k, w', e);
    if step.Finish? {
      assert TmpsApart(w') by {
        forall a, b, tmp | a in w'.extractors && b in w'.extractors
                           && Uses(w'.extractors[a], tmp) && Uses(w'.extractors[b], tmp)
          ensures a == b
        {
          assert Uses(w.extractors[a], tmp) && Uses(w.extractors[b], tmp);
        }
      }
    }
  }

  lemma RenameKeepsInv(k: Package, w: World, e: nat)
    requires Inv(k, w) && Enabled(k, w, Rename(e))
    ensures Inv(k, Do(k, w, Rename(e)))
  {
    var w' := Do(k, w, Rename(e));
    assert ExtractorOk(k, w, e);
    var i, tmp := w.extractors[e].i, w.extractors[e].tmp;
    assert Uses(w.extractors[e], tmp);
    assert k.IsTarget(k.Target(i));
    forall f, other | f in w.extractors && f != e && Uses(w.extractors[f], other)
      ensures other in w'.files && w'.files[other] == w.files[other]
    {
      assert ExtractorOk(k, w, f);
    }
    OthersKept(k, w, w', e);
    forall n | 0 <= n <= i
      ensures k.Target(n) in w'.files
    {
      assert k.IsTarget(k.Target(n));
    }
    assert ExtractorOk(k, w', e);
  }

  lemma StepKeepsInv(k: Package, w: World, step: Step)
    requires Inv(k, w) && Enabled(k, w, step)
    ensures Inv(k, Do(k, w, step))
  {
    match step
    case Create(e, suffix) => CreateKeepsInv(k, w, e, suffix);
    case Append(_, _) => FillKeepsInv(k, w, step);
    case Finish(_) => FillKeepsInv(k, w, step);
    case Rename(e) => RenameKeepsInv(k, w, e);
    case Begin(e) => OthersKept(k, w, Do(k, w, step), e);
    case CheckListing(e) => OthersKept(k, w, Do(k, w, step), e);
    case Crash(e) => OthersKept(k, w, Do(k, w, step), e);
  }

  ghost predicate Complete(k: Package, w: World) {
    Inv(k, w) && ListedIsThere(k, w.files)
  }

  lemma ListingIsTarget(k: Package)
    ensures k.IsTarget(k.Listing())
  {
    assert k.Target(|k.keys|) == k.Listing();
  }

  /** If the `i`-th file makes the listing appear, then everything listed is in place by then. */
  lemma ListingFindsAll(k: Package, files: Files, i: nat, m: nat)
    requires KeysSafe(k) && m < |k.keys| && i <= |k.keys| && k.Target(i) == k.Listing()
    requires k.Source(|k.keys|) in k.resources && AllPresent(k, i + 1) && Placed(k, files, i + 1)
    ensures k.Target(m) in files
  {
    if m > i {
      var n :| 0 <= n <= i && k.Target(n) == k.Target(m);
    }
  }

  lemma RenameKeepsComplete(k: Package, w: World, e: nat)
    requires Complete(k, w) && KeysSafe(k) && Enabled(k, w, Rename(e))
    ensures ListedIsThere(k, Do(k, w, Rename(e)).files)
  {
    var w' := Do(k, w, Rename(e));
    assert ExtractorOk(k, w, e);
    var i, tmp := w.extractors[e].i, w.extractors[e].tmp;
    RenameKeepsInv(k, w, e);
    ListingIsTarget(k);
    RenamePlaces(k, w, e);
    if k.Listing() in w'.files && k.Listing() !in w.files {
      forall m | 0 <= m < |k.keys|
        ensures k.Target(m) in w'.files
      {
        ListingFindsAll(k, w'.files, i, m);
      }
    }
  }

  /** A rename puts the next file in place, and takes no final path away. */
  lemma RenamePlaces(k: Package, w: World, e: nat)
    requires Inv(k, w) && Enabled(k, w, Rename(e))
    ensures w.extractors[e].i <= |k.keys|
    ensures var i, w' := w.extractors[e].i, Do(k, w, Rename(e));
            && (forall p :: k.IsTarget(p) ==> (p in w'.files <==> p in w.files || p == k.Target(i)))
            && Placed(k, w'.files, i + 1)
            && (ListedIsThere(k, w.files) && k.Listing() in w.files ==> ListedIsThere(k, w'.files))
  {
    assert ExtractorOk(k, w, e);
    assert forall n :: 0 <= n <= |k.keys| ==> k.IsTarget(k.Target(n));
  }

  lemma StepKeepsComplete(k: Package, w: World, step: Step)
    requires Complete(k, w) && KeysSafe(k) && Enabled(k, w, step)
    ensures Complete(k, Do(k, w, step))
  {
    StepKeepsInv(k, w, step);
    if step.Rename? {
      RenameKeepsComplete(k, w, step.e);
    } else {
      OnlyRenamePlaces(k, w, step);
    }
  }

  lemma OnlyRenamePlaces(k: Package, w: World, step: Step)
    requires Inv(k, w) && Enabled(k, w, step) && !step.Rename?
    ensures forall p :: k.IsTarget(p) ==> (p in w.files <==> p in Do(k, w, step).files)
    ensures ListedIsThere(k, w.files) ==> ListedIsThere(k, Do(k, w, step).files)
  {
    if step.Append? || step.Finish? {
      assert ExtractorOk(k, w, step.e);
    }
    ListingIsTarget(k);
    assert forall i :: 0 <= i < |k.keys| ==> k.IsTarget(k.Target(i));
  }

  ghost predicate Legal(k: Package, w: World, steps: seq<Step>)
    decreases |steps|
  {
    steps == [] || (Enabled(k, w, steps[0]) && Legal(k, Do(k, w, steps[0]), steps[1..]))
  }

  function After(k: Package, w: World, steps: seq<Step>): World
    decreases |steps|
  {
    if steps == [] then w else After(k, Do(k, w, steps[0]), steps[1..])
  }

  /** No worklet is extracting, and what earlier ones left is whole. */
  ghost predicate Initial(k: Package, w: World) {
    w.extractors == map[] && NothingPartial(k, w.files) && ListedIsThere(k, w.files)
  }

  lemma {:induction false} RunKeepsInv(k: Package, w: World, steps: seq<Step>)
    requires Inv(k, w) && Legal(k, w, steps)
    ensures Inv(k, After(k, w, steps))
    decreases |steps|
  {
    if steps != [] {
      StepKeepsInv(k, w, steps[0]);
      RunKeepsInv(k, Do(k, w, steps[0]), steps[1..]);
    }
  }

  lemma {:induction false} RunKeepsComplete(k: Package, w: World, steps: seq<Step>)
    requires Complete(k, w) && KeysSafe(k) && Legal(k, w, steps)
    ensures Complete(k, After(k, w, steps))
    decreases |steps|
  {
    if steps != [] {
      StepKeepsComplete(k, w, steps[0]);
      RunKeepsComplete(k, Do(k, w, steps[0]), steps[1..]);
    }
  }

  /** However many extractors run, and wherever each stops, a final path holds its whole resource or nothing. */
  lemma FinalPathsAreWhole(k: Package, w: World, steps: seq<Step>)
    requires Initial(k, w) && Legal(k, w, steps)
    ensures NothingPartial(k, After(k, w, steps).files)
  {
    RunKeepsInv(k, w, steps);
  }

  /** Any extractor may stop at any point, leaves the files as they are, and takes no further step. */
  lemma StopsAnywhere(k: Package, w: World, e: nat, step: Step)
    requires e in w.extractors
    ensures Enabled(k, w, Crash(e)) && Do(k, w, Crash(e)).files == w.files
    ensures step.e == e && Enabled(k, Do(k, w, Crash(e)), step) ==> step.Crash?
  {
  }

  /** An extractor that is done has left the listing in place, if there is one at all. */
  lemma DoneMeansListed(k: Package, w: World, steps: seq<Step>, e: nat)
    requires Initial(k, w) && Legal(k, w, steps)
    ensures var t := After(k, w, steps);
            e in t.extractors && t.extractors[e].Done? && k.Source(|k.keys|) in k.resources ==> k.Listing() in t.files
  {
    RunKeepsInv(k, w, steps);
    var t := After(k, w, steps);
    assert e in t.extractors ==> ExtractorOk(k, t, e);
  }

  /** No extractor is past its look at the listing and still to write. */
  ghost predicate Idle(w: World) {
    forall e :: e in w.extractors ==> w.extractors[e].Starting? || w.extractors[e].Done? || w.extractors[e].Stopped?
  }

  /** Where the listing is there already, nothing is written, however many extractors begin. */
  lemma {:induction false} ListedIsLeftAlone(k: Package, w: World, steps: seq<Step>)
    requires Idle(w) && Legal(k, w, steps) && (k.Listing() in w.files || k.Source(|k.keys|) !in k.resources)
    ensures After(k, w, steps).files == w.files && Idle(After(k, w, steps))
    decreases |steps|
  {
    if steps != [] {
      assert Idle(Do(k, w, steps[0])) && Do(k, w, steps[0]).files == w.files;
      ListedIsLeftAlone(k, Do(k, w, steps[0]), steps[1..]);
    }
  }

  /** The listing's presence means that everything listed is there, in every run, exactly for safe keys. */
  lemma ListingComesLastExactly(k: Package)
    ensures (forall w, steps :: Initial(k, w) && Legal(k, w, steps) ==> ListedIsThere(k, After(k, w, steps).files))
            <==> KeysSafe(k)
  {
    if KeysSafe(k) {
      forall w, steps | Initial(k, w) && Legal(k, w, steps)
        ensures ListedIsThere(k, After(k, w, steps).files)
      {
        RunKeepsComplete(k, w, steps);
      }
    } else {
      var w := World(map[], map[]);
      var steps := UnsafeRun(k);
      assert Initial(k, w) && Legal(k, w, steps) && !ListedIsThere(k, After(k, w, steps).files);
    }
  }

  /** Keys that begin with a slash are safe, if the join leaves what they add to the application's name as it stands. */
  lemma SlashedKeysAreSafe(k: Package, base: Path)
    requires forall i :: 0 <= i < |k.keys| ==> "/" <= k.keys[i] && k.Target(i) == base + k.keys[i]
    requires k.Listing() == base + ".assets"
    ensures KeysSafe(k)
  {
    forall j | 0 <= j < |k.keys|
      ensures k.Target(j) != k.Listing()
    {
      assert k.Target(j)[|base|] == '/' && k.Listing()[|base|] == '.';
    }
  }

  /** A key that the join maps onto the listing is not, whatever it begins with, if anything new comes after it. */
  lemma KeyOntoListingIsUnsafe(k: Package, j: nat)
    requires j + 1 < |k.keys| && k.join(k.name + k.keys[j]) == k.join(k.name + ".assets")
    requires k.name + ".assets" in k.resources && AllPresent(k, j + 1)
    requires forall i :: 0 <= i <= j ==> k.Target(i) != k.Target(j + 1)
    ensures !KeysSafe(k)
  {
    assert k.Target(j) == k.Listing();
  }

  // A run that shows the listing too early

  function Concat(paths: seq<string>): string {
    if paths == [] then "" else paths[0] + Concat(paths[1..])
  }

  lemma {:induction false} ConcatIsLonger(paths: seq<string>, i: nat)
    requires i < |paths|
    ensures |paths[i]| <= |Concat(paths)|
  {
    if i > 0 {
      ConcatIsLonger(paths[1..], i - 1);
    }
  }

  /** The final paths. */
  function Targets(k: Package): seq<Path> {
    seq(|k.keys| + 1, i requires 0 <= i <= |k.keys| => k.Target(i))
  }

  /** A suffix too long for any final path to end in it. */
  function LongSuffix(k: Package): string {
    Concat(Targets(k))
  }

  lemma LongIsFresh(k: Package, i: nat)
    requires i <= |k.keys|
    ensures !k.IsTarget(k.Target(i) + "." + LongSuffix(k))
  {
    forall n | 0 <= n <= |k.keys|
      ensures |k.Target(n)| < |k.Target(i) + "." + LongSuffix(k)|
    {
      assert Targets(k)[n] == k.Target(n);
      ConcatIsLonger(Targets(k), n);
    }
  }

  lemma Prefix(k: Package, w: World, step: Step, rest: seq<Step>) returns (steps: seq<Step>)
    requires Enabled(k, w, step) && Legal(k, Do(k, w, step), rest)
    ensures Legal(k, w, steps) && After(k, w, steps) == After(k, Do(k, w, step), rest)
  {
    steps := [step] + rest;
    assert steps[1..] == rest;
  }

  /** Where an extractor is that has placed its first `n` files. */
  function PcAt(k: Package, n: nat): Pc {
    if n <= |k.keys| then Next(n) else Done
  }

  /** One extractor, alone, has just placed the first `n` files and nothing else. */
  ghost predicate AloneAt(k: Package, w: World, n: nat)
    requires n <= |k.keys| + 1
  {
    && w.extractors == map[0 := PcAt(k, n)]
    && Placed(k, w.files, n)
    && (forall p :: p in w.files ==> exists i :: 0 <= i < n && k.Target(i) == p)
  }

  lemma PlaceOne(k: Package, w: World, n: nat, rest: seq<Step>, w3: World) returns (steps: seq<Step>)
    requires n <= |k.keys| && AloneAt(k, w, n) && k.Source(n) in k.resources
    requires w3 == World(w.files[k.Target(n) := k.resources[k.Source(n)]], map[0 := PcAt(k, n + 1)])
    requires Legal(k, w3, rest)
    ensures Legal(k, w, steps) && After(k, w, steps) == After(k, w3, rest)
  {
    var tmp := k.Target(n) + "." + LongSuffix(k);
    var w1 := World(w.files[tmp := []], map[0 := Filling(n, tmp)]);
    var w2 := World(w.files[tmp := k.resources[k.Source(n)]], map[0 := Filled(n, tmp)]);
    CreateAlone(k, w, w1, n, tmp);
    WriteAlone(k, w, w1, w2, n, tmp);
    MoveAlone(k, w, w2, w3, n, tmp);
    steps := ThreeSteps(k, w, w1, w2, Create(0, LongSuffix(k)), Finish(0), Rename(0), rest);
  }

  lemma ThreeSteps(k: Package, w: World, w1: World, w2: World, a: Step, b: Step, c: Step, rest: seq<Step>)
    returns (steps: seq<Step>)
    requires Enabled(k, w, a) && Do(k, w, a) == w1
    requires Enabled(k, w1, b) && Do(k, w1, b) == w2
    requires Enabled(k, w2, c) && Legal(k, Do(k, w2, c), rest)
    ensures Legal(k, w, steps) && After(k, w, steps) == After(k, Do(k, w2, c), rest)
  {
    steps := Prefix(k, w2, c, rest);
    steps := Prefix(k, w1, b, steps);
    steps := Prefix(k, w, a, steps);
  }

  lemma CreateAlone(k: Package, w: World, w1: World, n: nat, tmp: Path)
    requires n <= |k.keys| && AloneAt(k, w, n) && k.Source(n) in k.resources
    requires tmp == k.Target(n) + "." + LongSuffix(k)
    requires w1 == World(w.files[tmp := []], map[0 := Filling(n, tmp)])
    ensures tmp !in w.files && Enabled(k, w, Create(0, LongSuffix(k))) && Do(k, w, Create(0, LongSuffix(k))) == w1
  {
    LongIsFresh(k, n);
    assert forall i :: 0 <= i < n ==> k.IsTarget(k.Target(i));
  }

  lemma WriteAlone(k: Package, w: World, w1: World, w2: World, n: nat, tmp: Path)
    requires n <= |k.keys| && k.Source(n) in k.resources
    requires w1 == World(w.files[tmp := []], map[0 := Filling(n, tmp)])
    requires w2 == World(w.files[tmp := k.resources[k.Source(n)]], map[0 := Filled(n, tmp)])
    ensures Do(k, w1, Finish(0)) == w2
  {
    assert w1.files[tmp := k.resources[k.Source(n)]] == w2.files;
  }

  lemma MoveAlone(k: Package, w: World, w2: World, w3: World, n: nat, tmp: Path)
    requires n <= |k.keys| && k.Source(n) in k.resources && tmp !in w.files
    requires w2 == World(w.files[tmp := k.resources[k.Source(n)]], map[0 := Filled(n, tmp)])
    requires w3 == World(w.files[k.Target(n) := k.resources[k.Source(n)]], map[0 := PcAt(k, n + 1)])
    ensures Do(k, w2, Rename(0)) == w3
  {
    assert w2.files - {tmp} == w.files;
  }

  lemma OneMore(k: Package, w: World, w3: World, n: nat)
    requires n <= |k.keys| && AloneAt(k, w, n) && k.Source(n) in k.resources
    requires w3 == World(w.files[k.Target(n) := k.resources[k.Source(n)]], map[0 := PcAt(k, n + 1)])
    ensures AloneAt(k, w3, n + 1)
  {
    forall p | p in w3.files
      ensures exists i :: 0 <= i < n + 1 && k.Target(i) == p
    {
      if p in w.files {
        var i :| 0 <= i < n && k.Target(i) == p;
        assert 0 <= i < n + 1;
      } else {
        assert p == k.Target(n);
      }
    }
  }

  lemma {:induction false} PlaceUpTo(k: Package, w: World, n: nat, last: nat) returns (steps: seq<Step>)
    requires n <= last <= |k.keys| + 1 && AloneAt(k, w, n) && AllPresent(k, last)
    ensures Legal(k, w, steps) && AloneAt(k, After(k, w, steps), last)
    decreases last - n
  {
    if n == last {
      steps := [];
    } else {
      var w3 := World(w.files[k.Target(n) := k.resources[k.Source(n)]], map[0 := PcAt(k, n + 1)]);
      OneMore(k, w, w3, n);
      var rest := PlaceUpTo(k, w3, n + 1, last);
      steps := PlaceOne(k, w, n, rest, w3);
    }
  }

  /** With unsafe keys, one extractor alone shows the listing while a listed resource is missing. */
  lemma UnsafeRun(k: Package) returns (steps: seq<Step>)
    requires !KeysSafe(k)
    ensures var w := World(map[], map[]);
            Legal(k, w, steps) && !ListedIsThere(k, After(k, w, steps).files)
  {
    var j, m :| 0 <= j < |k.keys| && k.Target(j) == k.Listing() && AllPresent(k, j + 1)
                && j < m < |k.keys| && !exists i :: 0 <= i <= j && k.Target(i) == k.Target(m);
    var w0 := World(map[], map[]);
    var w1 := Do(k, w0, Begin(0));
    var w2 := Do(k, w1, CheckListing(0));
    assert k.Source(j) in k.resources;
    assert AloneAt(k, w2, 0);
    steps := PlaceUpTo(k, w2, 0, j + 1);
    var t := After(k, w2, steps);
    assert k.Target(j) in t.files && k.Target(m) !in t.files;
    steps := Prefix(k, w1, CheckListing(0), steps);
    steps := Prefix(k, w0, Begin(0), steps);
  }

  /** If everything is there to read, an extractor can run to its end, and then has placed everything. */
  lemma CompletesAlone(k: Package) returns (steps: seq<Step>)
    requires AllPresent(k, |k.keys| + 1)
    ensures var w := World(map[], map[]);
            Legal(k, w, steps) && After(k, w, steps).extractors == map[0 := Done]
            && Placed(k, After(k, w, steps).files, |k.keys| + 1)
  {
    var w0 := World(map[], map[]);
    var w1 := Do(k, w0, Begin(0));
    var w2 := Do(k, w1, CheckListing(0));
    assert k.Source(|k.keys|) in k.resources;
    assert AloneAt(k, w2, 0);
    steps := PlaceUpTo(k, w2, 0, |k.keys| + 1);
    steps := Prefix(k, w1, CheckListing(0), steps);
    steps := Prefix(k, w0, Begin(0), steps);
  }
}
