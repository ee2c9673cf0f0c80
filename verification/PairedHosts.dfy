/**
 One file of paired hosts, several processes that change it. Changes exclude
 one another by a lock; between them a process trusts what it has in memory
 for as long as the file bears the same stamp, and stamps are never reused.
 */
module PairedHosts {
  import opened Wrappers

  const MAXIMUM_FILE := 1024 * 1024

  datatype Host = Host(
    id: string, name: string, nickname: Option<string>,
    deviceID: string, deviceKey: string, lastAddress: Option<string>)

  /** What the system decides: the order hosts are filed in, which addresses
      are IPv4 ones, and how large a file of them is. */
  datatype Format = Format(sorted: seq<Host> -> seq<Host>, isIPv4: string -> bool, size: seq<Host> -> nat)

  /** Sorting loses nothing and adds nothing. */
  ghost predicate Sorts(fmt: Format)
  {
    forall hosts :: multiset(fmt.sorted(hosts)) == multiset(hosts)
  }

  /** No regular file at the name; or one, and what it decodes to. */
  datatype File = Missing | Regular(stamp: nat, size: nat, decoded: Option<seq<Host>>, writer: Option<nat>)

  function StampOf(f: File): Option<nat>
  {
    if f.Missing? then None else Some(f.stamp)
  }

  /** How a read goes: whole; not at all, the file not opened; or cut short
      after it was. */
  datatype Luck = Complete | NotOpened | CutShort

  /** Only IPv4 addresses are kept. */
  function Cleaned(fmt: Format, hosts: seq<Host>): (r: seq<Host>)
    ensures |r| == |hosts|
    ensures forall i :: 0 <= i < |hosts| ==> r[i] == CleanedHost(fmt, hosts[i])
  {
    if hosts == [] then [] else [CleanedHost(fmt, hosts[0])] + Cleaned(fmt, hosts[1..])
  }

  function CleanedHost(fmt: Format, host: Host): Host
  {
    if host.lastAddress.Some? && !fmt.isIPv4(host.lastAddress.value) then host.(lastAddress := None) else host
  }

  /** The hosts in a file, none when it does not decode. */
  function Hosts(fmt: Format, f: File): seq<Host>
  {
    if f.Missing? || f.decoded.None? then [] else Cleaned(fmt, f.decoded.value)
  }

  /** Past what is read. */
  predicate TooLarge(f: File)
  {
    f.Regular? && f.size > MAXIMUM_FILE
  }

  function Read(fmt: Format, f: File, luck: Luck): (r: (seq<Host>, Option<nat>))
    ensures r.0 == Hosts(fmt, f) || r.0 == []
    ensures r.1.Some? ==> r.1 == StampOf(f)
  {
    if f.Missing? || luck.NotOpened? || f.size > MAXIMUM_FILE then ([], None)
    else if luck.CutShort? then ([], Some(f.stamp))
    else (Hosts(fmt, f), Some(f.stamp))
  }

  /** The file hosts are replaced with. */
  function Written(fmt: Format, hosts: seq<Host>, stamp: nat, writer: Option<nat>): File
  {
    Regular(stamp, fmt.size(fmt.sorted(hosts)), Some(fmt.sorted(hosts)), writer)
  }

  /** A change: what the hosts become, or None when it changes nothing. */
  type Change = seq<Host> -> Option<seq<Host>>

  /** What a file of these hosts ought to hold after a change to them. */
  function Changed(fmt: Format, hosts: seq<Host>, change: Change): seq<Host>
  {
    if change(hosts).None? then hosts else Cleaned(fmt, fmt.sorted(change(hosts).value))
  }

  /** Pairing, for the first time or again: one record, its nickname kept. */
  function PairAgain(paired: Host): Change
  {
    hosts => Some(Others(hosts, paired.id) + [paired.(nickname := NicknameOf(hosts, paired.id))])
  }

  function Others(hosts: seq<Host>, id: string): (r: seq<Host>)
  {
    if hosts == [] then []
    else if hosts[0].id == id then Others(hosts[1..], id)
    else [hosts[0]] + Others(hosts[1..], id)
  }

  function NicknameOf(hosts: seq<Host>, id: string): Option<string>
  {
    if hosts == [] then None else if hosts[0].id == id then hosts[0].nickname else NicknameOf(hosts[1..], id)
  }

  // -------------------------------------------------------------- A process

  /** A process's cache: what it holds and which file that came from; and
      whether it saw another file's stamp and has yet to read it. */
  datatype Cache = Cache(hosts: Option<seq<Host>>, stamp: Option<nat>, looking: bool)

  const EMPTY := Cache(None, None, false)

  function Loaded(fmt: Format, c: Cache, f: File, luck: Luck): (r: Cache)
    ensures r.hosts.Some?
  {
    if c.hosts.Some? then c
    else
      var (hosts, stamp) := Read(fmt, f, luck);
      Cache(Some(hosts), stamp, c.looking)
  }

  /** The cache under the lock: read again unless it came from this file. */
  function Current(fmt: Format, c: Cache, f: File, luck: Luck): (r: Cache)
    requires c.hosts.Some?
    ensures r.hosts.Some?
  {
    if StampOf(f) == c.stamp then c
    else
      var (hosts, stamp) := Read(fmt, f, luck);
      Cache(Some(hosts), stamp, c.looking)
  }

  /** What a change under the lock leaves: the file and this cache. */
  function Modified(fmt: Format, c: Cache, f: File, change: Change, luck: Luck,
                    written: Option<nat>, back: Luck, writer: nat)
    : (r: (Cache, File))
    requires c.hosts.Some?
  {
    var current := Current(fmt, c, f, luck);
    var hosts := change(current.hosts.value);
    if hosts.None? || written.None? then (current, f)
    else
      var file := Written(fmt, hosts.value, written.value, Some(writer));
      (Cache(Some(Read(fmt, file, back).0), written, c.looking), file)
  }

  /** The directory moved: whether that is a file not seen yet. */
  function Looked(c: Cache, f: File): Cache
  {
    c.(looking := StampOf(f) != c.stamp)
  }

  /** The file not seen yet, read; and whether its hosts are news. */
  function Reread(fmt: Format, c: Cache, f: File, luck: Luck): (r: (Cache, bool))
    requires c.hosts.Some?
  {
    var (hosts, stamp) := Read(fmt, f, luck);
    (Cache(Some(hosts), stamp, false), hosts != c.hosts.value)
  }

  // ------------------------------------------------------------- The objects

  class Directory {
    var file: File
    var nextStamp: nat

    constructor (file: File, nextStamp: nat)
      ensures this.file == file && this.nextStamp == nextStamp
    {
      this.file, this.nextStamp := file, nextStamp;
    }

    /** A new file over the old one, unless the disk refuses. */
    method Write(fmt: Format, hosts: seq<Host>, succeeds: bool, writer: Option<nat>) returns (stamp: Option<nat>)
      modifies this
      ensures stamp == if succeeds then Some(old(nextStamp)) else None
      ensures file == (if succeeds then Written(fmt, hosts, old(nextStamp), writer) else old(file))
      ensures nextStamp == old(nextStamp) + (if succeeds then 1 else 0)
    {
      if !succeeds {
        return None;
      }
      file := Written(fmt, hosts, nextStamp, writer);
      stamp := Some(nextStamp);
      nextStamp := nextStamp + 1;
    }

    /** A pairing made by a process that keeps no cache, under the lock. */
    method Pair(fmt: Format, paired: Host, luck: Luck, succeeds: bool) returns (saved: bool)
      modifies this
      ensures saved == succeeds
      ensures var hosts := PairAgain(paired)(Read(fmt, old(file), luck).0).value;
              file == if saved then Written(fmt, hosts, old(nextStamp), None) else old(file)
    {
      var (hosts, _) := Read(fmt, file, luck);
      var record := paired.(nickname := NicknameOf(hosts, paired.id));
      hosts := Others(hosts, paired.id);
      hosts := hosts + [record];
      var stamp := Write(fmt, hosts, succeeds, None);
      saved := stamp.Some?;
    }
  }

  class PairedHostCache {
    const fmt: Format
    const directory: Directory
    const process: nat
    var cache: Option<seq<Host>>
    var cacheStamp: Option<nat>
    var looking: bool

    ghost function Value(): Cache
      reads this
    {
      Cache(cache, cacheStamp, looking)
    }

    constructor (fmt: Format, directory: Directory, process: nat)
      ensures this.fmt == fmt && this.directory == directory && this.process == process && Value() == EMPTY
    {
      this.fmt, this.directory, this.process := fmt, directory, process;
      cache, cacheStamp, looking := None, None, false;
    }

    method LoadedLocked(luck: Luck) returns (hosts: seq<Host>)
      modifies this
      ensures Value() == Loaded(fmt, old(Value()), directory.file, luck) && cache == Some(hosts)
    {
      if cache.Some? {
        return cache.value;
      }
      var (loaded, stamp) := Read(fmt, directory.file, luck);
      cache, cacheStamp := Some(loaded), stamp;
      hosts := loaded;
    }

    /** What `modify` does once it holds the directory's lock. */
    method ModifyLocked(change: Change, luck: Luck, succeeds: bool, back: Luck) returns (written: bool)
      requires cache.Some?
      modifies this, directory
      ensures var stamp := if succeeds then Some(old(directory.nextStamp)) else None;
              (Value(), directory.file)
              == Modified(fmt, old(Value()), old(directory.file), change, luck, stamp, back, process)
      ensures written ==> succeeds && directory.file.Regular? && cacheStamp == StampOf(directory.file)
      ensures !written ==> directory.file == old(directory.file)
    {
      if StampOf(directory.file) != cacheStamp {
        var (current, stamp) := Read(fmt, directory.file, luck);
        cache, cacheStamp := Some(current), stamp;
      }
      var changed := change(cache.value);
      if changed.None? {
        return false;
      }
      var stamp := directory.Write(fmt, changed.value, succeeds, Some(process));
      if stamp.None? {
        return false;
      }
      cache := Some(Read(fmt, directory.file, back).0);
      cacheStamp := stamp;
      written := true;
    }

    method DirectoryChangedLooks()
      modifies this`looking
      ensures Value() == Looked(old(Value()), directory.file)
    {
      looking := StampOf(directory.file) != cacheStamp;
    }

    method DirectoryChangedReads(luck: Luck) returns (changed: bool)
      requires looking && cache.Some?
      modifies this
      ensures (Value(), changed) == Reread(fmt, old(Value()), directory.file, luck)
    {
      looking := false;
      var (current, stamp) := Read(fmt, directory.file, luck);
      cacheStamp := stamp;
      if Some(current) == cache {
        return false;
      }
      cache := Some(current);
      changed := true;
    }
  }

  // --------------------------------------------------------- All the processes

  /** The file and the next stamp; the caches by process; a log of the changes
      written, and one of announcements: to whom, and of which file. */
  datatype World = World(
    file: File, nextStamp: nat, caches: map<nat, Cache>, changes: seq<Change>, announced: seq<(nat, File)>)

  datatype Step =
    | Load(process: nat, luck: Luck)
    | Modify(process: nat, change: Change, luck: Luck, succeeds: bool, back: Luck)
    | Look(process: nat)
    | ReadOn(process: nat, luck: Luck)
    | Pair(paired: Host, luck: Luck, succeeds: bool)

  /** A process holds its own lock from looking to reading on; only a loaded
      one modifies or watches. */
  predicate Enabled(w: World, step: Step)
  {
    match step
    case Load(p, _) => p in w.caches && !w.caches[p].looking
    case Modify(p, _, _, _, _) => p in w.caches && !w.caches[p].looking && w.caches[p].hosts.Some?
    case Look(p) => p in w.caches && !w.caches[p].looking && w.caches[p].hosts.Some?
    case ReadOn(p, _) => p in w.caches && w.caches[p].looking && w.caches[p].hosts.Some?
    case Pair(_, _, _) => true
  }

  function Next(fmt: Format, w: World, step: Step): (r: World)
    requires Enabled(w, step)
  {
    match step
    case Load(p, luck) => w.(caches := w.caches[p := Loaded(fmt, w.caches[p], w.file, luck)])
    case Modify(p, change, luck, succeeds, back) => NextModify(fmt, w, p, change, luck, succeeds, back)
    case Look(p) => w.(caches := w.caches[p := Looked(w.caches[p], w.file)])
    case ReadOn(p, luck) =>
      var (cache, isNews) := Reread(fmt, w.caches[p], w.file, luck);
      w.(caches := w.caches[p := cache], announced := w.announced + if isNews then [(p, w.file)] else [])
    case Pair(paired, luck, succeeds) =>
      if !succeeds then w
      else
        var hosts := PairAgain(paired)(Read(fmt, w.file, luck).0).value;
        w.(file := Written(fmt, hosts, w.nextStamp, None), nextStamp := w.nextStamp + 1,
           changes := w.changes + [PairAgain(paired)])
  }

  function NextModify(fmt: Format, w: World, p: nat, change: Change, luck: Luck, succeeds: bool, back: Luck): (r: World)
    requires p in w.caches && w.caches[p].hosts.Some?
  {
    var stamp := if succeeds then Some(w.nextStamp) else None;
    var (cache, file) := Modified(fmt, w.caches[p], w.file, change, luck, stamp, back, p);
    var wrote := succeeds && change(Current(fmt, w.caches[p], w.file, luck).hosts.value).Some?;
    w.(caches := w.caches[p := cache], file := file,
       nextStamp := w.nextStamp + (if wrote then 1 else 0),
       changes := w.changes + if wrote then [change] else [])
  }

  // --------------------------------------------------------------- Invariants

  /** A cache stamped as the file holds what the file holds. */
  ghost predicate Truthful(fmt: Format, c: Cache, f: File)
  {
    c.hosts.Some? && c.stamp == StampOf(f) ==> c.hosts.value == Hosts(fmt, f)
  }

  ghost predicate AllTruthful(fmt: Format, w: World)
  {
    forall p :: p in w.caches ==> Truthful(fmt, w.caches[p], w.file)
  }

  /** Stamps are of writes already made, and a process whose write the file
      still is has it by its stamp, with nothing left to look at. */
  ghost predicate Good(w: World)
  {
    && (w.file.Regular? ==> w.file.stamp < w.nextStamp)
    && (forall p :: p in w.caches ==> GoodCache(w, p))
  }

  ghost predicate GoodCache(w: World, p: nat)
    requires p in w.caches
  {
    var c := w.caches[p];
    && (c.stamp.Some? ==> c.stamp.value < w.nextStamp)
    && (w.file.Regular? && w.file.writer == Some(p) ==>
          c.hosts.Some? && c.stamp == StampOf(w.file) && !c.looking)
  }

  /** A file of these hosts is one that is read again. */
  predicate Fits(fmt: Format, hosts: seq<Host>)
  {
    fmt.size(fmt.sorted(hosts)) <= MAXIMUM_FILE || hosts == []
  }

  /** A read that does not give the hosts there are. */
  predicate MissesHosts(fmt: Format, f: File, luck: Luck)
  {
    Hosts(fmt, f) != [] && (!luck.Complete? || TooLarge(f))
  }

  /** A read that does not, and is taken for the file all the same. */
  predicate LosesTrack(fmt: Format, f: File, luck: Luck)
  {
    Hosts(fmt, f) != [] && luck.CutShort? && !TooLarge(f)
  }

  /** A write of hosts that its writer then believes are none. */
  predicate Forgets(fmt: Format, hosts: seq<Host>, back: Luck)
  {
    hosts != [] && !(back.Complete? && Fits(fmt, hosts))
  }

  /** What a Modify would write, had it the disk. */
  function ToWrite(fmt: Format, w: World, step: Step): Option<seq<Host>>
    requires step.Modify? && Enabled(w, step)
  {
    step.change(Current(fmt, w.caches[step.process], w.file, step.luck).hosts.value)
  }

  predicate Writes(fmt: Format, w: World, step: Step)
    requires Enabled(w, step)
  {
    match step
    case Modify(_, _, _, succeeds, _) => succeeds && ToWrite(fmt, w, step).Some?
    case Pair(_, _, succeeds) => succeeds
    case _ => false
  }

  /** A step that writes makes its change to the hosts in the file. */
  ghost predicate StartsFromHosts(fmt: Format, w: World, step: Step)
    requires Enabled(w, step)
  {
    if !Writes(fmt, w, step) then true
    else if step.Pair? then Read(fmt, w.file, step.luck).0 == Hosts(fmt, w.file)
    else Current(fmt, w.caches[step.process], w.file, step.luck).hosts.value == Hosts(fmt, w.file)
  }

  /** The steps that do harm: a write that starts from less than there is, or
      that its own process does not read back; and a read cut short that the
      cache takes for the file. A file that cannot be opened does none until
      something is written. */
  predicate Breaks(fmt: Format, w: World, step: Step)
    requires Enabled(w, step)
  {
    match step
    case Load(p, luck) => w.caches[p].hosts.None? && LosesTrack(fmt, w.file, luck)
    case Look(_) => false
    case ReadOn(_, luck) => LosesTrack(fmt, w.file, luck)
    case Pair(_, luck, succeeds) => succeeds && MissesHosts(fmt, w.file, luck)
    case Modify(p, _, luck, _, back) =>
      var stale := w.caches[p].stamp != StampOf(w.file);
      if Writes(fmt, w, step)
      then (stale && MissesHosts(fmt, w.file, luck)) || Forgets(fmt, ToWrite(fmt, w, step).value, back)
      else stale && LosesTrack(fmt, w.file, luck)
  }

  // --------------------------------------------------- What one read can lose

  /** A read gives the hosts in the file if and only if it is complete and
      the file not too large, or there is nothing to miss. */
  lemma ReadIsWhole(fmt: Format, f: File, luck: Luck)
    ensures Read(fmt, f, luck).0 == Hosts(fmt, f) <==> !MissesHosts(fmt, f, luck)
  {
  }

  lemma OneTakenOut(b: seq<Host>, k: nat)
    requires k < |b|
    ensures multiset(b) == multiset(b[..k] + b[k + 1..]) + multiset{b[k]}
  {
    assert b == b[..k] + [b[k]] + b[k + 1..];
  }

  lemma SameWithoutOne(a: multiset<Host>, b: multiset<Host>, host: Host)
    requires a + multiset{host} == b + multiset{host}
    ensures a == b
  {
    assert a == a + multiset{host} - multiset{host} && b == b + multiset{host} - multiset{host};
  }

  lemma WithoutOne(a: seq<Host>, b: seq<Host>, k: nat)
    requires multiset(a) == multiset(b) && a != [] && k < |b| && b[k] == a[0]
    ensures multiset(a[1..]) == multiset(b[..k] + b[k + 1..])
  {
    OneTakenOut(b, k);
    OneTakenOut(a, 0);
    assert a[..0] + a[1..] == a[1..];
    SameWithoutOne(multiset(a[1..]), multiset(b[..k] + b[k + 1..]), a[0]);
  }

  lemma CleanedOfParts(fmt: Format, b: seq<Host>, k: nat)
    requires k < |b|
    ensures Cleaned(fmt, b[..k] + b[k + 1..]) == Cleaned(fmt, b)[..k] + Cleaned(fmt, b)[k + 1..]
  {
  }

  lemma CleanedWithoutOne(fmt: Format, b: seq<Host>, k: nat)
    requires k < |b|
    ensures multiset(Cleaned(fmt, b)) == multiset(Cleaned(fmt, b[..k] + b[k + 1..])) + multiset{CleanedHost(fmt, b[k])}
  {
    CleanedOfParts(fmt, b, k);
    OneTakenOut(Cleaned(fmt, b), k);
  }

  /** Cleaning is host by host, in whatever order. */
  lemma {:induction false} CleanedInAnyOrder(fmt: Format, a: seq<Host>, b: seq<Host>)
    requires multiset(a) == multiset(b)
    ensures multiset(Cleaned(fmt, a)) == multiset(Cleaned(fmt, b))
  {
    if a == [] {
      assert |multiset(b)| == 0;
    } else {
      assert a[0] in multiset(b);
      var k :| 0 <= k < |b| && b[k] == a[0];
      WithoutOne(a, b, k);
      CleanedInAnyOrder(fmt, a[1..], b[..k] + b[k + 1..]);
      SameButForOne(fmt, a, b, k);
    }
  }

  lemma SameButForOne(fmt: Format, a: seq<Host>, b: seq<Host>, k: nat)
    requires a != [] && k < |b| && b[k] == a[0]
    requires multiset(Cleaned(fmt, a[1..])) == multiset(Cleaned(fmt, b[..k] + b[k + 1..]))
    ensures multiset(Cleaned(fmt, a)) == multiset(Cleaned(fmt, b))
  {
    CleanedWithoutOne(fmt, b, k);
    CleanedFirst(fmt, a);
  }

  lemma CleanedFirst(fmt: Format, a: seq<Host>)
    requires a != []
    ensures multiset(Cleaned(fmt, a)) == multiset(Cleaned(fmt, a[1..])) + multiset{CleanedHost(fmt, a[0])}
  {
    assert Cleaned(fmt, a) == [CleanedHost(fmt, a[0])] + Cleaned(fmt, a[1..]);
  }

  /** A change kept whole: the hosts it made are the hosts in the file, none
      lost and none added, but for addresses that are not IPv4. */
  lemma ChangeIsKept(fmt: Format, hosts: seq<Host>, change: Change)
    requires Sorts(fmt) && change(hosts).Some?
    ensures multiset(Changed(fmt, hosts, change)) == multiset(Cleaned(fmt, change(hosts).value))
  {
    CleanedInAnyOrder(fmt, fmt.sorted(change(hosts).value), change(hosts).value);
  }

  /** Hosts written are read back as they were filed if and only if they fit:
      nothing on the way to the disk looks at the size a read refuses. */
  lemma WrittenIsReadBack(fmt: Format, hosts: seq<Host>, stamp: nat, writer: Option<nat>)
    requires Sorts(fmt)
    ensures Read(fmt, Written(fmt, hosts, stamp, writer), Complete).0 == Cleaned(fmt, fmt.sorted(hosts))
       <==> Fits(fmt, hosts)
    ensures MissesHosts(fmt, Written(fmt, hosts, stamp, writer), Complete) <==> !Fits(fmt, hosts)
  {
    assert |multiset(fmt.sorted(hosts))| == |multiset(hosts)|;
    assert hosts == [] ==> fmt.sorted(hosts) == [];
  }

  /** A change starts from what the file holds exactly when the cache came
      from this file, or the read went well and the file can be read, or
      there was nothing to miss. */
  lemma StartsFromTheFile(fmt: Format, c: Cache, f: File, luck: Luck)
    requires c.hosts.Some? && Truthful(fmt, c, f)
    ensures Current(fmt, c, f, luck).hosts.value == Hosts(fmt, f)
        <==> c.stamp == StampOf(f) || !MissesHosts(fmt, f, luck)
  {
  }

  /** A read leaves a truthful cache exactly when it was not cut short on a
      file with hosts in it that it could have read. */
  lemma ReadIsTruthful(fmt: Format, f: File, luck: Luck)
    ensures var (hosts, stamp) := Read(fmt, f, luck);
            Truthful(fmt, Cache(Some(hosts), stamp, false), f)
            <==> !LosesTrack(fmt, f, luck)
  {
  }

  /** So does a process's own write, when what it wrote fits and is read back
      whole, or was nothing. */
  lemma WriteIsTruthful(fmt: Format, hosts: seq<Host>, stamp: nat, writer: Option<nat>, back: Luck)
    requires Sorts(fmt)
    ensures var f := Written(fmt, hosts, stamp, writer);
            Truthful(fmt, Cache(Some(Read(fmt, f, back).0), Some(stamp), false), f)
            <==> !Forgets(fmt, hosts, back)
  {
    assert |multiset(fmt.sorted(hosts))| == |multiset(hosts)|;
  }

  // ------------------------------------------------------------------- A step

  /** Whatever the reads give, every step leaves stamps in order and the
      writer of the file knowing it. */
  lemma StepIsGood(fmt: Format, w: World, step: Step)
    requires Enabled(w, step) && Good(w)
    ensures Good(Next(fmt, w, step))
  {
    var r := Next(fmt, w, step);
    if !step.Pair? {
      assert GoodCache(w, step.process);
    }
    forall p | p in r.caches
      ensures GoodCache(r, p)
    {
      assert GoodCache(w, p);
    }
  }

  /** What one more step announced, if anything. */
  predicate AnnouncesAtMostOne(w: World, r: World, step: Step)
  {
    || r.announced == w.announced
    || (step.ReadOn? && r.announced == w.announced + [(step.process, w.file)])
  }

  lemma StepAnnounces(fmt: Format, w: World, step: Step)
    requires Enabled(w, step)
    ensures AnnouncesAtMostOne(w, Next(fmt, w, step), step)
  {
    assert w.announced + [] == w.announced;
  }

  predicate NotItsOwn(a: (nat, File))
  {
    a.1.Regular? ==> a.1.writer != Some(a.0)
  }

  ghost predicate NoneItsOwn(w: World)
  {
    forall k :: 0 <= k < |w.announced| ==> NotItsOwn(w.announced[k])
  }

  lemma StepTellsOthers(fmt: Format, w: World, step: Step)
    requires Enabled(w, step) && Good(w) && NoneItsOwn(w)
    ensures NoneItsOwn(Next(fmt, w, step))
  {
    StepAnnounces(fmt, w, step);
    if step.ReadOn? {
      assert GoodCache(w, step.process);
    }
  }

  lemma WrittenIsNews(fmt: Format, w: World, hosts: seq<Host>, writer: Option<nat>, p: nat)
    requires Good(w) && p in w.caches
    ensures Truthful(fmt, w.caches[p], Written(fmt, hosts, w.nextStamp, writer))
  {
    assert GoodCache(w, p);
  }

  lemma ReadingBreaks(fmt: Format, w: World, step: Step)
    requires step.Load? || step.Look? || step.ReadOn?
    requires Enabled(w, step) && AllTruthful(fmt, w)
    ensures AllTruthful(fmt, Next(fmt, w, step)) <==> !Breaks(fmt, w, step)
  {
    var (p, r) := (step.process, Next(fmt, w, step));
    assert Truthful(fmt, w.caches[p], w.file);
    if !step.Look? {
      ReadIsTruthful(fmt, w.file, step.luck);
    }
    assert Truthful(fmt, r.caches[p], r.file) <==> !Breaks(fmt, w, step);
    assert forall q :: q in w.caches && q != p ==> r.caches[q] == w.caches[q];
  }

  lemma PairBreaks(fmt: Format, w: World, step: Step)
    requires step.Pair? && Enabled(w, step) && Good(w) && AllTruthful(fmt, w)
    ensures AllTruthful(fmt, Next(fmt, w, step))
    ensures StartsFromHosts(fmt, w, step) <==> !Breaks(fmt, w, step)
  {
    ReadIsWhole(fmt, w.file, step.luck);
    if step.succeeds {
      var hosts := PairAgain(step.paired)(Read(fmt, w.file, step.luck).0).value;
      forall p | p in w.caches
        ensures Truthful(fmt, w.caches[p], Next(fmt, w, step).file)
      {
        WrittenIsNews(fmt, w, hosts, None, p);
      }
    }
  }

  /** The writer's own cache after its write; every other is out of date. */
  lemma WritingBreaks(fmt: Format, w: World, step: Step)
    requires Sorts(fmt) && step.Modify? && Enabled(w, step) && Writes(fmt, w, step)
    requires Good(w) && AllTruthful(fmt, w)
    ensures StartsFromHosts(fmt, w, step)
       <==> w.caches[step.process].stamp == StampOf(w.file) || !MissesHosts(fmt, w.file, step.luck)
    ensures AllTruthful(fmt, Next(fmt, w, step)) <==> !Forgets(fmt, ToWrite(fmt, w, step).value, step.back)
  {
    var (p, r, hosts) := (step.process, Next(fmt, w, step), ToWrite(fmt, w, step).value);
    assert Truthful(fmt, w.caches[p], w.file);
    StartsFromTheFile(fmt, w.caches[p], w.file, step.luck);
    WriteIsTruthful(fmt, hosts, w.nextStamp, Some(p), step.back);
    assert Truthful(fmt, r.caches[p], r.file) <==> !Forgets(fmt, hosts, step.back);
    forall q | q in w.caches && q != p
      ensures Truthful(fmt, r.caches[q], r.file)
    {
      WrittenIsNews(fmt, w, hosts, Some(p), q);
    }
  }

  lemma NotWritingBreaks(fmt: Format, w: World, step: Step)
    requires step.Modify? && Enabled(w, step) && !Writes(fmt, w, step) && AllTruthful(fmt, w)
    ensures AllTruthful(fmt, Next(fmt, w, step))
       <==> w.caches[step.process].stamp == StampOf(w.file) || !LosesTrack(fmt, w.file, step.luck)
  {
    var (p, r) := (step.process, Next(fmt, w, step));
    assert Truthful(fmt, w.caches[p], w.file);
    ReadIsTruthful(fmt, w.file, step.luck);
    assert r.caches[p] == Current(fmt, w.caches[p], w.file, step.luck) && r.file == w.file;
    assert forall q :: q in w.caches && q != p ==> r.caches[q] == w.caches[q];
  }

  /** From caches that are all true, a step writes over nothing unseen and
      leaves them true if and only if it does not break. */
  lemma StepBreaks(fmt: Format, w: World, step: Step)
    requires Sorts(fmt) && Enabled(w, step) && Good(w) && AllTruthful(fmt, w)
    ensures AllTruthful(fmt, Next(fmt, w, step)) && StartsFromHosts(fmt, w, step) <==> !Breaks(fmt, w, step)
  {
    if step.Pair? {
      PairBreaks(fmt, w, step);
    } else if !step.Modify? {
      ReadingBreaks(fmt, w, step);
    } else if Writes(fmt, w, step) {
      WritingBreaks(fmt, w, step);
    } else {
      NotWritingBreaks(fmt, w, step);
    }
  }

  // ----------------------------------------------------------- What is written

  /** Every change that was written, one after another. */
  function Folded(fmt: Format, hosts: seq<Host>, changes: seq<Change>): seq<Host>
  {
    if changes == [] then hosts
    else Changed(fmt, Folded(fmt, hosts, changes[..|changes| - 1]), changes[|changes| - 1])
  }

  lemma FoldedOneMore(fmt: Format, hosts: seq<Host>, changes: seq<Change>, change: Change)
    ensures Folded(fmt, hosts, changes + [change]) == Changed(fmt, Folded(fmt, hosts, changes), change)
  {
    assert (changes + [change])[..|changes|] == changes;
  }

  /** One change more in the log, made to what the file held; or the same
      log and the same file. */
  ghost predicate MakesOneChange(fmt: Format, w: World, r: World, change: Change)
  {
    || (r.changes == w.changes + [change] && Hosts(fmt, r.file) == Changed(fmt, Hosts(fmt, w.file), change))
    || (r.changes == w.changes && r.file == w.file)
  }

  lemma ModifyMakesOneChange(fmt: Format, w: World, step: Step)
    requires step.Modify? && Enabled(w, step) && StartsFromHosts(fmt, w, step)
    ensures MakesOneChange(fmt, w, Next(fmt, w, step), step.change)
  {
    assert w.changes + [] == w.changes;
  }

  lemma PairMakesOneChange(fmt: Format, w: World, step: Step)
    requires step.Pair? && StartsFromHosts(fmt, w, step)
    ensures MakesOneChange(fmt, w, Next(fmt, w, step), PairAgain(step.paired))
  {
  }

  lemma OneChangeIsFolded(fmt: Format, origin: seq<Host>, w: World, r: World, change: Change)
    requires MakesOneChange(fmt, w, r, change) && Hosts(fmt, w.file) == Folded(fmt, origin, w.changes)
    ensures Hosts(fmt, r.file) == Folded(fmt, origin, r.changes)
  {
    FoldedOneMore(fmt, origin, w.changes, change);
  }

  lemma StepIsFolded(fmt: Format, origin: seq<Host>, w: World, step: Step)
    requires Enabled(w, step) && StartsFromHosts(fmt, w, step)
    requires Hosts(fmt, w.file) == Folded(fmt, origin, w.changes)
    ensures Hosts(fmt, Next(fmt, w, step).file) == Folded(fmt, origin, Next(fmt, w, step).changes)
  {
    if step.Modify? {
      ModifyMakesOneChange(fmt, w, step);
      OneChangeIsFolded(fmt, origin, w, Next(fmt, w, step), step.change);
    } else if step.Pair? {
      PairMakesOneChange(fmt, w, step);
      OneChangeIsFolded(fmt, origin, w, Next(fmt, w, step), PairAgain(step.paired));
    }
  }

  // --------------------------------------------------------------------- Runs

  ghost predicate IsRun(fmt: Format, states: seq<World>, steps: seq<Step>)
  {
    && |states| == |steps| + 1
    && (forall i :: 0 <= i < |steps| ==>
          Enabled(states[i], steps[i]) && states[i + 1] == Next(fmt, states[i], steps[i]))
  }

  lemma {:induction false} RunIsGood(fmt: Format, states: seq<World>, steps: seq<Step>, i: nat)
    requires IsRun(fmt, states, steps) && i < |states| && Good(states[0])
    ensures Good(states[i])
  {
    if i > 0 {
      RunIsGood(fmt, states, steps, i - 1);
      assert states[i] == Next(fmt, states[i - 1], steps[i - 1]);
      StepIsGood(fmt, states[i - 1], steps[i - 1]);
    }
  }

  /** In any run at all, with any luck, no process is told of a file it wrote
      itself. */
  lemma {:induction false} OwnWritesAreNotAnnounced(fmt: Format, states: seq<World>, steps: seq<Step>, i: nat)
    requires IsRun(fmt, states, steps) && i < |states| && Good(states[0]) && states[0].announced == []
    ensures NoneItsOwn(states[i])
  {
    if i > 0 {
      OwnWritesAreNotAnnounced(fmt, states, steps, i - 1);
      RunIsGood(fmt, states, steps, i - 1);
      assert states[i] == Next(fmt, states[i - 1], steps[i - 1]);
      StepTellsOthers(fmt, states[i - 1], steps[i - 1]);
    }
  }

  /** Every cache true and every write started from the hosts in the file, as
      far as this. */
  ghost predicate HoldsSoFar(fmt: Format, states: seq<World>, steps: seq<Step>, n: nat)
    requires IsRun(fmt, states, steps) && n <= |steps|
  {
    && (forall i :: 0 <= i <= n ==> AllTruthful(fmt, states[i]))
    && (forall i :: 0 <= i < n ==> StartsFromHosts(fmt, states[i], steps[i]))
  }

  /** Along a run of any processes, however their steps mix, every cache is
      true and every write starts from the hosts in the file if and only if
      no step breaks. */
  lemma {:induction false} HoldsUnlessBroken(fmt: Format, states: seq<World>, steps: seq<Step>, n: nat)
    requires Sorts(fmt) && IsRun(fmt, states, steps) && n <= |steps|
    requires Good(states[0]) && AllTruthful(fmt, states[0])
    ensures HoldsSoFar(fmt, states, steps, n)
            <==> (forall i :: 0 <= i < n ==> !Breaks(fmt, states[i], steps[i]))
    decreases n
  {
    if n > 0 {
      HoldsUnlessBroken(fmt, states, steps, n - 1);
      if HoldsSoFar(fmt, states, steps, n - 1) {
        RunIsGood(fmt, states, steps, n - 1);
        assert AllTruthful(fmt, states[n - 1]);
        StepBreaks(fmt, states[n - 1], steps[n - 1]);
        assert states[n] == Next(fmt, states[n - 1], steps[n - 1]);
      }
    }
  }

  lemma {:induction false} RunIsFolded(fmt: Format, states: seq<World>, steps: seq<Step>, n: nat)
    requires IsRun(fmt, states, steps) && n <= |steps| && states[0].changes == []
    requires HoldsSoFar(fmt, states, steps, n)
    ensures Hosts(fmt, states[n].file) == Folded(fmt, Hosts(fmt, states[0].file), states[n].changes)
    decreases n
  {
    if n > 0 {
      RunIsFolded(fmt, states, steps, n - 1);
      assert states[n] == Next(fmt, states[n - 1], steps[n - 1]);
      StepIsFolded(fmt, Hosts(fmt, states[0].file), states[n - 1], steps[n - 1]);
    }
  }

  /** No lost update, whatever processes there are and however their steps
      mix, while no step breaks: the file holds every change written, each
      made to what the one before it left. */
  lemma NoUpdateIsLost(fmt: Format, states: seq<World>, steps: seq<Step>, n: nat)
    requires Sorts(fmt) && IsRun(fmt, states, steps) && n <= |steps|
    requires Good(states[0]) && AllTruthful(fmt, states[0]) && states[0].changes == []
    requires forall i :: 0 <= i < n ==> !Breaks(fmt, states[i], steps[i])
    ensures Hosts(fmt, states[n].file) == Folded(fmt, Hosts(fmt, states[0].file), states[n].changes)
    ensures AllTruthful(fmt, states[n])
  {
    HoldsUnlessBroken(fmt, states, steps, n);
    RunIsFolded(fmt, states, steps, n);
  }

  /** Any file and processes that have loaded nothing make a good start. */
  lemma FreshProcessesAreGood(fmt: Format, w: World)
    requires forall p :: p in w.caches ==> w.caches[p] == EMPTY
    requires w.file.Regular? ==> w.file.stamp < w.nextStamp && w.file.writer.None?
    ensures Good(w) && AllTruthful(fmt, w)
  {
  }

  /** The file that cannot be opened does its harm at the second try: what
      the first load leaves is known not to be the file, and still it is what
      the change is made to when the file cannot be opened again. */
  lemma NotOpenedLosesAHost(kept: Host, added: Host)
    requires kept != added
    ensures var fmt := Format(hosts => hosts, _ => true, _ => 0);
            var add: Change := hosts => Some(hosts + [added]);
            var w0 := World(Regular(1, 0, Some([kept]), None), 2, map[7 := EMPTY], [], []);
            var w1 := Next(fmt, w0, Load(7, NotOpened));
            var w2 := Next(fmt, w1, Modify(7, add, NotOpened, true, Complete));
            && Good(w0) && AllTruthful(fmt, w1) && Hosts(fmt, w0.file) == [kept] && Hosts(fmt, w2.file) == [added]
  {
    var fmt := Format(hosts => hosts, _ => true, _ => 0);
    var add: Change := hosts => Some(hosts + [added]);
    assert Cleaned(fmt, [kept]) == [kept] && Cleaned(fmt, [added]) == [added];
    var w0 := World(Regular(1, 0, Some([kept]), None), 2, map[7 := EMPTY], [], []);
    var w1 := Next(fmt, w0, Load(7, NotOpened));
    assert w1.caches[7] == Cache(Some([]), None, false);
    assert [] + [added] == [added];
  }

  /** Without whole reads it does not hold: a first read cut short leaves a
      cache that looks current, and the next change writes over a host. */
  lemma CutShortLosesAHost(kept: Host, added: Host)
    requires kept != added
    ensures var fmt := Format(hosts => hosts, _ => true, _ => 0);
            var add: Change := hosts => Some(hosts + [added]);
            var w0 := World(Regular(1, 0, Some([kept]), None), 2, map[7 := EMPTY], [], []);
            var w1 := Next(fmt, w0, Load(7, CutShort));
            var w2 := Next(fmt, w1, Modify(7, add, Complete, true, Complete));
            && Good(w0) && Hosts(fmt, w0.file) == [kept] && Hosts(fmt, w2.file) == [added]
  {
    var fmt := Format(hosts => hosts, _ => true, _ => 0);
    var add: Change := hosts => Some(hosts + [added]);
    assert Cleaned(fmt, [kept]) == [kept] && Cleaned(fmt, [added]) == [added];
    var w0 := World(Regular(1, 0, Some([kept]), None), 2, map[7 := EMPTY], [], []);
    var w1 := Next(fmt, w0, Load(7, CutShort));
    assert w1.caches[7] == Cache(Some([]), Some(1), false);
    assert [] + [added] == [added];
  }

  /** Nor without what is written fitting: two hosts, one too many for the
      size that is read, are written, read back as none, and the next change
      leaves only its own. Every read of it is complete. */
  lemma TooLargeLosesEveryHost(kept: Host, added: Host, last: Host)
    requires kept != added && last != kept && last != added
    ensures var fmt := Format(hosts => hosts, _ => true, hosts => if |hosts| < 2 then 0 else MAXIMUM_FILE + 1);
            var add: Change := hosts => Some(hosts + [added]);
            var addLast: Change := hosts => Some(hosts + [last]);
            var w0 := World(Regular(1, 0, Some([kept]), None), 2, map[7 := EMPTY], [], []);
            var w1 := Next(fmt, w0, Load(7, Complete));
            var w2 := Next(fmt, w1, Modify(7, add, Complete, true, Complete));
            var w3 := Next(fmt, w2, Modify(7, addLast, Complete, true, Complete));
            && Good(w0) && Hosts(fmt, w0.file) == [kept] && Hosts(fmt, w2.file) == [kept, added]
            && Hosts(fmt, w3.file) == [last]
  {
    var fmt := Format(hosts => hosts, _ => true, hosts => if |hosts| < 2 then 0 else MAXIMUM_FILE + 1);
    var add: Change := hosts => Some(hosts + [added]);
    assert Cleaned(fmt, [kept]) == [kept] && Cleaned(fmt, [last]) == [last];
    assert Cleaned(fmt, [kept, added]) == [kept, added];
    var w0 := World(Regular(1, 0, Some([kept]), None), 2, map[7 := EMPTY], [], []);
    var w1 := Next(fmt, w0, Load(7, Complete));
    assert w1.caches[7] == Cache(Some([kept]), Some(1), false);
    var w2 := Next(fmt, w1, Modify(7, add, Complete, true, Complete));
    assert [kept] + [added] == [kept, added];
    assert w2.caches[7] == Cache(Some([]), Some(2), false);
    assert [] + [last] == [last];
  }

  // ------------------------------------------------------------------ Pairing

  /** Pairing again leaves every other host as it was, in order, and one
      record of this one, with the nickname it had. */
  lemma {:induction false} PairingKeepsTheOthers(hosts: seq<Host>, paired: Host)
    ensures var after := PairAgain(paired)(hosts).value;
            && Others(after, paired.id) == Others(hosts, paired.id)
            && after[|after| - 1] == paired.(nickname := NicknameOf(hosts, paired.id))
            && (forall i :: 0 <= i < |after| - 1 ==> after[i].id != paired.id)
            && NicknameOf(after, paired.id) == NicknameOf(hosts, paired.id)
  {
    OthersHaveOtherIds(hosts, paired.id);
    OthersOfOneMore(Others(hosts, paired.id), paired.(nickname := NicknameOf(hosts, paired.id)));
  }

  lemma {:induction false} OthersHaveOtherIds(hosts: seq<Host>, id: string)
    ensures forall i :: 0 <= i < |Others(hosts, id)| ==> Others(hosts, id)[i].id != id
  {
    if hosts != [] {
      OthersHaveOtherIds(hosts[1..], id);
    }
  }

  lemma {:induction false} OthersOfOneMore(others: seq<Host>, last: Host)
    requires forall i :: 0 <= i < |others| ==> others[i].id != last.id
    ensures Others(others + [last], last.id) == others
    ensures NicknameOf(others + [last], last.id) == last.nickname
  {
    if others == [] {
      assert others + [last] == [last];
    } else {
      assert (others + [last])[1..] == others[1..] + [last];
      OthersOfOneMore(others[1..], last);
    }
  }
}
