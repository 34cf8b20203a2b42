/**
 The periodic cleanup: four sweeps over job rows, file rows and stored objects, and one
 over telemetry rows. Each sweep is a function of the store and the time it reads; the
 class runs the loops.
 */
module CleanupCycle {
  import opened Basics

  /** Absent and empty keys are both "" here: the code treats them alike. */
  datatype JobRow = JobRow(guest: bool, created: int, status: JobStatus, objectKey: string, inputFile: string, outputFile: string)

  datatype FileRow = FileRow(expires: Option<int>, created: int, key: string)

  /** Objects by key, with their modification time when the listing reports one. */
  datatype Store = Store(
    jobs: map<nat, JobRow>, files: map<nat, FileRow>, objects: map<string, Option<int>>,
    requestEvents: seq<int>, toolInvocations: seq<int>)   // telemetry rows, by creation time

  /** The retention windows. */
  datatype Windows = Windows(guestJobs: nat, guestFiles: nat, temp: nat, archive: nat, telemetry: nat)

  /** The times read by the five sweeps of one cycle. */
  datatype Clock = Clock(guest: int, files: int, temp: int, archive: int, telemetry: int)

  /** `_input_object_key`: rows written before `object_key` existed fall back to the name. */
  function InputKey(row: JobRow): string {
    if row.objectKey != "" then row.objectKey else row.inputFile
  }

  /** The objects a row names. */
  function JobKeys(row: JobRow): set<string> {
    {InputKey(row), row.outputFile} - {""}
  }

  function FileKeys(row: FileRow): set<string> {
    {row.key} - {""}
  }

  predicate GuestExpired(row: JobRow, w: Windows, now: int) {
    row.guest && row.created < now - w.guestJobs
  }

  predicate FileExpired(row: FileRow, w: Windows, now: int) {
    row.expires.Some? && row.expires.value < now && row.created < now - w.guestFiles
  }

  predicate Archivable(row: JobRow, w: Windows, now: int) {
    row.created < now - w.archive && (row.status == COMPLETED || row.status == FAILED)
  }

  predicate StaleTemp(key: string, modified: Option<int>, w: Windows, now: int) {
    "temp/" <= key && modified.Some? && modified.value < now - w.temp
  }

  // ---------------------------------------------------------------------------
  // The sweeps. `broken` are the keys whose removal raises.
  // ---------------------------------------------------------------------------

  function GuestIds(s: Store, w: Windows, now: int): set<nat> {
    set id | id in s.jobs && GuestExpired(s.jobs[id], w, now)
  }

  function ArchiveIds(s: Store, w: Windows, now: int): set<nat> {
    set id | id in s.jobs && Archivable(s.jobs[id], w, now)
  }

  function FileIds(s: Store, w: Windows, now: int): set<nat> {
    set id | id in s.files && FileExpired(s.files[id], w, now)
  }

  function StaleKeys(s: Store, w: Windows, now: int): set<string> {
    set k | k in s.objects && StaleTemp(k, s.objects[k], w, now)
  }

  function KeysOfJobs(s: Store, ids: set<nat>): set<string> {
    set id, k | id in ids && id in s.jobs && k in JobKeys(s.jobs[id]) :: k
  }

  function KeysOfFiles(s: Store, ids: set<nat>): set<string> {
    set id, k | id in ids && id in s.files && k in FileKeys(s.files[id]) :: k
  }

  function RemoveJobs(s: Store, ids: set<nat>, broken: set<string>): Store {
    s.(jobs := s.jobs - ids, objects := s.objects - (KeysOfJobs(s, ids) - broken))
  }

  function GuestSweep(s: Store, w: Windows, now: int, broken: set<string>): Store {
    RemoveJobs(s, GuestIds(s, w, now), broken)
  }

  function ArchiveSweep(s: Store, w: Windows, now: int, broken: set<string>): Store {
    RemoveJobs(s, ArchiveIds(s, w, now), broken)
  }

  function FileSweep(s: Store, w: Windows, now: int, broken: set<string>): Store {
    var ids := FileIds(s, w, now);
    s.(files := s.files - ids, objects := s.objects - (KeysOfFiles(s, ids) - broken))
  }

  /** A listing that raises ends the temp sweep at once. */
  function TempSweep(s: Store, w: Windows, now: int, listed: bool, broken: set<string>): Store {
    if listed then s.(objects := s.objects - (StaleKeys(s, w, now) - broken)) else s
  }

  function Recent(rows: seq<int>, cutoff: int): seq<int> {
    if rows == [] then []
    else Recent(rows[..|rows| - 1], cutoff) + (if rows[|rows| - 1] < cutoff then [] else [rows[|rows| - 1]])
  }

  function TelemetrySweep(s: Store, w: Windows, now: int): Store {
    s.(requestEvents := Recent(s.requestEvents, now - w.telemetry),
       toolInvocations := Recent(s.toolInvocations, now - w.telemetry))
  }

  /** `_run_cleanup_cycle`. */
  function Cycle(s: Store, w: Windows, c: Clock, listed: bool, broken: set<string>): Store {
    var s1 := GuestSweep(s, w, c.guest, broken);
    var s2 := FileSweep(s1, w, c.files, broken);
    var s3 := TempSweep(s2, w, c.temp, listed, broken);
    var s4 := ArchiveSweep(s3, w, c.archive, broken);
    TelemetrySweep(s4, w, c.telemetry)
  }

  // ---------------------------------------------------------------------------
  // A cycle in closed form
  // ---------------------------------------------------------------------------

  function DoomedJobs(s: Store, w: Windows, c: Clock): set<nat> {
    GuestIds(s, w, c.guest) + ArchiveIds(s, w, c.archive)
  }

  /** Every key the cycle tries to remove. */
  function DoomedKeys(s: Store, w: Windows, c: Clock, listed: bool): set<string> {
    KeysOfJobs(s, DoomedJobs(s, w, c)) + KeysOfFiles(s, FileIds(s, w, c.files))
    + (if listed then StaleKeys(s, w, c.temp) else {})
  }

  /** All rows and objects are judged by the state at the start; the order of the sweeps
      does not matter. */
  function CycleAtOnce(s: Store, w: Windows, c: Clock, listed: bool, broken: set<string>): Store {
    Store(s.jobs - DoomedJobs(s, w, c), s.files - FileIds(s, w, c.files),
          s.objects - (DoomedKeys(s, w, c, listed) - broken),
          Recent(s.requestEvents, c.telemetry - w.telemetry),
          Recent(s.toolInvocations, c.telemetry - w.telemetry))
  }

  /** The store after the first `n` sweeps. */
  function After(s: Store, w: Windows, c: Clock, listed: bool, broken: set<string>, n: nat): Store {
    var s1 := GuestSweep(s, w, c.guest, broken);
    if n == 1 then s1
    else
      var s2 := FileSweep(s1, w, c.files, broken);
      if n == 2 then s2 else TempSweep(s2, w, c.temp, listed, broken)
  }

  lemma RowsAtOnce(s: Store, w: Windows, c: Clock, listed: bool, broken: set<string>)
    ensures var g, a := GuestIds(s, w, c.guest), ArchiveIds(s, w, c.archive);
            var s3 := After(s, w, c, listed, broken, 3);
            && s3.jobs == s.jobs - g && s3.files == s.files - FileIds(s, w, c.files)
            && ArchiveIds(s3, w, c.archive) == a - g
            && (s.jobs - g) - (a - g) == s.jobs - (g + a)
  {
    var s1 := After(s, w, c, listed, broken, 1);
    assert FileIds(s1, w, c.files) == FileIds(s, w, c.files);
  }

  lemma ObjectsAtOnce(s: Store, w: Windows, c: Clock, listed: bool, broken: set<string>)
    ensures var g, f := GuestIds(s, w, c.guest), FileIds(s, w, c.files);
            var stale := if listed then StaleKeys(s, w, c.temp) else {};
            After(s, w, c, listed, broken, 3).objects
              == s.objects - (((KeysOfJobs(s, g) + KeysOfFiles(s, f)) + stale) - broken)
  {
    var s1 := After(s, w, c, listed, broken, 1);
    var s2 := After(s, w, c, listed, broken, 2);
    var g, f := GuestIds(s, w, c.guest), FileIds(s, w, c.files);
    assert FileIds(s1, w, c.files) == f && KeysOfFiles(s1, f) == KeysOfFiles(s, f);
    var gone := KeysOfJobs(s, g) + KeysOfFiles(s, f);
    assert s2.objects == s.objects - (gone - broken);
  }

  /** Sweeping one after the other is judging everything at the start. */
  lemma CycleIsAtOnce(s: Store, w: Windows, c: Clock, listed: bool, broken: set<string>)
    ensures Cycle(s, w, c, listed, broken) == CycleAtOnce(s, w, c, listed, broken)
  {
    var g, a, f := GuestIds(s, w, c.guest), ArchiveIds(s, w, c.archive), FileIds(s, w, c.files);
    var s3 := After(s, w, c, listed, broken, 3);
    RowsAtOnce(s, w, c, listed, broken);
    ObjectsAtOnce(s, w, c, listed, broken);
    KeysSplit(s, s3, g, a);
    var stale := if listed then StaleKeys(s, w, c.temp) else {};
    var early := ((KeysOfJobs(s, g) + KeysOfFiles(s, f)) + stale) - broken;
    var late := KeysOfJobs(s3, a - g) - broken;
    ObjectsSplit(s.objects, early, late);
    assert early + late == DoomedKeys(s, w, c, listed) - broken;
  }

  lemma ObjectsSplit(objects: map<string, Option<int>>, a: set<string>, b: set<string>)
    ensures (objects - a) - b == objects - (a + b)
  {
  }

  lemma KeysSplit(s: Store, s3: Store, g: set<nat>, a: set<nat>)
    requires s3.jobs == s.jobs - g
    ensures KeysOfJobs(s, g + a) == KeysOfJobs(s, g) + KeysOfJobs(s3, a - g)
  {
    forall k | k in KeysOfJobs(s, g + a) ensures k in KeysOfJobs(s, g) + KeysOfJobs(s3, a - g) {
      var id :| id in g + a && id in s.jobs && k in JobKeys(s.jobs[id]);
      if id !in g {
        assert id in a - g && id in s3.jobs && k in JobKeys(s3.jobs[id]);
      }
    }
    forall k | k in KeysOfJobs(s3, a - g) ensures k in KeysOfJobs(s, g + a) {
      var id :| id in a - g && id in s3.jobs && k in JobKeys(s3.jobs[id]);
      assert id in g + a && id in s.jobs && k in JobKeys(s.jobs[id]);
    }
  }

  // ---------------------------------------------------------------------------
  // Two cycles are one
  // ---------------------------------------------------------------------------

  predicate Later(c: Clock, d: Clock) {
    && c.guest <= d.guest && c.files <= d.files && c.temp <= d.temp
    && c.archive <= d.archive && c.telemetry <= d.telemetry
  }

  lemma DoomedGrow(s: Store, w: Windows, c: Clock, d: Clock)
    requires Later(c, d)
    ensures DoomedJobs(s, w, c) <= DoomedJobs(s, w, d)
    ensures FileIds(s, w, c.files) <= FileIds(s, w, d.files)
    ensures StaleKeys(s, w, c.temp) <= StaleKeys(s, w, d.temp)
  {
  }

  lemma RestOfRows(s: Store, w: Windows, c: Clock, d: Clock)
    requires Later(c, d)
    ensures var t := CycleAtOnce(s, w, c, true, {});
            && DoomedJobs(t, w, d) == DoomedJobs(s, w, d) - DoomedJobs(s, w, c)
            && FileIds(t, w, d.files) == FileIds(s, w, d.files) - FileIds(s, w, c.files)
  {
  }

  lemma RestOfKeys(s: Store, w: Windows, c: Clock, d: Clock)
    requires Later(c, d)
    ensures var t := CycleAtOnce(s, w, c, true, {});
            DoomedKeys(s, w, c, true) + DoomedKeys(t, w, d, true) >= DoomedKeys(s, w, d, true)
            && DoomedKeys(t, w, d, true) <= DoomedKeys(s, w, d, true)
            && DoomedKeys(s, w, c, true) <= DoomedKeys(s, w, d, true)
  {
    var t := CycleAtOnce(s, w, c, true, {});
    DoomedGrow(s, w, c, d);
    RestOfRows(s, w, c, d);
    forall k | k in DoomedKeys(s, w, d, true)
      ensures k in DoomedKeys(s, w, c, true) || k in DoomedKeys(t, w, d, true)
    {
      KeyNowOrLater(s, w, c, d, k);
    }
  }

  lemma KeyNowOrLater(s: Store, w: Windows, c: Clock, d: Clock, k: string)
    requires Later(c, d) && k in DoomedKeys(s, w, d, true)
    ensures k in DoomedKeys(s, w, c, true) || k in DoomedKeys(CycleAtOnce(s, w, c, true, {}), w, d, true)
  {
    var t := CycleAtOnce(s, w, c, true, {});
    RestOfRows(s, w, c, d);
    if k in KeysOfJobs(s, DoomedJobs(s, w, d)) {
      var id :| id in DoomedJobs(s, w, d) && id in s.jobs && k in JobKeys(s.jobs[id]);
      if id in DoomedJobs(s, w, c) {
        assert k in KeysOfJobs(s, DoomedJobs(s, w, c));
      } else {
        assert id in t.jobs && k in KeysOfJobs(t, DoomedJobs(t, w, d));
      }
    } else if k in KeysOfFiles(s, FileIds(s, w, d.files)) {
      var id :| id in FileIds(s, w, d.files) && id in s.files && k in FileKeys(s.files[id]);
      if id in FileIds(s, w, c.files) {
        assert k in KeysOfFiles(s, FileIds(s, w, c.files));
      } else {
        assert id in t.files && k in KeysOfFiles(t, FileIds(t, w, d.files));
      }
    } else {
      assert k in StaleKeys(s, w, d.temp);
      if k !in DoomedKeys(s, w, c, true) {
        assert k in t.objects && k in StaleKeys(t, w, d.temp);
      }
    }
  }

  lemma MapSplit<K, V>(rows: map<K, V>, a: set<K>, b: set<K>)
    requires a <= b
    ensures (rows - a) - (b - a) == rows - b
  {
  }

  lemma {:induction false} RecentTwice(rows: seq<int>, a: int, b: int)
    requires a <= b
    ensures Recent(Recent(rows, a), b) == Recent(rows, b)
  {
    if rows != [] {
      var most, last := rows[..|rows| - 1], rows[|rows| - 1];
      RecentTwice(most, a, b);
      if last >= a {
        assert (Recent(most, a) + [last])[..|Recent(most, a)|] == Recent(most, a);
      } else {
        assert Recent(rows, a) == Recent(most, a) && Recent(rows, b) == Recent(most, b);
      }
    }
  }

  lemma TwoObjects(s: Store, w: Windows, c: Clock, d: Clock)
    requires Later(c, d)
    ensures var t := CycleAtOnce(s, w, c, true, {});
            CycleAtOnce(t, w, d, true, {}).objects == CycleAtOnce(s, w, d, true, {}).objects
  {
    var t := CycleAtOnce(s, w, c, true, {});
    RestOfKeys(s, w, c, d);
    var kc, kt := DoomedKeys(s, w, c, true), DoomedKeys(t, w, d, true);
    assert kc - {} == kc && kt - {} == kt;
    ObjectsSplit(s.objects, kc, kt);
    assert kc + kt == DoomedKeys(s, w, d, true) - {};
  }

  /** With storage working and no new data, a cycle followed by a later one leaves exactly
      what the later one alone would have left. */
  lemma TwoCyclesAreOne(s: Store, w: Windows, c: Clock, d: Clock)
    requires Later(c, d)
    ensures Cycle(Cycle(s, w, c, true, {}), w, d, true, {}) == Cycle(s, w, d, true, {})
  {
    var t := CycleAtOnce(s, w, c, true, {});
    CycleIsAtOnce(s, w, c, true, {});
    CycleIsAtOnce(s, w, d, true, {});
    CycleIsAtOnce(t, w, d, true, {});
    TwoAtOnce(s, w, c, d);
  }

  lemma TwoAtOnce(s: Store, w: Windows, c: Clock, d: Clock)
    requires Later(c, d)
    ensures CycleAtOnce(CycleAtOnce(s, w, c, true, {}), w, d, true, {}) == CycleAtOnce(s, w, d, true, {})
  {
    TwoObjects(s, w, c, d);
    RestOfRows(s, w, c, d);
    DoomedGrow(s, w, c, d);
    MapSplit(s.jobs, DoomedJobs(s, w, c), DoomedJobs(s, w, d));
    MapSplit(s.files, FileIds(s, w, c.files), FileIds(s, w, d.files));
    RecentTwice(s.requestEvents, c.telemetry - w.telemetry, d.telemetry - w.telemetry);
    RecentTwice(s.toolInvocations, c.telemetry - w.telemetry, d.telemetry - w.telemetry);
  }

  // ---------------------------------------------------------------------------
  // What surviving rows keep
  // ---------------------------------------------------------------------------

  /** Which job rows go, by their own columns: a guest's row older than the guest window,
      whatever its status, and anybody's finished row older than the archive window. */
  lemma JobGoesExactlyWhen(s: Store, w: Windows, c: Clock, listed: bool, broken: set<string>, id: nat)
    requires id in s.jobs
    ensures var row, t := s.jobs[id], Cycle(s, w, c, listed, broken);
            && (id !in t.jobs <==>
                  || (row.guest && c.guest - row.created > w.guestJobs)
                  || ((row.status == COMPLETED || row.status == FAILED) && c.archive - row.created > w.archive))
            && (id in t.jobs ==> t.jobs[id] == row)
  {
    CycleIsAtOnce(s, w, c, listed, broken);
  }

  /** Which file rows go: those with an expiry in the past that are older than the window. */
  lemma FileGoesExactlyWhen(s: Store, w: Windows, c: Clock, listed: bool, broken: set<string>, id: nat)
    requires id in s.files
    ensures var row, t := s.files[id], Cycle(s, w, c, listed, broken);
            && (id !in t.files <==>
                  row.expires != None && row.expires.value < c.files && c.files - row.created > w.guestFiles)
            && (id in t.files ==> t.files[id] == row)
  {
    CycleIsAtOnce(s, w, c, listed, broken);
  }

  /** The key a job's input is stored under: its object key, or for old rows its display name. */
  predicate NamesObject(row: JobRow, key: string) {
    key != "" && (key == row.outputFile || (if row.objectKey == "" then key == row.inputFile else key == row.objectKey))
  }

  /** Which objects go, by columns alone: those a removed job or file names, and temp objects
      older than their window, each if its removal does not raise. */
  lemma ObjectGoesExactlyWhen(s: Store, w: Windows, c: Clock, listed: bool, broken: set<string>, key: string)
    requires key in s.objects
    ensures var t := Cycle(s, w, c, listed, broken);
            key !in t.objects <==>
              && key !in broken
              && (|| (exists id :: id in s.jobs && id !in t.jobs && NamesObject(s.jobs[id], key))
                  || (exists id :: id in s.files && id !in t.files && key != "" && s.files[id].key == key)
                  || (listed && "temp/" <= key && s.objects[key] != None && c.temp - s.objects[key].value > w.temp))
  {
    var t := Cycle(s, w, c, listed, broken);
    DisappearsExactlyWhen(s, w, c, listed, broken, key);
    RowsLeft(s, w, c, listed, broken);
    assert forall id :: id in s.jobs ==> (key in JobKeys(s.jobs[id]) <==> NamesObject(s.jobs[id], key));
    assert forall id :: id in s.files ==> (key in FileKeys(s.files[id]) <==> key != "" && s.files[id].key == key);
  }

  /** The display name of a removed job is not taken for a key: an object of that name stays
      if nothing else is in its way. */
  lemma DisplayNamesAreSpared(s: Store, w: Windows, c: Clock, listed: bool, broken: set<string>, name: string)
    requires name in s.objects && !("temp/" <= name)
    requires forall id :: id in s.jobs ==> s.jobs[id].objectKey != "" && s.jobs[id].objectKey != name && s.jobs[id].outputFile != name
    requires forall id :: id in s.files ==> s.files[id].key != name
    ensures name in Cycle(s, w, c, listed, broken).objects
  {
    ObjectGoesExactlyWhen(s, w, c, listed, broken, name);
  }

  /** Some row removed by the cycle names the key, or it is a stale temp object. */
  predicate Doomed(s: Store, w: Windows, c: Clock, listed: bool, key: string) {
    || (exists id :: id in s.jobs && id in DoomedJobs(s, w, c) && key in JobKeys(s.jobs[id]))
    || (exists id :: id in s.files && id in FileIds(s, w, c.files) && key in FileKeys(s.files[id]))
    || (listed && key in s.objects && StaleTemp(key, s.objects[key], w, c.temp))
  }

  /** An object disappears exactly when a removed row names it or it is a stale temp object,
      and its removal does not raise. Nothing else is touched, whoever still refers to it. */
  lemma DisappearsExactlyWhen(s: Store, w: Windows, c: Clock, listed: bool, broken: set<string>, key: string)
    requires key in s.objects
    ensures key !in Cycle(s, w, c, listed, broken).objects <==> key !in broken && Doomed(s, w, c, listed, key)
    ensures key in Cycle(s, w, c, listed, broken).objects ==>
              Cycle(s, w, c, listed, broken).objects[key] == s.objects[key]
  {
    CycleIsAtOnce(s, w, c, listed, broken);
    assert key in DoomedKeys(s, w, c, listed) <==> Doomed(s, w, c, listed, key);
  }

  /** A row that outlives the cycle names an object the cycle removes. */
  predicate Strands(s: Store, w: Windows, c: Clock, listed: bool, broken: set<string>) {
    || (exists id, k :: id in s.jobs && id !in DoomedJobs(s, w, c) && k in JobKeys(s.jobs[id])
                        && k in s.objects && k !in broken && Doomed(s, w, c, listed, k))
    || (exists id, k :: id in s.files && id !in FileIds(s, w, c.files) && k in FileKeys(s.files[id])
                        && k in s.objects && k !in broken && Doomed(s, w, c, listed, k))
  }

  /** Every row that is left still has all the objects it had. */
  predicate RowsKeepObjects(s: Store, t: Store) {
    && (forall id, k :: id in t.jobs && k in JobKeys(t.jobs[id]) && k in s.objects ==> k in t.objects)
    && (forall id, k :: id in t.files && k in FileKeys(t.files[id]) && k in s.objects ==> k in t.objects)
  }

  /** Every surviving row keeps all its objects exactly when, before the cycle, no row that
      will survive names a key that a removed row names or that is a stale temp object. */
  lemma SurvivorsKeepTheirObjects(s: Store, w: Windows, c: Clock, listed: bool, broken: set<string>)
    ensures RowsKeepObjects(s, Cycle(s, w, c, listed, broken)) <==> !Strands(s, w, c, listed, broken)
  {
    var t := Cycle(s, w, c, listed, broken);
    RowsLeft(s, w, c, listed, broken);
    if RowsKeepObjects(s, t) {
      forall k | k in s.objects && k !in broken && Doomed(s, w, c, listed, k) ensures k !in t.objects {
        DisappearsExactlyWhen(s, w, c, listed, broken, k);
      }
    }
    if !Strands(s, w, c, listed, broken) {
      forall k | k in s.objects && k !in t.objects ensures k !in broken && Doomed(s, w, c, listed, k) {
        DisappearsExactlyWhen(s, w, c, listed, broken, k);
      }
    }
  }

  lemma RowsLeft(s: Store, w: Windows, c: Clock, listed: bool, broken: set<string>)
    ensures var t := Cycle(s, w, c, listed, broken);
            && (forall id :: id in t.jobs <==> id in s.jobs && id !in DoomedJobs(s, w, c))
            && (forall id :: id in t.jobs ==> t.jobs[id] == s.jobs[id])
            && (forall id :: id in t.files <==> id in s.files && id !in FileIds(s, w, c.files))
            && (forall id :: id in t.files ==> t.files[id] == s.files[id])
  {
    CycleIsAtOnce(s, w, c, listed, broken);
  }

  /** No key is named by two rows, and no row names a stale temp object. */
  ghost predicate KeysAreApart(s: Store, w: Windows, c: Clock) {
    && (forall i, j :: i in s.jobs && j in s.jobs && i != j ==> JobKeys(s.jobs[i]) !! JobKeys(s.jobs[j]))
    && (forall i, j :: i in s.files && j in s.files && i != j ==> FileKeys(s.files[i]) !! FileKeys(s.files[j]))
    && (forall i, j :: i in s.jobs && j in s.files ==> JobKeys(s.jobs[i]) !! FileKeys(s.files[j]))
    && (forall i :: i in s.jobs ==> JobKeys(s.jobs[i]) !! StaleKeys(s, w, c.temp))
    && (forall j :: j in s.files ==> FileKeys(s.files[j]) !! StaleKeys(s, w, c.temp))
  }

  /** In particular when no two rows share a key at all. */
  lemma ApartKeysSurvive(s: Store, w: Windows, c: Clock, listed: bool, broken: set<string>)
    requires KeysAreApart(s, w, c)
    ensures RowsKeepObjects(s, Cycle(s, w, c, listed, broken))
  {
    SurvivorsKeepTheirObjects(s, w, c, listed, broken);
    forall id, k | id in s.jobs && id !in DoomedJobs(s, w, c) && k in JobKeys(s.jobs[id]) && k in s.objects
      ensures !Doomed(s, w, c, listed, k)
    {
      JobSurvives(s, w, c, listed, id, k);
    }
    forall id, k | id in s.files && id !in FileIds(s, w, c.files) && k in FileKeys(s.files[id]) && k in s.objects
      ensures !Doomed(s, w, c, listed, k)
    {
      FileSurvives(s, w, c, listed, id, k);
    }
  }

  lemma JobSurvives(s: Store, w: Windows, c: Clock, listed: bool, id: nat, k: string)
    requires KeysAreApart(s, w, c)
    requires id in s.jobs && id !in DoomedJobs(s, w, c) && k in JobKeys(s.jobs[id]) && k in s.objects
    ensures !Doomed(s, w, c, listed, k)
  {
    assert k !in StaleKeys(s, w, c.temp);
  }

  lemma FileSurvives(s: Store, w: Windows, c: Clock, listed: bool, id: nat, k: string)
    requires KeysAreApart(s, w, c)
    requires id in s.files && id !in FileIds(s, w, c.files) && k in FileKeys(s.files[id]) && k in s.objects
    ensures !Doomed(s, w, c, listed, k)
  {
    assert k !in StaleKeys(s, w, c.temp);
  }

  /** Whenever a removed job names the object of a file row that stays, the row stays without it. */
  lemma SharedKeyStrands(s: Store, w: Windows, c: Clock, listed: bool, broken: set<string>, job: nat, file: nat, key: string)
    requires job in s.jobs && job in DoomedJobs(s, w, c) && key in JobKeys(s.jobs[job])
    requires file in s.files && file !in FileIds(s, w, c.files) && key in FileKeys(s.files[file])
    requires key in s.objects && key !in broken
    ensures var t := Cycle(s, w, c, listed, broken);
            file in t.files && key in FileKeys(t.files[file]) && key !in t.objects
  {
    DisappearsExactlyWhen(s, w, c, listed, broken, key);
    CycleIsAtOnce(s, w, c, listed, broken);
  }

  /** Rows do share keys: a job created from a library file names that file's object.
      Archiving the job then removes the object of a file row that stays. */
  lemma ArchivingCanStrandAFile()
    ensures exists s, w, c, key ::
      var t := Cycle(s, w, c, true, {});
      key in s.objects && key !in t.objects && 0 in t.files && key in FileKeys(t.files[0])
  {
    var job := JobRow(false, 0, COMPLETED, "k", "name", "");
    var s := Store(map[0 := job], map[0 := FileRow(None, 0, "k")], map["k" := Some(0)], [], []);
    var w := Windows(1, 1, 1, 1, 1);
    var c := Clock(10, 10, 10, 10, 10);
    assert Archivable(job, w, 10) && "k" in JobKeys(job);
    SharedKeyStrands(s, w, c, true, {}, 0, 0, "k");
  }

  // ---------------------------------------------------------------------------
  // The worker as code
  // ---------------------------------------------------------------------------

  function Elements<T>(s: seq<T>): set<T> {
    set x | x in s
  }

  function TempKeys(s: Store): set<string> {
    set k | k in s.objects && "temp/" <= k
  }

  /** The stale ones among the first keys of a listing. */
  function StaleAmong(s: Store, keys: seq<string>, w: Windows, now: int): set<string> {
    set k | k in keys && k in s.objects && StaleTemp(k, s.objects[k], w, now)
  }

  lemma NotBefore<T>(ids: seq<T>, answer: set<T>, i: nat)
    requires Lists(ids, answer) && i < |ids|
    ensures ids[i] !in ids[..i] && ids[i] in answer
  {
    assert ids[i] in Elements(ids);
  }

  /** The answer of a query: the matching ids, each once, in any order. */
  predicate Lists<T>(ids: seq<T>, answer: set<T>) {
    (forall i, j :: 0 <= i < j < |ids| ==> ids[i] != ids[j]) && Elements(ids) == answer
  }

  lemma {:induction false} ListSize<T>(ids: seq<T>, answer: set<T>)
    requires Lists(ids, answer)
    ensures |ids| == |answer|
    decreases |ids|
  {
    if ids != [] {
      var most, x := ids[..|ids| - 1], ids[|ids| - 1];
      assert Elements(most) == answer - {x} by {
        forall y | y in answer - {x} ensures y in most {
          var i :| 0 <= i < |ids| && ids[i] == y;
          assert most[i] == y;
        }
        forall y | y in most ensures y in answer - {x} {
          var i :| 0 <= i < |most| && most[i] == y;
          assert ids[i] == y;
        }
      }
      ListSize(most, answer - {x});
    } else {
      assert answer == {};
    }
  }

  lemma KeysOfPrefix(s: Store, ids: seq<nat>, i: nat)
    requires i < |ids| && ids[i] in s.jobs
    ensures KeysOfJobs(s, Elements(ids[..i + 1])) == KeysOfJobs(s, Elements(ids[..i])) + JobKeys(s.jobs[ids[i]])
  {
    var a, b := Elements(ids[..i]), Elements(ids[..i + 1]);
    assert ids[..i + 1] == ids[..i] + [ids[i]];
    assert b == a + {ids[i]};
  }

  lemma KeysOfFilePrefix(s: Store, ids: seq<nat>, i: nat)
    requires i < |ids| && ids[i] in s.files
    ensures KeysOfFiles(s, Elements(ids[..i + 1])) == KeysOfFiles(s, Elements(ids[..i])) + FileKeys(s.files[ids[i]])
  {
    var a, b := Elements(ids[..i]), Elements(ids[..i + 1]);
    assert ids[..i + 1] == ids[..i] + [ids[i]];
    assert b == a + {ids[i]};
  }

  /** What the sweep has removed after part of the listing. */
  function Swept(s: Store, keys: seq<string>, w: Windows, now: int, broken: set<string>): set<string> {
    StaleAmong(s, keys, w, now) - broken
  }

  lemma OneMoreStale(s: Store, keys: seq<string>, i: nat, w: Windows, now: int, broken: set<string>)
    requires i < |keys| && keys[i] !in keys[..i] && keys[i] in s.objects
    ensures var gone, more := Swept(s, keys[..i], w, now, broken), Swept(s, keys[..i + 1], w, now, broken);
            && keys[i] in s.objects - gone
            && if StaleTemp(keys[i], s.objects[keys[i]], w, now) && keys[i] !in broken
               then |more| == |gone| + 1 && s.objects - more == (s.objects - gone) - {keys[i]}
               else more == gone
  {
    assert keys[..i + 1] == keys[..i] + [keys[i]];
    var gone, more := Swept(s, keys[..i], w, now, broken), Swept(s, keys[..i + 1], w, now, broken);
    if StaleTemp(keys[i], s.objects[keys[i]], w, now) && keys[i] !in broken {
      assert more == gone + {keys[i]};
    } else {
      assert more == gone;
    }
  }

  lemma AllListed(s: Store, keys: seq<string>, w: Windows, now: int)
    requires Lists(keys, TempKeys(s))
    ensures StaleAmong(s, keys[..|keys|], w, now) == StaleKeys(s, w, now)
  {
    assert keys[..|keys|] == keys;
    assert forall k :: k in keys <==> k in Elements(keys);
  }

  /** Of every creation time, all rows are left or none, by age alone. */
  ghost predicate ExpiredGone(before: seq<int>, after: seq<int>, age: int, now: int) {
    forall t: int :: multiset(after)[t] == if now - t > age then 0 else multiset(before)[t]
  }

  lemma {:induction false} RecentKeepsExactly(rows: seq<int>, age: int, now: int)
    ensures ExpiredGone(rows, Recent(rows, now - age), age, now)
  {
    if rows != [] {
      var most, last := rows[..|rows| - 1], rows[|rows| - 1];
      RecentKeepsExactly(most, age, now);
      assert rows == most + [last];
    }
  }

  function TelemetryRows(s: Store): nat {
    |s.requestEvents| + |s.toolInvocations|
  }

  /** The counts one cycle reports. */
  datatype Report = Report(guests: nat, files: nat, temp: nat, archived: nat, telemetry: nat)

  /** Each sweep counts what it finds in the store the earlier ones left. */
  function ReportOf(s: Store, w: Windows, c: Clock, listed: bool, broken: set<string>): Report {
    var s1, s2, s3 := After(s, w, c, listed, broken, 1), After(s, w, c, listed, broken, 2), After(s, w, c, listed, broken, 3);
    Report(|GuestIds(s, w, c.guest)|, |FileIds(s1, w, c.files)|, TempRemoved(s2, w, c.temp, listed, broken),
           |ArchiveIds(s3, w, c.archive)|, ExpiredRows(s, c.telemetry - w.telemetry))
  }

  /** How many stale temp objects could be removed. */
  function TempRemoved(s: Store, w: Windows, now: int, listed: bool, broken: set<string>): nat {
    if listed then |StaleKeys(s, w, now) - broken| else 0
  }

  function ExpiredRows(s: Store, cutoff: int): nat {
    RecentIsFewer(s.requestEvents, cutoff);
    RecentIsFewer(s.toolInvocations, cutoff);
    |s.requestEvents| - |Recent(s.requestEvents, cutoff)| + |s.toolInvocations| - |Recent(s.toolInvocations, cutoff)|
  }

  lemma {:induction false} RecentIsFewer(rows: seq<int>, cutoff: int)
    ensures |Recent(rows, cutoff)| <= |rows|
  {
    if rows != [] {
      RecentIsFewer(rows[..|rows| - 1], cutoff);
    }
  }

  /** Guest and archive counts sum to exactly the job rows the cycle removes, none twice. */
  lemma JobCounts(s: Store, w: Windows, c: Clock, listed: bool, broken: set<string>)
    ensures var r := ReportOf(s, w, c, listed, broken);
            r.guests + r.archived == |s.jobs| - |Cycle(s, w, c, listed, broken).jobs|
  {
    var s3 := After(s, w, c, listed, broken, 3);
    var left := s.jobs - GuestIds(s, w, c.guest);
    assert s3.jobs == left;
    Removed(s.jobs, GuestIds(s, w, c.guest));
    Removed(left, ArchiveIds(s3, w, c.archive));
    assert Cycle(s, w, c, listed, broken).jobs == left - ArchiveIds(s3, w, c.archive);
  }

  /** The file count is the file rows the cycle removes. */
  lemma FileCounts(s: Store, w: Windows, c: Clock, listed: bool, broken: set<string>)
    ensures ReportOf(s, w, c, listed, broken).files == |s.files| - |Cycle(s, w, c, listed, broken).files|
  {
    var ids := FileIds(After(s, w, c, listed, broken, 1), w, c.files);
    Removed(s.files, ids);
    assert Cycle(s, w, c, listed, broken).files == s.files - ids;
  }

  /** The temp count is the objects the temp sweep removes. */
  lemma TempCounts(s: Store, w: Windows, c: Clock, listed: bool, broken: set<string>)
    ensures ReportOf(s, w, c, listed, broken).temp
            == |After(s, w, c, listed, broken, 2).objects| - |After(s, w, c, listed, broken, 3).objects|
  {
    var s2 := After(s, w, c, listed, broken, 2);
    if listed {
      Removed(s2.objects, StaleKeys(s2, w, c.temp) - broken);
    }
  }

  /** The telemetry count is the rows both telemetry tables lose. */
  lemma TelemetryCounts(s: Store, w: Windows, c: Clock, listed: bool, broken: set<string>)
    ensures ReportOf(s, w, c, listed, broken).telemetry
            == TelemetryRows(s) - TelemetryRows(Cycle(s, w, c, listed, broken))
  {
  }

  class CleanupWorker {
    const windows: Windows
    var store: Store

    constructor (w: Windows, s: Store)
      ensures windows == w && store == s
    {
      windows, store := w, s;
    }

    /** `_delete_objects`: skips empty keys, survives a removal that raises. */
    method DeleteObjects(keys: seq<string>, broken: set<string>)
      modifies this
      ensures store == old(store).(objects := old(store).objects - (Elements(keys) - {""} - broken))
    {
      var i := 0;
      while i < |keys|
        invariant 0 <= i <= |keys|
        invariant store == old(store).(objects := old(store).objects - (Elements(keys[..i]) - {""} - broken))
      {
        assert keys[..i + 1] == keys[..i] + [keys[i]];
        if keys[i] != "" && keys[i] !in broken {
          store := store.(objects := store.objects - {keys[i]});
        }
        i := i + 1;
      }
      assert keys[..i] == keys;
    }

    /** The loop shared by the guest and archive sweeps: objects first, rows at the commit. */
    method RemoveRows(rows: seq<nat>, broken: set<string>) returns (cleaned: nat)
      requires forall i :: 0 <= i < |rows| ==> rows[i] in store.jobs
      modifies this
      ensures store == RemoveJobs(old(store), Elements(rows), broken)
      ensures cleaned == |rows|
    {
      cleaned := 0;
      while cleaned < |rows|
        invariant 0 <= cleaned <= |rows|
        invariant store == old(store).(objects := old(store).objects - (KeysOfJobs(old(store), Elements(rows[..cleaned])) - broken))
      {
        var row := store.jobs[rows[cleaned]];
        KeysOfPrefix(old(store), rows, cleaned);
        DeleteObjects([InputKey(row), row.outputFile], broken);
        assert Elements([InputKey(row), row.outputFile]) - {""} == JobKeys(row);
        cleaned := cleaned + 1;
      }
      assert rows[..cleaned] == rows;
      store := store.(jobs := store.jobs - Elements(rows));
    }

    method CleanGuestJobs(now: int, rows: seq<nat>, broken: set<string>) returns (cleaned: nat)
      requires Lists(rows, GuestIds(store, windows, now))
      modifies this
      ensures store == GuestSweep(old(store), windows, now, broken)
      ensures forall id :: id in old(store.jobs) ==>
                (id !in store.jobs <==> old(store.jobs)[id].guest && now - old(store.jobs)[id].created > windows.guestJobs)
      ensures cleaned == |GuestIds(old(store), windows, now)|
    {
      ListSize(rows, GuestIds(store, windows, now));
      assert forall i :: 0 <= i < |rows| ==> rows[i] in Elements(rows);
      cleaned := RemoveRows(rows, broken);
    }

    method ArchiveOldJobs(now: int, rows: seq<nat>, broken: set<string>) returns (archived: nat)
      requires Lists(rows, ArchiveIds(store, windows, now))
      modifies this
      ensures store == ArchiveSweep(old(store), windows, now, broken)
      ensures forall id :: id in old(store.jobs) ==>
                (id !in store.jobs <==>
                  old(store.jobs)[id].status in {COMPLETED, FAILED} && now - old(store.jobs)[id].created > windows.archive)
      ensures archived == |ArchiveIds(old(store), windows, now)|
    {
      ListSize(rows, ArchiveIds(store, windows, now));
      assert forall i :: 0 <= i < |rows| ==> rows[i] in Elements(rows);
      archived := RemoveRows(rows, broken);
    }

    method CleanExpiredFiles(now: int, rows: seq<nat>, broken: set<string>) returns (cleaned: nat)
      requires Lists(rows, FileIds(store, windows, now))
      modifies this
      ensures store == FileSweep(old(store), windows, now, broken)
      ensures forall id :: id in old(store.files) ==>
                var row := old(store.files)[id];
                id !in store.files <==> row.expires != None && row.expires.value < now && now - row.created > windows.guestFiles
      ensures cleaned == |FileIds(old(store), windows, now)|
    {
      ListSize(rows, FileIds(store, windows, now));
      assert forall i :: 0 <= i < |rows| ==> rows[i] in Elements(rows);
      cleaned := 0;
      while cleaned < |rows|
        invariant 0 <= cleaned <= |rows|
        invariant store == old(store).(objects := old(store).objects - (KeysOfFiles(old(store), Elements(rows[..cleaned])) - broken))
      {
        var row := store.files[rows[cleaned]];
        KeysOfFilePrefix(old(store), rows, cleaned);
        DeleteObjects([row.key], broken);
        assert Elements([row.key]) - {""} == FileKeys(row);
        cleaned := cleaned + 1;
      }
      assert rows[..cleaned] == rows;
      store := store.(files := store.files - Elements(rows));
    }

    /** `listing` is what the store returns for the temp prefix, or nothing when it raises. */
    method CleanTempFiles(now: int, listing: Option<seq<string>>, broken: set<string>) returns (cleaned: nat)
      requires listing.Some? ==> Lists(listing.value, TempKeys(store))
      modifies this
      ensures store == TempSweep(old(store), windows, now, listing.Some?, broken)
      ensures cleaned == TempRemoved(old(store), windows, now, listing.Some?, broken)
    {
      cleaned := 0;
      if listing.None? {
        return;
      }
      var keys := listing.value;
      ghost var start := store;
      var i := 0;
      while i < |keys|
        invariant 0 <= i <= |keys|
        invariant store == start.(objects := start.objects - Swept(start, keys[..i], windows, now, broken))
        invariant cleaned == |Swept(start, keys[..i], windows, now, broken)|
      {
        NotBefore(keys, TempKeys(start), i);
        OneMoreStale(start, keys, i, windows, now, broken);
        var removed := RemoveStale(keys[i], now, broken);
        if removed {
          cleaned := cleaned + 1;
        }
        i := i + 1;
      }
      AllListed(start, keys, windows, now);
    }

    /** One listed temp object; a removal that raises is not counted. */
    method RemoveStale(key: string, now: int, broken: set<string>) returns (removed: bool)
      requires key in store.objects
      modifies this
      ensures removed == (old(store).objects[key].Some? && old(store).objects[key].value < now - windows.temp && key !in broken)
      ensures store == if removed then old(store).(objects := old(store).objects - {key}) else old(store)
    {
      var modified := store.objects[key];
      removed := modified.Some? && modified.value < now - windows.temp && key !in broken;
      if removed {
        store := store.(objects := store.objects - {key});
      }
    }

    /** Both tables keep exactly the rows that are no older than the retention; the result
        is how many rows they lost together. */
    method CleanTelemetry(now: int) returns (removed: nat)
      modifies this
      ensures ExpiredGone(old(store).requestEvents, store.requestEvents, windows.telemetry, now)
      ensures ExpiredGone(old(store).toolInvocations, store.toolInvocations, windows.telemetry, now)
      ensures removed == TelemetryRows(old(store)) - TelemetryRows(store)
      ensures store == TelemetrySweep(old(store), windows, now)
    {
      var cutoff := now - windows.telemetry;
      RecentKeepsExactly(store.requestEvents, windows.telemetry, now);
      RecentKeepsExactly(store.toolInvocations, windows.telemetry, now);
      removed := ExpiredRows(store, cutoff);
      store := store.(requestEvents := Recent(store.requestEvents, cutoff),
                      toolInvocations := Recent(store.toolInvocations, cutoff));
    }

    /** The sweeps over jobs, files and objects. */
    method RunSweeps(c: Clock, guestRows: seq<nat>, fileRows: seq<nat>, listing: Option<seq<string>>,
                     archiveRows: seq<nat>, broken: set<string>)
      returns (guests: nat, files: nat, temp: nat, archived: nat)
      requires Lists(guestRows, GuestIds(store, windows, c.guest))
      requires Lists(fileRows, FileIds(After(store, windows, c, listing.Some?, broken, 1), windows, c.files))
      requires listing.Some? ==> Lists(listing.value, TempKeys(After(store, windows, c, listing.Some?, broken, 2)))
      requires Lists(archiveRows, ArchiveIds(After(store, windows, c, listing.Some?, broken, 3), windows, c.archive))
      modifies this
      ensures store == ArchiveSweep(After(old(store), windows, c, listing.Some?, broken, 3), windows, c.archive, broken)
      ensures guests == |GuestIds(old(store), windows, c.guest)|
      ensures files == |FileIds(After(old(store), windows, c, listing.Some?, broken, 1), windows, c.files)|
      ensures temp == TempRemoved(After(old(store), windows, c, listing.Some?, broken, 2), windows, c.temp, listing.Some?, broken)
      ensures archived == |ArchiveIds(After(old(store), windows, c, listing.Some?, broken, 3), windows, c.archive)|
    {
      guests := CleanGuestJobs(c.guest, guestRows, broken);
      files := CleanExpiredFiles(c.files, fileRows, broken);
      temp := CleanTempFiles(c.temp, listing, broken);
      archived := ArchiveOldJobs(c.archive, archiveRows, broken);
    }

    /** `_run_cleanup_cycle`: the cycle and its report, which is exact (see `JobCounts`,
        `FileCounts`, `TempCounts` and `TelemetryCounts`). */
    method RunCycle(c: Clock, guestRows: seq<nat>, fileRows: seq<nat>, listing: Option<seq<string>>,
                    archiveRows: seq<nat>, broken: set<string>)
      returns (report: Report)
      requires Lists(guestRows, GuestIds(store, windows, c.guest))
      requires Lists(fileRows, FileIds(After(store, windows, c, listing.Some?, broken, 1), windows, c.files))
      requires listing.Some? ==> Lists(listing.value, TempKeys(After(store, windows, c, listing.Some?, broken, 2)))
      requires Lists(archiveRows, ArchiveIds(After(store, windows, c, listing.Some?, broken, 3), windows, c.archive))
      modifies this
      ensures store == Cycle(old(store), windows, c, listing.Some?, broken)
      ensures report == ReportOf(old(store), windows, c, listing.Some?, broken)
    {
      var guests, files, temp, archived := RunSweeps(c, guestRows, fileRows, listing, archiveRows, broken);
      var telemetry := CleanTelemetry(c.telemetry);
      report := Report(guests, files, temp, archived, telemetry);
    }
  }

  lemma Removed<K, V>(rows: map<K, V>, ids: set<K>)
    requires ids <= rows.Keys
    ensures |rows - ids| == |rows| - |ids|
  {
    assert (rows - ids).Keys == rows.Keys - ids;
  }
}
