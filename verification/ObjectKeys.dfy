/**
 The object keys under which converted files and execution artifacts are stored, and the
 copying of an execution's artifacts: no run overwrites what another run stored.
 */
module ObjectKeys {
  import opened Basics

  type Bytes = seq<int>

  predicate NoSlash(s: string) {
    '/' !in s
  }

  /** `rstrip("/")`. */
  function StripRight(s: string): string {
    if s != "" && s[|s| - 1] == '/' then StripRight(s[..|s| - 1]) else s
  }

  // ---------------------------------------------------------------------------
  // Keys
  // ---------------------------------------------------------------------------

  function Decimal(n: nat): string {
    if n < 10 then [Digit(n)] else Decimal(n / 10) + [Digit(n % 10)]
  }

  function Digit(d: nat): char
    requires d < 10
  {
    '0' + d as char
  }

  /** `_actor_key`: the user id in decimal, or the guest. */
  function ActorKey(user: Option<int>): string {
    match user
    case None => "guest"
    case Some(id) => if id < 0 then "-" + Decimal(-id) else Decimal(id)
  }

  /** Key of a converted file. */
  function OutputKey(base: string, user: Option<int>, job: string, name: string): string {
    StripRight(base) + ("/user/" + (ActorKey(user) + ("/" + ("job/" + (job + ("/" + name))))))
  }

  /** Key of an artifact. */
  function ArtifactKey(base: string, workspace: string, execution: string, name: string): string {
    StripRight(base) + ("/workspace/" + (workspace + ("/" + ("execution/" + (execution + ("/" + name))))))
  }

  /** `path.rsplit("/", 1)[-1]`. */
  function BaseName(path: string): (name: string)
    ensures NoSlash(name)
    ensures path == name || exists dir :: path == dir + ("/" + name)
  {
    if path == "" then ""
    else if path[|path| - 1] == '/' then
      assert path == path[..|path| - 1] + ("/" + "");
      ""
    else
      var rest := path[..|path| - 1];
      var name := BaseName(rest) + [path[|path| - 1]];
      assert path == rest + [path[|path| - 1]];
      assert rest == BaseName(rest) ||
             exists dir :: rest == dir + ("/" + BaseName(rest)) && path == dir + ("/" + name);
      name
  }

  /** Trailing slashes of the base do not matter. */
  lemma TrailingSlashes(base: string, u: Option<int>, workspace: string, job: string, name: string)
    ensures OutputKey(base + "/", u, job, name) == OutputKey(base, u, job, name)
    ensures ArtifactKey(base + "/", workspace, job, name) == ArtifactKey(base, workspace, job, name)
  {
    assert (base + "/")[..|base|] == base;
  }

  /** What the keys look like, for a base without trailing slashes. */
  lemma OutputKeyReads(base: string, u: Option<int>, job: string, name: string)
    requires StripRight(base) == base
    ensures OutputKey(base, u, job, name) == base + "/user/" + ActorKey(u) + "/job/" + job + "/" + name
  {
    var file := job + ("/" + name);
    assert "/" + ("job/" + file) == "/job/" + file;
    assert base + "/user/" + ActorKey(u) + "/job/" + job + "/" + name == base + ("/user/" + (ActorKey(u) + ("/job/" + file)));
  }

  lemma ArtifactKeyReads(base: string, workspace: string, execution: string, name: string)
    requires StripRight(base) == base
    ensures ArtifactKey(base, workspace, execution, name)
            == base + "/workspace/" + workspace + "/execution/" + execution + "/" + name
  {
    var file := execution + ("/" + name);
    assert "/" + ("execution/" + file) == "/execution/" + file;
    assert base + "/workspace/" + workspace + "/execution/" + execution + "/" + name
        == base + ("/workspace/" + (workspace + ("/execution/" + file)));
  }

  lemma OwnersRead()
    ensures ActorKey(None) == "guest" && ActorKey(Some(7)) == "7" && ActorKey(Some(42)) == "42"
  {
    assert Decimal(42) == Decimal(4) + [Digit(2)];
  }

  // ---------------------------------------------------------------------------
  // Keys are injective
  // ---------------------------------------------------------------------------

  lemma Cancel(p: string, x: string, y: string)
    requires p + x == p + y
    ensures x == y
  {
    assert x == (p + x)[|p|..] && y == (p + y)[|p|..];
  }

  /** The first slash ends the first part. */
  lemma CutFirst(a: string, x: string, b: string, y: string)
    requires NoSlash(a) && NoSlash(b) && a + ("/" + x) == b + ("/" + y)
    ensures a == b && x == y
  {
    var k := a + ("/" + x);
    assert k[|a|] == '/' && k[|b|] == '/';
    assert forall i :: 0 <= i < |a| ==> k[i] == a[i];
    assert forall i :: 0 <= i < |b| ==> k[i] == b[i];
    assert |a| == |b|;
    assert a == k[..|a|] && b == k[..|b|];
    Cancel(a, "/" + x, "/" + y);
    Cancel("/", x, y);
  }

  /** The last slash starts the last part. */
  lemma CutLast(a: string, x: string, b: string, y: string)
    requires NoSlash(x) && NoSlash(y) && a + ("/" + x) == b + ("/" + y)
    ensures a == b && x == y
  {
    var k := a + ("/" + x);
    assert k[|a|] == '/' && k[|b|] == '/';
    assert forall i :: |a| < i < |k| ==> k[i] == x[i - |a| - 1];
    assert forall i :: |b| < i < |k| ==> k[i] == y[i - |b| - 1];
    assert |a| == |b|;
    assert a == k[..|a|] && b == k[..|b|];
    Cancel(a, "/" + x, "/" + y);
    Cancel("/", x, y);
  }

  predicate AllDigits(s: string) {
    forall i :: 0 <= i < |s| ==> '0' <= s[i] <= '9'
  }

  function Value(s: string): nat
    requires AllDigits(s)
  {
    if s == "" then 0 else Value(s[..|s| - 1]) * 10 + (s[|s| - 1] - '0') as nat
  }

  lemma {:induction false} DecimalReadsBack(n: nat)
    ensures Decimal(n) != "" && AllDigits(Decimal(n)) && Value(Decimal(n)) == n
  {
    if n >= 10 {
      DecimalReadsBack(n / 10);
      assert Decimal(n)[..|Decimal(n)| - 1] == Decimal(n / 10);
    } else {
      assert Decimal(n)[..0] == "";
    }
  }

  lemma DecimalIsInjective(n: nat, m: nat)
    requires Decimal(n) == Decimal(m)
    ensures n == m
  {
    DecimalReadsBack(n);
    DecimalReadsBack(m);
  }

  /** The first character tells guests, negative ids and other ids apart. */
  lemma ActorKeyShape(u: Option<int>)
    ensures NoSlash(ActorKey(u)) && ActorKey(u) != ""
    ensures u.None? ==> ActorKey(u)[0] == 'g'
    ensures u.Some? && u.value < 0 ==> ActorKey(u)[0] == '-'
    ensures u.Some? && u.value >= 0 ==> '0' <= ActorKey(u)[0] <= '9'
  {
    if u.Some? {
      DecimalReadsBack(if u.value < 0 then -u.value else u.value);
    }
  }

  /** Owners have distinct keys without a slash; the guest is nobody's id. */
  lemma ActorKeyIsInjective(u: Option<int>, v: Option<int>)
    ensures NoSlash(ActorKey(u)) && NoSlash(ActorKey(v))
    ensures ActorKey(u) == ActorKey(v) <==> u == v
  {
    ActorKeyShape(u);
    ActorKeyShape(v);
    if ActorKey(u) == ActorKey(v) && u.Some? && v.Some? {
      if u.value < 0 {
        Cancel("-", Decimal(-u.value), Decimal(-v.value));
        DecimalIsInjective(-u.value, -v.value);
      } else {
        DecimalIsInjective(u.value, v.value);
      }
    }
  }

  /** No two converted files share a key, whatever the job ids look like: an owner key has no
      slash and a file name has none, so the job id is what lies between. */
  lemma OutputKeyIsInjective(base: string, u: Option<int>, job: string, name: string,
                             u': Option<int>, job': string, name': string)
    requires NoSlash(name) && NoSlash(name')
    ensures OutputKey(base, u, job, name) == OutputKey(base, u', job', name')
            <==> u == u' && job == job' && name == name'
  {
    if OutputKey(base, u, job, name) == OutputKey(base, u', job', name') {
      var file, file' := job + ("/" + name), job' + ("/" + name');
      var owned, owned' := ActorKey(u) + ("/" + ("job/" + file)), ActorKey(u') + ("/" + ("job/" + file'));
      Cancel(StripRight(base), "/user/" + owned, "/user/" + owned');
      Cancel("/user/", owned, owned');
      ActorKeyIsInjective(u, u');
      CutFirst(ActorKey(u), "job/" + file, ActorKey(u'), "job/" + file');
      Cancel("job/", file, file');
      CutLast(job, name, job', name');
    }
  }

  /** No two artifacts share a key as long as workspace ids have no slash. */
  lemma ArtifactKeyIsInjective(base: string, workspace: string, execution: string, name: string,
                               workspace': string, execution': string, name': string)
    requires NoSlash(workspace) && NoSlash(workspace') && NoSlash(name) && NoSlash(name')
    ensures ArtifactKey(base, workspace, execution, name) == ArtifactKey(base, workspace', execution', name')
            <==> workspace == workspace' && execution == execution' && name == name'
  {
    if ArtifactKey(base, workspace, execution, name) == ArtifactKey(base, workspace', execution', name') {
      var file, file' := execution + ("/" + name), execution' + ("/" + name');
      var owned, owned' := workspace + ("/" + ("execution/" + file)), workspace' + ("/" + ("execution/" + file'));
      Cancel(StripRight(base), "/workspace/" + owned, "/workspace/" + owned');
      Cancel("/workspace/", owned, owned');
      CutFirst(workspace, "execution/" + file, workspace', "execution/" + file');
      Cancel("execution/", file, file');
      CutLast(execution, name, execution', name');
    }
  }

  /** With a slash in a workspace id two executions can share a key. */
  lemma SlashesCollide(base: string, a: string, b: string, c: string, name: string)
    ensures ArtifactKey(base, a + ("/execution/" + b), c, name) == ArtifactKey(base, a, b + ("/execution/" + c), name)
  {
    var left := (a + ("/execution/" + b)) + ("/" + ("execution/" + (c + ("/" + name))));
    var right := a + ("/" + ("execution/" + ((b + ("/execution/" + c)) + ("/" + name))));
    assert left == a + ("/execution/" + (b + ("/execution/" + (c + ("/" + name))))) == right;
  }

  /** A converted file and an artifact never share a key. */
  lemma KindsAreDisjoint(base: string, u: Option<int>, job: string, name: string,
                         workspace: string, execution: string, name': string)
    ensures OutputKey(base, u, job, name) != ArtifactKey(base, workspace, execution, name')
  {
    var b := |StripRight(base)|;
    assert OutputKey(base, u, job, name)[b + 1] == 'u';
    assert ArtifactKey(base, workspace, execution, name')[b + 1] == 'w';
  }

  // ---------------------------------------------------------------------------
  // Copying an execution's artifacts
  // ---------------------------------------------------------------------------

  datatype Entry = Entry(path: string, isDir: bool, size: nat)

  /** How reading a file out of the runtime and storing it turn out. */
  datatype Attempt = Attempt(read: Option<Bytes>, stored: bool)

  datatype Artifact = Artifact(path: string, size: nat, key: Option<string>)

  /** One collection: whose it is, the files kept, and the attempts. */
  datatype Copying = Copying(base: string, workspace: string, execution: string, storage: bool, maxBytes: nat,
                             files: seq<Entry>, attempts: nat -> Attempt)
  {
    predicate Copied(i: nat)
      requires i < |files|
    {
      storage && files[i].size <= maxBytes && attempts(i).read.Some? && attempts(i).stored
    }

    function Key(i: nat): string
      requires i < |files|
    {
      ArtifactKey(base, workspace, execution, BaseName(files[i].path))
    }

    /** A file that was not copied is still recorded, with the listed size and no key. */
    function Record(i: nat): Artifact
      requires i < |files|
    {
      if Copied(i) then Artifact(files[i].path, |attempts(i).read.value|, Some(Key(i)))
      else Artifact(files[i].path, files[i].size, None)
    }

    /** The store after the first `n` files. */
    function Stored(objects: map<string, Bytes>, n: nat): map<string, Bytes>
      requires n <= |files|
    {
      if n == 0 then objects
      else if Copied(n - 1) then Stored(objects, n - 1)[Key(n - 1) := attempts(n - 1).read.value]
      else Stored(objects, n - 1)
    }

    function After(objects: map<string, Bytes>): map<string, Bytes> {
      Stored(objects, |files|)
    }

  }

  predicate DistinctNames(files: seq<Entry>) {
    forall i, j :: 0 <= i < j < |files| ==> BaseName(files[i].path) != BaseName(files[j].path)
  }

  function PlainFiles(entries: seq<Entry>): seq<Entry> {
    if entries == [] then []
    else PlainFiles(entries[..|entries| - 1])
         + (if entries[|entries| - 1].isDir then [] else [entries[|entries| - 1]])
  }

  function KeptFiles(entries: seq<Entry>, maxCount: nat): seq<Entry> {
    var files := PlainFiles(entries);
    if |files| > maxCount then files[..maxCount] else files
  }

  /** The plain files are the entries that are no directories, all of them, in order. */
  lemma {:induction false} PlainFilesExactly(entries: seq<Entry>) returns (at: seq<nat>)
    ensures |at| == |PlainFiles(entries)|
    ensures forall k :: 0 <= k < |at| ==> at[k] < |entries| && entries[at[k]] == PlainFiles(entries)[k] && !entries[at[k]].isDir
    ensures forall j, k :: 0 <= j < k < |at| ==> at[j] < at[k]
    ensures forall i :: 0 <= i < |entries| && !entries[i].isDir ==> i in at
  {
    if entries == [] {
      at := [];
    } else {
      var most, last := entries[..|entries| - 1], entries[|entries| - 1];
      at := PlainFilesExactly(most);
      if !last.isDir {
        at := at + [|most|];
      }
    }
  }

  /** The files kept are the first `maxCount` entries that are no directories, in order. */
  lemma KeptFilesExactly(entries: seq<Entry>, maxCount: nat) returns (at: seq<nat>)
    ensures |at| == |KeptFiles(entries, maxCount)| <= maxCount
    ensures forall k :: 0 <= k < |at| ==> at[k] < |entries| && entries[at[k]] == KeptFiles(entries, maxCount)[k] && !entries[at[k]].isDir
    ensures forall j, k :: 0 <= j < k < |at| ==> at[j] < at[k]
    ensures forall i :: 0 <= i < |entries| && !entries[i].isDir && i !in at ==>
              |at| == maxCount && forall k :: 0 <= k < |at| ==> at[k] < i
  {
    var all := PlainFilesExactly(entries);
    if |all| <= maxCount {
      at := all;
    } else {
      at := all[..maxCount];
      forall i | 0 <= i < |entries| && !entries[i].isDir && i !in at ensures forall k :: 0 <= k < |at| ==> at[k] < i {
        LaterIsLarger(all, maxCount, i);
      }
    }
  }

  lemma LaterIsLarger(all: seq<nat>, n: nat, i: nat)
    requires n <= |all| && i in all && i !in all[..n]
    requires forall j, k :: 0 <= j < k < |all| ==> all[j] < all[k]
    ensures forall k :: 0 <= k < n ==> all[k] < i
  {
    var m :| 0 <= m < |all| && all[m] == i;
    assert forall k :: 0 <= k < n ==> all[..n][k] == all[k];
  }

  class ObjectStore {
    var objects: map<string, Bytes>

    constructor ()
      ensures objects == map[]
    {
      objects := map[];
    }

    method Upload(key: string, payload: Bytes)
      modifies this
      ensures objects == old(objects)[key := payload]
    {
      objects := objects[key := payload];
    }

    /** `_collect_artifacts`; `None` entries are a listing that raised. */
    method CollectArtifacts(listing: Option<seq<Entry>>, maxCount: nat, maxBytes: nat, base: string,
                            workspace: string, execution: string, storage: bool, attempts: nat -> Attempt)
      returns (artifacts: seq<Artifact>)
      modifies this
      ensures listing.None? ==> artifacts == [] && objects == old(objects)
      ensures listing.Some? ==>
                var c := Copying(base, workspace, execution, storage, maxBytes, KeptFiles(listing.value, maxCount), attempts);
                && objects == c.After(old(objects))
                && artifacts == seq(|c.files|, i requires 0 <= i < |c.files| => c.Record(i))
      ensures listing.Some? ==>
                var files := KeptFiles(listing.value, maxCount);
                && |artifacts| == |files|
                && forall i :: 0 <= i < |files| ==>
                     && artifacts[i].path == files[i].path
                     && (artifacts[i].key != None <==>
                           storage && files[i].size <= maxBytes && attempts(i).read != None && attempts(i).stored)
                     && artifacts[i].size == if artifacts[i].key != None then |attempts(i).read.value| else files[i].size
    {
      if listing.None? {
        return [];
      }
      var files := KeptFiles(listing.value, maxCount);
      ghost var c := Copying(base, workspace, execution, storage, maxBytes, files, attempts);
      artifacts := [];
      for i := 0 to |files|
        invariant |artifacts| == i
        invariant forall k :: 0 <= k < i ==> artifacts[k] == c.Record(k)
        invariant objects == c.Stored(old(objects), i)
      {
        var artifact := Artifact(files[i].path, files[i].size, None);
        if storage && files[i].size <= maxBytes {
          var payload := attempts(i).read;
          if payload.Some? {
            var key := ArtifactKey(base, workspace, execution, BaseName(files[i].path));
            if attempts(i).stored {
              Upload(key, payload.value);
              artifact := Artifact(files[i].path, |payload.value|, Some(key));
            }
          }
        }
        artifacts := artifacts + [artifact];
      }
    }
  }

  /** A key of nobody's file in this collection keeps its bytes. */
  lemma {:induction false} StoredElsewhere(c: Copying, objects: map<string, Bytes>, n: nat, key: string)
    requires n <= |c.files| && forall i :: 0 <= i < n ==> c.Key(i) != key
    ensures key in c.Stored(objects, n) <==> key in objects
    ensures key in objects ==> c.Stored(objects, n)[key] == objects[key]
  {
    if n > 0 {
      StoredElsewhere(c, objects, n - 1, key);
    }
  }

  /** The last file copied to a key is the one found there. */
  lemma {:induction false} StoredLast(c: Copying, objects: map<string, Bytes>, n: nat, i: nat, key: string)
    requires i < n <= |c.files| && c.Copied(i) && c.Key(i) == key
    requires forall j :: i < j < n ==> c.Key(j) != key
    ensures key in c.Stored(objects, n) && c.Stored(objects, n)[key] == c.attempts(i).read.value
    decreases n
  {
    if i < n - 1 {
      StoredLast(c, objects, n - 1, i, key);
      assert c.Key(n - 1) != key;
    }
  }

  /** With distinct base names every copied artifact is found under its key with its own bytes. */
  lemma StoredOwn(c: Copying, objects: map<string, Bytes>, i: nat)
    requires DistinctNames(c.files) && NoSlash(c.workspace) && i < |c.files| && c.Copied(i)
    ensures c.Key(i) in c.After(objects) && c.After(objects)[c.Key(i)] == c.attempts(i).read.value
  {
    forall j | i < j < |c.files| ensures c.Key(j) != c.Key(i) {
      KeysDiffer(c, i, j);
    }
    StoredLast(c, objects, |c.files|, i, c.Key(i));
  }

  lemma KeysDiffer(c: Copying, i: nat, j: nat)
    requires DistinctNames(c.files) && NoSlash(c.workspace) && i < j < |c.files|
    ensures c.Key(i) != c.Key(j)
  {
    ArtifactKeyIsInjective(c.base, c.workspace, c.execution, BaseName(c.files[i].path),
                           c.workspace, c.execution, BaseName(c.files[j].path));
  }

  /** A listing of one directory: its entries are the directory's distinct names. */
  ghost predicate ListsDirectory(entries: seq<Entry>, dir: string) {
    && (forall i :: 0 <= i < |entries| ==>
          exists name :: NoSlash(name) && entries[i].path == if dir == "" then name else dir + ("/" + name))
    && (forall i, j :: 0 <= i < j < |entries| ==> entries[i].path != entries[j].path)
  }

  lemma BaseNameOf(dir: string, name: string)
    requires NoSlash(name)
    ensures BaseName(name) == name
    ensures BaseName(dir + ("/" + name)) == name
  {
    var path := dir + ("/" + name);
    assert path[|dir|] == '/';
    if BaseName(path) != path {
      var d :| path == d + ("/" + BaseName(path));
      CutLast(dir, name, d, BaseName(path));
    }
  }

  /** Entries of one directory have distinct base names, and so do the files kept of them. */
  lemma ListingsHaveDistinctNames(entries: seq<Entry>, dir: string, maxCount: nat)
    requires ListsDirectory(entries, dir)
    ensures DistinctNames(KeptFiles(entries, maxCount))
  {
    forall i, j | 0 <= i < j < |entries|
      ensures BaseName(entries[i].path) != BaseName(entries[j].path)
    {
      var a :| NoSlash(a) && entries[i].path == if dir == "" then a else dir + ("/" + a);
      var b :| NoSlash(b) && entries[j].path == if dir == "" then b else dir + ("/" + b);
      BaseNameOf(dir, a);
      BaseNameOf(dir, b);
    }
    PlainFilesDistinct(entries);
  }

  lemma {:induction false} PlainFilesAreListed(entries: seq<Entry>)
    ensures forall f :: f in PlainFiles(entries) ==> f in entries
  {
    if entries != [] {
      var most := entries[..|entries| - 1];
      PlainFilesAreListed(most);
      assert forall f :: f in PlainFiles(entries) ==> f in PlainFiles(most) || f == entries[|entries| - 1];
    }
  }

  lemma {:induction false} PlainFilesDistinct(entries: seq<Entry>)
    requires DistinctNames(entries)
    ensures DistinctNames(PlainFiles(entries))
  {
    if entries != [] {
      var most, last := entries[..|entries| - 1], entries[|entries| - 1];
      PlainFilesDistinct(most);
      PlainFilesAreListed(most);
      forall k | 0 <= k < |PlainFiles(most)|
        ensures BaseName(PlainFiles(most)[k].path) != BaseName(last.path)
      {
        assert PlainFiles(most)[k] in most;
        var i :| 0 <= i < |most| && most[i] == PlainFiles(most)[k];
        assert entries[i] == most[i];
      }
    }
  }

  // ---------------------------------------------------------------------------
  // Runs do not overwrite each other
  // ---------------------------------------------------------------------------

  /** Everything the two workers store. */
  datatype Write =
    | Collect(copying: Copying)
    | Output(user: Option<int>, job: string, name: string, payload: Bytes)

  function WriteTo(objects: map<string, Bytes>, base: string, w: Write): map<string, Bytes> {
    match w
    case Collect(c) => c.After(objects)
    case Output(u, job, name, payload) => objects[OutputKey(base, u, job, name) := payload]
  }

  function WriteAll(objects: map<string, Bytes>, base: string, writes: seq<Write>): map<string, Bytes> {
    if writes == [] then objects else WriteTo(WriteAll(objects, base, writes[..|writes| - 1]), base, writes[|writes| - 1])
  }

  /** Writes of other executions, and any conversions. */
  predicate Foreign(w: Write, base: string, workspace: string, execution: string) {
    w.Collect? ==>
      && w.copying.base == base && NoSlash(w.copying.workspace)
      && (w.copying.workspace != workspace || w.copying.execution != execution)
  }

  lemma ForeignLeaves(objects: map<string, Bytes>, w: Write, c: Copying, i: nat)
    requires NoSlash(c.workspace) && i < |c.files| && Foreign(w, c.base, c.workspace, c.execution)
    ensures c.Key(i) in WriteTo(objects, c.base, w) <==> c.Key(i) in objects
    ensures c.Key(i) in objects ==> WriteTo(objects, c.base, w)[c.Key(i)] == objects[c.Key(i)]
  {
    var name := BaseName(c.files[i].path);
    match w
    case Collect(d) =>
      forall k | 0 <= k < |d.files| ensures d.Key(k) != c.Key(i) {
        ArtifactKeyIsInjective(c.base, d.workspace, d.execution, BaseName(d.files[k].path), c.workspace, c.execution, name);
      }
      StoredElsewhere(d, objects, |d.files|, c.Key(i));
    case Output(u, job, file, payload) =>
      KindsAreDisjoint(c.base, u, job, file, c.workspace, c.execution, name);
  }

  /** An execution's copied artifacts are found under the recorded keys, with the bytes read
      from the runtime, after any later collections of other executions and any conversions. */
  lemma {:induction false} ArtifactsSurvive(objects: map<string, Bytes>, c: Copying, later: seq<Write>, i: nat)
    requires NoSlash(c.workspace) && DistinctNames(c.files) && i < |c.files| && c.Copied(i)
    requires forall w | w in later :: Foreign(w, c.base, c.workspace, c.execution)
    ensures var end := WriteAll(c.After(objects), c.base, later);
            && c.Record(i).key == Some(c.Key(i)) && c.Key(i) in end
            && end[c.Key(i)] == c.attempts(i).read.value && c.Record(i).size == |end[c.Key(i)]|
  {
    if later == [] {
      StoredOwn(c, objects, i);
    } else {
      ArtifactsSurvive(objects, c, later[..|later| - 1], i);
      ForeignLeaves(WriteAll(c.After(objects), c.base, later[..|later| - 1]), later[|later| - 1], c, i);
    }
  }

  /** A converted file keeps its bytes through any later collections and any conversions of
      other jobs, users or names. */
  lemma {:induction false} OutputsSurvive(objects: map<string, Bytes>, base: string, u: Option<int>, job: string,
                                          name: string, payload: Bytes, later: seq<Write>)
    requires NoSlash(name)
    requires forall w | w in later ::
               if w.Collect? then w.copying.base == base
               else NoSlash(w.name) && (w.user != u || w.job != job || w.name != name)
    ensures var end := WriteAll(objects[OutputKey(base, u, job, name) := payload], base, later);
            OutputKey(base, u, job, name) in end && end[OutputKey(base, u, job, name)] == payload
  {
    if later != [] {
      var before := WriteAll(objects[OutputKey(base, u, job, name) := payload], base, later[..|later| - 1]);
      OutputsSurvive(objects, base, u, job, name, payload, later[..|later| - 1]);
      match later[|later| - 1]
      case Collect(d) =>
        forall k | 0 <= k < |d.files| ensures d.Key(k) != OutputKey(base, u, job, name) {
          KindsAreDisjoint(base, u, job, name, d.workspace, d.execution, BaseName(d.files[k].path));
        }
        StoredElsewhere(d, before, |d.files|, OutputKey(base, u, job, name));
      case Output(u', job', name', _) =>
        OutputKeyIsInjective(base, u', job', name', u, job, name);
    }
  }
}
