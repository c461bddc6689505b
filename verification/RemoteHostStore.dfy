/** RemoteHostStore: the saved SSH hosts as one document, loaded, checked and
    rewritten whole by every change. The file is a value; what can go wrong in
    reading or writing it is a parameter. */
module RemoteHostStore {
  import opened SshDestination
  import opened Text
  import opened KeyedList
  import opened Wrappers

  datatype Mode = Direct | Config | OtherMode(name: string)

  datatype Entry = Entry(
    id: string, mode: Mode, destination: string, port: int, alias: string, caption: string,
    sshConfigPath: string, clientInstanceId: string, resumeLeaseId: string, layoutRef: string)

  const MAX_HOSTS := 256
  const NUL := 0 as char

  /** filepath.IsAbs and filepath.Clean(path) == path. */
  datatype Env = Env(lib: Lib, absClean: string -> bool)

  // ---- Validation ----

  predicate Hex64(s: string, prefix: string) {
    |s| == |prefix| + 64 && prefix <= s
    && forall i | |prefix| <= i < |s| :: Digit(s[i]) || 'a' <= s[i] <= 'f'
  }

  predicate ValidAlias(s: string) {
    1 <= |s| <= 255 && Alnum(s[0]) && forall c | c in s :: Alnum(c) || c in "._-"
  }

  predicate Control(c: char) {
    c as int < 0x20 || c as int == 0x7f
  }

  predicate ValidText(s: string, max: nat, allowEmpty: bool) {
    if s == "" then allowEmpty
    else ByteLength(s) <= max && Trim(s) == s && forall c | c in s :: !Control(c)
  }

  predicate ValidConfigPath(env: Env, s: string) {
    s == "" || ((forall c | c in s :: !Control(c)) && env.absClean(s))
  }

  predicate ValidConnection(env: Env, e: Entry) {
    match e.mode
    case Direct =>
      var t := Parse(env.lib, e.destination);
      t.Ok? && Destination(t.value) == e.destination && 1 <= e.port <= 65535 && e.alias == "" && e.sshConfigPath == ""
    case Config =>
      ValidAlias(e.alias) && ValidConfigPath(env, e.sshConfigPath) && e.destination == "" && e.port == 0
    case OtherMode(_) => false
  }

  predicate ValidEntry(env: Env, e: Entry) {
    && Hex64(e.id, "host_") && ValidConnection(env, e)
    && ValidText(e.caption, 256, false) && Hex64(e.clientInstanceId, "desktop_")
    && ValidText(e.resumeLeaseId, 512, true) && ValidText(e.layoutRef, 512, true)
  }

  // ---- The connection key ----

  function Atoi(s: string): int {
    if |s| == 0 then 0 else Atoi(s[..|s| - 1]) * 10 + (s[|s| - 1] as int - '0' as int)
  }

  lemma {:induction false} AtoiItoa(n: nat)
    ensures Atoi(Itoa(n)) == n
  {
    if n >= 10 {
      AtoiItoa(n / 10);
      assert Itoa(n)[..|Itoa(n)| - 1] == Itoa(n / 10);
    } else {
      assert Itoa(n)[..0] == "";
    }
  }

  function Key(e: Entry): string {
    match e.mode
    case Direct => ModeName(e.mode) + [NUL] + Connection(e)
    case Config => ModeName(e.mode) + [NUL] + Connection(e)
    case OtherMode(_) => ModeName(e.mode)
  }

  /** Text without the separator before it splits one way only. */
  lemma SplitOnce(a: string, b: string, c: string, d: string)
    requires NUL !in a && NUL !in c && a + [NUL] + b == c + [NUL] + d
    ensures a == c && b == d
  {
    var s := a + [NUL] + b;
    assert s[|a|] == NUL && s[|c|] == NUL;
    assert forall k | 0 <= k < |a| :: s[k] == a[k];
    assert forall k | 0 <= k < |c| :: s[k] == c[k];
    assert |a| == |c|;
    assert s[..|a|] == a && s[..|c|] == c && s[|a| + 1..] == b && s[|c| + 1..] == d;
  }

  lemma HostNoNul(lib: Lib, h: string)
    requires Canonical(lib, h)
    ensures NUL !in h
  {
    if DottedQuad(h) {
      QuadIsNumeric(h, 4);
    } else if Labels(h) {
      LabelChars(h);
    }
  }

  lemma NoNul(lib: Lib, d: string, t: Target)
    requires Lawful(lib) && Parse(lib, d) == Ok(t) && Destination(t) == d
    ensures NUL !in d
  {
    AcceptedIsCanonical(lib, d[IndexOf(d, '@') + 1..], t.host);
    HostNoNul(lib, t.host);
    UserNoNul(t.username);
  }

  lemma UserNoNul(u: string)
    requires ValidUsername(u)
    ensures NUL !in u
  {
  }

  lemma DirectKey(env: Env, a: Entry, b: Entry)
    requires Lawful(env.lib) && ValidConnection(env, a) && ValidConnection(env, b)
    requires a.mode.Direct? && b.mode.Direct?
    requires a.destination + [NUL] + Itoa(a.port) == b.destination + [NUL] + Itoa(b.port)
    ensures a.destination == b.destination && a.port == b.port
  {
    NoNul(env.lib, a.destination, Parse(env.lib, a.destination).value);
    NoNul(env.lib, b.destination, Parse(env.lib, b.destination).value);
    SplitOnce(a.destination, Itoa(a.port), b.destination, Itoa(b.port));
    AtoiItoa(a.port);
    AtoiItoa(b.port);
  }

  function ModeName(m: Mode): string {
    match m
    case Direct => "direct"
    case Config => "config"
    case OtherMode(name) => name
  }

  function Connection(e: Entry): string {
    match e.mode
    case Direct => e.destination + [NUL] + Itoa(if e.port >= 0 then e.port else 0)
    case _ => e.sshConfigPath + [NUL] + e.alias
  }

  /** The key identifies the connection: valid entries share it only if mode and
      every connection field agree. */
  lemma KeyInjective(env: Env, a: Entry, b: Entry)
    requires Lawful(env.lib) && ValidConnection(env, a) && ValidConnection(env, b) && Key(a) == Key(b)
    ensures a.mode == b.mode && a.destination == b.destination && a.port == b.port
    ensures a.alias == b.alias && a.sshConfigPath == b.sshConfigPath
  {
    SplitOnce(ModeName(a.mode), Connection(a), ModeName(b.mode), Connection(b));
    assert "direct"[0] != "config"[0];
    if a.mode.Direct? {
      DirectKey(env, a, b);
    } else {
      SplitOnce(a.sshConfigPath, a.alias, b.sshConfigPath, b.alias);
    }
  }

  // ---- The document ----

  function Id(e: Entry): string {
    e.id
  }

  ghost predicate WellFormed(env: Env, hosts: seq<Entry>) {
    |hosts| <= MAX_HOSTS && (forall h | h in hosts :: ValidEntry(env, h)) && Distinct(hosts, Id, Key)
  }

  /** The file: absent, refused before decoding (permissions, size, JSON), or a
      decoded document. */
  datatype File = Missing | Refused | Document(version: int, hosts: seq<Entry>)

  function Upgraded(version: int, hosts: seq<Entry>): seq<Entry> {
    if version == 1 then seq(|hosts|, i requires 0 <= i < |hosts| => hosts[i].(mode := Config)) else hosts
  }

  ghost function Loaded(env: Env, f: File): Option<seq<Entry>> {
    match f
    case Missing => Some([])
    case Refused => None
    case Document(v, hosts) =>
      if (v == 1 || v == 2) && WellFormed(env, Upgraded(v, hosts)) then Some(Upgraded(v, hosts)) else None
  }

  /** A version 1 document loads as the same entries in config mode, a version 2
      document as it is, and either only if what results is well-formed. */
  lemma LoadedIs(env: Env, version: int, hosts: seq<Entry>, up: seq<Entry>)
    requires |up| == |hosts|
    requires forall i | 0 <= i < |hosts| :: up[i] == if version == 1 then hosts[i].(mode := Config) else hosts[i]
    ensures Loaded(env, Document(version, hosts)) == if version in {1, 2} && WellFormed(env, up) then Some(up) else None
  {
    assert Upgraded(version, hosts) == up;
  }

  // ---- The store ----

  datatype Outcome =
    | Done
    | InvalidEntry | InvalidId | LoadFailed | TooMany | DuplicateId | DuplicateKey | TooLarge | WriteFailed | NotSaved

  /** What encoding and writing meet: a document over the byte limit, or an I/O
      error. */
  datatype Disk = Accepts | Oversized | Fails

  /** A list whose first i entries are distinct stays so with the next one
      exactly when none of them shares its ID or key; otherwise the whole list
      is not distinct. */
  lemma ExtendDistinct(hosts: seq<Entry>, i: nat)
    requires i < |hosts| && Distinct(hosts[..i], Id, Key)
    ensures var fresh' := forall h | h in hosts[..i] :: Id(h) != Id(hosts[i]) && Key(h) != Key(hosts[i]);
      (fresh' ==> Distinct(hosts[..i + 1], Id, Key)) && (!fresh' ==> !Distinct(hosts, Id, Key))
  {
    var init, e := hosts[..i], hosts[i];
    assert hosts[..i + 1] == init + [e];
    if forall h | h in init :: Id(h) != Id(e) && Key(h) != Key(e) {
      AppendDistinct(init, e, Id, Key);
    } else {
      var h :| h in init && !(Id(h) != Id(e) && Key(h) != Key(e));
      var j :| 0 <= j < i && hosts[j] == h;
      assert !(Id(hosts[j]) != Id(hosts[i]) && Key(hosts[j]) != Key(hosts[i]));
    }
  }

  ghost function Collected(hosts: seq<Entry>, f: Entry -> string): set<string> {
    set h | h in hosts :: f(h)
  }

  lemma Collect(hosts: seq<Entry>, e: Entry, f: Entry -> string)
    ensures Collected(hosts + [e], f) == Collected(hosts, f) + {f(e)}
    ensures f(e) !in Collected(hosts, f) <==> forall h | h in hosts :: f(h) != f(e)
  {
  }

  /** Entry i is the first that cannot stay in the list, and why. */
  ghost predicate Offends(env: Env, hosts: seq<Entry>, i: nat, why: Outcome)
    requires i < |hosts|
  {
    && (forall h | h in hosts[..i] :: ValidEntry(env, h)) && Distinct(hosts[..i], Id, Key)
    && match why
       case InvalidEntry => !ValidEntry(env, hosts[i])
       case DuplicateId => ValidEntry(env, hosts[i]) && exists h | h in hosts[..i] :: h.id == hosts[i].id
       case DuplicateKey =>
         && ValidEntry(env, hosts[i]) && (forall h | h in hosts[..i] :: h.id != hosts[i].id)
         && exists h | h in hosts[..i] :: Key(h) == Key(hosts[i])
       case _ => false
  }

  class RemoteHostStore {
    const env: Env
    var file: File

    constructor (env: Env, file: File)
      ensures this.env == env && this.file == file
    {
      this.env, this.file := env, file;
    }

    /** The loop both load and save run over a list of hosts: the first entry
        that offends, if any. */
    method Check(hosts: seq<Entry>) returns (bad: Option<Outcome>)
      ensures bad.None? <==> (forall h | h in hosts :: ValidEntry(env, h)) && Distinct(hosts, Id, Key)
      ensures bad.Some? ==> exists i | 0 <= i < |hosts| :: Offends(env, hosts, i, bad.value)
    {
      var seenIds: set<string>, seenKeys: set<string> := {}, {};
      for i := 0 to |hosts|
        invariant forall h | h in hosts[..i] :: ValidEntry(env, h)
        invariant Distinct(hosts[..i], Id, Key)
        invariant seenIds == Collected(hosts[..i], Id) && seenKeys == Collected(hosts[..i], Key)
      {
        var e := hosts[i];
        var init := hosts[..i];
        assert hosts[..i + 1] == init + [e];
        if !ValidEntry(env, e) {
          assert Offends(env, hosts, i, InvalidEntry);
          return Some(InvalidEntry);
        }
        ExtendDistinct(hosts, i);
        Collect(init, e, Id);
        Collect(init, e, Key);
        if e.id in seenIds {
          assert Offends(env, hosts, i, DuplicateId);
          return Some(DuplicateId);
        }
        seenIds := seenIds + {e.id};
        if Key(e) in seenKeys {
          assert Offends(env, hosts, i, DuplicateKey);
          return Some(DuplicateKey);
        }
        seenKeys := seenKeys + {Key(e)};
      }
      assert hosts[..|hosts|] == hosts;
      return None;
    }

    method Load() returns (hosts: Option<seq<Entry>>)
      ensures hosts == Loaded(env, file)
    {
      match file {
        case Missing => return Some([]);
        case Refused => return None;
        case Document(v, listed) =>
          if v != 1 && v != 2 {
            return None;
          }
          var upgraded := Upgraded(v, listed);
          if |upgraded| > MAX_HOSTS {
            return None;
          }
          var bad := Check(upgraded);
          return if bad.None? then Some(upgraded) else None;
      }
    }

    /** A refused save leaves the file; a done one leaves the same hosts, sorted
        by ID. */
    method Save(hosts: seq<Entry>, disk: Disk) returns (o: Outcome)
      modifies this`file
      ensures o == Done <==> WellFormed(env, hosts) && disk == Accepts
      ensures o == Done ==> file == Document(2, SortById(hosts, Id)) && SavedAs(AsMap(hosts, Id))
      ensures o != Done ==> file == old(file)
      ensures |hosts| > MAX_HOSTS ==> o == TooMany
      ensures |hosts| <= MAX_HOSTS && !WellFormed(env, hosts) ==>
                exists i | 0 <= i < |hosts| :: Offends(env, hosts, i, o)
      ensures WellFormed(env, hosts) ==>
                o == (if disk == Accepts then Done else if disk == Oversized then TooLarge else WriteFailed)
    {
      if |hosts| > MAX_HOSTS {
        return TooMany;
      }
      var bad := Check(hosts);
      if bad.Some? {
        return bad.value;
      }
      SortedDocument(env, hosts);
      match disk {
        case Oversized => return TooLarge;
        case Fails => return WriteFailed;
        case Accepts =>
          file := Document(2, SortById(hosts, Id));
          return Done;
      }
    }

    /** The file loads, and its hosts stand for the map m. */
    ghost predicate SavedAs(m: map<string, Entry>)
      reads this
    {
      Loaded(env, file).Some? && AsMap(Loaded(env, file).value, Id) == m
    }

    ghost predicate Loads()
      reads this
    {
      Loaded(env, file).Some?
    }

    ghost function Hosts(): seq<Entry>
      reads this
      requires Loads()
    {
      Loaded(env, file).value
    }

    ghost function Map(): map<string, Entry>
      reads this
      requires Loads()
    {
      AsMap(Hosts(), Id)
    }

    /** Upsert sets one key of the map. It is refused, and the file left as it
        was, exactly when the entry is invalid, the file does not load, another
        entry already has the connection, the store is full, or the disk says
        no. */
    method Upsert(e: Entry, disk: Disk) returns (o: Outcome)
      modifies this`file
      ensures o == Done <==> ValidEntry(env, e) && disk == Accepts && old(Loads()) && CanHold(old(Hosts()), e)
      ensures o == Done ==> SavedAs(old(Map())[e.id := e])
      ensures o != Done ==> file == old(file)
      ensures !ValidEntry(env, e) ==> o == InvalidEntry
      ensures ValidEntry(env, e) && !old(Loads()) ==> o == LoadFailed
      ensures ValidEntry(env, e) && old(Loads()) && old(CanHold(Hosts(), e)) && disk != Accepts ==>
                o == if disk == Oversized then TooLarge else WriteFailed
    {
      if !ValidEntry(env, e) {
        return InvalidEntry;
      }
      var loaded := Load();
      if loaded.None? {
        return LoadFailed;
      }
      var hosts := loaded.value;
      var i := FindId(hosts, e.id);
      if i < |hosts| {
        ReplaceAt(env, hosts, i, e);
        hosts := hosts[i := e];
      } else {
        AppendNew(env, hosts, e);
        hosts := hosts + [e];
      }
      o := Save(hosts, disk);
    }

    /** The first host with the ID, or the length. */
    method FindId(hosts: seq<Entry>, id: string) returns (i: nat)
      ensures i <= |hosts| && (i < |hosts| ==> hosts[i].id == id)
      ensures forall h | h in hosts[..i] :: h.id != id
      ensures i == |hosts| ==> forall h | h in hosts :: h.id != id
    {
      i := 0;
      while i < |hosts| && hosts[i].id != id
        invariant i <= |hosts| && forall h | h in hosts[..i] :: h.id != id
      {
        assert hosts[..i + 1] == hosts[..i] + [hosts[i]];
        i := i + 1;
      }
      assert i == |hosts| ==> hosts[..i] == hosts;
    }

    /** Delete's loop. */
    method Others(hosts: seq<Entry>, id: string) returns (filtered: seq<Entry>)
      ensures filtered == Without(hosts, id, Id)
    {
      filtered := [];
      for i := 0 to |hosts|
        invariant filtered == Without(hosts[..i], id, Id)
      {
        assert hosts[..i + 1][..i] == hosts[..i];
        if hosts[i].id != id {
          filtered := filtered + [hosts[i]];
        }
      }
      assert hosts[..|hosts|] == hosts;
    }

    method Delete(id: string, disk: Disk) returns (o: Outcome)
      modifies this`file
      ensures o == Done <==> Hex64(id, "host_") && old(Loads()) && (disk == Accepts || id !in old(Map()))
      ensures o == Done ==> SavedAs(old(Map()) - {id})
      ensures o != Done || id !in old(Map()) ==> file == old(file)
      ensures !Hex64(id, "host_") ==> o == InvalidId
      ensures Hex64(id, "host_") && !old(Loads()) ==> o == LoadFailed
    {
      if !Hex64(id, "host_") {
        return InvalidId;
      }
      var loaded := Load();
      if loaded.None? {
        return LoadFailed;
      }
      var hosts := loaded.value;
      var filtered := Others(hosts, id);
      RemoveAll(env, hosts, id);
      if |filtered| == |hosts| {
        return Done;
      }
      o := Save(filtered, disk);
    }

    /** Get looks one key up. */
    method Get(id: string) returns (e: Option<Entry>, o: Outcome)
      ensures o == Done <==> Hex64(id, "host_") && Loads()
      ensures o == Done ==> e == if id in Map() then Some(Map()[id]) else None
      ensures o != Done ==> e == None
    {
      if !Hex64(id, "host_") {
        return None, InvalidId;
      }
      var loaded := Load();
      if loaded.None? {
        return None, LoadFailed;
      }
      var hosts := loaded.value;
      var i := FindId(hosts, id);
      if i < |hosts| {
        AsMapHas(hosts, Id, Key, hosts[i]);
        return Some(hosts[i]), Done;
      }
      AsMapLacks(hosts, Id, id);
      return None, Done;
    }

    /** UpdateResumeLease and UpdateLayoutRef: change one field of a saved entry;
        the connection cannot change. */
    method Update(id: string, resumeLease: Option<string>, layoutRef: Option<string>, disk: Disk) returns (o: Outcome)
      modifies this`file
      ensures o == Done <==> Hex64(id, "host_") && disk == Accepts && old(Loads()) && id in old(Map())
                             && ValidEntry(env, Changed(old(Map())[id], resumeLease, layoutRef))
      ensures o == Done ==> SavedAs(old(Map())[id := Changed(old(Map())[id], resumeLease, layoutRef)])
      ensures o == Done ==>
                var (was, now) := (old(Map())[id], AsMap(Loaded(env, file).value, Id)[id]);
                && now == was.(resumeLeaseId := now.resumeLeaseId, layoutRef := now.layoutRef)
                && now.resumeLeaseId == (if resumeLease.Some? then resumeLease.value else was.resumeLeaseId)
                && now.layoutRef == (if layoutRef.Some? then layoutRef.value else was.layoutRef)
      ensures o != Done ==> file == old(file)
      ensures Hex64(id, "host_") && old(Loads()) && id !in old(Map()) ==> o == NotSaved
    {
      if !Hex64(id, "host_") {
        return InvalidId;
      }
      var loaded := Load();
      if loaded.None? {
        return LoadFailed;
      }
      var hosts := loaded.value;
      var i := FindId(hosts, id);
      if i == |hosts| {
        AsMapLacks(hosts, Id, id);
        return NotSaved;
      }
      AsMapHas(hosts, Id, Key, hosts[i]);
      var e := Changed(hosts[i], resumeLease, layoutRef);
      if !ValidEntry(env, e) {
        return InvalidEntry;
      }
      ReplaceAt(env, hosts, i, e);
      SameKeyFits(hosts, i, e);
      o := Save(hosts[i := e], disk);
    }
  }

  /** The written document loads as the same hosts, sorted. */
  lemma SortedDocument(env: Env, hosts: seq<Entry>)
    requires WellFormed(env, hosts)
    ensures Loaded(env, Document(2, SortById(hosts, Id))) == Some(SortById(hosts, Id))
    ensures AsMap(SortById(hosts, Id), Id) == AsMap(hosts, Id)
  {
    SortKeeps(hosts, Id, Key);
  }

  /** An entry that keeps its ID and connection always fits in its own place. */
  lemma SameKeyFits(hosts: seq<Entry>, i: nat, e: Entry)
    requires i < |hosts| && Distinct(hosts, Id, Key) && e.id == hosts[i].id && Key(e) == Key(hosts[i])
    ensures CanHold(hosts, e)
  {
    forall h | h in hosts && h.id != e.id
      ensures Key(h) != Key(e)
    {
      var k :| 0 <= k < |hosts| && hosts[k] == h;
    }
    AsMapHas(hosts, Id, Key, hosts[i]);
  }

  function Changed(e: Entry, resumeLease: Option<string>, layoutRef: Option<string>): Entry {
    e.(resumeLeaseId := if resumeLease.Some? then resumeLease.value else e.resumeLeaseId,
       layoutRef := if layoutRef.Some? then layoutRef.value else e.layoutRef)
  }

  /** Whether the map can take the entry: no other ID has its connection, and a
      new ID still fits. */
  ghost predicate CanHold(hosts: seq<Entry>, e: Entry) {
    NoClash(hosts, e, Id, Key) && (|hosts| < MAX_HOSTS || e.id in AsMap(hosts, Id))
  }

  lemma ReplaceAt(env: Env, hosts: seq<Entry>, i: nat, e: Entry)
    requires i < |hosts| && WellFormed(env, hosts) && hosts[i].id == e.id && ValidEntry(env, e)
    ensures WellFormed(env, hosts[i := e]) <==> CanHold(hosts, e)
    ensures AsMap(hosts[i := e], Id) == AsMap(hosts, Id)[e.id := e]
    ensures e.id in AsMap(hosts, Id) && AsMap(hosts, Id)[e.id] == hosts[i]
  {
    ReplaceDistinct(hosts, i, e, Id, Key);
    ReplaceMap(hosts, i, e, Id);
    AsMapHas(hosts, Id, Key, hosts[i]);
    var r := hosts[i := e];
    forall h | h in r
      ensures ValidEntry(env, h)
    {
      assert h == e || h in hosts;
    }
  }

  lemma AppendNew(env: Env, hosts: seq<Entry>, e: Entry)
    requires WellFormed(env, hosts) && ValidEntry(env, e) && forall h | h in hosts :: h.id != e.id
    ensures WellFormed(env, hosts + [e]) <==> CanHold(hosts, e)
    ensures AsMap(hosts + [e], Id) == AsMap(hosts, Id)[e.id := e]
  {
    AppendDistinct(hosts, e, Id, Key);
    AsMapLacks(hosts, Id, e.id);
  }

  lemma RemoveAll(env: Env, hosts: seq<Entry>, id: string)
    requires WellFormed(env, hosts)
    ensures WellFormed(env, Without(hosts, id, Id))
    ensures AsMap(Without(hosts, id, Id), Id) == AsMap(hosts, Id) - {id}
    ensures |Without(hosts, id, Id)| == |hosts| <==> id !in AsMap(hosts, Id)
  {
    WithoutItems(hosts, id, Id);
    WithoutMap(hosts, id, Id);
    WithoutDistinct(hosts, id, Id, Key);
    if h :| h in hosts && h.id == id {
      AsMapHas(hosts, Id, Key, h);
    } else {
      AsMapLacks(hosts, Id, id);
    }
  }
}
