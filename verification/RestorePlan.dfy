/** Validation of a restore zip and what applying its plan does to the files:
    `validate_restore_zip` and `_apply_entries` of app/restore.py. */
module RestorePlan {
  import opened Wrappers
  import opened MemberNames

  type Bytes = seq<bv8>

  /** What reading a member gives: its bytes, a checksum error (zipfile.BadZipFile)
      or another exception (encrypted or badly compressed data). */
  datatype Payload = Data(bytes: Bytes) | BadChecksum | Unreadable

  datatype Member = Member(name: string, size: int, special: bool, payload: Payload)

  datatype ZipFile = Zip(members: seq<Member>) | NotAZip

  datatype Limits = Limits(maxEntries: int, maxTotal: int, maxEntry: int)

  /** SQLite and JSON are outside the model: which bytes are acceptable, and which
      image the online backup takes of a database file with its write-ahead log. */
  datatype Formats = Formats(
    sqliteOk: Bytes -> bool,
    jsonOk: Bytes -> bool,
    jsonlOk: Bytes -> bool,
    merge: (Bytes, Bytes) -> Bytes)

  datatype Entry = Entry(name: string, size: int, target: Target)

  datatype Plan = Plan(entries: seq<Entry>, total: int, hasStateDb: bool)

  datatype Verdict = Accepted(plan: Plan) | Rejected | Escaped

  // ----- validation -----

  datatype Fault = Sound | Invalid | Escapes

  predicate Seen(ms: seq<Member>, name: string) {
    exists i | 0 <= i < |ms| :: ms[i].name == name
  }

  /** `zf.read(name)`: a name stands for the last member that carries it. */
  function Read(ms: seq<Member>, name: string): Payload
    requires Seen(ms, name)
  {
    var last := |ms| - 1;
    if ms[last].name == name then ms[last].payload else Read(ms[..last], name)
  }

  function Total(ms: seq<Member>): int {
    if ms == [] then 0 else Total(ms[..|ms| - 1]) + ms[|ms| - 1].size
  }

  predicate FormatOk(fmt: Formats, t: Target, bytes: Bytes) {
    match t
    case StateDb => fmt.sqliteOk(bytes)
    case Sidecar(_) => fmt.jsonOk(bytes)
    case Archive(_, _) => fmt.jsonOk(bytes)
    case Log(_) => fmt.jsonlOk(bytes)
  }

  /** One turn of the loop: the complaint about a member, given whether its name
      came before, the running total with it, and what reading it gives. */
  function Judge(m: Member, duplicate: bool, total: int, payload: Payload, fmt: Formats, lim: Limits): Fault {
    var t := Classify(m.name);
    if m.size < 0 || m.special || t.None? then Invalid
    else if duplicate || m.size > lim.maxEntry || total > lim.maxTotal then Invalid
    else
      match payload
      case BadChecksum => Invalid
      case Unreadable => Escapes
      case Data(bytes) => if FormatOk(fmt, t.value, bytes) then Sound else Invalid
  }

  function FaultAt(ms: seq<Member>, fmt: Formats, lim: Limits, i: nat): Fault
    requires i < |ms|
  {
    Judge(ms[i], Seen(ms[..i], ms[i].name), Total(ms[..i + 1]), Read(ms, ms[i].name), fmt, lim)
  }

  lemma SoundIsNamed(m: Member, duplicate: bool, total: int, payload: Payload, fmt: Formats, lim: Limits)
    requires Judge(m, duplicate, total, payload, fmt, lim) == Sound
    ensures Classify(m.name).Some? && payload.Data?
  {
  }

  lemma SeenStep(ms: seq<Member>, i: nat)
    requires i < |ms|
    ensures forall n :: Seen(ms[..i + 1], n) <==> Seen(ms[..i], n) || n == ms[i].name
    ensures Seen(ms, ms[i].name)
  {
    forall n ensures Seen(ms[..i + 1], n) <==> Seen(ms[..i], n) || n == ms[i].name {
      assert ms[..i + 1] == ms[..i] + [ms[i]];
      if Seen(ms[..i], n) {
        var j :| 0 <= j < i && ms[..i][j].name == n;
        assert ms[..i + 1][j].name == n;
      }
      assert ms[..i + 1][i].name == ms[i].name;
    }
  }

  function EntryOf(m: Member): Entry
    requires Classify(m.name).Some?
  {
    Entry(m.name, m.size, Classify(m.name).value)
  }

  function EntriesOf(ms: seq<Member>): seq<Entry> {
    if ms == [] then []
    else
      EntriesOf(ms[..|ms| - 1]) +
      if Classify(ms[|ms| - 1].name).Some? then [EntryOf(ms[|ms| - 1])] else []
  }

  predicate HasDb(es: seq<Entry>) {
    es != [] && (es[|es| - 1].target == StateDb || HasDb(es[..|es| - 1]))
  }

  predicate SoundUpTo(ms: seq<Member>, fmt: Formats, lim: Limits, n: nat)
    requires n <= |ms|
  {
    forall i | 0 <= i < n :: FaultAt(ms, fmt, lim, i) == Sound
  }

  /** The declarative form of acceptance. */
  predicate Acceptable(zip: ZipFile, fmt: Formats, lim: Limits) {
    && zip.Zip?
    && |zip.members| <= lim.maxEntries
    && SoundUpTo(zip.members, fmt, lim, |zip.members|)
  }

  /** The plan of an acceptable zip: one entry per member, in order. */
  predicate PlanOf(plan: Plan, ms: seq<Member>) {
    && |plan.entries| == |ms|
    && (forall i | 0 <= i < |ms| :: Classify(ms[i].name).Some? && plan.entries[i] == EntryOf(ms[i]))
    && plan.total == Total(ms)
    && (plan.hasStateDb <==> exists e | e in plan.entries :: e.target == StateDb)
  }

  function Validate(zip: ZipFile, fmt: Formats, lim: Limits): Verdict {
    if zip.NotAZip? || |zip.members| > lim.maxEntries then Rejected
    else ValidateFrom(zip.members, fmt, lim, 0)
  }

  function ValidateFrom(ms: seq<Member>, fmt: Formats, lim: Limits, i: nat): Verdict
    requires i <= |ms|
    decreases |ms| - i
  {
    if i == |ms| then
      Accepted(Plan(EntriesOf(ms), Total(ms), HasDb(EntriesOf(ms))))
    else
      match FaultAt(ms, fmt, lim, i)
      case Sound => ValidateFrom(ms, fmt, lim, i + 1)
      case Invalid => Rejected
      case Escapes => Escaped
  }

  lemma {:induction false} EntriesPointwise(ms: seq<Member>)
    requires forall k | 0 <= k < |ms| :: Classify(ms[k].name).Some?
    ensures |EntriesOf(ms)| == |ms|
    ensures forall k | 0 <= k < |ms| :: EntriesOf(ms)[k] == EntryOf(ms[k])
  {
    hide Classify;
    if ms != [] {
      EntriesPointwise(ms[..|ms| - 1]);
    }
  }

  lemma {:induction false} HasDbMeaning(es: seq<Entry>)
    ensures HasDb(es) <==> exists e | e in es :: e.target == StateDb
  {
    if es != [] {
      HasDbMeaning(es[..|es| - 1]);
      assert es == es[..|es| - 1] + [es[|es| - 1]];
    }
  }

  lemma SoundPlan(ms: seq<Member>, fmt: Formats, lim: Limits)
    requires SoundUpTo(ms, fmt, lim, |ms|)
    ensures PlanOf(Plan(EntriesOf(ms), Total(ms), HasDb(EntriesOf(ms))), ms)
  {
    hide Judge, Classify;
    forall k | 0 <= k < |ms| ensures Classify(ms[k].name).Some? {
      assert FaultAt(ms, fmt, lim, k) == Sound;
      SoundIsNamed(ms[k], Seen(ms[..k], ms[k].name), Total(ms[..k + 1]), Read(ms, ms[k].name), fmt, lim);
    }
    EntriesPointwise(ms);
    HasDbMeaning(EntriesOf(ms));
  }

  lemma {:induction false} ValidateFromSound(ms: seq<Member>, fmt: Formats, lim: Limits, i: nat)
    requires i <= |ms| && SoundUpTo(ms, fmt, lim, i)
    ensures ValidateFrom(ms, fmt, lim, i).Accepted? <==> SoundUpTo(ms, fmt, lim, |ms|)
    ensures ValidateFrom(ms, fmt, lim, i).Accepted? ==> PlanOf(ValidateFrom(ms, fmt, lim, i).plan, ms)
    decreases |ms| - i
  {
    hide Judge, Classify;
    if i == |ms| {
      SoundPlan(ms, fmt, lim);
    } else if FaultAt(ms, fmt, lim, i) == Sound {
      ValidateFromSound(ms, fmt, lim, i + 1);
    }
  }

  /** A zip is accepted exactly when it has no fault anywhere, and then the plan
      lists its members. */
  lemma AcceptedIffAcceptable(zip: ZipFile, fmt: Formats, lim: Limits)
    ensures Validate(zip, fmt, lim).Accepted? <==> Acceptable(zip, fmt, lim)
    ensures Validate(zip, fmt, lim).Accepted? ==> PlanOf(Validate(zip, fmt, lim).plan, zip.members)
  {
    if zip.Zip? && |zip.members| <= lim.maxEntries {
      ValidateFromSound(zip.members, fmt, lim, 0);
    }
  }

  lemma PrefixStep(ms: seq<Member>, i: nat)
    requires i < |ms|
    ensures Total(ms[..i + 1]) == Total(ms[..i]) + ms[i].size
    ensures Classify(ms[i].name).Some? ==> EntriesOf(ms[..i + 1]) == EntriesOf(ms[..i]) + [EntryOf(ms[i])]
  {
    hide Classify;
    assert ms[..i + 1][..i] == ms[..i];
  }

  lemma HasDbStep(es: seq<Entry>, e: Entry)
    ensures HasDb(es + [e]) <==> HasDb(es) || e.target == StateDb
  {
    assert (es + [e])[..|es|] == es;
  }

  lemma ValidateStep(ms: seq<Member>, fmt: Formats, lim: Limits, i: nat)
    requires i < |ms|
    ensures ValidateFrom(ms, fmt, lim, i) ==
            match FaultAt(ms, fmt, lim, i)
            case Sound => ValidateFrom(ms, fmt, lim, i + 1)
            case Invalid => Rejected
            case Escapes => Escaped
  {
    hide FaultAt;
  }

  /** What the variables of the pass hold after `i` members. */
  ghost predicate Tracks(ms: seq<Member>, i: nat, seen: set<string>, total: int, entries: seq<Entry>, hasStateDb: bool)
    requires i <= |ms|
  {
    && total == Total(ms[..i]) && (forall n :: n in seen <==> Seen(ms[..i], n))
    && entries == EntriesOf(ms[..i]) && hasStateDb == HasDb(entries)
  }

  lemma TracksNext(ms: seq<Member>, i: nat, seen: set<string>, total: int, entries: seq<Entry>, hasStateDb: bool)
    requires i < |ms| && Tracks(ms, i, seen, total, entries, hasStateDb)
    ensures Seen(ms, ms[i].name)
    ensures total + ms[i].size == Total(ms[..i + 1]) && (ms[i].name in seen <==> Seen(ms[..i], ms[i].name))
    ensures Classify(ms[i].name).Some? ==>
              var e := EntryOf(ms[i]);
              Tracks(ms, i + 1, seen + {ms[i].name}, total + ms[i].size, entries + [e], hasStateDb || e.target == StateDb)
  {
    hide Classify, Seen, Total, EntriesOf, HasDb;
    SeenStep(ms, i);
    PrefixStep(ms, i);
    if Classify(ms[i].name).Some? { HasDbStep(entries, EntryOf(ms[i])); }
  }

  lemma TracksEnds(ms: seq<Member>, fmt: Formats, lim: Limits)
    ensures Tracks(ms, 0, {}, 0, [], false)
    ensures forall seen, total, entries, db | Tracks(ms, |ms|, seen, total, entries, db) ::
              ValidateFrom(ms, fmt, lim, |ms|) == Accepted(Plan(entries, total, db))
  {
    assert ms[..0] == [] && ms[..|ms|] == ms;
  }

  /** `validate_restore_zip`: one pass with a running total and a set of names. */
  method ValidateRestoreZip(zip: ZipFile, fmt: Formats, lim: Limits) returns (v: Verdict)
    ensures v == Validate(zip, fmt, lim)
  {
    if zip.NotAZip? || |zip.members| > lim.maxEntries {
      return Rejected;
    }
    var ms := zip.members;
    var entries: seq<Entry> := [];
    var total := 0;
    var hasStateDb := false;
    var seen: set<string> := {};
    var i := 0;
    hide Tracks, Classify, Judge, Seen, Total, EntriesOf, HasDb, Read, ValidateFrom;
    TracksEnds(ms, fmt, lim);
    while i < |ms|
      invariant 0 <= i <= |ms| && Tracks(ms, i, seen, total, entries, hasStateDb)
      invariant Validate(zip, fmt, lim) == ValidateFrom(ms, fmt, lim, i)
    {
      var m := ms[i];
      TracksNext(ms, i, seen, total, entries, hasStateDb);
      ValidateStep(ms, fmt, lim, i);
      total := total + m.size;
      match Judge(m, m.name in seen, total, Read(ms, m.name), fmt, lim) {
        case Invalid => return Rejected;
        case Escapes => return Escaped;
        case Sound => SoundIsNamed(m, m.name in seen, total, Read(ms, m.name), fmt, lim);
      }
      seen := seen + {m.name};
      var e := EntryOf(m);
      hasStateDb := hasStateDb || e.target == StateDb;
      entries := entries + [e];
      i := i + 1;
    }
    v := Accepted(Plan(entries, total, hasStateDb));
  }

  // ----- applying a plan -----

  datatype Path = At(target: Target) | Wal | Shm | Outside(name: string)

  type Disk = map<Path, Bytes>

  datatype Write = Put(path: Path, bytes: Bytes) | Remove(path: Path)

  function Do(d: Disk, w: Write): Disk {
    match w
    case Put(p, bytes) => d[p := bytes]
    case Remove(p) => d - {p}
  }

  function Apply(d: Disk, ws: seq<Write>): Disk {
    if ws == [] then d else Do(Apply(d, ws[..|ws| - 1]), ws[|ws| - 1])
  }

  /** The bytes a member delivers when the plan is applied. */
  function Delivered(ms: seq<Member>, name: string): Bytes {
    if Seen(ms, name) && Read(ms, name).Data? then Read(ms, name).bytes else []
  }

  function DbWrites(ms: seq<Member>, es: seq<Entry>): seq<Write> {
    if es == [] then []
    else
      var e := es[|es| - 1];
      DbWrites(ms, es[..|es| - 1]) +
      if e.target == StateDb then [Put(At(StateDb), Delivered(ms, e.name)), Remove(Wal), Remove(Shm)] else []
  }

  function EvidenceWrites(ms: seq<Member>, es: seq<Entry>): seq<Write> {
    if es == [] then []
    else
      var e := es[|es| - 1];
      EvidenceWrites(ms, es[..|es| - 1]) +
      if e.target == StateDb then [] else [Put(At(e.target), Delivered(ms, e.name))]
  }

  /** The file operations of `_apply_entries`: the database first, each copy of it
      followed by the removal of its side files, then everything else. */
  function Writes(ms: seq<Member>, plan: Plan): seq<Write> {
    DbWrites(ms, plan.entries) + EvidenceWrites(ms, plan.entries)
  }

  /** The content of the last plan entry for a target. */
  function LastEntry(ms: seq<Member>, es: seq<Entry>, t: Target): Option<Bytes> {
    if es == [] then None
    else if es[|es| - 1].target == t then Some(Delivered(ms, es[|es| - 1].name))
    else LastEntry(ms, es[..|es| - 1], t)
  }

  function Lookup(d: Disk, p: Path): Option<Bytes> {
    if p in d then Some(d[p]) else None
  }

  predicate SideFile(p: Path) { p == Wal || p == Shm }

  lemma ApplyStep(d: Disk, ws: seq<Write>, w: Write)
    ensures Apply(d, ws + [w]) == Do(Apply(d, ws), w)
  {
    assert (ws + [w])[..|ws|] == ws;
  }

  lemma {:induction false} ApplyConcat(d: Disk, xs: seq<Write>, ys: seq<Write>)
    ensures Apply(d, xs + ys) == Apply(Apply(d, xs), ys)
  {
    if ys == [] {
      assert xs + ys == xs;
    } else {
      var front := ys[..|ys| - 1];
      assert (xs + ys)[..|xs + ys| - 1] == xs + front;
      ApplyConcat(d, xs, front);
    }
  }

  lemma ReplaceDbEffect(d: Disk, ws: seq<Write>, w: Write)
    ensures Apply(d, ws + [w, Remove(Wal), Remove(Shm)]) == Do(Apply(d, ws), w) - {Wal, Shm}
  {
    ApplyStep(d, ws, w);
    ApplyStep(d, ws + [w], Remove(Wal));
    ApplyStep(d, ws + [w] + [Remove(Wal)], Remove(Shm));
    assert ws + [w, Remove(Wal), Remove(Shm)] == ws + [w] + [Remove(Wal)] + [Remove(Shm)];
    var mid := Do(Apply(d, ws), w);
    assert mid - {Wal} - {Shm} == mid - {Wal, Shm};
  }

  lemma {:induction false} DbWritesEffect(d: Disk, ms: seq<Member>, es: seq<Entry>, p: Path)
    ensures Lookup(Apply(d, DbWrites(ms, es)), p) ==
            if p == At(StateDb) && LastEntry(ms, es, StateDb).Some? then LastEntry(ms, es, StateDb)
            else if SideFile(p) && LastEntry(ms, es, StateDb).Some? then None
            else Lookup(d, p)
  {
    if es != [] {
      var front, e := es[..|es| - 1], es[|es| - 1];
      DbWritesEffect(d, ms, front, p);
      if e.target == StateDb {
        var put := Put(At(StateDb), Delivered(ms, e.name));
        ReplaceDbEffect(d, DbWrites(ms, front), put);
      } else {
        assert DbWrites(ms, es) == DbWrites(ms, front);
      }
    }
  }

  lemma {:induction false} EvidenceWritesEffect(d: Disk, ms: seq<Member>, es: seq<Entry>, p: Path)
    ensures Lookup(Apply(d, EvidenceWrites(ms, es)), p) ==
            if p.At? && p.target != StateDb && LastEntry(ms, es, p.target).Some? then LastEntry(ms, es, p.target)
            else Lookup(d, p)
  {
    if es != [] {
      var front, e := es[..|es| - 1], es[|es| - 1];
      EvidenceWritesEffect(d, ms, front, p);
      if e.target != StateDb {
        var put := Put(At(e.target), Delivered(ms, e.name));
        ApplyStep(d, EvidenceWrites(ms, front), put);
        assert EvidenceWrites(ms, es) == EvidenceWrites(ms, front) + [put];
      } else {
        assert EvidenceWrites(ms, es) == EvidenceWrites(ms, front);
      }
    }
  }

  /** Applying a plan to any disk, path by path: a named target ends with the
      content of its last entry, the database's side files are gone exactly when
      the plan holds a database, and no other path changes. */
  lemma AppliedContent(d: Disk, ms: seq<Member>, plan: Plan, p: Path)
    ensures Lookup(Apply(d, Writes(ms, plan)), p) ==
            if p.At? && LastEntry(ms, plan.entries, p.target).Some? then LastEntry(ms, plan.entries, p.target)
            else if SideFile(p) && LastEntry(ms, plan.entries, StateDb).Some? then None
            else Lookup(d, p)
  {
    var mid := Apply(d, DbWrites(ms, plan.entries));
    ApplyConcat(d, DbWrites(ms, plan.entries), EvidenceWrites(ms, plan.entries));
    DbWritesEffect(d, ms, plan.entries, p);
    EvidenceWritesEffect(mid, ms, plan.entries, p);
  }
}
