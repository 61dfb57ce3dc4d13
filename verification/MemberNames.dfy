/** Zip member names and the restore targets they stand for: `_safe_parts`,
    `_validate_info` and `_entry_target` of app/restore.py, and the names that
    `build_backup_zip` of app/backup.py writes. */
module MemberNames {

  import opened Wrappers

  datatype Shelf = Blocked | Discarded | Expired

  datatype LogFile = Decisions | SwitchAudit

  /** A file that a restore may write. Different values are different files. */
  datatype Target =
    | StateDb
    | Sidecar(jid: string)
    | Archive(shelf: Shelf, file: string)
    | Log(log: LogFile)

  const JSON := ".json"
  const VERIFICATION := "verification.json"
  const STATE_DB := "state_db.sqlite"

  function ShelfName(l: Shelf): string {
    match l
    case Blocked => "blocked"
    case Discarded => "discarded"
    case Expired => "expired"
  }

  function LogName(l: LogFile): string {
    match l
    case Decisions => "decisions.jsonl"
    case SwitchAudit => "release_switch_audit.jsonl"
  }

  function ShelfOf(s: string): Option<Shelf> {
    if s == "blocked" then Some(Blocked)
    else if s == "discarded" then Some(Discarded)
    else if s == "expired" then Some(Expired)
    else None
  }

  function LogOf(s: string): Option<LogFile> {
    if s == "decisions.jsonl" then Some(Decisions)
    else if s == "release_switch_audit.jsonl" then Some(SwitchAudit)
    else None
  }

  // ----- splitting on '/' -----

  function Split(s: string): (parts: seq<string>)
    ensures |parts| >= 1
    ensures forall p | p in parts :: '/' !in p
  {
    if s == "" then [""]
    else if s[0] == '/' then [""] + Split(s[1..])
    else
      var rest := Split(s[1..]);
      [[s[0]] + rest[0]] + rest[1..]
  }

  function Join(parts: seq<string>): string
    requires |parts| >= 1
  {
    if |parts| == 1 then parts[0] else parts[0] + "/" + Join(parts[1..])
  }

  lemma {:induction false} SplitPrefix(head: string, tail: string)
    requires '/' !in head
    ensures Split(head + "/" + tail) == [head] + Split(tail)
  {
    var whole := head + "/" + tail;
    if head == "" {
      assert whole[1..] == tail;
    } else {
      SplitPrefix(head[1..], tail);
      assert whole[1..] == head[1..] + "/" + tail;
      assert [head[0]] + head[1..] == head;
    }
  }

  lemma {:induction false} SplitWhole(s: string)
    requires '/' !in s
    ensures Split(s) == [s]
  {
    if s != "" {
      SplitWhole(s[1..]);
      assert [s[0]] + s[1..] == s;
    }
  }

  /** Splitting undoes joining, whatever the components are. */
  lemma {:induction false} SplitJoin(parts: seq<string>)
    requires |parts| >= 1
    requires forall p | p in parts :: '/' !in p
    ensures Split(Join(parts)) == parts
  {
    if |parts| == 1 {
      SplitWhole(parts[0]);
    } else {
      SplitJoin(parts[1..]);
      SplitPrefix(parts[0], Join(parts[1..]));
      assert parts == [parts[0]] + parts[1..];
    }
  }

  // ----- PurePosixPath(name).parts -----

  /** A relative path drops empty and "." components and keeps "..". */
  function Normal(parts: seq<string>): (r: seq<string>)
    ensures forall p | p in r :: p in parts && p != "" && p != "."
  {
    if parts == [] then []
    else if parts[0] == "" || parts[0] == "." then Normal(parts[1..])
    else [parts[0]] + Normal(parts[1..])
  }

  lemma {:induction false} NormalKeepsPlain(parts: seq<string>)
    requires "" !in parts && "." !in parts
    ensures Normal(parts) == parts
  {
    if parts != [] {
      NormalKeepsPlain(parts[1..]);
      assert parts == [parts[0]] + parts[1..];
    }
  }

  /** A component that names one directory entry and nothing else. */
  predicate PlainComponent(s: string) {
    s != "" && s != "." && s != ".." && '/' !in s
  }

  function SafeParts(name: string): (r: Option<seq<string>>)
    ensures r.Some? ==> forall p | p in r.value :: PlainComponent(p)
  {
    var parts := Normal(Split(name));
    if (name != "" && name[0] == '/') || ".." in parts then None else Some(parts)
  }

  predicate EndsWith(s: string, suffix: string) {
    |suffix| <= |s| && s[|s| - |suffix|..] == suffix
  }

  predicate Hex(c: char) { '0' <= c <= '9' || 'a' <= c <= 'f' }

  /** `_JID_RE`: twelve hex digits. `$` also matches before a final newline. */
  predicate IsJid(s: string) {
    && (|s| == 12 || (|s| == 13 && s[12] == '\n'))
    && forall i | 0 <= i < 12 :: Hex(s[i])
  }

  predicate ArchiveFile(s: string) {
    EndsWith(s, JSON) && s != JSON
  }

  function ClassifyParts(parts: seq<string>): Option<Target> {
    if parts == [STATE_DB] then Some(StateDb)
    else if |parts| == 3 && parts[0] == "sidecars" && parts[2] == VERIFICATION then
      if IsJid(parts[1]) then Some(Sidecar(parts[1])) else None
    else if |parts| == 3 && parts[0] == "archive" && ShelfOf(parts[1]).Some? then
      if ArchiveFile(parts[2]) then Some(Archive(ShelfOf(parts[1]).value, parts[2])) else None
    else if |parts| == 2 && parts[0] == "logs" && LogOf(parts[1]).Some? then
      Some(Log(LogOf(parts[1]).value))
    else None
  }

  /** The naming half of `_validate_info`: the target a member name stands for. */
  function Classify(name: string): Option<Target> {
    if name == "" || name[|name| - 1] == '/' then None
    else
      match SafeParts(name)
      case None => None
      case Some(parts) => ClassifyParts(parts)
  }

  /** A target whose own name cannot leave the directory it belongs to. */
  predicate Contained(t: Target) {
    match t
    case Sidecar(jid) => IsJid(jid) && PlainComponent(jid)
    case Archive(_, file) => ArchiveFile(file) && PlainComponent(file)
    case _ => true
  }

  function Components(t: Target): (parts: seq<string>)
    ensures |parts| >= 1
  {
    match t
    case StateDb => [STATE_DB]
    case Sidecar(jid) => ["sidecars", jid, VERIFICATION]
    case Archive(shelf, file) => ["archive", ShelfName(shelf), file]
    case Log(log) => ["logs", LogName(log)]
  }

  /** The member name `build_backup_zip` gives to a target. */
  function MemberName(t: Target): string {
    Join(Components(t))
  }

  predicate PlainTarget(t: Target) {
    match t
    case Sidecar(jid) => PlainComponent(jid)
    case Archive(_, file) => PlainComponent(file)
    case _ => true
  }

  /** Every accepted name stands for a file inside one of the named targets. */
  lemma ClassifiedIsContained(name: string)
    ensures Classify(name).Some? ==> Contained(Classify(name).value)
  {
    if Classify(name).Some? {
      var parts := SafeParts(name).value;
      if |parts| == 3 {
        assert parts[1] in parts && parts[2] in parts;
      }
    }
  }

  lemma PlainComponents(t: Target)
    requires PlainTarget(t)
    ensures forall p | p in Components(t) :: PlainComponent(p)
  {
    match t
    case Archive(shelf, _) => assert PlainComponent(ShelfName(shelf));
    case Log(log) => assert PlainComponent(LogName(log));
    case _ =>
  }

  lemma MemberNameEnds(t: Target)
    requires PlainTarget(t)
    ensures MemberName(t) != "" && MemberName(t)[0] != '/' && MemberName(t)[|MemberName(t)| - 1] != '/'
  {
    PlainComponents(t);
    JoinEnds(Components(t));
  }

  lemma {:induction false} JoinEnds(parts: seq<string>)
    requires |parts| >= 1
    requires forall p | p in parts :: PlainComponent(p)
    ensures var j := Join(parts); j != "" && j[0] != '/' && j[|j| - 1] != '/'
  {
    assert parts[0] in parts;
    assert parts[0][0] in parts[0] && parts[0][|parts[0]| - 1] in parts[0];
    if |parts| > 1 {
      JoinEnds(parts[1..]);
    }
  }

  lemma ShelfNameReadBack(shelf: Shelf)
    ensures ShelfOf(ShelfName(shelf)) == Some(shelf)
  {
  }

  lemma LogNameReadBack(log: LogFile)
    ensures LogOf(LogName(log)) == Some(log)
  {
  }

  lemma ClassifyComponents(t: Target)
    requires PlainTarget(t)
    ensures ClassifyParts(Components(t)) == if Contained(t) then Some(t) else None
  {
    match t
    case Archive(shelf, _) => ShelfNameReadBack(shelf);
    case Log(log) => LogNameReadBack(log);
    case _ =>
  }

  lemma SafePartsOfWritten(t: Target)
    requires PlainTarget(t)
    ensures SafeParts(MemberName(t)) == Some(Components(t))
  {
    PlainComponents(t);
    MemberNameEnds(t);
    SplitJoin(Components(t));
    NormalKeepsPlain(Components(t));
  }

  /** A written name is read back as the target it was written for, exactly when
      the sidecar directory is a job id and the archive file a proper JSON name. */
  lemma WrittenNameReadBack(t: Target)
    requires PlainTarget(t)
    ensures Classify(MemberName(t)) == if Contained(t) then Some(t) else None
  {
    SafePartsOfWritten(t);
    ClassifyComponents(t);
    MemberNameEnds(t);
  }

  lemma ComponentsInjective(t: Target, u: Target)
    requires Components(t) == Components(u)
    ensures t == u
  {
    var ct, cu := Components(t), Components(u);
    assert |ct| == |cu|;
    if |ct| == 3 {
      assert ct[0] == cu[0] && ct[1] == cu[1] && ct[2] == cu[2];
      assert ct[0][0] == cu[0][0];
      if t.Archive? && u.Archive? {
        ShelfNameReadBack(t.shelf);
        ShelfNameReadBack(u.shelf);
      }
    } else if |ct| == 2 {
      LogNameReadBack(t.log);
      LogNameReadBack(u.log);
    }
  }

  lemma MemberNameInjective(t: Target, u: Target)
    requires PlainTarget(t) && PlainTarget(u)
    requires MemberName(t) == MemberName(u)
    ensures t == u
  {
    PlainComponents(t);
    PlainComponents(u);
    SplitJoin(Components(t));
    SplitJoin(Components(u));
    ComponentsInjective(t, u);
  }

  /** The names as they are spelled in a backup. */
  lemma MemberNamesSpelled(jid: string, file: string)
    ensures MemberName(StateDb) == "state_db.sqlite"
    ensures MemberName(Sidecar(jid)) == "sidecars/" + jid + "/verification.json"
    ensures MemberName(Archive(Blocked, file)) == "archive/blocked/" + file
    ensures MemberName(Archive(Discarded, file)) == "archive/discarded/" + file
    ensures MemberName(Archive(Expired, file)) == "archive/expired/" + file
    ensures MemberName(Log(Decisions)) == "logs/decisions.jsonl"
    ensures MemberName(Log(SwitchAudit)) == "logs/release_switch_audit.jsonl"
  {
    SidecarSpelled(jid);
    ArchiveSpelled(file);
    LogsSpelled();
    hide MemberName;
  }

  lemma SidecarSpelled(jid: string)
    ensures MemberName(StateDb) == "state_db.sqlite"
    ensures MemberName(Sidecar(jid)) == "sidecars/" + jid + "/verification.json"
  {
    JoinThree("sidecars", jid, VERIFICATION);
    assert "sidecars" + "/" == "sidecars/" && "/" + "verification.json" == "/verification.json";
    calc {
      "sidecars" + "/" + jid + "/" + "verification.json";
      "sidecars/" + jid + ("/" + "verification.json");
    }
  }

  lemma ArchiveSpelled(file: string)
    ensures MemberName(Archive(Blocked, file)) == "archive/blocked/" + file
    ensures MemberName(Archive(Discarded, file)) == "archive/discarded/" + file
    ensures MemberName(Archive(Expired, file)) == "archive/expired/" + file
  {
    JoinThree("archive", "blocked", file);
    JoinThree("archive", "discarded", file);
    JoinThree("archive", "expired", file);
    hide Join;
    assert "archive" + "/" + "blocked" + "/" == "archive/blocked/";
    assert "archive" + "/" + "discarded" + "/" == "archive/discarded/";
    assert "archive" + "/" + "expired" + "/" == "archive/expired/";
  }

  lemma LogsSpelled()
    ensures MemberName(Log(Decisions)) == "logs/decisions.jsonl"
    ensures MemberName(Log(SwitchAudit)) == "logs/release_switch_audit.jsonl"
  {
    JoinTwo("logs", "decisions.jsonl");
    JoinTwo("logs", "release_switch_audit.jsonl");
  }

  lemma JoinTwo(a: string, b: string)
    ensures Join([a, b]) == a + "/" + b
  {
    assert [a, b][1..] == [b];
  }

  lemma JoinThree(a: string, b: string, c: string)
    ensures Join([a, b, c]) == a + "/" + b + "/" + c
  {
    assert [a, b, c][1..] == [b, c];
    JoinTwo(b, c);
  }

  /** Which files of a backup a restore takes back: every database and log; a sidecar whose
      directory is twelve hex digits, with a newline after them at most; an archive file
      that ends in ".json" and is not just that. */
  lemma TakenBackIff(t: Target)
    requires PlainTarget(t)
    ensures Classify(MemberName(t)) == Some(t) || Classify(MemberName(t)) == None
    ensures t.StateDb? || t.Log? ==> Classify(MemberName(t)) == Some(t)
    ensures t.Sidecar? ==>
              (Classify(MemberName(t)) == Some(t) <==>
               && (|t.jid| == 12 || (|t.jid| == 13 && t.jid[12] == '\n'))
               && forall i | 0 <= i < 12 :: t.jid[i] in "0123456789abcdef")
    ensures t.Archive? ==>
              (Classify(MemberName(t)) == Some(t) <==> |t.file| > 5 && t.file[|t.file| - 5..] == ".json")
  {
    WrittenNameReadBack(t);
    hide Classify, MemberName;
    if t.Sidecar? {
      forall c: char ensures Hex(c) <==> c in "0123456789abcdef" { HexDigits(c); }
    }
  }

  lemma HexDigits(c: char)
    ensures Hex(c) <==> c in "0123456789abcdef"
  {
    var digits := "0123456789abcdef";
    if '0' <= c <= '9' { assert digits[(c - '0') as int] == c; }
    if 'a' <= c <= 'f' { assert digits[10 + (c - 'a') as int] == c; }
  }

  lemma ClassifiedParts(parts: seq<string>, t: Target)
    requires ClassifyParts(parts) == Some(t)
    ensures parts == Components(t)
  {
    if |parts| == 3 {
      assert parts == [parts[0], parts[1], parts[2]];
    } else if |parts| == 2 {
      assert parts == [parts[0], parts[1]];
    }
  }

  /** Exactly which names stand for a target: relative ones that do not end in a slash and
      have no ".." in them, and that are the target's written name once empty and "."
      components are left out, provided that name itself is taken back. */
  lemma StandsForIff(name: string, t: Target)
    requires PlainTarget(t)
    ensures Classify(name) == Some(t) <==>
            && name != "" && name[0] != '/' && name[|name| - 1] != '/' && ".." !in Split(name)
            && Normal(Split(name)) != [] && Join(Normal(Split(name))) == MemberName(t)
            && Classify(MemberName(t)) == Some(t)
  {
    var parts := Normal(Split(name));
    ClassifyIs(name);
    ClassifyWritten(t);
    if ClassifyParts(parts) == Some(t) { ClassifiedParts(parts, t); }
    if parts != [] { SameName(parts, t); }
    hide Classify, ClassifyParts, Split, Normal, Join, MemberName, Components;
  }

  lemma ClassifyIs(name: string)
    ensures Classify(name) ==
            if name == "" || name[0] == '/' || name[|name| - 1] == '/' || ".." in Split(name) then None
            else ClassifyParts(Normal(Split(name)))
  {
    KeepsDots(Split(name));
    hide ClassifyParts, Split, Normal;
  }

  lemma ClassifyWritten(t: Target)
    requires PlainTarget(t)
    ensures Classify(MemberName(t)) == ClassifyParts(Components(t))
  {
    SafePartsOfWritten(t);
    MemberNameEnds(t);
    hide ClassifyParts, SafeParts, MemberName, Components;
  }

  lemma SameName(parts: seq<string>, t: Target)
    requires parts != [] && PlainTarget(t) && forall p | p in parts :: '/' !in p
    ensures Join(parts) == MemberName(t) <==> parts == Components(t)
  {
    PlainComponents(t);
    SplitJoin(parts);
    SplitJoin(Components(t));
    hide Split, Join, Components;
  }

  lemma {:induction false} KeepsDots(parts: seq<string>)
    ensures ".." in Normal(parts) <==> ".." in parts
  {
    if parts != [] { KeepsDots(parts[1..]); }
  }

  /** Two different names may stand for one target: names are only normalised
      when they are classified. */
  lemma AliasedNames(t: Target)
    requires Contained(t) && PlainTarget(t)
    ensures "./" + MemberName(t) != MemberName(t)
    ensures Classify("./" + MemberName(t)) == Classify(MemberName(t)) == Some(t)
  {
    WrittenNameReadBack(t);
    MemberNameEnds(t);
    SafePartsOfWritten(t);
    DotPrefix(MemberName(t));
  }

  lemma DotPrefix(name: string)
    requires name != "" && name[0] != '/'
    ensures var alias := "./" + name;
            && alias != name && alias[|alias| - 1] == name[|name| - 1]
            && SafeParts(alias) == SafeParts(name)
  {
    var alias := "./" + name;
    assert |alias| == |name| + 2;
    assert alias == "." + "/" + name;
    SplitPrefix(".", name);
    var parts := Split(name);
    assert (["."] + parts)[1..] == parts && (["."] + parts)[0] == ".";
    assert Normal(["."] + parts) == Normal(parts);
    assert alias[|alias| - 1] == name[|name| - 1];
  }
}
