/** The skills a bot owns: numbered revisions of a few files each, with the current one marked.
    UTF-8 lengths, the front matter and the locale's order are parameters. */
module OwnedSkills {
  import opened Options

  datatype File = File(path: string, content: string)
  datatype Result<T> = Ok(value: T) | Err(code: string)

  /** An entry as it is handed in; a field is None when it is not a string. */
  datatype Raw = NoRecord | Entry(path: Option<string>, content: Option<string>)

  /** `bytes`: None when the text is not well formed. `describes`: the front matter names the skill and describes it. */
  datatype Rules = Rules(bytes: string -> Option<nat>, describes: (string, string) -> bool, sort: seq<File> -> seq<File>)

  const MAX_FILES := 32
  const MAX_FILE_BYTES := 64 * 1024
  const MAX_TOTAL_BYTES := 256 * 1024
  const DESCRIPTOR := "SKILL.md"

  // ---------- names and paths ----------

  predicate IsWordChar(c: char) {
    'a' <= c <= 'z' || '0' <= c <= '9'
  }

  predicate ValidName(name: string) {
    0 < |name| <= 64 && IsWordChar(name[0]) && forall c :: c in name ==> IsWordChar(c) || c == '-'
  }

  /** `split("/")`. */
  function Segments(path: string): (parts: seq<string>)
    ensures parts != []
  {
    if path == "" then [""]
    else
      var init, c := Segments(path[..|path| - 1]), path[|path| - 1];
      if c == '/' then init + [""] else init[..|init| - 1] + [init[|init| - 1] + [c]]
  }

  predicate ValidPath(path: string) {
    && path != "" && |path| <= 180 && '\\' !in path && '\0' !in path
    && (forall part :: part in Segments(path) ==> part != "" && part != "." && part != "..")
    && (path == DESCRIPTOR || "scripts/" <= path || "references/" <= path)
  }

  // ---------- validating files ----------

  datatype Scanned = Scanned(files: seq<File>, seen: set<string>, total: nat)

  const NOTHING := Scanned([], {}, 0)

  function ScanOne(rules: Rules, before: Scanned, raw: Raw): Result<Scanned> {
    if raw.NoRecord? then Err("OWNED_SKILL_FILES_INVALID")
    else if raw.path.None? || !ValidPath(raw.path.value) then Err("OWNED_SKILL_PATH_INVALID")
    else if raw.path.value in before.seen then Err("OWNED_SKILL_PATH_DUPLICATE")
    else if raw.content.None? || rules.bytes(raw.content.value).None? then Err("OWNED_SKILL_CONTENT_INVALID")
    else
      var size := rules.bytes(raw.content.value).value;
      if size > MAX_FILE_BYTES then Err("OWNED_SKILL_FILE_TOO_LARGE")
      else Ok(Scanned(before.files + [File(raw.path.value, raw.content.value)], before.seen + {raw.path.value}, before.total + size))
  }

  function Scan(rules: Rules, raws: seq<Raw>): Result<Scanned> {
    if raws == [] then Ok(NOTHING)
    else match Scan(rules, raws[..|raws| - 1])
      case Err(code) => Err(code)
      case Ok(before) => ScanOne(rules, before, raws[|raws| - 1])
  }

  /** The first file with the descriptor's path. */
  function FindDescriptor(files: seq<File>): Option<File> {
    if files == [] then None
    else if files[0].path == DESCRIPTOR then Some(files[0])
    else FindDescriptor(files[1..])
  }

  function Finished(rules: Rules, name: string, scanned: Scanned): Result<seq<File>> {
    var sorted := rules.sort(scanned.files);
    if scanned.total > MAX_TOTAL_BYTES then Err("OWNED_SKILL_TOTAL_TOO_LARGE")
    else match FindDescriptor(sorted)
      case None => Err("OWNED_SKILL_DESCRIPTOR_REQUIRED")
      case Some(file) => if rules.describes(name, file.content) then Ok(sorted) else Err("OWNED_SKILL_FRONTMATTER_INVALID")
  }

  /** `raws`: None when it is neither a list nor an object. */
  function Validated(rules: Rules, name: string, raws: Option<seq<Raw>>): Result<seq<File>> {
    if !ValidName(name) then Err("OWNED_SKILL_NAME_INVALID")
    else if raws.None? || |raws.value| == 0 || |raws.value| > MAX_FILES then Err("OWNED_SKILL_FILES_INVALID")
    else match Scan(rules, raws.value)
      case Err(code) => Err(code)
      case Ok(scanned) => Finished(rules, name, scanned)
  }

  /** Stored files, handed in again. */
  function Again(files: seq<File>): seq<Raw> {
    seq(|files|, i requires 0 <= i < |files| => Entry(Some(files[i].path), Some(files[i].content)))
  }

  // ---------- the tables ----------

  datatype Key = Key(botId: string, skillName: string)
  datatype Slot = Slot(key: Key, revision: nat)
  datatype Head = Head(revision: nat, deleted: bool)
  datatype Store = Store(heads: map<Key, Head>, revisions: map<Slot, seq<File>>)
  datatype Record = Record(revision: nat, deleted: bool, files: seq<File>)

  const EMPTY := Store(map[], map[])

  function Revision(s: Store, key: Key): nat {
    if key in s.heads then s.heads[key].revision else 0
  }

  /** One more revision becomes the current one. */
  function Append(s: Store, key: Key, files: seq<File>, deleted: bool): Store {
    var revision := Revision(s, key) + 1;
    Store(s.heads[key := Head(revision, deleted)], s.revisions[Slot(key, revision) := files])
  }

  function Committed(s: Store, key: Key, files: seq<File>, expected: int): (Store, Result<Record>) {
    if Revision(s, key) != expected then (s, Err("OWNED_SKILL_REVISION_CONFLICT"))
    else (Append(s, key, files, false), Ok(Record(Revision(s, key) + 1, false, files)))
  }

  /** `owns`: the caller owns the bot. */
  function Written(s: Store, rules: Rules, owns: bool, key: Key, raws: Option<seq<Raw>>, expected: int): (Store, Result<Record>) {
    if !owns then (s, Err("BOT_NOT_FOUND"))
    else if !ValidName(key.skillName) then (s, Err("OWNED_SKILL_NAME_INVALID"))
    else if expected < 0 then (s, Err("OWNED_SKILL_REVISION_INVALID"))
    else match Validated(rules, key.skillName, raws)
      case Err(code) => (s, Err(code))
      case Ok(files) => Committed(s, key, files, expected)
  }

  function Reverted(s: Store, rules: Rules, owns: bool, key: Key, revision: int, expected: int): (Store, Result<Record>) {
    if !owns then (s, Err("BOT_NOT_FOUND"))
    else if !ValidName(key.skillName) then (s, Err("OWNED_SKILL_NAME_INVALID"))
    else if revision < 0 || expected < 0 then (s, Err("OWNED_SKILL_REVISION_INVALID"))
    else if Slot(key, revision) !in s.revisions then (s, Err("OWNED_SKILL_REVISION_NOT_FOUND"))
    else if s.revisions[Slot(key, revision)] == [] then (s, Err("OWNED_SKILL_REVISION_TOMBSTONED"))
    else match Validated(rules, key.skillName, Some(Again(s.revisions[Slot(key, revision)])))
      case Err(code) => (s, Err(code))
      case Ok(files) => Committed(s, key, files, expected)
  }

  function Deleted(s: Store, owns: bool, key: Key, expected: int): (Store, Result<Record>) {
    if !owns then (s, Err("BOT_NOT_FOUND"))
    else if !ValidName(key.skillName) then (s, Err("OWNED_SKILL_NAME_INVALID"))
    else if expected < 0 then (s, Err("OWNED_SKILL_REVISION_INVALID"))
    else if key !in s.heads || s.heads[key].deleted then (s, Err("OWNED_SKILL_NOT_FOUND"))
    else if s.heads[key].revision != expected then (s, Err("OWNED_SKILL_REVISION_CONFLICT"))
    else (Append(s, key, [], true), Ok(Record(Revision(s, key) + 1, true, [])))
  }

  /** The current revision of a skill, validated again unless it is deleted. */
  function Recorded(s: Store, rules: Rules, key: Key, head: Head): Result<Record> {
    var slot := Slot(key, head.revision);
    if slot !in s.revisions then Err("OWNED_SKILL_REVISION_NOT_FOUND")
    else if head.deleted then Ok(Record(head.revision, true, s.revisions[slot]))
    else match Validated(rules, key.skillName, Some(Again(s.revisions[slot])))
      case Err(code) => Err(code)
      case Ok(files) => Ok(Record(head.revision, false, files))
  }

  function Looked(s: Store, rules: Rules, owns: bool, key: Key): Result<Record> {
    if !owns then Err("BOT_NOT_FOUND")
    else if !ValidName(key.skillName) then Err("OWNED_SKILL_NAME_INVALID")
    else if key !in s.heads then Err("OWNED_SKILL_NOT_FOUND")
    else Recorded(s, rules, key, s.heads[key])
  }

  datatype Op =
    | Write(owns: bool, key: Key, raws: Option<seq<Raw>>, expected: int)
    | Revert(owns: bool, key: Key, revision: int, expected: int)
    | Delete(owns: bool, key: Key, expected: int)

  function Step(s: Store, rules: Rules, op: Op): (Store, Result<Record>) {
    match op
    case Write(owns, key, raws, expected) => Written(s, rules, owns, key, raws, expected)
    case Revert(owns, key, revision, expected) => Reverted(s, rules, owns, key, revision, expected)
    case Delete(owns, key, expected) => Deleted(s, owns, key, expected)
  }

  lemma {:induction false} ScanStops(rules: Rules, raws: seq<Raw>, i: nat)
    requires i <= |raws| && Scan(rules, raws[..i]).Err?
    ensures Scan(rules, raws) == Scan(rules, raws[..i])
    decreases |raws|
  {
    if i == |raws| {
      assert raws[..i] == raws;
    } else {
      assert raws[..|raws| - 1][..i] == raws[..i];
      ScanStops(rules, raws[..|raws| - 1], i);
    }
  }

  // ---------- the class ----------

  class BotOwnedSkills {
    const rules: Rules
    var heads: map<Key, Head>
    var revisions: map<Slot, seq<File>>

    function Now(): Store
      reads this
    {
      Store(heads, revisions)
    }

    constructor (rules: Rules)
      ensures Now() == EMPTY && this.rules == rules
    {
      this.rules := rules;
      heads, revisions := map[], map[];
    }

    /** The loop over the entries. */
    method ScanFiles(raws: seq<Raw>) returns (r: Result<Scanned>)
      ensures r == Scan(rules, raws)
    {
      var files: seq<File>, seen: set<string>, total: nat := [], {}, 0;
      for i := 0 to |raws|
        invariant Scan(rules, raws[..i]) == Ok(Scanned(files, seen, total))
      {
        var raw := raws[i];
        assert raws[..i + 1][..i] == raws[..i];
        var next := ScanOne(rules, Scanned(files, seen, total), raw);
        if next.Err? {
          ScanStops(rules, raws, i + 1);
          return Err(next.code);
        }
        var path, content := raw.path.value, raw.content.value;
        files := files + [File(path, content)];
        seen := seen + {path};
        total := total + rules.bytes(content).value;
      }
      assert raws[..|raws|] == raws;
      r := Ok(Scanned(files, seen, total));
    }

    method ValidateOwnedSkillFiles(name: string, raws: Option<seq<Raw>>) returns (r: Result<seq<File>>)
      ensures r == Validated(rules, name, raws)
    {
      if !ValidName(name) { return Err("OWNED_SKILL_NAME_INVALID"); }
      if raws.None? || |raws.value| == 0 || |raws.value| > MAX_FILES { return Err("OWNED_SKILL_FILES_INVALID"); }
      var scanned := ScanFiles(raws.value);
      if scanned.Err? { return Err(scanned.code); }
      r := Finished(rules, name, scanned.value);
    }

    method Commit(key: Key, files: seq<File>, expected: int) returns (r: Result<Record>)
      modifies this
      ensures (Now(), r) == Committed(old(Now()), key, files, expected)
    {
      var actual := if key in heads then heads[key].revision else 0;
      if actual != expected { return Err("OWNED_SKILL_REVISION_CONFLICT"); }
      var revision := actual + 1;
      revisions := revisions[Slot(key, revision) := files];
      heads := heads[key := Head(revision, false)];
      r := Ok(Record(revision, false, files));
    }

    method Write(owns: bool, key: Key, raws: Option<seq<Raw>>, expected: int) returns (r: Result<Record>)
      modifies this
      ensures (Now(), r) == Step(old(Now()), rules, Op.Write(owns, key, raws, expected))
    {
      if !owns { return Err("BOT_NOT_FOUND"); }
      if !ValidName(key.skillName) { return Err("OWNED_SKILL_NAME_INVALID"); }
      if expected < 0 { return Err("OWNED_SKILL_REVISION_INVALID"); }
      var files := ValidateOwnedSkillFiles(key.skillName, raws);
      if files.Err? { return Err(files.code); }
      r := Commit(key, files.value, expected);
    }

    method Revert(owns: bool, key: Key, revision: int, expected: int) returns (r: Result<Record>)
      modifies this
      ensures (Now(), r) == Step(old(Now()), rules, Op.Revert(owns, key, revision, expected))
    {
      if !owns { return Err("BOT_NOT_FOUND"); }
      if !ValidName(key.skillName) { return Err("OWNED_SKILL_NAME_INVALID"); }
      if revision < 0 || expected < 0 { return Err("OWNED_SKILL_REVISION_INVALID"); }
      var slot := Slot(key, revision);
      if slot !in revisions { return Err("OWNED_SKILL_REVISION_NOT_FOUND"); }
      if revisions[slot] == [] { return Err("OWNED_SKILL_REVISION_TOMBSTONED"); }
      var files := ValidateOwnedSkillFiles(key.skillName, Some(Again(revisions[slot])));
      if files.Err? { return Err(files.code); }
      r := Commit(key, files.value, expected);
    }

    method Delete(owns: bool, key: Key, expected: int) returns (r: Result<Record>)
      modifies this
      ensures (Now(), r) == Step(old(Now()), rules, Op.Delete(owns, key, expected))
    {
      if !owns { return Err("BOT_NOT_FOUND"); }
      if !ValidName(key.skillName) { return Err("OWNED_SKILL_NAME_INVALID"); }
      if expected < 0 { return Err("OWNED_SKILL_REVISION_INVALID"); }
      if key !in heads || heads[key].deleted { return Err("OWNED_SKILL_NOT_FOUND"); }
      if heads[key].revision != expected { return Err("OWNED_SKILL_REVISION_CONFLICT"); }
      var revision := heads[key].revision + 1;
      revisions := revisions[Slot(key, revision) := []];
      heads := heads[key := Head(revision, true)];
      r := Ok(Record(revision, true, []));
    }

    method ReadSkill(owns: bool, key: Key) returns (r: Result<Record>)
      ensures r == Looked(Now(), rules, owns, key)
    {
      if !owns { return Err("BOT_NOT_FOUND"); }
      if !ValidName(key.skillName) { return Err("OWNED_SKILL_NAME_INVALID"); }
      if key !in heads { return Err("OWNED_SKILL_NOT_FOUND"); }
      var head := heads[key];
      var slot := Slot(key, head.revision);
      if slot !in revisions { return Err("OWNED_SKILL_REVISION_NOT_FOUND"); }
      if head.deleted { return Ok(Record(head.revision, true, revisions[slot])); }
      var files := ValidateOwnedSkillFiles(key.skillName, Some(Again(revisions[slot])));
      if files.Err? { return Err(files.code); }
      r := Ok(Record(head.revision, false, files.value));
    }
  }
}
