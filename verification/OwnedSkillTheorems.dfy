/** Whole runs of the revision store: revisions are gapless and written once, and what is stored can always be read
    and reverted to. */
module OwnedSkillTheorems {
  import opened Options
  import opened OwnedSkills

  /** The sort permutes, and leaves a sorted list alone. */
  ghost predicate Sorts(rules: Rules) {
    forall files :: multiset(rules.sort(files)) == multiset(files) && rules.sort(rules.sort(files)) == rules.sort(files)
  }

  // ---------- what a valid list of files is ----------

  function Sum(files: seq<File>, weight: File -> nat): nat {
    if files == [] then 0 else Sum(files[..|files| - 1], weight) + weight(files[|files| - 1])
  }

  function Size(rules: Rules): File -> nat {
    (file: File) => rules.bytes(file.content).Or(0)
  }

  function AtPath(path: string): File -> nat {
    (file: File) => if file.path == path then 1 else 0
  }

  /** A file that may be stored. */
  predicate Fine(rules: Rules, file: File) {
    ValidPath(file.path) && rules.bytes(file.content).Some? && rules.bytes(file.content).value <= MAX_FILE_BYTES
  }

  ghost predicate DistinctPaths(files: seq<File>) {
    forall path: string :: Sum(files, AtPath(path)) <= 1
  }

  /** Independent of the order of the files. */
  ghost predicate Acceptable(rules: Rules, name: string, files: seq<File>) {
    && 0 < |files| <= MAX_FILES && (forall file :: file in files ==> Fine(rules, file))
    && DistinctPaths(files) && Sum(files, Size(rules)) <= MAX_TOTAL_BYTES
    && exists file :: file in files && file.path == DESCRIPTOR && rules.describes(name, file.content)
  }

  lemma SumLast(files: seq<File>, file: File, weight: File -> nat)
    ensures Sum(files + [file], weight) == Sum(files, weight) + weight(file)
  {
    assert (files + [file])[..|files|] == files;
  }

  lemma {:induction false} SumAppends(a: seq<File>, b: seq<File>, weight: File -> nat)
    ensures Sum(a + b, weight) == Sum(a, weight) + Sum(b, weight)
    decreases |b|
  {
    if b == [] {
      assert a + b == a;
    } else {
      SumAppends(a, b[..|b| - 1], weight);
      assert (a + b)[..|a + b| - 1] == a + b[..|b| - 1];
    }
  }

  lemma SumWithout(a: seq<File>, x: File, b: seq<File>, weight: File -> nat)
    ensures Sum(a + [x] + b, weight) == Sum(a + b, weight) + weight(x)
  {
    SumAppends(a, b, weight);
    SumAppends(a + [x], b, weight);
    SumLast(a, x, weight);
  }

  lemma RemoveOne(init: seq<File>, last: File, a: seq<File>, b: seq<File>)
    requires multiset(init + [last]) == multiset(a + [last] + b)
    ensures multiset(init) == multiset(a + b)
  {
    assert multiset(a + [last] + b) == multiset(a + b) + multiset{last};
    assert multiset(init + [last]) == multiset(init) + multiset{last};
    assert multiset(init) == multiset(a + [last] + b) - multiset{last};
  }

  /** A sum does not depend on the order. */
  lemma {:induction false} SumPermuted(a: seq<File>, b: seq<File>, weight: File -> nat)
    requires multiset(a) == multiset(b)
    ensures Sum(a, weight) == Sum(b, weight)
    decreases |a|
  {
    if a == [] {
      assert |multiset(b)| == 0;
    } else {
      var init, last := a[..|a| - 1], a[|a| - 1];
      assert a == init + [last];
      assert last in multiset(b);
      var k :| 0 <= k < |b| && b[k] == last;
      var before, after := b[..k], b[k + 1..];
      assert b == before + [last] + after;
      RemoveOne(init, last, before, after);
      SumPermuted(init, before + after, weight);
      SumWithout(before, last, after, weight);
    }
  }

  lemma AcceptablePermuted(rules: Rules, name: string, a: seq<File>, b: seq<File>)
    requires multiset(a) == multiset(b) && Acceptable(rules, name, a)
    ensures Acceptable(rules, name, b)
  {
    assert |a| == |multiset(a)| == |b|;
    assert forall file :: file in b <==> file in multiset(b);
    assert forall file :: file in a <==> file in multiset(a);
    SumPermuted(a, b, Size(rules));
    forall path: string ensures Sum(b, AtPath(path)) <= 1 {
      SumPermuted(a, b, AtPath(path));
      assert Sum(a, AtPath(path)) <= 1;
    }
  }

  // ---------- validation accepts exactly these ----------

  lemma {:induction false} InByPath(files: seq<File>, path: string)
    ensures Sum(files, AtPath(path)) > 0 <==> exists file :: file in files && file.path == path
    decreases |files|
  {
    if files != [] {
      var init, last := files[..|files| - 1], files[|files| - 1];
      InByPath(init, path);
      assert files == init + [last];
    }
  }

  /** What the scan has read. */
  ghost predicate Reads(rules: Rules, scanned: Scanned) {
    && (forall file :: file in scanned.files ==> Fine(rules, file)) && DistinctPaths(scanned.files)
    && scanned.total == Sum(scanned.files, Size(rules))
    && forall path :: path in scanned.seen <==> exists file :: file in scanned.files && file.path == path
  }

  lemma ReadsOne(rules: Rules, before: Scanned, raw: Raw)
    requires Reads(rules, before) && ScanOne(rules, before, raw).Ok?
    ensures Reads(rules, ScanOne(rules, before, raw).value)
  {
    var file, after := File(raw.path.value, raw.content.value), ScanOne(rules, before, raw).value;
    SumLast(before.files, file, Size(rules));
    forall path: string ensures Sum(after.files, AtPath(path)) <= 1 {
      SumLast(before.files, file, AtPath(path));
      InByPath(before.files, path);
      assert Sum(before.files, AtPath(path)) <= 1;
    }
    SeenOne(before, file);
  }

  lemma SeenOne(before: Scanned, file: File)
    requires forall path :: path in before.seen <==> exists f :: f in before.files && f.path == path
    ensures forall path :: path in before.seen + {file.path} <==> exists f :: f in before.files + [file] && f.path == path
  {
    forall path ensures path in before.seen + {file.path} <==> exists f :: f in before.files + [file] && f.path == path {
      if path == file.path {
        assert file in before.files + [file];
      } else if path in before.seen {
        var f :| f in before.files && f.path == path;
        assert f in before.files + [file];
      }
    }
  }

  lemma {:induction false} ScanReads(rules: Rules, raws: seq<Raw>)
    requires Scan(rules, raws).Ok?
    ensures Reads(rules, Scan(rules, raws).value) && |Scan(rules, raws).value.files| == |raws|
    decreases |raws|
  {
    if raws != [] {
      ScanReads(rules, raws[..|raws| - 1]);
      ReadsOne(rules, Scan(rules, raws[..|raws| - 1]).value, raws[|raws| - 1]);
    }
  }

  lemma {:induction false} DescriptorIn(files: seq<File>)
    requires DistinctPaths(files)
    ensures FindDescriptor(files).None? ==> forall file :: file in files ==> file.path != DESCRIPTOR
    ensures FindDescriptor(files).Some? ==> FindDescriptor(files).value in files && FindDescriptor(files).value.path == DESCRIPTOR
    ensures forall file :: file in files && file.path == DESCRIPTOR ==> FindDescriptor(files) == Some(file)
    decreases |files|
  {
    if files != [] {
      var rest := files[1..];
      assert files == [files[0]] + rest;
      forall path: string ensures Sum(rest, AtPath(path)) <= 1 {
        SumAppends([files[0]], rest, AtPath(path));
        assert Sum(files, AtPath(path)) <= 1;
      }
      DescriptorIn(rest);
      if files[0].path == DESCRIPTOR {
        FirstIsOnly(files[0], rest);
      }
    }
  }

  lemma FirstIsOnly(first: File, rest: seq<File>)
    requires DistinctPaths([first] + rest)
    ensures forall file :: file in rest ==> file.path != first.path
  {
    SumAppends([first], rest, AtPath(first.path));
    SumLast([], first, AtPath(first.path));
    assert [] + [first] == [first];
    assert Sum([first] + rest, AtPath(first.path)) <= 1;
    InByPath(rest, first.path);
  }

  /** What is accepted is acceptable, and sorted. */
  lemma ValidatedIsAcceptable(rules: Rules, name: string, raws: Option<seq<Raw>>)
    requires Sorts(rules) && Validated(rules, name, raws).Ok?
    ensures var files := Validated(rules, name, raws).value; Acceptable(rules, name, files) && rules.sort(files) == files
  {
    var scanned := Scan(rules, raws.value).value;
    ScanReads(rules, raws.value);
    var sorted := rules.sort(scanned.files);
    assert multiset(sorted) == multiset(scanned.files) && rules.sort(sorted) == sorted;
    SortedReads(rules, name, scanned.files, sorted);
  }

  lemma SortedReads(rules: Rules, name: string, files: seq<File>, sorted: seq<File>)
    requires multiset(sorted) == multiset(files) && 0 < |files| <= MAX_FILES
    requires DistinctPaths(files) && (forall file :: file in files ==> Fine(rules, file)) && Sum(files, Size(rules)) <= MAX_TOTAL_BYTES
    requires FindDescriptor(sorted).Some? && rules.describes(name, FindDescriptor(sorted).value.content)
    ensures Acceptable(rules, name, sorted)
  {
    assert |sorted| == |multiset(sorted)| == |files|;
    assert forall file :: file in sorted <==> file in multiset(sorted);
    assert forall file :: file in files <==> file in multiset(files);
    SumPermuted(files, sorted, Size(rules));
    forall path: string ensures Sum(sorted, AtPath(path)) <= 1 {
      SumPermuted(files, sorted, AtPath(path));
      assert Sum(files, AtPath(path)) <= 1;
    }
    DescriptorIn(sorted);
  }

  lemma ScanLast(rules: Rules, raws: seq<Raw>, raw: Raw)
    requires Scan(rules, raws).Ok?
    ensures Scan(rules, raws + [raw]) == ScanOne(rules, Scan(rules, raws).value, raw)
  {
    assert (raws + [raw])[..|raws|] == raws;
  }

  lemma AgainLast(init: seq<File>, last: File)
    ensures Again(init + [last]) == Again(init) + [Entry(Some(last.path), Some(last.content))]
  {
  }

  lemma AgainOne(rules: Rules, before: Scanned, last: File)
    requires Reads(rules, before) && Fine(rules, last) && DistinctPaths(before.files + [last])
    ensures var next := ScanOne(rules, before, Entry(Some(last.path), Some(last.content)));
            next.Ok? && next.value.files == before.files + [last]
  {
    NotBefore(before.files, last);
  }

  lemma DistinctInit(init: seq<File>, last: File)
    requires DistinctPaths(init + [last])
    ensures DistinctPaths(init)
  {
    forall path: string ensures Sum(init, AtPath(path)) <= 1 {
      SumLast(init, last, AtPath(path));
      assert Sum(init + [last], AtPath(path)) <= 1;
    }
  }

  lemma {:induction false} AgainScans(rules: Rules, files: seq<File>)
    requires (forall file :: file in files ==> Fine(rules, file)) && DistinctPaths(files)
    ensures Scan(rules, Again(files)).Ok? && Scan(rules, Again(files)).value.files == files
    decreases |files|
  {
    if files != [] {
      var init, last := files[..|files| - 1], files[|files| - 1];
      assert files == init + [last];
      DistinctInit(init, last);
      AgainScans(rules, init);
      ScanReads(rules, Again(init));
      AgainOne(rules, Scan(rules, Again(init)).value, last);
      AgainLast(init, last);
      ScanLast(rules, Again(init), Entry(Some(last.path), Some(last.content)));
    }
  }

  lemma NotBefore(init: seq<File>, last: File)
    requires DistinctPaths(init + [last])
    ensures forall file :: file in init ==> file.path != last.path
  {
    SumLast(init, last, AtPath(last.path));
    assert Sum(init + [last], AtPath(last.path)) <= 1;
    InByPath(init, last.path);
  }

  /** What was stored validates again, to itself. */
  lemma StoredIsValid(rules: Rules, name: string, files: seq<File>)
    requires ValidName(name) && Acceptable(rules, name, files) && rules.sort(files) == files
    ensures Validated(rules, name, Some(Again(files))) == Ok(files)
  {
    AgainScans(rules, files);
    ScanReads(rules, Again(files));
    DescriptorIn(files);
  }

  // ---------- the store ----------

  /** A skill's stored revisions are exactly 1..current. */
  ghost predicate Gapless(s: Store, key: Key) {
    (key in s.heads ==> s.heads[key].revision >= 1) &&
    forall r: nat :: Slot(key, r) in s.revisions <==> 1 <= r <= Revision(s, key)
  }

  /** Files of a stored revision: none, or valid ones. */
  ghost predicate Storable(rules: Rules, key: Key, files: seq<File>) {
    files == [] || (ValidName(key.skillName) && Acceptable(rules, key.skillName, files) && rules.sort(files) == files)
  }

  ghost predicate Sound(rules: Rules, s: Store) {
    && (forall key :: Gapless(s, key))
    && (forall slot :: slot in s.revisions ==> Storable(rules, slot.key, s.revisions[slot]))
    && (forall key :: key in s.heads && Slot(key, s.heads[key].revision) in s.revisions ==>
          (s.heads[key].deleted <==> s.revisions[Slot(key, s.heads[key].revision)] == []))
  }

  lemma AppendSound(rules: Rules, s: Store, key: Key, files: seq<File>, deleted: bool)
    requires Sound(rules, s) && Storable(rules, key, files) && (deleted <==> files == [])
    ensures Sound(rules, Append(s, key, files, deleted))
    ensures Slot(key, Revision(s, key) + 1) !in s.revisions
  {
    var after := Append(s, key, files, deleted);
    assert Gapless(s, key);
    forall k ensures Gapless(after, k) {
      assert Gapless(s, k);
    }
  }

  lemma StepSound(rules: Rules, s: Store, op: Op)
    requires Sorts(rules) && Sound(rules, s)
    ensures Sound(rules, Step(s, rules, op).0)
  {
    match op
    case Write(owns, key, raws, expected) =>
      if Written(s, rules, owns, key, raws, expected).1.Ok? {
        ValidatedIsAcceptable(rules, key.skillName, raws);
        AppendSound(rules, s, key, Validated(rules, key.skillName, raws).value, false);
      }
    case Revert(owns, key, revision, expected) =>
      if Reverted(s, rules, owns, key, revision, expected).1.Ok? {
        var again := Some(Again(s.revisions[Slot(key, revision)]));
        ValidatedIsAcceptable(rules, key.skillName, again);
        AppendSound(rules, s, key, Validated(rules, key.skillName, again).value, false);
      }
    case Delete(owns, key, expected) =>
      if Deleted(s, owns, key, expected).1.Ok? {
        AppendSound(rules, s, key, [], true);
      }
  }

  function Run(rules: Rules, ops: seq<Op>): Store {
    if ops == [] then EMPTY else Step(Run(rules, ops[..|ops| - 1]), rules, ops[|ops| - 1]).0
  }

  /** In every run a skill's revisions are exactly 1..current, it is deleted exactly when the current one has no files,
      and every other revision holds valid files. */
  lemma {:induction false} EveryRunSound(rules: Rules, ops: seq<Op>)
    requires Sorts(rules)
    ensures Sound(rules, Run(rules, ops))
    decreases |ops|
  {
    if ops != [] {
      EveryRunSound(rules, ops[..|ops| - 1]);
      StepSound(rules, Run(rules, ops[..|ops| - 1]), ops[|ops| - 1]);
    }
  }

  lemma StepKeeps(rules: Rules, s: Store, op: Op, slot: Slot)
    requires Sound(rules, s) && slot in s.revisions
    ensures slot in Step(s, rules, op).0.revisions && Step(s, rules, op).0.revisions[slot] == s.revisions[slot]
  {
    assert Gapless(s, op.key);
  }

  /** A revision never changes once written. */
  lemma {:induction false} WrittenOnce(rules: Rules, ops: seq<Op>, k: nat, slot: Slot)
    requires Sorts(rules) && k <= |ops| && slot in Run(rules, ops[..k]).revisions
    ensures slot in Run(rules, ops).revisions && Run(rules, ops).revisions[slot] == Run(rules, ops[..k]).revisions[slot]
    decreases |ops|
  {
    if k == |ops| {
      assert ops[..k] == ops;
    } else {
      var init := ops[..|ops| - 1];
      assert init[..k] == ops[..k];
      WrittenOnce(rules, init, k, slot);
      EveryRunSound(rules, init);
      StepKeeps(rules, Run(rules, init), ops[|ops| - 1], slot);
    }
  }

  /** Reading a known skill never fails, and gives the files of its current revision. */
  lemma ReadingNeverFails(rules: Rules, ops: seq<Op>, key: Key)
    requires Sorts(rules)
    ensures var s := Run(rules, ops);
            if key in s.heads && ValidName(key.skillName) then
              && Slot(key, s.heads[key].revision) in s.revisions
              && Looked(s, rules, true, key) == Ok(Record(s.heads[key].revision, s.heads[key].deleted, s.revisions[Slot(key, s.heads[key].revision)]))
            else Looked(s, rules, true, key).Err?
  {
    var s := Run(rules, ops);
    EveryRunSound(rules, ops);
    assert Gapless(s, key);
    if key in s.heads && ValidName(key.skillName) && !s.heads[key].deleted {
      var slot := Slot(key, s.heads[key].revision);
      assert Storable(rules, slot.key, s.revisions[slot]);
      StoredIsValid(rules, key.skillName, s.revisions[slot]);
    }
  }

  /** The revision has files to go back to. */
  predicate Revertible(s: Store, key: Key, revision: int) {
    1 <= revision <= Revision(s, key) && Slot(key, revision) in s.revisions && s.revisions[Slot(key, revision)] != []
  }

  /** An owner's revert to r succeeds if and only if r is a revision with files and the caller expects the current
      one; it then appends a revision whose files are those of r, and keeps r. */
  lemma RevertIff(rules: Rules, ops: seq<Op>, key: Key, revision: int, expected: int)
    requires Sorts(rules)
    ensures var s := Run(rules, ops); var (after, r) := Reverted(s, rules, true, key, revision, expected);
            && (r.Ok? <==> expected == Revision(s, key) && Revertible(s, key, revision))
            && (r.Err? ==> after == s)
            && (r.Ok? ==> after == Append(s, key, s.revisions[Slot(key, revision)], false))
  {
    var s := Run(rules, ops);
    EveryRunSound(rules, ops);
    assert Gapless(s, key);
    if revision >= 0 && Slot(key, revision) in s.revisions && s.revisions[Slot(key, revision)] != [] {
      assert Storable(rules, key, s.revisions[Slot(key, revision)]);
      StoredIsValid(rules, key.skillName, s.revisions[Slot(key, revision)]);
    }
  }

  // ---------- what is accepted ----------

  lemma ScannedEntry(rules: Rules, before: Scanned, raw: Raw)
    requires ScanOne(rules, before, raw).Ok?
    ensures raw.Entry? && raw.path.Some? && raw.content.Some?
    ensures ScanOne(rules, before, raw).value.files == before.files + [File(raw.path.value, raw.content.value)]
  {
  }

  /** A scan that succeeds read proper entries, and lists them. */
  lemma {:induction false} ScannedAgain(rules: Rules, raws: seq<Raw>)
    requires Scan(rules, raws).Ok?
    ensures raws == Again(Scan(rules, raws).value.files)
    decreases |raws|
  {
    if raws != [] {
      var init, last := raws[..|raws| - 1], raws[|raws| - 1];
      ScannedAgain(rules, init);
      ScannedEntry(rules, Scan(rules, init).value, last);
      AgainLast(Scan(rules, init).value.files, File(last.path.value, last.content.value));
    }
  }

  lemma AcceptedSorted(rules: Rules, name: string, files: seq<File>)
    requires Sorts(rules) && ValidName(name) && Acceptable(rules, name, files)
    ensures Validated(rules, name, Some(Again(files))) == Ok(rules.sort(files))
  {
    AgainScans(rules, files);
    ScanReads(rules, Again(files));
    assert multiset(rules.sort(files)) == multiset(files);
    AcceptablePermuted(rules, name, files, rules.sort(files));
    DescriptorIn(rules.sort(files));
  }

  /** Exactly the well-named lists of proper entries whose files are acceptable are accepted, and stored sorted. */
  lemma ValidatedIff(rules: Rules, name: string, raws: seq<Raw>)
    requires Sorts(rules)
    ensures Validated(rules, name, Some(raws)).Ok? <==>
            ValidName(name) && exists files :: raws == Again(files) && Acceptable(rules, name, files)
    ensures forall files :: raws == Again(files) && Validated(rules, name, Some(raws)).Ok? ==>
              Validated(rules, name, Some(raws)).value == rules.sort(files)
  {
    if Validated(rules, name, Some(raws)).Ok? {
      var files := Scan(rules, raws).value.files;
      ScannedAgain(rules, raws);
      ValidatedIsAcceptable(rules, name, Some(raws));
      assert multiset(rules.sort(files)) == multiset(files);
      AcceptablePermuted(rules, name, rules.sort(files), files);
      forall other | raws == Again(other) ensures other == files {
        AgainOnce(files, other);
      }
    }
    if files :| ValidName(name) && raws == Again(files) && Acceptable(rules, name, files) {
      AcceptedSorted(rules, name, files);
    }
  }

  lemma AgainOnce(a: seq<File>, b: seq<File>)
    requires Again(a) == Again(b)
    ensures a == b
  {
    assert |a| == |Again(a)| == |b|;
    forall i | 0 <= i < |a| ensures a[i] == b[i] {
      assert Again(a)[i] == Again(b)[i];
    }
  }

  /** An owner's write succeeds if and only if its files are accepted and it expects the current revision; it then
      appends them, sorted. */
  lemma WriteIff(rules: Rules, ops: seq<Op>, key: Key, raws: Option<seq<Raw>>, expected: int)
    ensures var s := Run(rules, ops); var (after, r) := Written(s, rules, true, key, raws, expected);
            && (r.Ok? <==> expected == Revision(s, key) && Validated(rules, key.skillName, raws).Ok?)
            && (r.Err? ==> after == s)
            && (r.Ok? ==> after == Append(s, key, Validated(rules, key.skillName, raws).value, false))
  {
  }

  /** An owner's delete succeeds if and only if the skill exists undeleted and the current revision is expected; it then
      appends an empty one. */
  lemma DeleteIff(rules: Rules, ops: seq<Op>, key: Key, expected: int)
    ensures var s := Run(rules, ops); var (after, r) := Deleted(s, true, key, expected);
            && (r.Ok? <==> ValidName(key.skillName) && key in s.heads && !s.heads[key].deleted && expected == Revision(s, key))
            && (r.Err? ==> after == s)
            && (r.Ok? ==> after == Append(s, key, [], true))
  {
  }

  /** After any success the skill reads as what was appended. */
  lemma AppendedIsRead(s: Store, key: Key, files: seq<File>, deleted: bool)
    ensures var after := Append(s, key, files, deleted);
            && after.heads[key] == Head(Revision(s, key) + 1, deleted) && after.revisions[Slot(key, Revision(s, key) + 1)] == files
            && (forall other :: other != key ==> (other in after.heads <==> other in s.heads) && (other in s.heads ==> after.heads[other] == s.heads[other]))
  {
  }
}
