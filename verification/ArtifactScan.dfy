/**
 What a command changed in the workspace (scripts/pair-notebook-session-agent.py, collect_changes).

 The workspace is a tree whose entries stay during the scan; hard-linked files count as special. Which paths are safe,
 how reading a file goes and which folders can be listed are given, and entries of a folder come in any order.
 */
module ArtifactScan {
  import opened Bytes
  import opened FiniteSets
  import opened Outcomes
  import opened ProjectPaths
  import opened ProjectTree

  const MaxSnapshotBytes: nat := 128 * 1024 * 1024
  const MaxArtifactFiles: nat := 256
  const MaxArtifactEntries: nat := 8192
  const MaxArtifactDepth: nat := 16
  const StagingBytes: nat := 256 * 1024
  const MaxWarnings: nat := 32

  datatype Pinned = Pinned(digest: Digest, version: int)

  datatype Change = Change(path: Path, content: seq<Byte>, version: int, staged: bool)

  datatype Warning =
    | Symlink | UnsupportedPath | InvalidPath | UnsafeFile | TooLarge | Unreadable
    | TransferLimit | TransportLimit | ChangedBeforeStaging | GrewBeyondLimit | ChangedDuringStaging
    | FolderUnscannable | Truncated

  /** How reading a file goes: as the scan found it, not at all, or disturbed by a change while it is staged. */
  datatype Reading = Steady | Unopenable | ReplacedBefore | GrowsBeyond | ChangesDuring

  datatype Workspace = Workspace(fs: Tree, baseline: map<Path, Pinned>, staging: bool, safe: Path -> bool, hash: Hash,
                                 reading: Path -> Reading, listable: Path -> bool, specialSize: Path -> nat)

  /** `seen` is a record the source does not keep: the entries that were looked at, in their order. */
  datatype Scan = Scan(changes: seq<Change>, warnings: set<Warning>, present: set<Path>, total: nat, visited: nat,
                       stack: seq<Path>, truncated: bool, full: bool, seen: seq<Path>)

  /** The warning about a large file that cannot be staged; none if it can. */
  function StagingWarning(reading: Reading): Option<Warning> {
    match reading
    case Steady => None
    case Unopenable => Some(Unreadable)
    case ReplacedBefore => Some(ChangedBeforeStaging)
    case GrowsBeyond => Some(GrewBeyondLimit)
    case ChangesDuring => Some(ChangedDuringStaging)
  }

  function Warn(s: Scan, warning: Warning): Scan { s.(warnings := s.warnings + {warning}) }

  /** Only large files are staged, and only if there is a place for them. */
  predicate IsStaged(w: Workspace, bytes: seq<Byte>) { w.staging && |bytes| > StagingBytes }

  predicate IsUnchanged(w: Workspace, p: Path, bytes: seq<Byte>) {
    p in w.baseline && w.hash(bytes) == w.baseline[p].digest
  }

  function Version(w: Workspace, p: Path): int { if p in w.baseline then w.baseline[p].version else 0 }

  function WithChange(w: Workspace, s: Scan, p: Path, bytes: seq<Byte>, staged: bool): Scan {
    s.(changes := s.changes + [Change(p, bytes, Version(w, p), staged)], total := s.total + |bytes|)
  }

  predicate IsOverLimit(s: Scan, size: nat) { |s.changes| >= MaxArtifactFiles || s.total + size > MaxSnapshotBytes }

  /** A large file is staged beside the workspace; a smaller one is carried in the report. */
  function AfterRegular(w: Workspace, s: Scan, p: Path, bytes: seq<Byte>): Scan {
    if w.staging && |bytes| > StagingBytes then
      if |bytes| > MaxSnapshotBytes || IsOverLimit(s, |bytes|) then Warn(s, TransferLimit)
      else if StagingWarning(w.reading(p)).Some? then Warn(s, StagingWarning(w.reading(p)).value)
      else if IsUnchanged(w, p, bytes) then s
      else WithChange(w, s, p, bytes, true)
    else if w.reading(p).Unopenable? then Warn(s, Unreadable)
    else if |bytes| > MaxSnapshotBytes then Warn(s, TooLarge)
    else if IsUnchanged(w, p, bytes) then s
    else if IsOverLimit(s, |bytes|) then Warn(s, TransportLimit)
    else WithChange(w, s, p, bytes, false)
  }

  /** Which warning excludes a special or hard-linked file depends on its size and on whether it can be opened. */
  function SpecialWarning(w: Workspace, s: Scan, p: Path): Warning {
    var large := w.staging && w.specialSize(p) > StagingBytes;
    if large && (w.specialSize(p) > MaxSnapshotBytes || IsOverLimit(s, w.specialSize(p))) then TransferLimit
    else if w.reading(p).Unopenable? then Unreadable
    else if large then ChangedBeforeStaging
    else UnsafeFile
  }

  function Noted(s: Scan, p: Path): Scan { s.(seen := s.seen + [p]) }

  function Present(s: Scan, p: Path): Scan { Noted(s, p).(present := s.present + {p}) }

  /** One entry, within the limit on entries. */
  function AfterEntry(w: Workspace, s: Scan, p: Path): Scan
    requires p in w.fs
  {
    match w.fs[p]
    case Link => Warn(Noted(s, p), Symlink)
    case Dir =>
      if |p| >= MaxArtifactDepth then Noted(s, p).(truncated := true) else Noted(s, p).(stack := s.stack + [p])
    case File(bytes) =>
      if !w.safe(p) then Warn(Present(s, p), UnsupportedPath) else AfterRegular(w, Present(s, p), p, bytes)
    case Special =>
      if !w.safe(p) then Warn(Present(s, p), UnsupportedPath) else Warn(Present(s, p), SpecialWarning(w, s, p))
  }

  // ----- There are few warnings -----

  const FileWarnings: set<Warning> := {Symlink, UnsupportedPath, InvalidPath, UnsafeFile, TooLarge, Unreadable}

  const ReportWarnings: set<Warning> :=
    {TransferLimit, TransportLimit, ChangedBeforeStaging, GrewBeyondLimit, ChangedDuringStaging, FolderUnscannable,
     Truncated}

  /** A scan has fewer kinds of warning than the number that would end it. */
  lemma WarningsAreFew(warnings: set<Warning>)
    ensures |warnings| < MaxWarnings
  {
    forall x | x in warnings ensures x in FileWarnings + ReportWarnings {
      match x {
        case Symlink | UnsupportedPath | InvalidPath | UnsafeFile | TooLarge | Unreadable =>
        case TransferLimit | TransportLimit | ChangedBeforeStaging | GrewBeyondLimit | ChangedDuringStaging =>
        case FolderUnscannable | Truncated =>
      }
    }
    SubsetIsSmaller(warnings, FileWarnings + ReportWarnings);
    assert |FileWarnings| <= 6 && |ReportWarnings| <= 7;
  }

  // ----- What a scan has recorded -----

  predicate HasChange(changes: seq<Change>, p: Path, bytes: seq<Byte>) {
    exists i :: 0 <= i < |changes| && changes[i].path == p && changes[i].content == bytes
  }

  /** An entry that was looked at is accounted for: reported, unchanged, or the reason of a warning. */
  predicate IsRecorded(w: Workspace, s: Scan, p: Path)
    requires p in w.fs
  {
    p in s.seen &&
    match w.fs[p]
    case Link => s.warnings != {}
    case Dir => true
    case Special => p in s.present && s.warnings != {}
    case File(bytes) =>
      p in s.present && (s.warnings != {} || IsUnchanged(w, p, bytes) || HasChange(s.changes, p, bytes))
  }

  predicate IsSoundChange(w: Workspace, c: Change) {
    c.path in w.fs && w.fs[c.path] == File(c.content) && w.safe(c.path) && !IsUnchanged(w, c.path, c.content)
    && c.version == Version(w, c.path) && (c.staged <==> IsStaged(w, c.content))
  }

  /** Only what is there is called present, and only changed files are reported. */
  ghost predicate IsSound(w: Workspace, s: Scan) {
    && (forall p :: p in s.present ==> p in w.fs && (w.fs[p].File? || w.fs[p].Special?))
    && (forall i :: 0 <= i < |s.changes| ==> IsSoundChange(w, s.changes[i]))
    && (forall p :: p in s.seen ==> p in w.fs) && Truncated !in s.warnings
  }

  /** What is recorded stays recorded while a scan goes on. */
  predicate GoesOn(s: Scan, v: Scan) {
    s.changes <= v.changes && s.warnings <= v.warnings && s.present <= v.present && s.stack <= v.stack
    && s.seen <= v.seen && (s.truncated ==> v.truncated)
  }

  lemma StaysRecorded(w: Workspace, s: Scan, v: Scan, p: Path)
    requires p in w.fs && IsRecorded(w, s, p) && GoesOn(s, v)
    ensures IsRecorded(w, v, p)
  {
    if w.fs[p].File? && HasChange(s.changes, p, w.fs[p].bytes) {
      var i :| 0 <= i < |s.changes| && s.changes[i].path == p && s.changes[i].content == w.fs[p].bytes;
      assert v.changes[i] == s.changes[i];
    }
  }

  lemma RegularIsRecorded(w: Workspace, s: Scan, p: Path, bytes: seq<Byte>)
    requires p in w.fs && w.fs[p] == File(bytes) && w.safe(p) && IsSound(w, s) && p in s.present && p in s.seen
    ensures var v := AfterRegular(w, s, p, bytes); (
      IsRecorded(w, v, p) && IsSound(w, v) && GoesOn(s, v) && v.stack == s.stack && v.seen == s.seen)
  {
    var v := AfterRegular(w, s, p, bytes);
    if |v.changes| > |s.changes| {
      assert v.changes[|s.changes|].path == p;
    }
  }

  lemma EntryIsRecorded(w: Workspace, s: Scan, p: Path)
    requires p in w.fs && IsSound(w, s)
    ensures var v := AfterEntry(w, s, p); IsRecorded(w, v, p) && IsSound(w, v) && GoesOn(s, v)
    ensures var v := AfterEntry(w, s, p);
      v.stack == if w.fs[p].Dir? && |p| < MaxArtifactDepth then s.stack + [p] else s.stack
    ensures w.fs[p].Dir? && |p| >= MaxArtifactDepth ==> AfterEntry(w, s, p).truncated
    ensures AfterEntry(w, s, p).seen == s.seen + [p]
  {
    if w.fs[p].File? && w.safe(p) {
      RegularIsRecorded(w, Present(s, p), p, w.fs[p].bytes);
    }
  }

  // ----- What a scan reports, and when it warns -----

  function SizeAt(w: Workspace, p: Path): nat { if p in w.fs && w.fs[p].File? then |w.fs[p].bytes| else 0 }

  function TotalSize(w: Workspace, paths: seq<Path>): nat {
    if paths == [] then 0 else TotalSize(w, paths[..|paths| - 1]) + SizeAt(w, paths[|paths| - 1])
  }

  /** Reading goes well: nothing disturbs the staging of a large file, and a smaller one can be opened. */
  predicate IsReadable(w: Workspace, p: Path, bytes: seq<Byte>) {
    if IsStaged(w, bytes) then w.reading(p).Steady? else !w.reading(p).Unopenable?
  }

  /** An entry that by itself gives no reason for a warning. */
  predicate IsFine(w: Workspace, p: Path) {
    p in w.fs &&
    match w.fs[p]
    case Dir => |p| < MaxArtifactDepth
    case File(bytes) => w.safe(p) && IsReadable(w, p, bytes) && |bytes| <= MaxSnapshotBytes
    case _ => false
  }

  predicate IsChanged(w: Workspace, p: Path) { p in w.fs && w.fs[p].File? && !IsUnchanged(w, p, w.fs[p].bytes) }

  /** Changed files count against the limits; a large one is held against them before it is known to be unchanged. */
  predicate IsMeasured(w: Workspace, p: Path) {
    p in w.fs && w.fs[p].File? && (IsChanged(w, p) || IsStaged(w, w.fs[p].bytes))
  }

  /** There is room for `p` beside the files reported so far. */
  predicate Fits(w: Workspace, reported: seq<Path>, p: Path) {
    |reported| < MaxArtifactFiles && TotalSize(w, reported) + SizeAt(w, p) <= MaxSnapshotBytes
  }

  /** The changed files for which there is room, first come, first served. */
  function Taken(w: Workspace, seen: seq<Path>): seq<Path> {
    if seen == [] then [] else
      var p, before := seen[|seen| - 1], Taken(w, seen[..|seen| - 1]);
      if IsFine(w, p) && IsChanged(w, p) && Fits(w, before, p) then before + [p] else before
  }

  /** Each of the files is reported with its content and version, staged exactly if it is large and can be. */
  predicate Reports(w: Workspace, changes: seq<Change>, files: seq<Path>) {
    |changes| == |files| && forall i :: 0 <= i < |files| ==> IsChangeOf(w, changes[i], files[i])
  }

  predicate IsChangeOf(w: Workspace, c: Change, p: Path) { c.path == p && IsSoundChange(w, c) }

  predicate AllFine(w: Workspace, seen: seq<Path>) { forall p :: p in seen ==> IsFine(w, p) }

  predicate AllFit(w: Workspace, seen: seq<Path>) { forall i :: 0 <= i < |seen| ==> FitsAt(w, seen, i) }

  predicate FitsAt(w: Workspace, seen: seq<Path>, i: nat)
    requires i < |seen|
  {
    IsMeasured(w, seen[i]) ==> Fits(w, Taken(w, seen[..i]), seen[i])
  }

  /** The whole workspace can be looked at: every folder is shallow and can be listed, and there are few entries. */
  predicate CanBeScanned(w: Workspace) {
    && w.listable([]) && |w.fs| <= MaxArtifactEntries
    && forall p :: p in w.fs && w.fs[p].Dir? ==> |p| < MaxArtifactDepth && w.listable(p)
  }

  /** A workspace in which nothing but the limits on what is reported can give a warning. */
  predicate IsClean(w: Workspace) { CanBeScanned(w) && forall p :: p in w.fs ==> IsFine(w, p) }

  predicate AllShallow(w: Workspace, seen: seq<Path>) {
    forall p :: p in seen && p in w.fs && w.fs[p].Dir? ==> |p| < MaxArtifactDepth
  }

  /** The next entry gives no warning. */
  predicate IsGood(w: Workspace, seen: seq<Path>, p: Path) {
    IsFine(w, p) && (IsMeasured(w, p) ==> Fits(w, Taken(w, seen), p))
  }

  /** How far a scan has come with what it reports and whether it has warned. */
  ghost predicate Judged(w: Workspace, s: Scan) {
    && Reports(w, s.changes, Taken(w, s.seen)) && s.total == TotalSize(w, Taken(w, s.seen))
    && (s.warnings == {} && !s.truncated ==> AllFine(w, s.seen) && AllFit(w, s.seen))
    && (!s.truncated ==> AllShallow(w, s.seen)) && (CanBeScanned(w) && !s.full ==> !s.truncated)
    && (IsClean(w) && AllFit(w, s.seen) ==> s.warnings == {})
  }

  lemma TakenNext(w: Workspace, seen: seq<Path>, p: Path)
    ensures Taken(w, seen + [p])
         == if IsFine(w, p) && IsChanged(w, p) && Fits(w, Taken(w, seen), p) then Taken(w, seen) + [p]
            else Taken(w, seen)
  {
    assert (seen + [p])[..|seen|] == seen;
  }

  lemma TotalNext(w: Workspace, paths: seq<Path>, p: Path)
    ensures TotalSize(w, paths + [p]) == TotalSize(w, paths) + SizeAt(w, p)
  {
    assert (paths + [p])[..|paths|] == paths;
  }

  lemma FitNext(w: Workspace, seen: seq<Path>, p: Path)
    ensures AllFit(w, seen + [p]) <==> AllFit(w, seen) && (IsMeasured(w, p) ==> Fits(w, Taken(w, seen), p))
  {
    var v := seen + [p];
    assert v[..|seen|] == seen;
    forall i | 0 <= i < |seen| ensures FitsAt(w, v, i) <==> FitsAt(w, seen, i) {
      assert v[..i] == seen[..i];
    }
    assert FitsAt(w, v, |seen|) <==> (IsMeasured(w, p) ==> Fits(w, Taken(w, seen), p));
  }

  lemma ReportsNext(w: Workspace, changes: seq<Change>, files: seq<Path>, c: Change, p: Path)
    requires Reports(w, changes, files) && IsChangeOf(w, c, p)
    ensures Reports(w, changes + [c], files + [p])
  {
  }

  /** A regular file of a safe path: it is reported exactly when it is taken, and gives a warning if it is not good. */
  lemma RegularIsJudged(w: Workspace, s: Scan, before: seq<Path>, p: Path, bytes: seq<Byte>)
    requires p in w.fs && w.fs[p] == File(bytes) && w.safe(p)
    requires Reports(w, s.changes, Taken(w, before)) && s.total == TotalSize(w, Taken(w, before))
    ensures var v := AfterRegular(w, s, p, bytes); (
      && (if IsFine(w, p) && IsChanged(w, p) && Fits(w, Taken(w, before), p)
          then v.changes == s.changes + [Change(p, bytes, Version(w, p), IsStaged(w, bytes))]
               && v.total == s.total + |bytes|
          else v.changes == s.changes && v.total == s.total)
      && (if IsGood(w, before, p) then v.warnings == s.warnings else v.warnings != {})
      && v.truncated == s.truncated && v.full == s.full)
  {
  }

  /** What looking at one entry does to what is reported and to the warnings. */
  predicate IsEntryJudged(w: Workspace, s: Scan, v: Scan, p: Path)
    requires p in w.fs
  {
    && (if IsFine(w, p) && IsChanged(w, p) && Fits(w, Taken(w, s.seen), p)
        then IsChangeOf(w, Change(p, w.fs[p].bytes, Version(w, p), IsStaged(w, w.fs[p].bytes)), p)
             && v.changes == s.changes + [Change(p, w.fs[p].bytes, Version(w, p), IsStaged(w, w.fs[p].bytes))]
             && v.total == s.total + SizeAt(w, p)
        else v.changes == s.changes && v.total == s.total)
    && (if IsGood(w, s.seen, p) then v.warnings == s.warnings else v.warnings != {} || v.truncated)
    && (v.truncated <==> s.truncated || (w.fs[p].Dir? && |p| >= MaxArtifactDepth))
    && s.warnings <= v.warnings && v.full == s.full && v.seen == s.seen + [p]
  }

  lemma OtherIsJudged(w: Workspace, s: Scan, p: Path)
    requires p in w.fs && !(w.fs[p].File? && w.safe(p))
    ensures IsEntryJudged(w, s, AfterEntry(w, s, p), p)
  {
  }

  lemma FileIsJudged(w: Workspace, s: Scan, p: Path)
    requires p in w.fs && w.fs[p].File? && w.safe(p) && Judged(w, s)
    ensures IsEntryJudged(w, s, AfterEntry(w, s, p), p)
  {
    RegularIsJudged(w, Present(s, p), s.seen, p, w.fs[p].bytes);
    RegularGoesOn(w, Present(s, p), p, w.fs[p].bytes);
  }

  lemma RegularGoesOn(w: Workspace, s: Scan, p: Path, bytes: seq<Byte>)
    ensures AfterRegular(w, s, p, bytes).seen == s.seen && s.warnings <= AfterRegular(w, s, p, bytes).warnings
  {
  }

  lemma EntryIsJudged(w: Workspace, s: Scan, p: Path)
    requires p in w.fs && Judged(w, s)
    ensures IsEntryJudged(w, s, AfterEntry(w, s, p), p)
  {
    if w.fs[p].File? && w.safe(p) {
      FileIsJudged(w, s, p);
    } else {
      OtherIsJudged(w, s, p);
    }
  }

  lemma JudgingGoesOn(w: Workspace, s: Scan, v: Scan, p: Path)
    requires p in w.fs && Judged(w, s) && IsEntryJudged(w, s, v, p)
    ensures Judged(w, v)
  {
    TakenNext(w, s.seen, p);
    FitNext(w, s.seen, p);
    TotalNext(w, Taken(w, s.seen), p);
    if IsFine(w, p) && IsChanged(w, p) && Fits(w, Taken(w, s.seen), p) {
      ReportsNext(w, s.changes, Taken(w, s.seen),
                  Change(p, w.fs[p].bytes, Version(w, p), IsStaged(w, w.fs[p].bytes)), p);
    }
  }

  ghost predicate NoRepeats(paths: seq<Path>) { forall i, j :: 0 <= i < j < |paths| ==> paths[i] != paths[j] }

  lemma NoRepeatsConcat(a: seq<Path>, b: seq<Path>)
    requires NoRepeats(a) && NoRepeats(b) && forall p :: p in b ==> p !in a
    ensures NoRepeats(a + b)
  {
    var v := a + b;
    forall i, j | 0 <= i < j < |v| ensures v[i] != v[j] {
      assert j >= |a| ==> v[j] == b[j - |a|] && v[j] in b;
      assert i < |a| ==> v[i] == a[i] && v[i] in a;
      assert i >= |a| ==> v[i] == b[i - |a|];
    }
  }

  function ParentOf(p: Path): Path
    requires p != []
  {
    p[..|p| - 1]
  }

  predicate IsFolder(fs: Tree, d: Path) { d == [] || (d in fs && fs[d].Dir?) }

  /** New entries of the stack: folders directly in `d`, each once, none of them still to be looked at. */
  ghost predicate IsPushed(w: Workspace, d: Path, todo: set<Path>, pushed: seq<Path>) {
    NoRepeats(pushed) && forall p :: p in pushed ==> p in Entries(w.fs, d) && w.fs[p].Dir? && p !in todo
  }

  // ----- The scan -----

  /** How far the scan of folder `d` that began at `before` has come: all its entries but `todo` were looked at. */
  ghost predicate LookedAt(w: Workspace, before: Scan, s: Scan, d: Path, todo: set<Path>, pushed: seq<Path>) {
    && IsSound(w, s) && GoesOn(before, s) && s.stack == before.stack + pushed && IsPushed(w, d, todo, pushed)
    && (!s.truncated ==> AllSeen(w, s, Entries(w.fs, d) - todo, pushed))
  }

  /** What the scan of folder `d` reports and warns of, and that it looks at nothing twice. */
  ghost predicate Judging(w: Workspace, before: Scan, s: Scan, d: Path, todo: set<Path>) {
    Judged(w, s) && LooksOnce(w, before.seen, s.seen, d, todo) && forall p :: p in s.seen ==> p in w.fs
  }

  /** No entry is looked at twice: what was looked at before is not in `d`, and what is new is no longer to do. */
  ghost predicate LooksOnce(w: Workspace, before: seq<Path>, seen: seq<Path>, d: Path, todo: set<Path>) {
    && NoRepeats(seen) && (forall p :: p in before ==> p !in Entries(w.fs, d))
    && forall p :: p in seen ==> p in before || (p in Entries(w.fs, d) && p !in todo)
  }

  lemma LooksOnceMore(w: Workspace, before: seq<Path>, seen: seq<Path>, d: Path, todo: set<Path>, p: Path)
    requires LooksOnce(w, before, seen, d, todo) && p in todo && todo <= Entries(w.fs, d)
    ensures LooksOnce(w, before, seen + [p], d, todo - {p})
  {
    NoRepeatsConcat(seen, [p]);
  }

  function Elements(paths: seq<Path>): set<Path> { set p | p in paths }

  lemma {:induction false} NoRepeatsSize(paths: seq<Path>)
    requires NoRepeats(paths)
    ensures |Elements(paths)| == |paths|
  {
    if paths != [] {
      var rest, last := paths[..|paths| - 1], paths[|paths| - 1];
      NoRepeatsSize(rest);
      assert paths == rest + [last];
      NoRepeatsSplit(rest, last);
      assert Elements(paths) == Elements(rest) + {last};
    }
  }

  /** An entry that was not looked at yet is one more than those that were. */
  lemma OneMoreEntry(w: Workspace, seen: seq<Path>, p: Path)
    requires NoRepeats(seen) && p in w.fs && p !in seen && forall q :: q in seen ==> q in w.fs
    ensures |seen| < |w.fs|
  {
    NoRepeatsSize(seen);
    SubsetIsSmaller(Elements(seen), w.fs.Keys);
  }

  ghost predicate AllSeen(w: Workspace, s: Scan, seen: set<Path>, pushed: seq<Path>)
    requires seen <= w.fs.Keys
  {
    forall p :: p in seen ==> IsRecorded(w, s, p) && (w.fs[p].Dir? ==> p in pushed)
  }

  /** The folders to push after entry `p` was looked at. */
  function Pushed(w: Workspace, p: Path, pushed: seq<Path>): seq<Path>
    requires p in w.fs
  {
    if w.fs[p].Dir? && |p| < MaxArtifactDepth then pushed + [p] else pushed
  }

  lemma PushesOn(w: Workspace, d: Path, todo: set<Path>, pushed: seq<Path>, p: Path)
    requires IsPushed(w, d, todo, pushed) && p in todo && todo <= Entries(w.fs, d)
    ensures IsPushed(w, d, todo - {p}, Pushed(w, p, pushed))
  {
    if w.fs[p].Dir? && |p| < MaxArtifactDepth {
      NoRepeatsConcat(pushed, [p]);
    }
  }

  lemma SeesOn(w: Workspace, s: Scan, v: Scan, seen: set<Path>, pushed: seq<Path>, p: Path)
    requires p in w.fs && seen <= w.fs.Keys && AllSeen(w, s, seen, pushed) && GoesOn(s, v) && IsRecorded(w, v, p)
    requires w.fs[p].Dir? && |p| >= MaxArtifactDepth ==> v.truncated
    ensures !v.truncated ==> AllSeen(w, v, seen + {p}, Pushed(w, p, pushed))
  {
    forall q | q in seen ensures IsRecorded(w, v, q) {
      StaysRecorded(w, s, v, q);
    }
  }

  lemma LooksOn(w: Workspace, before: Scan, s: Scan, d: Path, todo: set<Path>, pushed: seq<Path>, p: Path)
    requires LookedAt(w, before, s, d, todo, pushed) && p in todo && todo <= Entries(w.fs, d)
    ensures LookedAt(w, before, AfterEntry(w, s, p), d, todo - {p}, Pushed(w, p, pushed))
    ensures AfterEntry(w, s, p).visited == s.visited && AfterEntry(w, s, p).full == s.full
  {
    var v := AfterEntry(w, s, p);
    EntryIsRecorded(w, s, p);
    PushesOn(w, d, todo, pushed, p);
    assert before.stack + (pushed + [p]) == before.stack + pushed + [p];
    if !v.truncated {
      var seen := Entries(w.fs, d) - todo;
      SeesOn(w, s, v, seen, pushed, p);
      assert seen + {p} == Entries(w.fs, d) - (todo - {p});
    }
  }

  /** Nothing in `d` was looked at yet. */
  ghost predicate IsNew(w: Workspace, seen: seq<Path>, d: Path) {
    NoRepeats(seen) && forall p :: p in seen ==> p !in Entries(w.fs, d)
  }

  lemma StartsLooking(w: Workspace, before: Scan, d: Path)
    requires IsSound(w, before)
    ensures LookedAt(w, before, before, d, Entries(w.fs, d), [])
    ensures LookedAt(w, before, Warn(before, FolderUnscannable).(truncated := true), d, {}, [])
  {
  }

  /** Counting an entry and cutting the scan short leave what was looked at. */
  lemma CountingKeeps(w: Workspace, before: Scan, s: Scan, v: Scan, d: Path, todo: set<Path>, pushed: seq<Path>)
    requires LookedAt(w, before, s, d, todo, pushed) && GoesOn(s, v)
    requires v == s.(visited := v.visited, truncated := v.truncated, full := v.full)
    ensures LookedAt(w, before, v, d, todo, pushed)
    ensures v.truncated ==> LookedAt(w, before, v, d, {}, pushed)
  {
    if !v.truncated {
      var seen := Entries(w.fs, d) - todo;
      forall q | q in seen ensures IsRecorded(w, v, q) {
        StaysRecorded(w, s, v, q);
      }
    }
  }

  lemma StartsJudging(w: Workspace, before: Scan, d: Path)
    requires IsSound(w, before) && Judged(w, before) && IsNew(w, before.seen, d) && IsFolder(w.fs, d)
    ensures Judging(w, before, before, d, Entries(w.fs, d))
    ensures !w.listable(d) ==> Judging(w, before, Warn(before, FolderUnscannable).(truncated := true), d, {})
  {
  }

  lemma JudgesOn(w: Workspace, before: Scan, s: Scan, d: Path, todo: set<Path>, p: Path)
    requires Judging(w, before, s, d, todo) && p in todo && todo <= Entries(w.fs, d)
    ensures Judging(w, before, AfterEntry(w, s, p), d, todo - {p})
    ensures AfterEntry(w, s, p).seen == s.seen + [p]
  {
    EntryIsJudged(w, s, p);
    JudgingGoesOn(w, s, AfterEntry(w, s, p), p);
    LooksOnceMore(w, before.seen, s.seen, d, todo, p);
  }

  function Counted(s: Scan): Scan {
    s.(visited := s.visited + 1, truncated := s.truncated || s.visited == MaxArtifactEntries)
  }

  /** A scan whose folders held more entries than allowed has not found a clean workspace. */
  lemma CountingJudges(w: Workspace, before: Scan, s: Scan, d: Path, todo: set<Path>, p: Path)
    requires Judging(w, before, s, d, todo) && p in todo && todo <= Entries(w.fs, d)
    requires s.visited == |s.seen| <= MaxArtifactEntries
    ensures Judging(w, before, Counted(s), d, todo)
  {
    OneMoreEntry(w, s.seen, p);
  }

  lemma FillingJudges(w: Workspace, before: Scan, s: Scan, d: Path, todo: set<Path>)
    requires Judging(w, before, s, d, todo)
    ensures Judging(w, before, s.(truncated := true, full := true), d, {})
  {
  }

  lemma JudgingLess(w: Workspace, before: Scan, s: Scan, d: Path, todo: set<Path>)
    requires Judging(w, before, s, d, todo)
    ensures Judging(w, before, s, d, {})
  {
  }

  /** One entry of a folder, below the limit on entries. */
  lemma OneEntry(w: Workspace, before: Scan, s: Scan, d: Path, todo: set<Path>, pushed: seq<Path>, p: Path)
    requires LookedAt(w, before, s, d, todo, pushed) && Judging(w, before, s, d, todo)
    requires p in todo && todo <= Entries(w.fs, d) && s.visited == |s.seen| < MaxArtifactEntries
    ensures var v := AfterEntry(w, Counted(s), p); (
      && LookedAt(w, before, v, d, todo - {p}, Pushed(w, p, pushed)) && Judging(w, before, v, d, todo - {p})
      && v.visited == |v.seen| == s.visited + 1 && v.full == s.full)
  {
    CountingKeeps(w, before, s, Counted(s), d, todo, pushed);
    LooksOn(w, before, Counted(s), d, todo, pushed, p);
    CountingJudges(w, before, s, d, todo, p);
    JudgesOn(w, before, Counted(s), d, todo, p);
  }

  /** One entry too many ends the scan of a folder. */
  lemma OneTooMany(w: Workspace, before: Scan, s: Scan, d: Path, todo: set<Path>, pushed: seq<Path>, p: Path)
    requires LookedAt(w, before, s, d, todo, pushed) && Judging(w, before, s, d, todo)
    requires p in todo && todo <= Entries(w.fs, d) && s.visited == |s.seen| == MaxArtifactEntries
    ensures LookedAt(w, before, Counted(s), d, {}, pushed) && Judging(w, before, Counted(s), d, {})
  {
    CountingKeeps(w, before, s, Counted(s), d, todo, pushed);
    CountingJudges(w, before, s, d, todo, p);
    JudgingLess(w, before, Counted(s), d, todo);
  }

  /** So would the limit on warnings. */
  lemma OneWarningTooMany(w: Workspace, before: Scan, s: Scan, d: Path, todo: set<Path>, pushed: seq<Path>)
    requires LookedAt(w, before, s, d, todo, pushed) && Judging(w, before, s, d, todo)
    ensures var v := s.(truncated := true, full := true); (
      LookedAt(w, before, v, d, {}, pushed) && Judging(w, before, v, d, {}))
  {
    CountingKeeps(w, before, s, s.(truncated := true, full := true), d, todo, pushed);
    FillingJudges(w, before, s, d, todo);
  }

  /**
   The entries of one folder, until the limit on entries or on warnings; a folder that cannot be listed cuts the scan
   short. The source does not look at the number of warnings after every entry.
   */
  method ScanFolder(w: Workspace, before: Scan, d: Path) returns (s: Scan, ghost pushed: seq<Path>)
    requires IsSound(w, before) && Judged(w, before) && IsNew(w, before.seen, d) && IsFolder(w.fs, d)
    requires before.visited == |before.seen| <= MaxArtifactEntries
    ensures LookedAt(w, before, s, d, {}, pushed) && Judging(w, before, s, d, {})
    ensures !s.truncated ==> w.listable(d)
    ensures s.visited == |s.seen| <= MaxArtifactEntries || (s.truncated && s.visited > MaxArtifactEntries)
    ensures s.full ==> before.full || |s.warnings| >= MaxWarnings
  {
    s, pushed := before, [];
    StartsLooking(w, before, d);
    StartsJudging(w, before, d);
    if !w.listable(d) {
      s := Warn(s, FolderUnscannable).(truncated := true);
      return;
    }
    var todo := Entries(w.fs, d);
    while todo != {}
      invariant todo <= Entries(w.fs, d) && LookedAt(w, before, s, d, todo, pushed)
      invariant Judging(w, before, s, d, todo)
      invariant s.visited == |s.seen| <= MaxArtifactEntries && s.full == before.full
    {
      var p :| p in todo;
      ghost var was := s;
      s := s.(visited := s.visited + 1);
      if s.visited > MaxArtifactEntries {
        OneTooMany(w, before, was, d, todo, pushed, p);
        s := s.(truncated := true);
        return;
      }
      OneEntry(w, before, was, d, todo, pushed, p);
      s := AfterEntry(w, s, p);
      pushed, todo := Pushed(w, p, pushed), todo - {p};
      if |s.warnings| >= MaxWarnings {
        OneWarningTooMany(w, before, s, d, todo, pushed);
        s := s.(truncated := true, full := true);
        return;
      }
    }
  }

  /** What is known between two folders: `popped` are those taken off the stack. */
  ghost predicate StackOK(fs: Tree, stack: seq<Path>, popped: set<Path>) {
    && NoRepeats(stack)
    && (forall p :: p in stack ==> IsFolder(fs, p) && p !in popped && (p != [] ==> ParentOf(p) in popped))
    && (forall p :: p in popped ==> IsFolder(fs, p) && (p != [] ==> ParentOf(p) in popped))
  }

  /** While nothing was cut short, all entries of folders taken off the stack are recorded. */
  ghost predicate Covers(w: Workspace, s: Scan, popped: set<Path>) {
    && ([] in popped || [] in s.stack)
    && forall p :: p in w.fs && p != [] && ParentOf(p) in popped ==> (
                     IsRecorded(w, s, p) && (w.fs[p].Dir? ==> p in popped || p in s.stack))
  }

  lemma NoRepeatsSplit(rest: seq<Path>, d: Path)
    requires NoRepeats(rest + [d])
    ensures NoRepeats(rest) && d !in rest
  {
    var stack := rest + [d];
    assert stack[|rest|] == d;
    assert forall i :: 0 <= i < |rest| ==> stack[i] == rest[i];
  }

  lemma PoppingKeeps(w: Workspace, d: Path, pushed: seq<Path>, popped: set<Path>, rest: seq<Path>)
    requires WellFormed(w.fs) && StackOK(w.fs, rest + [d], popped) && IsPushed(w, d, {}, pushed)
    ensures StackOK(w.fs, rest + pushed, popped + {d})
  {
    NoRepeatsSplit(rest, d);
    assert d in rest + [d];
    forall p | p in pushed ensures p !in popped && p != d && p !in rest && ParentOf(p) == d {
      assert p in Entries(w.fs, d);
      assert ParentOf(p) == d;
      assert p in rest ==> p in rest + [d];
    }
    NoRepeatsConcat(rest, pushed);
    forall p | p in rest + pushed
      ensures IsFolder(w.fs, p) && p !in popped + {d} && (p != [] ==> ParentOf(p) in popped + {d})
    {
      assert p in rest ==> p in rest + [d];
    }
  }

  lemma CoveringKeeps(w: Workspace, before: Scan, s: Scan, d: Path, pushed: seq<Path>, popped: set<Path>)
    requires Covers(w, before.(stack := before.stack + [d]), popped) && GoesOn(before, s)
    requires s.stack == before.stack + pushed
    requires forall p :: p in Entries(w.fs, d) ==> IsRecorded(w, s, p) && (w.fs[p].Dir? ==> p in pushed)
    ensures Covers(w, s, popped + {d})
  {
    forall p | p in w.fs && p != [] && ParentOf(p) in popped + {d}
      ensures IsRecorded(w, s, p) && (w.fs[p].Dir? ==> p in popped + {d} || p in s.stack)
    {
      if ParentOf(p) == d {
        assert p in Entries(w.fs, d);
      } else {
        assert IsRecorded(w, before.(stack := before.stack + [d]), p);
        StaysRecorded(w, before, s, p);
      }
    }
  }

  /** A walk that reached every folder from the top has reached them all. */
  lemma {:induction false} AllPopped(w: Workspace, s: Scan, popped: set<Path>, p: Path)
    requires WellFormed(w.fs) && Covers(w, s, popped) && s.stack == [] && IsFolder(w.fs, p)
    ensures p in popped
    decreases |p|
  {
    if p != [] {
      var parent := ParentOf(p);
      assert parent != [] ==> parent in w.fs && w.fs[parent] == Dir;
      AllPopped(w, s, popped, parent);
    }
  }

  lemma AllRecorded(w: Workspace, s: Scan, popped: set<Path>, p: Path)
    requires WellFormed(w.fs) && Covers(w, s, popped) && s.stack == [] && p in w.fs
    ensures IsRecorded(w, s, p)
  {
    var parent := ParentOf(p);
    assert parent != [] ==> parent in w.fs && w.fs[parent] == Dir;
    AllPopped(w, s, popped, parent);
  }

  datatype Report = Report(changes: seq<Change>, removed: map<Path, int>, warnings: set<Warning>)

  function Started(): Scan { Scan([], {}, {}, 0, 0, [[]], false, false, []) }

  /** What the walk keeps: nothing false is recorded, and unless it was cut short all of `popped` is covered. */
  ghost predicate Walking(w: Workspace, s: Scan, popped: set<Path>) {
    && IsSound(w, s) && StackOK(w.fs, s.stack, popped) && (!s.truncated ==> Covers(w, s, popped))
    && Judged(w, s) && SeenOK(w, s, popped)
  }

  /** What was looked at lies in folders taken off the stack, which could all be listed unless the scan was cut. */
  ghost predicate SeenOK(w: Workspace, s: Scan, popped: set<Path>) {
    && NoRepeats(s.seen) && (forall p :: p in s.seen ==> p != [] && ParentOf(p) in popped)
    && (!s.truncated ==> forall d :: d in popped ==> w.listable(d))
  }

  lemma EntryParent(fs: Tree, d: Path, p: Path)
    requires p != []
    ensures p in Entries(fs, d) ==> ParentOf(p) == d
  {
  }

  lemma TopIsNew(w: Workspace, rest: seq<Path>, d: Path, popped: set<Path>, s: Scan)
    requires StackOK(w.fs, rest + [d], popped) && SeenOK(w, s, popped)
    ensures IsNew(w, s.seen, d) && IsFolder(w.fs, d)
  {
    assert (rest + [d])[|rest|] == d;
    forall p | p in s.seen ensures p !in Entries(w.fs, d) {
      EntryParent(w.fs, d, p);
    }
  }

  lemma SeeingKeeps(w: Workspace, before: Scan, s: Scan, d: Path, popped: set<Path>)
    requires SeenOK(w, before, popped) && LooksOnce(w, before.seen, s.seen, d, {}) && GoesOn(before, s)
    requires !s.truncated ==> w.listable(d)
    ensures SeenOK(w, s, popped + {d})
  {
    forall p | p in s.seen ensures p != [] && ParentOf(p) in popped + {d} {
      assert p != [];
      EntryParent(w.fs, d, p);
    }
  }

  function FoldersOf(fs: Tree): set<Path> { {[]} + set d | d in fs && fs[d].Dir? }

  lemma TopIsFolder(fs: Tree, stack: seq<Path>, popped: set<Path>)
    requires stack != [] && StackOK(fs, stack, popped)
    ensures stack[|stack| - 1] in FoldersOf(fs) && stack[|stack| - 1] !in popped
  {
    assert stack[|stack| - 1] in stack;
  }

  function Popped(s: Scan): Scan
    requires s.stack != []
  {
    s.(stack := s.stack[..|s.stack| - 1])
  }

  lemma PoppingStarts(w: Workspace, s: Scan, popped: set<Path>)
    requires s.stack != [] && Walking(w, s, popped)
    ensures var d := s.stack[|s.stack| - 1]; (
      && IsSound(w, Popped(s)) && Judged(w, Popped(s)) && IsNew(w, Popped(s).seen, d) && IsFolder(w.fs, d)
      && Popped(s).(stack := Popped(s).stack + [d]) == s)
  {
    var d := s.stack[|s.stack| - 1];
    assert s.stack == Popped(s).stack + [d];
    TopIsNew(w, Popped(s).stack, d, popped, s);
  }

  /** One step of the walk: the folder found last is taken off the stack and its entries are looked at. */
  method ScanNext(w: Workspace, s: Scan, ghost popped: set<Path>) returns (next: Scan)
    requires WellFormed(w.fs) && s.stack != [] && Walking(w, s, popped)
    requires s.visited == |s.seen| <= MaxArtifactEntries
    ensures Walking(w, next, popped + {s.stack[|s.stack| - 1]})
    ensures next.visited == |next.seen| <= MaxArtifactEntries
            || (next.truncated && next.visited > MaxArtifactEntries)
    ensures next.full ==> s.full || |next.warnings| >= MaxWarnings
  {
    var d := s.stack[|s.stack| - 1];
    PoppingStarts(w, s, popped);
    ghost var pushed;
    next, pushed := ScanFolder(w, s.(stack := s.stack[..|s.stack| - 1]), d);
    WalkGoesOn(w, Popped(s), next, d, pushed, popped);
  }

  lemma WalkGoesOn(w: Workspace, before: Scan, s: Scan, d: Path, pushed: seq<Path>, popped: set<Path>)
    requires WellFormed(w.fs) && Walking(w, before.(stack := before.stack + [d]), popped)
    requires LookedAt(w, before, s, d, {}, pushed) && Judging(w, before, s, d, {})
    requires !s.truncated ==> w.listable(d)
    ensures Walking(w, s, popped + {d})
  {
    SeeingKeeps(w, before, s, d, popped);
    PoppingKeeps(w, d, pushed, popped, before.stack);
    if !s.truncated {
      CoveringKeeps(w, before, s, d, pushed, popped);
    }
  }

  lemma OneLess(all: set<Path>, popped: set<Path>, d: Path)
    requires d in all - popped
    ensures |all - (popped + {d})| < |all - popped|
  {
    assert all - (popped + {d}) == all - popped - {d};
  }

  lemma OneFolderLess(w: Workspace, s: Scan, popped: set<Path>)
    requires s.stack != [] && Walking(w, s, popped)
    ensures |FoldersOf(w.fs) - (popped + {s.stack[|s.stack| - 1]})| < |FoldersOf(w.fs) - popped|
  {
    TopIsFolder(w.fs, s.stack, popped);
    OneLess(FoldersOf(w.fs), popped, s.stack[|s.stack| - 1]);
  }

  lemma StartsWalking(w: Workspace)
    ensures Walking(w, Started(), {})
  {
  }

  /**
   The walk over all folders. The exit on the number of warnings is never taken: it alone would end the walk without
   marking it as cut short.
   */
  method ScanAll(w: Workspace) returns (s: Scan)
    requires WellFormed(w.fs)
    ensures IsSound(w, s) && !s.full
    ensures !s.truncated ==> forall p :: p in w.fs ==> IsRecorded(w, s, p)
    ensures Reports(w, s.changes, Taken(w, s.seen))
    ensures s.warnings == {} && !s.truncated <==> IsClean(w) && AllFit(w, s.seen)
    ensures !s.truncated <==> CanBeScanned(w)
    ensures CanBeScanned(w) ==> IsListing(w.fs, s.seen)
  {
    s := Started();
    ghost var popped: set<Path> := {};
    StartsWalking(w);
    while s.stack != []
      invariant Walking(w, s, popped) && s.visited == |s.seen| <= MaxArtifactEntries && !s.full
      decreases |FoldersOf(w.fs) - popped|
    {
      ghost var d := s.stack[|s.stack| - 1];
      OneFolderLess(w, s, popped);
      s := ScanNext(w, s, popped);
      popped := popped + {d};
      WarningsAreFew(s.warnings);
      if s.visited > MaxArtifactEntries || |s.warnings| >= MaxWarnings {
        return;
      }
    }
    if !s.truncated {
      EverythingRecorded(w, s, popped);
      EverythingListed(w, s, popped);
    }
  }

  /** The entries of the tree, each once. */
  ghost predicate IsListing(fs: Tree, order: seq<Path>) { NoRepeats(order) && Elements(order) == fs.Keys }

  /** A walk that came to its end has looked at everything; without warnings the workspace is clean. */
  lemma EverythingListed(w: Workspace, s: Scan, popped: set<Path>)
    requires WellFormed(w.fs) && Walking(w, s, popped) && !s.truncated && s.stack == [] && s.visited == |s.seen|
    requires s.visited <= MaxArtifactEntries
    ensures IsListing(w.fs, s.seen) && CanBeScanned(w) && (s.warnings == {} ==> IsClean(w))
  {
    EverythingRecorded(w, s, popped);
    assert Elements(s.seen) == w.fs.Keys by {
      forall p | p in w.fs ensures p in Elements(s.seen) {
        assert IsRecorded(w, s, p);
      }
    }
    NoRepeatsSize(s.seen);
    forall d | IsFolder(w.fs, d) ensures d in popped {
      AllPopped(w, s, popped, d);
    }
    forall p | p in w.fs ensures p in s.seen {
      assert IsRecorded(w, s, p);
    }
  }

  lemma EverythingRecorded(w: Workspace, s: Scan, popped: set<Path>)
    requires WellFormed(w.fs) && Walking(w, s, popped) && !s.truncated && s.stack == []
    ensures forall p :: p in w.fs ==> IsRecorded(w, s, p)
  {
    forall p | p in w.fs ensures IsRecorded(w, s, p) {
      AllRecorded(w, s, popped, p);
    }
  }

  /** What the report of a complete scan without warnings says. */
  ghost predicate IsReport(w: Workspace, r: Report) {
    && (forall i :: 0 <= i < |r.changes| ==> IsSoundChange(w, r.changes[i]))
    && (forall p :: p in w.baseline ==> (p in r.removed <==> IsGone(w, p)))
    && (forall p :: p in w.fs && !w.fs[p].Dir? ==> (
          w.fs[p].File? && (IsUnchanged(w, p, w.fs[p].bytes) || HasChange(r.changes, p, w.fs[p].bytes))))
  }

  /** No file is there: nothing, a folder, or a link. */
  predicate IsGone(w: Workspace, p: Path) { p in w.fs ==> w.fs[p].Dir? || w.fs[p].Link? }

  // ----- When everything fits -----

  function ChangedIn(w: Workspace, seen: seq<Path>): seq<Path> {
    if seen == [] then [] else
      ChangedIn(w, seen[..|seen| - 1]) + if IsChanged(w, seen[|seen| - 1]) then [seen[|seen| - 1]] else []
  }

  lemma ChangedNext(w: Workspace, seen: seq<Path>, p: Path)
    ensures ChangedIn(w, seen + [p]) == if IsChanged(w, p) then ChangedIn(w, seen) + [p] else ChangedIn(w, seen)
  {
    assert (seen + [p])[..|seen|] == seen;
  }

  predicate WithinLimits(w: Workspace, files: seq<Path>) {
    |files| <= MaxArtifactFiles && TotalSize(w, files) <= MaxSnapshotBytes
  }

  predicate IsLargeUnchanged(w: Workspace, p: Path) { IsMeasured(w, p) && !IsChanged(w, p) }

  predicate FitsTogether(w: Workspace, seen: seq<Path>) {
    && (AllFit(w, seen) <==> WithinLimits(w, ChangedIn(w, seen)))
    && (AllFit(w, seen) ==> Taken(w, seen) == ChangedIn(w, seen))
  }

  lemma FitOneMore(w: Workspace, seen: seq<Path>, p: Path)
    requires FitsTogether(w, seen) && IsFine(w, p) && !IsLargeUnchanged(w, p)
    ensures FitsTogether(w, seen + [p])
  {
    ChangedNext(w, seen, p);
    FitNext(w, seen, p);
    TakenNext(w, seen, p);
    TotalNext(w, ChangedIn(w, seen), p);
  }

  /** Where no large file is unchanged, everything fits exactly when the changed files are within the limits. */
  lemma {:induction false} FitTogether(w: Workspace, seen: seq<Path>)
    requires AllFine(w, seen) && forall p :: p in seen ==> !IsLargeUnchanged(w, p)
    ensures FitsTogether(w, seen)
  {
    if seen != [] {
      var rest, p := seen[..|seen| - 1], seen[|seen| - 1];
      assert seen == rest + [p];
      FitTogether(w, rest);
      FitOneMore(w, rest, p);
    }
  }

  ghost function SizeOfAll(w: Workspace, files: set<Path>): nat {
    if files == {} then 0 else
      var p :| p in files;
      SizeAt(w, p) + SizeOfAll(w, files - {p})
  }

  lemma {:induction false} SizeWithout(w: Workspace, files: set<Path>, p: Path)
    requires p in files
    ensures SizeOfAll(w, files) == SizeAt(w, p) + SizeOfAll(w, files - {p})
    decreases files
  {
    var q :| q in files && SizeOfAll(w, files) == SizeAt(w, q) + SizeOfAll(w, files - {q});
    if q != p {
      SizeWithout(w, files - {q}, p);
      SizeWithout(w, files - {p}, q);
      assert files - {q} - {p} == files - {p} - {q};
    }
  }

  lemma {:induction false} TotalIsSize(w: Workspace, files: seq<Path>)
    requires NoRepeats(files)
    ensures TotalSize(w, files) == SizeOfAll(w, Elements(files))
  {
    if files != [] {
      var rest, last := files[..|files| - 1], files[|files| - 1];
      TotalIsSize(w, rest);
      assert files == rest + [last];
      NoRepeatsSplit(rest, last);
      SizeWithout(w, Elements(files), last);
      assert Elements(files) - {last} == Elements(rest);
    } else {
      assert Elements(files) == {};
    }
  }

  lemma {:induction false} ChangedInIsChanged(w: Workspace, seen: seq<Path>)
    requires NoRepeats(seen)
    ensures NoRepeats(ChangedIn(w, seen))
    ensures Elements(ChangedIn(w, seen)) == set p | p in seen && IsChanged(w, p)
  {
    if seen != [] {
      var rest, last := seen[..|seen| - 1], seen[|seen| - 1];
      ChangedInIsChanged(w, rest);
      assert seen == rest + [last];
      ChangedNext(w, rest, last);
      NoRepeatsSplit(rest, last);
      assert last !in Elements(ChangedIn(w, rest));
      NoRepeatsConcat(ChangedIn(w, rest), [last]);
      forall p ensures p in Elements(ChangedIn(w, seen)) <==> p in seen && IsChanged(w, p) {
        assert p in Elements(ChangedIn(w, rest)) <==> p in rest && IsChanged(w, p);
      }
    }
  }

  function ChangedFiles(w: Workspace): set<Path> { set p | p in w.fs && IsChanged(w, p) }

  /** The changed files of the workspace can all be reported. */
  ghost predicate CanBeReported(w: Workspace) {
    |ChangedFiles(w)| <= MaxArtifactFiles && SizeOfAll(w, ChangedFiles(w)) <= MaxSnapshotBytes
  }

  /** In which order the entries come then makes no difference. */
  lemma FitInAnyOrder(w: Workspace, order: seq<Path>)
    requires IsClean(w) && IsListing(w.fs, order) && forall p :: p in w.fs ==> !IsLargeUnchanged(w, p)
    ensures AllFit(w, order) <==> CanBeReported(w)
  {
    forall p | p in order ensures p in w.fs {
      assert p in Elements(order);
    }
    FitTogether(w, order);
    ChangedInIsChanged(w, order);
    var changed := ChangedIn(w, order);
    assert Elements(changed) == ChangedFiles(w) by {
      forall p | p in w.fs ensures p in order {
        assert p in Elements(order);
      }
    }
    NoRepeatsSize(changed);
    TotalIsSize(w, changed);
  }

  /**
   With a large file that did not change the order decides: it is held against the limits too, but only against what
   is reported before it.
   */
  lemma OrderDecides(w: Workspace, changed: Path, large: Path)
    requires IsFine(w, changed) && IsChanged(w, changed) && IsLargeUnchanged(w, large) && IsFine(w, large)
    requires SizeAt(w, changed) + SizeAt(w, large) > MaxSnapshotBytes
    ensures AllFit(w, [large, changed]) && !AllFit(w, [changed, large])
  {
    var none: seq<Path> := [];
    FitNext(w, none, large);
    FitNext(w, none, changed);
    TakenNext(w, none, large);
    TakenNext(w, none, changed);
    assert none + [large] == [large] && none + [changed] == [changed];
    TotalNext(w, none, changed);
    FitNext(w, [large], changed);
    FitNext(w, [changed], large);
    assert [large] + [changed] == [large, changed] && [changed] + [large] == [changed, large];
  }

  /**
   The whole report. Nothing that is still there is ever reported as removed, also when the scan was cut short.
   `order` is the order in which the entries were looked at.
   */
  method CollectChanges(w: Workspace) returns (r: Report, ghost order: seq<Path>)
    requires WellFormed(w.fs)
    ensures Reports(w, r.changes, Taken(w, order))
    ensures r.warnings == {} <==> IsClean(w) && AllFit(w, order)
    ensures Truncated !in r.warnings <==> CanBeScanned(w)
    ensures CanBeScanned(w) ==> IsListing(w.fs, order)
    ensures (forall p :: p in w.fs ==> !IsLargeUnchanged(w, p)) ==> (
              r.warnings == {} <==> IsClean(w) && CanBeReported(w))
    ensures forall p :: p in r.removed <==> CanBeScanned(w) && p in w.baseline && IsGone(w, p)
    ensures forall p :: p in r.removed ==> p in w.baseline && r.removed[p] == w.baseline[p].version
    ensures r.warnings == {} ==> IsReport(w, r)
  {
    var s := ScanAll(w);
    var warnings := if s.truncated then s.warnings + {Truncated} else s.warnings;
    var removed := map p | p in w.baseline && !s.truncated && p !in s.present :: w.baseline[p].version;
    r := Report(s.changes, removed, warnings);
    order := s.seen;
    if IsClean(w) && forall p :: p in w.fs ==> !IsLargeUnchanged(w, p) {
      FitInAnyOrder(w, order);
    }
    if !s.truncated {
      forall p | p in w.fs ensures p in s.present <==> !IsGone(w, p) {
        assert IsRecorded(w, s, p);
      }
    }
  }

  // ----- Main result -----

  /** The digests of the files that hold after the report is applied to the baseline. */
  function Applied(w: Workspace, r: Report): map<Path, Digest> {
    map p | p in ChangedPaths(r.changes) + (w.baseline.Keys - r.removed.Keys)
      :: if p in ChangedPaths(r.changes) then w.hash(LastContent(r.changes, p)) else w.baseline[p].digest
  }

  function ChangedPaths(changes: seq<Change>): set<Path> { set i | 0 <= i < |changes| :: changes[i].path }

  function LastContent(changes: seq<Change>, p: Path): seq<Byte>
    requires p in ChangedPaths(changes)
  {
    if changes[|changes| - 1].path == p then changes[|changes| - 1].content
    else
      assert p in ChangedPaths(changes[..|changes| - 1]) by {
        var i :| 0 <= i < |changes| && changes[i].path == p;
        assert changes[..|changes| - 1][i] == changes[i];
      }
      LastContent(changes[..|changes| - 1], p)
  }

  lemma {:induction false} LastContentIsFile(w: Workspace, changes: seq<Change>, p: Path)
    requires p in ChangedPaths(changes) && forall i :: 0 <= i < |changes| ==> IsSoundChange(w, changes[i])
    ensures p in w.fs && w.fs[p] == File(LastContent(changes, p))
  {
    if changes[|changes| - 1].path != p {
      assert p in ChangedPaths(changes[..|changes| - 1]) by {
        var i :| 0 <= i < |changes| && changes[i].path == p;
        assert changes[..|changes| - 1][i] == changes[i];
      }
      LastContentIsFile(w, changes[..|changes| - 1], p);
    } else {
      assert IsSoundChange(w, changes[|changes| - 1]);
    }
  }

  /** The digests of the regular files of the workspace. */
  function Contents(w: Workspace): map<Path, Digest> { map p | p in w.fs && w.fs[p].File? :: w.hash(w.fs[p].bytes) }

  /** A report without warnings, applied to the baseline, gives exactly the regular files of the workspace. */
  lemma ReportGivesWorkspace(w: Workspace, r: Report)
    requires IsReport(w, r)
    ensures Applied(w, r) == Contents(w)
  {
    forall p | p in ChangedPaths(r.changes) ensures p in w.fs && w.fs[p] == File(LastContent(r.changes, p)) {
      LastContentIsFile(w, r.changes, p);
    }
    forall p ensures p in Applied(w, r) <==> p in Contents(w) {
      if p in Contents(w) && HasChange(r.changes, p, w.fs[p].bytes) {
        var i :| 0 <= i < |r.changes| && r.changes[i].path == p && r.changes[i].content == w.fs[p].bytes;
        assert p in ChangedPaths(r.changes);
      }
    }
    forall p | p in Applied(w, r) && p !in ChangedPaths(r.changes) ensures Applied(w, r)[p] == Contents(w)[p] {
      assert !HasChange(r.changes, p, w.fs[p].bytes);
    }
  }
}
