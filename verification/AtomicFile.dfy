/**
 The atomic text writer and its preflight, over a file system that may crash between any
 two of its operations.

 A path names a directory entry; `fold` says which names the file system takes for the
 same entry (case, normalization). An entry is a file by its inode, a symbolic link, or a
 directory. The disk keeps a trace of every state that a crash could leave behind.
 */
module AtomicFile {
  import opened Calls

  type Key(==, !new)
  type Dir(==, !new)

  /**
   A character that a path can hold: a Unicode scalar value, or a byte that is not valid UTF-8,
   which is kept as a lone surrogate.
   */
  type Code = c: int | 0 <= c < 0xD800 || 0xDC80 <= c <= 0xDCFF || 0xE000 <= c < 0x110000 witness 0

  type Name = seq<Code>

  datatype Path = Path(dir: Dir, base: Name)

  datatype Node = File(ino: nat) | Link(target: Path) | Directory

  datatype Inode = Inode(content: string, mode: nat)

  /** What the writer does not change: naming, permissions, and which directories can be made. */
  datatype World = World(
    fold: Path -> Key,
    lineage: Dir -> set<Dir>,  // a directory and its ancestors
    unmakable: set<Dir>,       // directories that cannot be created
    locked: set<Dir>,          // directories in which no entry can be created
    root: bool,
    freshMode: nat)            // the mode a new file gets under the umask

  datatype Fs = Fs(entries: map<Key, Node>, inodes: map<nat, Inode>, dirs: set<Dir>)

  function At(w: World, fs: Fs, p: Path): Node
    requires w.fold(p) in fs.entries
  {
    fs.entries[w.fold(p)]
  }

  predicate IsLink(w: World, fs: Fs, p: Path) {
    w.fold(p) in fs.entries && At(w, fs, p).Link?
  }

  /** Following links, dangling or not, until something else or a link seen before. */
  function RealPath(w: World, fs: Fs, p: Path, seen: set<Key>): Path
    decreases fs.entries.Keys - seen
  {
    if IsLink(w, fs, p) && w.fold(p) !in seen
    then RealPath(w, fs, At(w, fs, p).target, seen + {w.fold(p)})
    else p
  }

  function Resolve(w: World, fs: Fs, p: Path): Path {
    RealPath(w, fs, p, {})
  }

  datatype Stat = NotFound | Loop | IsDir | IsFile(ino: nat)

  function StatOf(w: World, fs: Fs, p: Path): Stat {
    var r := Resolve(w, fs, p);
    if w.fold(r) !in fs.entries then NotFound
    else match At(w, fs, r)
         case File(ino) => IsFile(ino)
         case Link(_) => Loop
         case Directory => IsDir
  }

  /** Each of these names but the last is a link to the next. */
  ghost predicate Hops(w: World, fs: Fs, hops: seq<Path>) {
    && hops != []
    && forall i :: 0 <= i < |hops| - 1 ==> IsLink(w, fs, hops[i]) && At(w, fs, hops[i]).target == hops[i + 1]
  }

  /** A way that ends visits no entry twice. */
  lemma {:induction false} HopsDiffer(w: World, fs: Fs, hops: seq<Path>, i: nat, j: nat)
    requires Hops(w, fs, hops) && !IsLink(w, fs, hops[|hops| - 1]) && i < j < |hops|
    ensures w.fold(hops[i]) != w.fold(hops[j])
    decreases |hops| - j
  {
    if j == |hops| - 1 {
    } else {
      HopsDiffer(w, fs, hops, i + 1, j + 1);
    }
  }

  lemma {:induction false} HopsFollowed(w: World, fs: Fs, hops: seq<Path>, i: nat, seen: set<Key>)
    requires Hops(w, fs, hops) && !IsLink(w, fs, hops[|hops| - 1]) && i < |hops|
    requires forall k :: k in seen ==> exists j :: 0 <= j < i && k == w.fold(hops[j])
    ensures RealPath(w, fs, hops[i], seen) == hops[|hops| - 1]
    decreases |hops| - i
  {
    if i == |hops| - 1 {
    } else {
      forall j | 0 <= j < i ensures w.fold(hops[j]) != w.fold(hops[i]) { HopsDiffer(w, fs, hops, j, i); }
      HopsFollowed(w, fs, hops, i + 1, seen + {w.fold(hops[i])});
    }
  }

  /** Links are followed to where they end, whether something is there or not. */
  lemma LinksAreFollowed(w: World, fs: Fs, hops: seq<Path>)
    requires Hops(w, fs, hops) && !IsLink(w, fs, hops[|hops| - 1])
    ensures Resolve(w, fs, hops[0]) == hops[|hops| - 1]
  {
    HopsFollowed(w, fs, hops, 0, {});
  }

  /** Links that lead only to each other. */
  ghost predicate Circle(w: World, fs: Fs, circle: set<Key>) {
    forall k :: k in circle ==> k in fs.entries && fs.entries[k].Link? && w.fold(fs.entries[k].target) in circle
  }

  /** Following links ends at a link only inside a circle. */
  lemma {:induction false} EndsInCircle(w: World, fs: Fs, p: Path, seen: set<Key>) returns (circle: set<Key>)
    requires forall k :: k in seen ==>
      k in fs.entries && fs.entries[k].Link?
      && (w.fold(fs.entries[k].target) in seen || w.fold(fs.entries[k].target) == w.fold(p))
    ensures var r := RealPath(w, fs, p, seen); IsLink(w, fs, r) ==> w.fold(r) in circle && Circle(w, fs, circle)
    decreases fs.entries.Keys - seen
  {
    if IsLink(w, fs, p) && w.fold(p) !in seen {
      circle := EndsInCircle(w, fs, At(w, fs, p).target, seen + {w.fold(p)});
    } else {
      circle := seen;
    }
  }

  lemma {:induction false} StaysInCircle(w: World, fs: Fs, p: Path, seen: set<Key>, circle: set<Key>)
    requires Circle(w, fs, circle) && w.fold(p) in circle
    ensures IsLink(w, fs, RealPath(w, fs, p, seen))
    decreases fs.entries.Keys - seen
  {
    if w.fold(p) !in seen { StaysInCircle(w, fs, At(w, fs, p).target, seen + {w.fold(p)}, circle); }
  }

  /** The owner's permission to write. */
  predicate WriteBit(mode: nat) { mode / 128 % 2 == 1 }

  /** The kernel would refuse to open an existing file for writing. */
  predicate Unwritable(w: World, fs: Fs, p: Path) {
    var st := StatOf(w, fs, p);
    st.Loop? || (st.IsFile? && st.ino in fs.inodes && !w.root && !WriteBit(fs.inodes[st.ino].mode))
  }

  lemma By128(mode: nat, quotient: nat, low: nat)
    requires mode == 128 * quotient + low && low < 128
    ensures WriteBit(mode) <==> quotient % 2 == 1
  {
  }

  lemma Parity(even: nat, half: nat)
    ensures (2 * even + half) % 2 == half % 2
  {
  }

  /** The owner's digit has the write bit in its middle. */
  lemma OwnerDigit(mode: nat, rest: nat, half: nat, low: nat)
    requires half < 4 && low < 128 && mode == 512 * rest + 128 * half + low
    ensures WriteBit(mode) <==> half == 1 || half == 3
  {
    By128(mode, 2 * (2 * rest) + half, low);
    Parity(2 * rest, half);
  }

  /**
   In the octal digits of a mode the owner's is the third from the right, so 0444 is refused and
   0644 is not, except that nothing is refused to root.
   */
  lemma ReadOnlyIsRefused(w: World, fs: Fs, p: Path, rest: nat, owner: nat, group: nat, other: nat)
    requires StatOf(w, fs, p).IsFile? && StatOf(w, fs, p).ino in fs.inodes
    requires owner < 8 && group < 8 && other < 8
    requires fs.inodes[StatOf(w, fs, p).ino].mode == 512 * rest + 64 * owner + 8 * group + other
    ensures Unwritable(w, fs, p) <==> !w.root && owner !in {2, 3, 6, 7}
  {
    var half := if owner < 2 then 0 else if owner < 4 then 1 else if owner < 6 then 2 else 3;
    OwnerDigit(fs.inodes[StatOf(w, fs, p).ino].mode, rest, half, 64 * (owner - 2 * half) + 8 * group + other);
  }

  /** A path that resolves to a link is refused: the links go round in a circle. */
  lemma ResolvedLinkIsRefused(w: World, fs: Fs, p: Path)
    ensures IsLink(w, fs, Resolve(w, fs, p)) ==> Unwritable(w, fs, Resolve(w, fs, p))
  {
    var r := Resolve(w, fs, p);
    if IsLink(w, fs, r) {
      var circle := EndsInCircle(w, fs, p, {});
      StaysInCircle(w, fs, r, {}, circle);
    }
  }

  ghost predicate WellFormed(fs: Fs) {
    forall k :: k in fs.entries && fs.entries[k].File? ==> fs.entries[k].ino in fs.inodes
  }

  /** A directory is one of its own lineage. */
  ghost predicate WellFounded(w: World) {
    forall d :: d in w.lineage(d)
  }

  predicate Makable(w: World, fs: Fs, d: Dir) {
    (w.lineage(d) - fs.dirs) * w.unmakable == {}
  }

  // ---------------------------------------------------------------------------------
  // The name of the temporary file
  // ---------------------------------------------------------------------------------

  const MAX_TEMP_BASE_BYTES: nat := 200
  const TEMP_ATTEMPTS: nat := 100

  /** The bytes of a character: UTF-8, and a byte that was kept as a lone surrogate is itself again. */
  function Utf8(c: Code): (bytes: seq<int>)
    ensures 1 <= |bytes| <= 4
  {
    if c < 0x80 then [c]
    else if 0xDC80 <= c <= 0xDCFF then [c - 0xDC00]
    else if c < 0x800 then [0xC0 + c / 64, 0x80 + c % 64]
    else if c < 0x10000 then [0xE0 + c / 4096, 0x80 + c / 64 % 64, 0x80 + c % 64]
    else [0xF0 + c / 262144, 0x80 + c / 4096 % 64, 0x80 + c / 64 % 64, 0x80 + c % 64]
  }

  /** What a lead byte says of the length; a byte on its own is no lead byte. */
  predicate LeadsWith(lead: int, length: nat) {
    match length
    case 1 => 0 <= lead < 0x100
    case 2 => 0xC2 <= lead < 0xE0
    case 3 => 0xE0 <= lead < 0xF0
    case 4 => 0xF0 <= lead < 0xF5
    case _ => false
  }

  /** The character that the bytes stand for. */
  function FromUtf8(bytes: seq<int>): int {
    if |bytes| == 1 then (if bytes[0] < 0x80 then bytes[0] else 0xDC00 + bytes[0])
    else if |bytes| == 2 then (bytes[0] - 0xC0) * 64 + bytes[1] - 0x80
    else if |bytes| == 3 then (bytes[0] - 0xE0) * 4096 + (bytes[1] - 0x80) * 64 + bytes[2] - 0x80
    else if |bytes| == 4 then
      (bytes[0] - 0xF0) * 262144 + (bytes[1] - 0x80) * 4096 + (bytes[2] - 0x80) * 64 + bytes[3] - 0x80
    else 0
  }

  /** They are bytes of the right shape, and can be read back. */
  lemma Utf8RoundTrip(c: Code)
    ensures FromUtf8(Utf8(c)) == c && LeadsWith(Utf8(c)[0], |Utf8(c)|)
    ensures forall k :: 1 <= k < |Utf8(c)| ==> 0x80 <= Utf8(c)[k] < 0xC0
  {
    assert c / 4096 == c / 64 / 64 && c / 262144 == c / 4096 / 64;
  }

  /** The bytes that the file system sees. */
  function FsEncode(s: Name): seq<int> {
    if s == [] then [] else FsEncode(s[..|s| - 1]) + Utf8(s[|s| - 1])
  }

  function NameBytes(s: Name): nat { |FsEncode(s)| }

  lemma {:induction false} PrefixBytes(s: Name, n: nat)
    requires n <= |s|
    ensures NameBytes(s[..n]) <= NameBytes(s)
  {
    if n < |s| {
      PrefixBytes(s[..|s| - 1], n);
      assert s[..|s| - 1][..n] == s[..n];
    } else {
      assert s[..n] == s;
    }
  }

  /** The longest prefix that fits the budget; a character is never split. */
  ghost predicate Capped(base: Name, out: Name) {
    && out <= base && NameBytes(out) <= 200
    && forall n :: |out| < n <= |base| ==> NameBytes(base[..n]) > 200
  }

  method CapBaseForTemp(base: Name) returns (out: Name)
    ensures Capped(base, out)
    ensures NameBytes(base) <= 200 <==> out == base
  {
    out := base;
    while out != [] && NameBytes(out) > MAX_TEMP_BASE_BYTES
      invariant out <= base
      invariant forall n :: |out| < n <= |base| ==> NameBytes(base[..n]) > MAX_TEMP_BASE_BYTES
      invariant NameBytes(base) <= MAX_TEMP_BASE_BYTES ==> out == base
    {
      assert base[..|out|] == out;
      out := out[..|out| - 1];
    }
    assert base[..|base|] == base;
  }

  const DOT: Code := 0x2E
  const TMP: Name := [0x74, 0x6D, 0x70]

  function TempName(capped: Name, token: Name): Name {
    [DOT] + capped + [DOT] + token + [DOT] + TMP
  }

  lemma {:induction false} JoinedBytes(a: Name, b: Name)
    ensures NameBytes(a + b) == NameBytes(a) + NameBytes(b)
    decreases |b|
  {
    if b == [] {
      assert a + b == a;
    } else {
      var n := |b| - 1;
      JoinedBytes(a, b[..n]);
      assert (a + b)[..|a + b| - 1] == a + b[..n];
    }
  }

  ghost predicate Ascii(s: Name) { forall i :: 0 <= i < |s| ==> s[i] < 0x80 }

  lemma {:induction false} AsciiBytes(s: Name)
    requires Ascii(s)
    ensures NameBytes(s) == |s|
  {
    if s == [] {
    } else {
      AsciiBytes(s[..|s| - 1]);
    }
  }

  /** With the eight hexadecimal digits that are drawn, every temporary name is one a file system takes. */
  lemma TempNameFits(base: Name, capped: Name, token: Name)
    requires Capped(base, capped) && |token| == 8 && Ascii(token)
    ensures NameBytes(TempName(capped, token)) == NameBytes(capped) + 14 <= 255
  {
    var tail := [DOT] + token + [DOT] + TMP;
    assert TempName(capped, token) == [DOT] + (capped + tail);
    JoinedBytes([DOT], capped + tail);
    JoinedBytes(capped, tail);
    AsciiBytes([DOT]);
    AsciiBytes(tail);
  }

  /** A name within the budget is shorter than every temporary name made from it. */
  lemma TempNameDiffers(base: Name, capped: Name, token: Name)
    requires Capped(base, capped) && NameBytes(base) <= 200
    ensures TempName(capped, token) != base
  {
    assert base[..|base|] == base;
    assert capped == base;
  }

  /**
   A longer name can collide with its temporary name only if it begins with as many dots
   as the budget leaves characters, and one more.
   */
  lemma CollisionNeedsDots(base: Name, capped: Name, token: Name, i: nat)
    requires Capped(base, capped) && TempName(capped, token) == base && i <= |capped|
    ensures base[i] == DOT
    decreases i
  {
    if i > 0 {
      CollisionNeedsDots(base, capped, token, i - 1);
      assert base[i] == ([DOT] + capped)[i] == capped[i - 1] == base[i - 1];
    }
  }

  ghost predicate InjectiveIn(w: World, d: Dir) {
    forall a: Name, b: Name :: w.fold(Path(d, a)) == w.fold(Path(d, b)) ==> a == b
  }

  /**
   The target cannot be taken for a temporary file: it exists, or its name is within the
   budget and its directory tells all names apart.
   */
  ghost predicate StandsApart(w: World, fs: Fs, path: Path) {
    var target := Resolve(w, fs, path);
    || w.fold(target) in fs.entries
    || (NameBytes(target.base) <= 200 && InjectiveIn(w, target.dir))
  }

  /** Then no temporary file, which is always a new entry, is the target's entry. */
  lemma TempIsAnother(w: World, fs: Fs, path: Path, capped: Name, token: Name)
    requires Capped(Resolve(w, fs, path).base, capped) && StandsApart(w, fs, path)
    requires w.fold(Path(Resolve(w, fs, path).dir, TempName(capped, token))) !in fs.entries
    ensures w.fold(Path(Resolve(w, fs, path).dir, TempName(capped, token))) != w.fold(Resolve(w, fs, path))
  {
    var target := Resolve(w, fs, path);
    if w.fold(target) !in fs.entries {
      TempNameDiffers(target.base, capped, token);
      assert target == Path(target.dir, target.base);
    }
  }

  // ---------------------------------------------------------------------------------
  // What holds after a crash
  // ---------------------------------------------------------------------------------

  function ContentAt(fs: Fs, k: Key): (c: string)
    requires k in fs.entries && fs.entries[k].File? && fs.entries[k].ino in fs.inodes
  {
    fs.inodes[fs.entries[k].ino].content
  }

  /** The mode that a new file at the entry is due: that of the file it replaces, if there is one. */
  function DueMode(w: World, was: Fs, k: Key): nat {
    if k in was.entries && was.entries[k].File? && was.entries[k].ino in was.inodes
    then was.inodes[was.entries[k].ino].mode
    else w.freshMode
  }

  /** The entry is as it was, or it is a file with exactly the new text and the mode it is due. */
  ghost predicate OldOrNew(w: World, was: Fs, now: Fs, k: Key, text: string) {
    || (k in was.entries && k in now.entries && now.entries[k] == was.entries[k])
    || (k !in was.entries && k !in now.entries)
    || (&& k in now.entries && now.entries[k].File? && now.entries[k].ino in now.inodes
        && now.inodes[now.entries[k].ino] == Inode(text, DueMode(w, was, k)))
  }

  /** Nothing else changed: no other entry but the temporary one, and no file that existed. */
  ghost predicate OthersKept(was: Fs, now: Fs, k: Key, temp: set<Key>) {
    && (forall q :: q != k && q !in temp ==> (q in now.entries <==> q in was.entries))
    && (forall q :: q != k && q !in temp && q in was.entries ==> now.entries[q] == was.entries[q])
    && (forall i :: i in was.inodes ==> i in now.inodes && now.inodes[i] == was.inodes[i])
    && was.dirs <= now.dirs
  }

  ghost predicate CrashSafe(w: World, was: Fs, now: Fs, k: Key, temp: set<Key>, text: string) {
    OldOrNew(w, was, now, k, text) && OthersKept(was, now, k, temp)
  }

  /** While the temporary file is being written: it is the only difference. */
  function Draft(was: Fs, temp: Key, ino: nat, content: string, mode: nat): Fs {
    Fs(was.entries[temp := File(ino)], was.inodes[ino := Inode(content, mode)], was.dirs)
  }

  lemma DraftIsSafe(
    w: World, was: Fs, made: Fs, k: Key, temp: Key, ino: nat, content: string, mode: nat, text: string)
    requires made.entries == was.entries && made.inodes == was.inodes && was.dirs <= made.dirs
    requires temp !in was.entries && ino !in was.inodes && temp != k
    ensures CrashSafe(w, was, Draft(made, temp, ino, content, mode), k, {temp}, text)
  {
  }

  /** Some failure of the disk during the write, and how the random part of the name comes out. */
  datatype Luck = Luck(token: nat -> Name, fails: nat -> bool)

  /** None of the operations on the temporary file fails. */
  ghost predicate NoFaults(luck: Luck, text: string) {
    forall i: nat :: i <= |text| + 3 ==> !luck.fails(i)
  }

  datatype Outcome = Written | Refused | Failed

  /** A candidate among the attempts is free. */
  ghost predicate SomeNameFree(w: World, fs: Fs, target: Path, capped: Name, luck: Luck) {
    exists a: nat :: a < 100 && w.fold(Path(target.dir, TempName(capped, luck.token(a)))) !in fs.entries
  }

  /** The target cannot be written, or its parent directories cannot be made: nothing has been done then. */
  predicate StopsBeforeDirs(w: World, fs: Fs, target: Path) {
    Unwritable(w, fs, target) || !Makable(w, fs, target.dir)
  }

  /** What both the preflight and the writer need before they can create their temporary file. */
  ghost predicate GetsToTemp(w: World, fs: Fs, path: Path, capped: Name, luck: Luck) {
    var target := Resolve(w, fs, path);
    && !Unwritable(w, fs, target) && Makable(w, fs, target.dir) && target.dir !in w.locked
    && SomeNameFree(w, fs, target, capped, luck)
  }

  ghost predicate CappedFor(w: World, fs: Fs, path: Path, capped: Name) {
    Capped(Resolve(w, fs, path).base, capped)
  }

  lemma {:induction false} OneCap(base: Name, a: Name, b: Name)
    requires Capped(base, a) && Capped(base, b)
    ensures a == b
  {
    assert base[..|a|] == a && base[..|b|] == b;
  }

  function Renamed(w: World, fs: Fs, from: Path, to: Path): Fs
    requires w.fold(from) in fs.entries
  {
    var moved := fs.entries[w.fold(to) := fs.entries[w.fold(from)]];
    fs.(entries := if w.fold(from) == w.fold(to) then moved else moved - {w.fold(from)})
  }

  /** After the rename the target's entry is the only difference. */
  lemma RenamedIsSafe(w: World, was: Fs, made: Fs, p: Path, target: Path, ino: nat, text: string, mode: nat)
    requires made.entries == was.entries && made.inodes == was.inodes && was.dirs <= made.dirs
    requires w.fold(p) !in was.entries && ino !in was.inodes && mode == DueMode(w, was, w.fold(target))
    ensures var now := Renamed(w, Draft(made, w.fold(p), ino, text, mode), p, target);
            && now.entries == was.entries[w.fold(target) := File(ino)]
            && now.inodes == was.inodes[ino := Inode(text, mode)]
            && (w.fold(p) != w.fold(target) ==> CrashSafe(w, was, now, w.fold(target), {w.fold(p)}, text))
  {
  }

  /** Removing the temporary file restores every entry. */
  lemma UnlinkedIsSafe(
    w: World, was: Fs, made: Fs, k: Key, temp: Key, ino: nat, content: string, mode: nat, text: string)
    requires made.entries == was.entries && made.inodes == was.inodes && was.dirs <= made.dirs
    requires temp !in was.entries && ino !in was.inodes
    ensures var draft := Draft(made, temp, ino, content, mode);
            var now := draft.(entries := draft.entries - {temp});
            now.entries == was.entries && (temp != k ==> CrashSafe(w, was, now, k, {temp}, text))
  {
  }

  // ---------------------------------------------------------------------------------
  // The disk
  // ---------------------------------------------------------------------------------

  /** The file system's own alias relation: one entry, or two entries of one inode. */
  ghost predicate NameOneFile(w: World, fs: Fs, a: Path, b: Path) {
    var ra, rb := Resolve(w, fs, a), Resolve(w, fs, b);
    || w.fold(ra) == w.fold(rb)
    || (w.fold(ra) in fs.entries && w.fold(rb) in fs.entries
        && At(w, fs, ra).File? && At(w, fs, ra) == At(w, fs, rb))
  }

  /** A resolved path resolves to itself, unless it is in a circle of links. */
  lemma ResolveTwice(w: World, fs: Fs, p: Path)
    ensures var r := Resolve(w, fs, p);
            if IsLink(w, fs, r) then StatOf(w, fs, r).Loop? else Resolve(w, fs, r) == r
  {
    ResolvedLinkIsRefused(w, fs, p);
    var r := Resolve(w, fs, p);
    if IsLink(w, fs, r) {
      var circle := EndsInCircle(w, fs, p, {});
      StaysInCircle(w, fs, r, {}, circle);
    }
  }

  /** A walk that ends at an entry takes no notice of new entries. */
  lemma {:induction false} SameWalk(w: World, was: Fs, now: Fs, p: Path, seen: set<Key>)
    requires forall k :: k in was.entries ==> k in now.entries && now.entries[k] == was.entries[k]
    requires w.fold(RealPath(w, was, p, seen)) in was.entries
    ensures RealPath(w, now, p, seen) == RealPath(w, was, p, seen)
    decreases was.entries.Keys - seen
  {
    if IsLink(w, was, p) && w.fold(p) !in seen {
      SameWalk(w, was, now, At(w, was, p).target, seen + {w.fold(p)});
    }
  }

  /** With the probe in place, the other name exists exactly when it is the same entry. */
  lemma ProbeSees(w: World, was: Fs, now: Fs, ra: Path, rb: Path, ino: nat)
    requires w.fold(ra) !in was.entries && ino !in was.inodes && WellFormed(was)
    requires now == was.(entries := was.entries[w.fold(ra) := File(ino)],
                         inodes := was.inodes[ino := Inode("", w.freshMode)])
    requires StatOf(w, was, rb).NotFound? || StatOf(w, was, rb).Loop?
    requires if IsLink(w, was, rb) then StatOf(w, was, rb).Loop? else Resolve(w, was, rb) == rb
    ensures StatOf(w, now, ra) == IsFile(ino)
    ensures w.fold(ra) == w.fold(rb) ==> StatOf(w, now, rb) == IsFile(ino)
    ensures w.fold(ra) != w.fold(rb) ==> !(StatOf(w, now, rb) == IsFile(ino))
  {
    if IsLink(w, was, rb) { SameWalk(w, was, now, rb, {}); }
  }

  /** Resolving looks at the entries only. */
  lemma {:induction false} SameEntriesSamePath(w: World, a: Fs, b: Fs, p: Path, seen: set<Key>)
    requires a.entries == b.entries
    ensures RealPath(w, a, p, seen) == RealPath(w, b, p, seen)
    decreases a.entries.Keys - seen
  {
    if IsLink(w, a, p) && w.fold(p) !in seen {
      SameEntriesSamePath(w, a, b, At(w, a, p).target, seen + {w.fold(p)});
    }
  }

  /** With the same entries a path resolves to the same name, and is the same kind of thing. */
  lemma SameLooks(w: World, a: Fs, b: Fs, p: Path)
    requires a.entries == b.entries
    ensures Resolve(w, a, p) == Resolve(w, b, p) && StatOf(w, a, p) == StatOf(w, b, p)
    ensures StatOf(w, a, Resolve(w, a, p)).IsDir? <==> StatOf(w, a, p).IsDir?
  {
    SameEntriesSamePath(w, a, b, p, {});
    ResolveTwice(w, a, p);
  }

  /**
   The preflight speaks for the writer: on what it leaves behind the writer is not refused,
   as long as some name it draws is free, and a directory is all that can still be wrong.
   */
  lemma PreflightAgrees(w: World, was: Fs, now: Fs, path: Path, capped: Name, luck: Luck, later: Luck)
    requires WellFormed(was) && GetsToTemp(w, was, path, capped, luck)
    requires now.entries == was.entries && was.dirs <= now.dirs
    requires forall i :: i in was.inodes ==> i in now.inodes && now.inodes[i] == was.inodes[i]
    requires SomeNameFree(w, now, Resolve(w, now, path), capped, later)
    ensures Resolve(w, now, path) == Resolve(w, was, path)
    ensures GetsToTemp(w, now, path, capped, later)
  {
    SameEntriesSamePath(w, was, now, path, {});
    SameEntriesSamePath(w, was, now, Resolve(w, was, path), {});
  }

  class Disk {
    const w: World
    var fs: Fs
    ghost var trace: seq<Fs>  // every state since the disk was made

    ghost predicate Valid()
      reads this
    {
      WellFormed(fs) && WellFounded(w) && trace != [] && trace[|trace| - 1] == fs
    }

    constructor (w: World, fs: Fs)
      requires WellFormed(fs) && WellFounded(w)
      ensures Valid() && this.w == w && this.fs == fs && trace == [fs]
    {
      this.w, this.fs := w, fs;
      trace := [fs];
    }

    /** Every operation that succeeds is one step of the trace. */
    ghost method Log()
      modifies this`trace
      ensures trace == old(trace) + [fs]
    {
      trace := trace + [fs];
    }

    method MakeDirs(d: Dir) returns (ok: bool)
      requires Valid()
      modifies this
      ensures Valid() && (ok <==> Makable(w, old(fs), d))
      ensures fs == if ok then old(fs).(dirs := old(fs).dirs + w.lineage(d)) else old(fs)
      ensures trace == if ok then old(trace) + [fs] else old(trace)
    {
      ok := Makable(w, fs, d);
      if ok {
        fs := fs.(dirs := fs.dirs + w.lineage(d));
        Log();
      }
    }

    /** Exclusive creation, in a directory that exists: an entry that exists, of any kind, is never opened. */
    method CreateExclusive(p: Path) returns (ino: nat)
      requires Valid() && w.fold(p) !in fs.entries && p.dir in fs.dirs
      modifies this
      ensures Valid() && ino !in old(fs).inodes
      ensures fs == old(fs).(entries := old(fs).entries[w.fold(p) := File(ino)],
                             inodes := old(fs).inodes[ino := Inode("", w.freshMode)])
      ensures trace == old(trace) + [fs]
    {
      ino := Unused(fs.inodes);
      fs := fs.(entries := fs.entries[w.fold(p) := File(ino)],
                inodes := fs.inodes[ino := Inode("", w.freshMode)]);
      Log();
    }

    method Append(ino: nat, c: char)
      requires Valid() && ino in fs.inodes
      modifies this
      ensures Valid()
      ensures var was := old(fs).inodes[ino];
              fs == old(fs).(inodes := old(fs).inodes[ino := was.(content := was.content + [c])])
      ensures trace == old(trace) + [fs]
    {
      fs := fs.(inodes := fs.inodes[ino := fs.inodes[ino].(content := fs.inodes[ino].content + [c])]);
      Log();
    }

    method Chmod(ino: nat, mode: nat)
      requires Valid() && ino in fs.inodes
      modifies this
      ensures Valid() && fs == old(fs).(inodes := old(fs).inodes[ino := old(fs).inodes[ino].(mode := mode)])
      ensures trace == old(trace) + [fs]
    {
      fs := fs.(inodes := fs.inodes[ino := fs.inodes[ino].(mode := mode)]);
      Log();
    }

    /** The rename is one step: the entry moves, or nothing happens. */
    method Replace(from: Path, to: Path)
      requires Valid() && w.fold(from) in fs.entries
      modifies this
      ensures Valid() && fs == Renamed(w, old(fs), from, to) && trace == old(trace) + [fs]
    {
      fs := Renamed(w, fs, from, to);
      Log();
    }

    method Unlink(p: Path)
      requires Valid()
      modifies this
      ensures Valid() && fs == old(fs).(entries := old(fs).entries - {w.fold(p)})
      ensures trace == old(trace) + [fs]
    {
      fs := fs.(entries := fs.entries - {w.fold(p)});
      Log();
    }

    static method Unused(inodes: map<nat, Inode>) returns (ino: nat)
      ensures ino !in inodes
    {
      ino := 0;
      var rest := inodes.Keys;
      while ino in inodes
        invariant forall i: nat :: i in inodes && i >= ino ==> i in rest
        invariant rest <= inodes.Keys
        decreases rest
      {
        rest := rest - {ino};
        ino := ino + 1;
      }
    }

    // -------------------------------------------------------------------------------
    // The writer and its preflight
    // -------------------------------------------------------------------------------

    /** Draw names until one is free; give up after the attempts, or where nothing can be created. */
    method CreateTemp(target: Path, luck: Luck) returns (temp: Option<(Path, nat)>, ghost capped: Name)
      requires Valid() && target.dir in fs.dirs
      modifies this
      ensures Valid() && Capped(target.base, capped)
      ensures temp.Some? <==> target.dir !in w.locked && SomeNameFree(w, old(fs), target, capped, luck)
      ensures temp.Some? ==>
                && temp.value.0.dir == target.dir
                && (exists a: nat :: a < 100 && temp.value.0.base == TempName(capped, luck.token(a)))
                && w.fold(temp.value.0) !in old(fs).entries && temp.value.1 !in old(fs).inodes
                && fs == old(fs).(entries := old(fs).entries[w.fold(temp.value.0) := File(temp.value.1)],
                                  inodes := old(fs).inodes[temp.value.1 := Inode("", w.freshMode)])
                && trace == old(trace) + [fs]
      ensures temp.None? ==> fs == old(fs) && trace == old(trace)
    {
      var base := CapBaseForTemp(target.base);
      capped := base;
      temp := None;
      if target.dir in w.locked { return; }
      for a := 0 to TEMP_ATTEMPTS
        invariant fs == old(fs) && trace == old(trace) && Valid()
        invariant forall b: nat :: b < a ==> w.fold(Path(target.dir, TempName(base, luck.token(b)))) in fs.entries
      {
        var candidate := Path(target.dir, TempName(base, luck.token(a)));
        if w.fold(candidate) !in fs.entries {
          var ino := CreateExclusive(candidate);
          return Some((candidate, ino)), base;
        }
      }
    }

    /** Refuses what the writer would refuse, and leaves nothing but missing parent directories. */
    method CheckWritable(path: Path, luck: Luck) returns (ok: bool, ghost capped: Name)
      requires Valid()
      modifies this
      ensures Valid() && CappedFor(w, old(fs), path, capped)
      ensures ok <==>
                GetsToTemp(w, old(fs), path, capped, luck) && !StatOf(w, old(fs), Resolve(w, old(fs), path)).IsDir?
      ensures fs.entries == old(fs).entries
      ensures forall i :: i in old(fs).inodes ==> i in fs.inodes && fs.inodes[i] == old(fs).inodes[i]
      ensures var target := Resolve(w, old(fs), path);
              fs.dirs == if StatOf(w, old(fs), target).IsDir? || StopsBeforeDirs(w, old(fs), target) then old(fs).dirs
                         else old(fs).dirs + w.lineage(target.dir)
      ensures ok ==> w.lineage(Resolve(w, old(fs), path).dir) <= fs.dirs
    {
      var target := Resolve(w, fs, path);
      var base := CapBaseForTemp(target.base);
      capped := base;
      if StatOf(w, fs, target).IsDir? { return false, base; }
      if Unwritable(w, fs, target) { return false, base; }
      var made := MakeDirs(target.dir);
      if !made { return false, base; }
      var temp, c := CreateTemp(target, luck);
      OneCap(target.base, c, base);
      if temp.None? { return false, base; }
      Unlink(temp.value.0);
      ok := true;
    }

    /** The parent directories and the temporary file. */
    method Prepare(target: Path, text: string, luck: Luck)
      returns (temp: Option<(Path, nat)>, ghost capped: Name, ghost ready: Fs)
      requires Valid()
      modifies this
      ensures Valid() && |trace| >= |old(trace)| && trace[..|old(trace)|] == old(trace) && Capped(target.base, capped)
      ensures temp.Some? <==>
                && Makable(w, old(fs), target.dir) && target.dir !in w.locked
                && SomeNameFree(w, old(fs), target, capped, luck)
      ensures ready.entries == old(fs).entries && ready.inodes == old(fs).inodes
      ensures ready.dirs ==
              if Makable(w, old(fs), target.dir) then old(fs).dirs + w.lineage(target.dir) else old(fs).dirs
      ensures temp.None? ==> fs == ready
      ensures temp.Some? ==>
                && (exists token :: temp.value.0 == Path(target.dir, TempName(capped, token)))
                && w.fold(temp.value.0) !in old(fs).entries && temp.value.1 !in old(fs).inodes
                && fs == Draft(ready, w.fold(temp.value.0), temp.value.1, "", w.freshMode)
      ensures forall j :: |old(trace)| <= j < |trace| ==>
                && (temp.None? ==> CrashSafe(w, old(fs), trace[j], w.fold(target), {}, text))
                && (temp.Some? && w.fold(temp.value.0) != w.fold(target) ==>
                      CrashSafe(w, old(fs), trace[j], w.fold(target), {w.fold(temp.value.0)}, text))
    {
      ghost var was := fs;
      var made := MakeDirs(target.dir);
      ready := fs;
      if !made { capped := CapBaseForTemp(target.base); return None, capped, ready; }
      temp, capped := CreateTemp(target, luck);
      if temp.Some? && w.fold(temp.value.0) != w.fold(target) {
        DraftIsSafe(w, was, ready, w.fold(target), w.fold(temp.value.0), temp.value.1, "", w.freshMode, text);
      }
    }

    /** The text goes to the temporary file piece by piece, then to the device. */
    method WriteText(ino: nat, text: string, luck: Luck, ghost was: Fs, ghost ready: Fs, ghost k: Key, ghost tk: Key)
      returns (ok: bool, ghost n: nat)
      requires Valid() && ready.entries == was.entries && ready.inodes == was.inodes && was.dirs <= ready.dirs
      requires tk !in was.entries && ino !in was.inodes && fs == Draft(ready, tk, ino, "", w.freshMode)
      modifies this
      ensures Valid() && |trace| >= |old(trace)| && trace[..|old(trace)|] == old(trace)
      ensures n <= |text| && (ok ==> n == |text|) && fs == Draft(ready, tk, ino, text[..n], w.freshMode)
      ensures NoFaults(luck, text) ==> ok
      ensures tk != k ==> forall j :: |old(trace)| <= j < |trace| ==> CrashSafe(w, was, trace[j], k, {tk}, text)
    {
      ok := true;
      var i := 0;
      while i < |text| && ok
        invariant 0 <= i <= |text| && Valid() && |trace| >= |old(trace)| && trace[..|old(trace)|] == old(trace)
        invariant fs == Draft(ready, tk, ino, text[..i], w.freshMode)
        invariant NoFaults(luck, text) ==> ok
        invariant tk != k ==> forall j :: |old(trace)| <= j < |trace| ==> CrashSafe(w, was, trace[j], k, {tk}, text)
        decreases |text| - i + (if ok then 1 else 0)
      {
        if luck.fails(i) {
          ok := false;
        } else {
          Append(ino, text[i]);
          assert text[..i + 1] == text[..i] + [text[i]];
          if tk != k { DraftIsSafe(w, was, ready, k, tk, ino, text[..i + 1], w.freshMode, text); }
          i := i + 1;
        }
      }
      n := i;
      if ok && luck.fails(|text|) { ok := false; }  // flush or fsync
    }

    /** Gives the temporary file the mode of the target, if there is one. */
    method CopyExistingMode(
      target: Path, ino: nat, text: string, luck: Luck, ghost was: Fs, ghost ready: Fs, ghost k: Key, ghost tk: Key)
      returns (ok: bool)
      requires Valid() && ready.entries == was.entries && ready.inodes == was.inodes && was.dirs <= ready.dirs
      requires tk !in was.entries && ino !in was.inodes && WellFormed(was) && k == w.fold(target)
      requires fs == Draft(ready, tk, ino, text, w.freshMode) && !IsLink(w, was, target)
      modifies this
      ensures Valid() && |trace| >= |old(trace)| && trace[..|old(trace)|] == old(trace)
      ensures ino in fs.inodes && fs == Draft(ready, tk, ino, text, fs.inodes[ino].mode)
      ensures NoFaults(luck, text) ==> ok
      ensures ok ==> fs.inodes[ino].mode == DueMode(w, was, k)
      ensures tk != k ==> forall j :: |old(trace)| <= j < |trace| ==> CrashSafe(w, was, trace[j], k, {tk}, text)
    {
      var st := StatOf(w, fs, target);
      if st.IsFile? && st.ino in fs.inodes {
        if luck.fails(|text| + 1) { return false; }
        ghost var mode := fs.inodes[st.ino].mode;
        Chmod(ino, fs.inodes[st.ino].mode);
        if tk != k { DraftIsSafe(w, was, ready, k, tk, ino, text, mode, text); }
      }
      ok := true;
    }

    /** The mode of an existing target, the rename, and on any failure the removal of the temporary file. */
    method Conclude(
      target: Path, p: Path, ino: nat, ok: bool, text: string, luck: Luck, ghost was: Fs, ghost ready: Fs, ghost n: nat)
      returns (r: Outcome)
      requires Valid() && ready.entries == was.entries && ready.inodes == was.inodes && was.dirs <= ready.dirs
      requires w.fold(p) !in was.entries && ino !in was.inodes && WellFormed(was)
      requires n <= |text| && (ok ==> n == |text|) && fs == Draft(ready, w.fold(p), ino, text[..n], w.freshMode)
      requires !IsLink(w, was, target)
      modifies this
      ensures Valid() && |trace| >= |old(trace)| && trace[..|old(trace)|] == old(trace)
      ensures w.fold(p) != w.fold(target) ==> forall j :: |old(trace)| <= j < |trace| ==>
                CrashSafe(w, was, trace[j], w.fold(target), {w.fold(p)}, text)
      ensures !r.Refused?
      ensures ok && NoFaults(luck, text) && !StatOf(w, was, target).IsDir? ==> r.Written?
      ensures r.Written? ==>
                var k := w.fold(target);
                && fs.entries == was.entries[k := File(ino)] && ino in fs.inodes
                && fs.inodes[ino] == Inode(text, DueMode(w, was, k)) && !StatOf(w, was, target).IsDir?
      ensures fs.dirs == ready.dirs
      ensures r.Failed? ==>
                || fs.entries == was.entries
                || (luck.fails(|text| + 3) && fs.entries - {w.fold(p)} == was.entries)
    {
      ghost var k, tk := w.fold(target), w.fold(p);
      var good := ok;
      if good {
        assert text[..n] == text;
        good := CopyExistingMode(target, ino, text, luck, was, ready, k, tk);
        if good && !luck.fails(|text| + 2) && !StatOf(w, fs, target).IsDir? {
          RenamedIsSafe(w, was, ready, p, target, ino, text, fs.inodes[ino].mode);
          Replace(p, target);
          return Written;
        }
      }
      UnlinkedIsSafe(w, was, ready, k, tk, ino, text[..n], fs.inodes[ino].mode, text);
      if !luck.fails(|text| + 3) { Unlink(p); }
      r := Failed;
    }

    /** From the empty temporary file on. */
    method Store(target: Path, p: Path, ino: nat, text: string, luck: Luck, ghost was: Fs, ghost ready: Fs)
      returns (r: Outcome)
      requires Valid() && ready.entries == was.entries && ready.inodes == was.inodes && was.dirs <= ready.dirs
      requires w.fold(p) !in was.entries && ino !in was.inodes && WellFormed(was)
      requires fs == Draft(ready, w.fold(p), ino, "", w.freshMode) && !IsLink(w, was, target)
      modifies this
      ensures Valid() && |trace| >= |old(trace)| && trace[..|old(trace)|] == old(trace)
      ensures w.fold(p) != w.fold(target) ==> forall j :: |old(trace)| <= j < |trace| ==>
                CrashSafe(w, was, trace[j], w.fold(target), {w.fold(p)}, text)
      ensures !r.Refused? && fs.dirs == ready.dirs
      ensures NoFaults(luck, text) && !StatOf(w, was, target).IsDir? ==> r.Written?
      ensures r.Written? ==>
                var k := w.fold(target);
                && fs.entries == was.entries[k := File(ino)] && ino in fs.inodes
                && fs.inodes[ino] == Inode(text, DueMode(w, was, k)) && !StatOf(w, was, target).IsDir?
      ensures r.Failed? ==>
                || fs.entries == was.entries
                || (luck.fails(|text| + 3) && fs.entries - {w.fold(p)} == was.entries)
    {
      ghost var n;
      var ok;
      ok, n := WriteText(ino, text, luck, was, ready, w.fold(target), w.fold(p));
      r := Conclude(target, p, ino, ok, text, luck, was, ready, n);
    }

    /**
     Writes through links, by way of a temporary file beside the resolved target. The k-th
     operation after the temporary file exists may fail as `luck` has it; a crash may stop
     the run anywhere in the trace.
     */
    method AtomicWriteText(path: Path, text: string, luck: Luck)
      returns (r: Outcome, ghost capped: Name, ghost temp: set<Key>)
      requires Valid()
      modifies this
      ensures Valid() && CappedFor(w, old(fs), path, capped) && |trace| >= |old(trace)|
      ensures r.Refused? <==> !GetsToTemp(w, old(fs), path, capped, luck)
      ensures temp !! old(fs).entries.Keys
      ensures temp == {} || exists token ::
                temp == {w.fold(Path(Resolve(w, old(fs), path).dir, TempName(capped, token)))}
      // every state that a crash could leave
      ensures var k := w.fold(Resolve(w, old(fs), path));
              k !in temp ==> forall j :: |old(trace)| <= j < |trace| ==>
                CrashSafe(w, old(fs), trace[j], k, temp, text)
      ensures StandsApart(w, old(fs), path) ==> w.fold(Resolve(w, old(fs), path)) !in temp
      // the parent directories
      ensures var target := Resolve(w, old(fs), path);
              fs.dirs == if StopsBeforeDirs(w, old(fs), target) then old(fs).dirs
                         else old(fs).dirs + w.lineage(target.dir)
      ensures r.Written? ==> w.lineage(Resolve(w, old(fs), path).dir) <= fs.dirs
      // success
      ensures r.Written? ==>
                var k := w.fold(Resolve(w, old(fs), path));
                && k in fs.entries && fs.entries[k].File? && fs.entries[k].ino !in old(fs).inodes
                && fs.inodes[fs.entries[k].ino] == Inode(text, DueMode(w, old(fs), k))
                && fs.entries == old(fs).entries[k := fs.entries[k]]
      ensures !r.Refused? && NoFaults(luck, text) && !StatOf(w, old(fs), path).IsDir? ==> r.Written?
      ensures r.Written? ==> !StatOf(w, old(fs), path).IsDir?
      // a handled failure
      ensures r.Refused? ==> fs.entries == old(fs).entries && fs.inodes == old(fs).inodes
      ensures r.Failed? ==>
                || fs.entries == old(fs).entries
                || (luck.fails(|text| + 3) && temp != {} && fs.entries - temp == old(fs).entries)
    {
      ghost var was := fs;
      temp := {};
      ResolvedLinkIsRefused(w, fs, path);
      ResolveTwice(w, fs, path);
      var target := Resolve(w, fs, path);
      var base := CapBaseForTemp(target.base);
      capped := base;
      if Unwritable(w, fs, target) { return Refused, base, {}; }
      ghost var c, ready;
      var t;
      t, c, ready := Prepare(target, text, luck);
      OneCap(target.base, c, base);
      if t.None? { return Refused, base, {}; }
      var p, ino := t.value.0, t.value.1;
      temp := {w.fold(p)};
      if StandsApart(w, was, path) {
        ghost var token :| p == Path(target.dir, TempName(c, token));
        TempIsAnother(w, was, path, c, token);
      }
      r := Store(target, p, ino, text, luck, was, ready);
    }

    /**
     A script checks its output path before a long run, and writes after it. If the check
     passes and some name drawn for the second temporary file is free, the write is not
     refused; and where nothing fails it leaves exactly the text.
     */
    method CheckThenWrite(path: Path, text: string, luck: Luck, later: Luck)
      returns (ok: bool, r: Option<Outcome>, ghost capped: Name)
      requires Valid()
      modifies this
      ensures Valid() && CappedFor(w, old(fs), path, capped) && (ok <==> r.Some?)
      ensures ok <==>
                GetsToTemp(w, old(fs), path, capped, luck) && !StatOf(w, old(fs), Resolve(w, old(fs), path)).IsDir?
      ensures !ok ==> fs.entries == old(fs).entries
      ensures ok && SomeNameFree(w, old(fs), Resolve(w, old(fs), path), capped, later) ==> r != Some(Refused)
      ensures ok && SomeNameFree(w, old(fs), Resolve(w, old(fs), path), capped, later) && NoFaults(later, text) ==>
                var k := w.fold(Resolve(w, old(fs), path));
                && r == Some(Written) && k in fs.entries && fs.entries[k].File? && fs.entries[k].ino in fs.inodes
                && ContentAt(fs, k) == text && fs.entries == old(fs).entries[k := fs.entries[k]]
    {
      ghost var was := fs;
      ok, capped := CheckWritable(path, luck);
      if !ok { return false, None, capped; }
      ghost var now := fs;
      SameLooks(w, was, now, path);
      if SomeNameFree(w, was, Resolve(w, was, path), capped, later) {
        PreflightAgrees(w, was, now, path, capped, luck, later);
      }
      var written;
      ghost var c, temp;
      written, c, temp := AtomicWriteText(path, text, later);
      OneCap(Resolve(w, was, path).base, c, capped);
      r := Some(written);
    }

    /** Whether two names exist and are one file to the kernel. */
    function OneFile(a: Path, b: Path): bool
      reads this
    {
      var sa, sb := StatOf(w, fs, a), StatOf(w, fs, b);
      || (sa.IsFile? && sb.IsFile? && sa.ino == sb.ino)
      || (sa.IsDir? && sb.IsDir? && w.fold(Resolve(w, fs, a)) == w.fold(Resolve(w, fs, b)))
    }

    predicate Exists(p: Path)
      reads this
    {
      StatOf(w, fs, p).IsFile? || StatOf(w, fs, p).IsDir?
    }

    /**
     Asks the file system whether two paths name one file, by creating the first when
     neither exists. An error is the answer None; every answer leaves every entry and
     every file as it was.
     */
    method SameFile(a: Path, b: Path) returns (same: Option<bool>)
      requires Valid()
      modifies this
      ensures Valid() && fs.entries == old(fs).entries && fs.dirs == old(fs).dirs
      ensures forall i :: i in old(fs).inodes ==> i in fs.inodes && fs.inodes[i] == old(fs).inodes[i]
      ensures same.Some? ==> (same.value <==> NameOneFile(w, old(fs), a, b))
      ensures same.None? ==>
                var ra := Resolve(w, old(fs), a);
                && !old(Exists(a)) && !old(Exists(b))
                && (ra.dir !in fs.dirs || ra.dir in w.locked || w.fold(ra) in fs.entries)
    {
      var ra, rb := Resolve(w, fs, a), Resolve(w, fs, b);
      ResolveTwice(w, fs, a);
      ResolveTwice(w, fs, b);
      if ra == rb { return Some(true); }
      var ea, eb := Exists(ra), Exists(rb);
      if ea && eb { return Some(OneFile(ra, rb)); }
      if ea || eb { return Some(false); }
      if ra.dir !in fs.dirs || ra.dir in w.locked || w.fold(ra) in fs.entries { return None; }
      ghost var was := fs;
      var ino := CreateExclusive(ra);
      ProbeSees(w, was, fs, ra, rb, ino);
      same := Some(Exists(rb) && OneFile(ra, rb));
      Unlink(ra);
    }
  }
}
