/**
 * The no-clobber commit of a received part file, over a file system of names, inodes and
 * contents in which other programs create files at the same time.
 */
module Commit {
  import opened Prelude

  type Path = string

  /** Names point to inodes, inodes hold bytes; `next` is an unused inode. */
  datatype FS = FS(names: map<Path, nat>, blocks: map<nat, Bytes>, next: nat)

  ghost predicate FsOk(fs: FS) {
    && (forall p <- fs.names :: fs.names[p] in fs.blocks)
    && (forall i <- fs.blocks :: i < fs.next)
  }

  function Content(fs: FS, p: Path): Option<Bytes> {
    if p in fs.names && fs.names[p] in fs.blocks then Some(fs.blocks[fs.names[p]]) else None
  }

  /** link(2) of an existing file to a free name. */
  function Link(fs: FS, src: Path, dst: Path): FS
    requires src in fs.names
  {
    fs.(names := fs.names[dst := fs.names[src]])
  }

  /** rename(2): an existing target is replaced. */
  function Rename(fs: FS, src: Path, dst: Path): FS
    requires src in fs.names
  {
    if src == dst then fs else fs.(names := (fs.names - {src})[dst := fs.names[src]])
  }

  /** copyFile: an existing target is overwritten in place, a new one gets its own inode. */
  function CopyFile(fs: FS, src: Path, dst: Path): FS
    requires src in fs.names && fs.names[src] in fs.blocks
  {
    var bytes := fs.blocks[fs.names[src]];
    if dst in fs.names then fs.(blocks := fs.blocks[fs.names[dst] := bytes])
    else FS(fs.names[dst := fs.next], fs.blocks[fs.next := bytes], fs.next + 1)
  }

  function Remove(fs: FS, p: Path): FS { fs.(names := fs.names - {p}) }

  /** Another program creates a file under a name that was free. */
  function Create(fs: FS, p: Path, bytes: Bytes): FS {
    if p in fs.names then fs else FS(fs.names[p := fs.next], fs.blocks[fs.next := bytes], fs.next + 1)
  }

  /** Files that other programs create, one after the other. */
  type Batch = seq<(Path, Bytes)>

  function CreateAll(fs: FS, files: Batch): FS
    decreases files
  {
    if files == [] then fs else CreateAll(Create(fs, files[0].0, files[0].1), files[1..])
  }

  // ---- Candidate names ---------------------------------------------------------------

  /** path.parse of the sanitised name, under the receive directory. */
  datatype Target = Target(dir: Path, name: string, ext: string)

  function Candidate(t: Target, index: nat): Path {
    if index == 0 then t.dir + "/" + (t.name + t.ext)
    else t.dir + "/" + (t.name + " (" + Decimal(index) + ")" + t.ext)
  }

  lemma SameMiddle(prefix: string, a: string, b: string, suffix: string)
    requires prefix + a + suffix == prefix + b + suffix
    ensures a == b
  {
    var x, y := prefix + a + suffix, prefix + b + suffix;
    assert |a| == |b|;
    assert a == x[|prefix|..|prefix| + |a|] && b == y[|prefix|..|prefix| + |b|];
  }

  lemma CandidateLength(t: Target, i: nat)
    ensures |Candidate(t, i)| - |t.dir + "/" + t.name + t.ext| == if i == 0 then 0 else 3 + |Decimal(i)|
  {
  }

  lemma {:induction false} DecimalDigits(n: nat)
    ensures var s := Decimal(n);
            |s| > 0 && (forall c <- s :: '0' <= c <= '9') && (n > 0 ==> s[0] != '0')
  {
    if n >= 10 { DecimalDigits(n / 10); }
  }

  /**
   * The text of a candidate: the sanitised name itself, and from the second on the number of
   * the attempt, in parentheses and without leading zeros, before the extension.
   */
  lemma CandidateForm(t: Target, k: nat)
    ensures Candidate(t, 0) == t.dir + "/" + t.name + t.ext
    ensures var c, head := Candidate(t, k), t.dir + "/" + t.name + " (";
            k > 0 ==>
              && |c| > |head| + |")" + t.ext|
              && var numeral := c[|head|..|c| - |")" + t.ext|];
              && c == head + numeral + ")" + t.ext
              && (forall digit <- numeral :: '0' <= digit <= '9')
              && numeral[0] != '0' && Value(numeral) == k
  {
    if k > 0 {
      var c, head := Candidate(t, k), t.dir + "/" + t.name + " (";
      assert c == head + Decimal(k) + (")" + t.ext);
      assert c[|head|..|c| - |")" + t.ext|] == Decimal(k);
      DecimalDigits(k);
      ValueOfDecimal(k);
    }
    assert Candidate(t, 0) == t.dir + "/" + t.name + t.ext;
  }

  /** Candidate names never repeat. */
  lemma CandidatesDistinct(t: Target, i: nat, j: nat)
    requires Candidate(t, i) == Candidate(t, j)
    ensures i == j
  {
    var head := t.dir + "/" + t.name;
    CandidateLength(t, i);
    CandidateLength(t, j);
    if i != 0 && j != 0 {
      assert Candidate(t, i) == (head + " (") + Decimal(i) + (")" + t.ext);
      assert Candidate(t, j) == (head + " (") + Decimal(j) + (")" + t.ext);
      SameMiddle(head + " (", Decimal(i), Decimal(j), ")" + t.ext);
      ValueOfDecimal(i);
      ValueOfDecimal(j);
    }
  }

  // ---- The commit --------------------------------------------------------------------

  const ATTEMPTS: nat := 10_000

  /**
   * What the volume supports; `takenFirst` says that link on a taken name reports EEXIST
   * even where it cannot make links.
   */
  datatype Volume = Volume(canLink: bool, canRename: bool, takenFirst: bool)

  /**
   * Other programs' creations: before each attempt, between a refused link and the rename
   * that follows, and between a refused rename and the copy.
   */
  datatype Others = Others(before: seq<Batch>, afterLink: Batch, afterRename: Batch)

  /** Where the run meets an error that no branch handles; a copy may have written some bytes. */
  datatype Fault = NoFault | LinkFault(index: nat) | RenameFault | CopyFault(written: nat)

  predicate Throws(v: Volume, fault: Fault, index: nat) {
    match fault
    case NoFault => false
    case LinkFault(i) => i == index
    case RenameFault => !v.canLink
    case CopyFault(_) => !v.canLink && !v.canRename
  }

  function BatchAt(others: Others, i: nat): Batch { if i < |others.before| then others.before[i] else [] }

  /** The file system when attempt `i` is made: failed attempts leave no trace. */
  function Arrived(fs: FS, others: Others, i: nat): FS {
    var before := if i == 0 then fs else Arrived(fs, others, i - 1);
    CreateAll(before, BatchAt(others, i))
  }

  /** The file system when the branch that succeeds takes effect. */
  function Late(v: Volume, fs: FS, others: Others): FS {
    if v.canLink then fs
    else if v.canRename then CreateAll(fs, others.afterLink)
    else CreateAll(CreateAll(fs, others.afterLink), others.afterRename)
  }

  ghost predicate Taken(fs: FS, others: Others, t: Target, i: nat) {
    Candidate(t, i) in Arrived(fs, others, i).names
  }

  /** Attempts at taken names are reported as such, so they are never overwritten. */
  predicate Careful(v: Volume) { v.canLink || v.takenFirst }

  /** The attempt that takes effect: the first free name, or simply the first name. */
  ghost predicate Chosen(fs: FS, others: Others, v: Volume, t: Target, k: nat) {
    if Careful(v) then !Taken(fs, others, t, k) && (forall i: nat | i < k :: Taken(fs, others, t, i))
    else k == 0
  }

  lemma {:induction false} CreateAllKeeps(fs: FS, files: Batch)
    requires FsOk(fs)
    ensures FsOk(CreateAll(fs, files))
    ensures forall p <- fs.names :: p in CreateAll(fs, files).names && CreateAll(fs, files).names[p] == fs.names[p]
    ensures forall i <- fs.blocks :: i in CreateAll(fs, files).blocks && CreateAll(fs, files).blocks[i] == fs.blocks[i]
    decreases files
  {
    if files != [] {
      CreateAllKeeps(Create(fs, files[0].0, files[0].1), files[1..]);
    }
  }

  lemma {:induction false} ArrivedKeeps(fs: FS, others: Others, i: nat)
    requires FsOk(fs)
    ensures FsOk(Arrived(fs, others, i))
    ensures forall p <- fs.names ::
              p in Arrived(fs, others, i).names && Content(Arrived(fs, others, i), p) == Content(fs, p)
  {
    var before := if i == 0 then fs else Arrived(fs, others, i - 1);
    if i > 0 { ArrivedKeeps(fs, others, i - 1); }
    CreateAllKeeps(before, BatchAt(others, i));
  }

  predicate Lists(files: Batch, p: Path) { exists i :: 0 <= i < |files| && files[i].0 == p }

  /** Others' files are all there afterwards, each with the bytes of whoever came first, and nothing else is new. */
  lemma {:induction false} CreatedIff(fs: FS, files: Batch, p: Path)
    requires FsOk(fs)
    ensures p in CreateAll(fs, files).names <==> p in fs.names || Lists(files, p)
    ensures p in fs.names ==> Content(CreateAll(fs, files), p) == Content(fs, p)
    ensures forall i | 0 <= i < |files| && files[i].0 == p && p !in fs.names && !Lists(files[..i], p) ::
              Content(CreateAll(fs, files), p) == Some(files[i].1)
    decreases files
  {
    if files != [] {
      var next, rest := Create(fs, files[0].0, files[0].1), files[1..];
      CreatedIff(next, rest, p);
      CreateAllKeeps(next, rest);
      ListsFirst(files, p);
      forall i | 0 < i < |files| ensures Lists(files[..i], p) <==> files[0].0 == p || Lists(rest[..i - 1], p) {
        ListsFirst(files[..i], p);
        assert files[..i][1..] == rest[..i - 1];
      }
      assert forall i | 0 < i < |files| :: files[i] == rest[i - 1];
    }
  }

  lemma ListsFirst(files: Batch, p: Path)
    requires files != []
    ensures Lists(files, p) <==> files[0].0 == p || Lists(files[1..], p)
  {
    assert forall i | 0 <= i < |files[1..]| :: files[1..][i] == files[i + 1];
    if Lists(files, p) && files[0].0 != p {
      var i :| 0 <= i < |files| && files[i].0 == p;
      assert files[1..][i - 1].0 == p;
    }
  }

  /** At attempt `i` exactly the first files and those of the batches up to then are there. */
  lemma {:induction false} ArrivedIff(fs: FS, others: Others, i: nat, p: Path)
    requires FsOk(fs)
    ensures p in Arrived(fs, others, i).names
       <==> p in fs.names || exists j :: 0 <= j <= i && j < |others.before| && Lists(others.before[j], p)
  {
    var before := if i == 0 then fs else Arrived(fs, others, i - 1);
    if i > 0 {
      ArrivedIff(fs, others, i - 1, p);
      ArrivedKeeps(fs, others, i - 1);
    }
    CreatedIff(before, BatchAt(others, i), p);
    if i < |others.before| {
      assert Lists(others.before[i], p) ==>
          exists j :: 0 <= j <= i && j < |others.before| && Lists(others.before[j], p);
    }
  }

  /** Which attempts throw: a fault strikes only on the branch the volume takes. */
  lemma ThrowsIff(v: Volume, fault: Fault, k: nat)
    ensures Throws(v, fault, k)
       <==> fault == LinkFault(k) || (!v.canLink && (fault == RenameFault || (!v.canRename && fault.CopyFault?)))
  {
  }

  lemma LateKeeps(v: Volume, fs: FS, others: Others)
    requires FsOk(fs)
    ensures FsOk(Late(v, fs, others))
    ensures forall p <- fs.names ::
              p in Late(v, fs, others).names && Content(Late(v, fs, others), p) == Content(fs, p)
  {
    CreateAllKeeps(fs, others.afterLink);
    CreateAllKeeps(CreateAll(fs, others.afterLink), others.afterRename);
  }

  /** When the branch takes effect, exactly the files created between its refused attempts are new. */
  lemma LateIff(v: Volume, fs: FS, others: Others, p: Path)
    requires FsOk(fs)
    ensures p in Late(v, fs, others).names
       <==> || p in fs.names || (!v.canLink && Lists(others.afterLink, p))
            || (!v.canLink && !v.canRename && Lists(others.afterRename, p))
  {
    var middle := CreateAll(fs, others.afterLink);
    CreateAllKeeps(fs, others.afterLink);
    CreatedIff(fs, others.afterLink, p);
    CreatedIff(middle, others.afterRename, p);
  }

  /** If the name exists, no other name shares its inode. */
  ghost predicate Alone(fs: FS, c: Path) {
    c in fs.names ==> forall q <- fs.names :: q != c ==> fs.names[q] != fs.names[c]
  }

  lemma {:induction false} CreatedAlone(fs: FS, files: Batch, c: Path)
    requires FsOk(fs) && Alone(fs, c)
    ensures Alone(CreateAll(fs, files), c)
    decreases files
  {
    if files != [] {
      var next := Create(fs, files[0].0, files[0].1);
      assert FsOk(next) && Alone(next, c);
      CreatedAlone(next, files[1..], c);
    }
  }

  lemma LateAlone(v: Volume, fs: FS, others: Others, c: Path)
    requires FsOk(fs) && c !in fs.names
    ensures Alone(Late(v, fs, others), c)
  {
    CreateAllKeeps(fs, others.afterLink);
    CreatedAlone(fs, others.afterLink, c);
    CreatedAlone(CreateAll(fs, others.afterLink), others.afterRename, c);
  }

  /** The effect of the attempt that succeeds. */
  function Placed(v: Volume, fs: FS, part: Path, c: Path): FS
    requires part in fs.names && fs.names[part] in fs.blocks
  {
    Remove(if v.canLink then Link(fs, part, c)
           else if v.canRename then Rename(fs, part, c)
           else CopyFile(fs, part, c), part)
  }

  /** The part now stands under the name `c`; every other path is as it was. */
  ghost predicate Moved(fs: FS, fs': FS, part: Path, c: Path) {
    && c in fs'.names && Content(fs', c) == Content(fs, part)
    && part !in fs'.names
    && (forall p | p != c && p != part :: Content(fs', p) == Content(fs, p) && (p in fs.names <==> p in fs'.names))
  }

  /** No file but the part was changed or removed. */
  ghost predicate Preserves(fs: FS, fs': FS, part: Path) {
    forall p <- fs.names :: p != part ==> p in fs'.names && Content(fs', p) == Content(fs, p)
  }

  lemma PlacedMoves(v: Volume, fs: FS, part: Path, c: Path)
    requires FsOk(fs) && part in fs.names && c != part && Alone(fs, c)
    ensures Moved(fs, Placed(v, fs, part, c), part, c) && FsOk(Placed(v, fs, part, c))
  {
  }

  /**
   * No clobber: where taken names are reported, the file lands under the first free name
   * with the part's bytes, the part is gone, and every other path is as it was at that
   * moment, every file that was there when the attempt was made included. One file can be
   * lost, exactly if it took the name after its link was refused, with other bytes; on a
   * volume with hard links there is no such moment.
   */
  lemma CarefulNeverClobbers(fs: FS, others: Others, v: Volume, t: Target, part: Path, k: nat)
    requires FsOk(fs) && part in fs.names && Careful(v) && Chosen(fs, others, v, t, k)
    ensures var arrived, c := Arrived(fs, others, k), Candidate(t, k);
            var late := Late(v, arrived, others);
            && part in late.names && late.names[part] in late.blocks && c !in arrived.names
            && (v.canLink ==> c !in late.names)
            && var after := Placed(v, late, part, c);
               && Moved(late, after, part, c) && Content(after, c) == Content(fs, part)
               && Preserves(fs, after, part) && Preserves(arrived, after, part)
               && (Preserves(late, after, part) <==> c !in late.names || Content(late, c) == Content(fs, part))
  {
    var arrived, c := Arrived(fs, others, k), Candidate(t, k);
    ArrivedKeeps(fs, others, k);
    LateKeeps(v, arrived, others);
    LateAlone(v, arrived, others, c);
    PlacedMoves(v, Late(v, arrived, others), part, c);
  }

  /**
   * Exactly when an attempt spares the other files: the name was free, or what stood
   * there had the same bytes. On a volume that reports EPERM for a taken name the code
   * goes on to rename or copy over it.
   */
  lemma SparesOthersIff(v: Volume, fs: FS, part: Path, c: Path)
    requires FsOk(fs) && part in fs.names && c != part && !v.canLink
    ensures Preserves(fs, Placed(v, fs, part, c), part) <==> c !in fs.names || Content(fs, c) == Content(fs, part)
  {
    var fs' := Placed(v, fs, part, c);
    if c in fs.names {
      assert Content(fs', c) == Content(fs, part);
    } else {
      PlacedMoves(v, fs, part, c);
    }
  }

  /** A concrete loss: another program's file under the first name is overwritten. */
  lemma CarelessClobbers()
    ensures var fs := FS(map["r/.p" := 0, "r/a" := 1], map[0 := [1], 1 := [2]], 2);
            var v := Volume(false, true, false);
            var t := Target("r", "a", "");
            && FsOk(fs) && !Careful(v) && Chosen(fs, Others([], [], []), v, t, 0) && Candidate(t, 0) == "r/a"
            && Content(fs, "r/a") == Some([2]) && Content(Placed(v, fs, "r/.p", "r/a"), "r/a") == Some([1])
  {
    assert "r" + "/" + ("a" + "") == "r/a";
  }

  datatype Result = Committed(path: Path) | Exhausted | Thrown

  /** The file system when the attempt at `c` throws. */
  function Broken(fs: FS, others: Others, part: Path, c: Path, fault: Fault): FS {
    match fault
    case RenameFault => CreateAll(fs, others.afterLink)
    case CopyFault(n) => CopySome(CreateAll(CreateAll(fs, others.afterLink), others.afterRename), part, c, n)
    case _ => fs
  }

  /** copyFile stopped after `n` bytes: its target is left behind. */
  function CopySome(fs: FS, src: Path, dst: Path, n: nat): FS {
    if src !in fs.names || fs.names[src] !in fs.blocks then fs
    else
      var bytes := fs.blocks[fs.names[src]];
      var begun := Create(fs, dst, []);
      begun.(blocks := begun.blocks[begun.names[dst] := bytes[..if n < |bytes| then n else |bytes|]])
  }

  /** After an unhandled error the part is intact, and so is every file that was there before. */
  lemma BrokenKeepsPart(fs: FS, others: Others, part: Path, c: Path, fault: Fault)
    requires FsOk(fs) && part in fs.names && c !in fs.names
    ensures var fs' := Broken(fs, others, part, c, fault);
            Content(fs', part) == Content(fs, part) && Preserves(fs, fs', part)
  {
    var middle := CreateAll(fs, others.afterLink);
    var late := CreateAll(middle, others.afterRename);
    CreateAllKeeps(fs, others.afterLink);
    CreateAllKeeps(middle, others.afterRename);
    CreatedAlone(fs, others.afterLink, c);
    CreatedAlone(middle, others.afterRename, c);
    if fault.CopyFault? { CopyKeepsOthers(late, part, c, fault.written); }
  }

  /** What an unhandled error leaves: the others' files so far, and of a copy its first bytes. */
  lemma BrokenIs(fs: FS, others: Others, part: Path, c: Path, fault: Fault, p: Path)
    requires FsOk(fs) && part in fs.names && c !in fs.names && !fault.NoFault?
    ensures p in Broken(fs, others, part, c, fault).names
       <==> || p in fs.names || (!fault.LinkFault? && Lists(others.afterLink, p))
            || (fault.CopyFault? && (p == c || Lists(others.afterRename, p)))
    ensures fault.CopyFault? && fault.written <= |fs.blocks[fs.names[part]]| ==>
              Content(Broken(fs, others, part, c, fault), c) == Some(fs.blocks[fs.names[part]][..fault.written])
  {
    var middle := CreateAll(fs, others.afterLink);
    CreateAllKeeps(fs, others.afterLink);
    CreateAllKeeps(middle, others.afterRename);
    CreatedIff(fs, others.afterLink, p);
    CreatedIff(middle, others.afterRename, p);
  }

  lemma CopyKeepsOthers(fs: FS, part: Path, c: Path, n: nat)
    requires FsOk(fs) && Alone(fs, c) && c != part
    ensures forall p <- fs.names :: p != c ==>
              p in CopySome(fs, part, c, n).names && Content(CopySome(fs, part, c, n), p) == Content(fs, p)
  {
  }

  lemma PartArrives(fs: FS, others: Others, part: Path, i: nat, arrived: FS)
    requires FsOk(fs) && part in fs.names
    requires arrived == CreateAll(if i == 0 then fs else Arrived(fs, others, i - 1), BatchAt(others, i))
    ensures arrived == Arrived(fs, others, i) && FsOk(arrived) && part in arrived.names
  {
    ArrivedKeeps(fs, others, i);
  }

  ghost predicate AllTaken(fs: FS, others: Others, t: Target, n: nat) {
    forall i: nat | i < n :: Taken(fs, others, t, i)
  }

  /** The names written to the record are the first candidates, in order. */
  ghost predicate InTurn(recorded: seq<Path>, t: Target) {
    forall i | 0 <= i < |recorded| :: recorded[i] == Candidate(t, i)
  }

  lemma OneMoreInTurn(recorded: seq<Path>, t: Target)
    requires InTurn(recorded, t)
    ensures InTurn(recorded + [Candidate(t, |recorded|)], t)
  {
  }

  lemma OneMoreTaken(fs: FS, others: Others, t: Target, n: nat)
    requires AllTaken(fs, others, t, n) && Taken(fs, others, t, n)
    ensures AllTaken(fs, others, t, n + 1)
  {
  }

  lemma IsChosen(fs: FS, others: Others, v: Volume, t: Target, n: nat)
    requires AllTaken(fs, others, t, n) && (n > 0 ==> Careful(v)) && (Careful(v) ==> !Taken(fs, others, t, n))
    ensures Chosen(fs, others, v, t, n)
  {
  }

  class Disk {
    var fs: FS

    constructor (fs: FS)
      ensures this.fs == fs
    {
      this.fs := fs;
    }

    /** link, or rename, or copyFile, each after the one before was refused; then the part is removed. */
    method Place(v: Volume, part: Path, candidate: Path, others: Others, index: nat, fault: Fault) returns (ok: bool)
      requires FsOk(fs) && part in fs.names
      modifies this
      ensures ok == !Throws(v, fault, index)
      ensures if ok then
                var late := Late(v, old(fs), others);
                && part in late.names && late.names[part] in late.blocks && fs == Placed(v, late, part, candidate)
              else fs == Broken(old(fs), others, part, candidate, fault)
    {
      LateKeeps(v, fs, others);
      if fault == LinkFault(index) {
        return false;
      }
      if v.canLink {
        fs := Link(fs, part, candidate);
      } else {
        fs := CreateAll(fs, others.afterLink);
        if fault == RenameFault {
          return false;
        }
        if v.canRename {
          fs := Rename(fs, part, candidate);
        } else {
          fs := CreateAll(fs, others.afterRename);
          if fault.CopyFault? {
            fs := CopySome(fs, part, candidate, fault.written);
            return false;
          }
          fs := CopyFile(fs, part, candidate);
        }
      }
      fs := Remove(fs, part);
      return true;
    }

    /**
     * commitPartNoClobber. `recorded` lists the candidates in the order in which they were
     * made durable, each before its attempt.
     */
    method CommitPart(v: Volume, t: Target, part: Path, others: Others, fault: Fault)
      returns (result: Result, recorded: seq<Path>)
      requires FsOk(fs) && part in fs.names
      modifies this
      ensures InTurn(recorded, t)
      ensures result.Committed? ==>
                var k := |recorded| - 1;
                && 0 <= k < ATTEMPTS && Chosen(old(fs), others, v, t, k) && result.path == recorded[k]
                && !Throws(v, fault, k)
                && var late := Late(v, Arrived(old(fs), others, k), others);
                   && part in late.names && late.names[part] in late.blocks
                   && fs == Placed(v, late, part, result.path)
      ensures result.Thrown? ==>
                var k := |recorded| - 1;
                && 0 <= k < ATTEMPTS && Chosen(old(fs), others, v, t, k) && Throws(v, fault, k)
                && fs == Broken(Arrived(old(fs), others, k), others, part, recorded[k], fault)
      ensures result.Exhausted? ==>
                && Careful(v) && AllTaken(old(fs), others, t, ATTEMPTS)
                && fs == Arrived(old(fs), others, ATTEMPTS - 1)
    {
      ghost var first := fs;
      recorded := [];
      var index := 0;
      while index < ATTEMPTS
        invariant index == |recorded| <= ATTEMPTS
        invariant InTurn(recorded, t)
        invariant fs == if index == 0 then first else Arrived(first, others, index - 1)
        invariant index > 0 ==> Careful(v)
        invariant AllTaken(first, others, t, index)
      {
        var candidate := Candidate(t, index);
        OneMoreInTurn(recorded, t);
        recorded := recorded + [candidate];
        fs := CreateAll(fs, BatchAt(others, index));
        PartArrives(first, others, part, index, fs);
        if candidate in fs.names && (v.canLink || v.takenFirst) {
          OneMoreTaken(first, others, t, index);
          index := index + 1;
          continue; // EEXIST
        }
        IsChosen(first, others, v, t, index);
        var ok := Place(v, part, candidate, others, index, fault);
        result := if ok then Committed(candidate) else Thrown;
        assert recorded[index] == candidate;
        return;
      }
      result := Exhausted;
    }
  }
}
