/** A mailbox folder on disk, and the sequence of messages it stands for. */
module VoicemailFolder {
  import opened Wrappers

  /** Where a file's name puts it: a numbered message, a message set aside while renumbering, or anything else. */
  datatype Place = Msg(n: nat) | Aside(index: nat, n: nat) | Other(name: string)

  datatype File = File(place: Place, suffix: string)

  type Content = string

  type Files = map<File, Content>

  /** One message: its files by suffix. */
  type Message = map<string, Content>

  const LIMIT: nat := 10000

  predicate Has(files: Files, n: nat) { exists f :: f in files && f.place == Msg(n) }

  /** Message numbers are four digits. */
  predicate FourDigits(files: Files) { forall f :: f in files && f.place.Msg? ==> f.place.n < LIMIT }

  /** No file is left aside by a renumbering that was cut short. */
  predicate NoneAside(files: Files) { forall f :: f in files ==> !f.place.Aside? }

  function StemsFrom(files: Files, n: nat): seq<nat>
    decreases LIMIT - n
  {
    if n >= LIMIT then [] else (if Has(files, n) then [n] else []) + StemsFrom(files, n + 1)
  }

  /** The numbers in use, in ascending order. */
  function Stems(files: Files): seq<nat> { StemsFrom(files, 0) }

  predicate Ascending(s: seq<nat>) { forall i, j :: 0 <= i < j < |s| ==> s[i] < s[j] }

  function MessageAt(files: Files, n: nat): Message {
    map f | f in files && f.place == Msg(n) :: f.suffix := files[f]
  }

  /** The folder as a sequence of messages. */
  function Messages(files: Files): seq<Message> { MessagesAt(files, Stems(files)) }

  function MessagesAt(files: Files, stems: seq<nat>): seq<Message> {
    seq(|stems|, i requires 0 <= i < |stems| => MessageAt(files, stems[i]))
  }

  lemma {:induction false} StemsFromAre(files: Files, n: nat)
    ensures Ascending(StemsFrom(files, n))
    ensures forall k: nat :: k in StemsFrom(files, n) <==> n <= k < LIMIT && Has(files, k)
    decreases LIMIT - n
  {
    hide Has;
    if n < LIMIT {
      var rest := StemsFrom(files, n + 1);
      StemsFromAre(files, n + 1);
      assert forall j :: 0 <= j < |rest| ==> rest[j] in rest;
    }
  }

  lemma StemsAre(files: Files)
    ensures Ascending(Stems(files))
    ensures forall k: nat :: k in Stems(files) <==> k < LIMIT && Has(files, k)
  {
    StemsFromAre(files, 0);
  }

  /** An ascending sequence is determined by what is in it. */
  lemma {:induction false} AscendingUnique(a: seq<nat>, b: seq<nat>)
    requires Ascending(a) && Ascending(b) && forall k: nat :: k in a <==> k in b
    ensures a == b
  {
    if b != [] { assert b[0] in b; }
    if a != [] {
      assert a[0] in b;
      assert b != [] && b[0] in a;
      assert a[0] == b[0];
      var x, y := a[1..], b[1..];
      forall k: nat ensures k in x <==> k in y {
        if k in x { var i :| 0 <= i < |x| && x[i] == k; assert a[i + 1] == k; assert k in b; }
        if k in y { var i :| 0 <= i < |y| && y[i] == k; assert b[i + 1] == k; assert k in a; }
      }
      AscendingUnique(x, y);
      assert a == [a[0]] + x && b == [b[0]] + y;
    }
  }

  // ---------------------------------------------------------------- moving files about

  /** Every original file is where `place` puts it, with its content, and nothing else is there. */
  ghost predicate Located(orig: Files, files: Files, place: File -> File) {
    && (forall f :: f in orig ==> place(f) in files && files[place(f)] == orig[f])
    && (forall g :: g in files ==> exists f :: f in orig && place(f) == g)
  }

  ghost predicate OneToOne(orig: Files, place: File -> File) {
    forall f, g :: f in orig && g in orig && place(f) == place(g) ==> f == g
  }

  /** The files after one rename. */
  function Renamed(files: Files, from: File, to: File): Files
    requires from in files
  {
    (files - {from})[to := files[from]]
  }

  /** A rename onto a free name moves one file and keeps every other where it was. */
  lemma RenameMoves(orig: Files, files: Files, before: File -> File, after: File -> File, moved: File)
    requires Located(orig, files, before) && OneToOne(orig, before)
    requires moved in orig && after(moved) !in files && forall f :: f in orig && f != moved ==> after(f) == before(f)
    ensures Located(orig, Renamed(files, before(moved), after(moved)), after)
  {}

  /** The place of a number among the numbers in use. */
  function IndexOf(stems: seq<nat>, n: nat): nat {
    if stems == [] then 0 else if stems[0] == n then 0 else 1 + IndexOf(stems[1..], n)
  }

  lemma {:induction false} IndexOfIs(stems: seq<nat>, n: nat)
    requires n in stems
    ensures IndexOf(stems, n) < |stems| && stems[IndexOf(stems, n)] == n
  {
    if stems[0] != n {
      assert stems == [stems[0]] + stems[1..];
      IndexOfIs(stems[1..], n);
    }
  }

  function AsideName(stems: seq<nat>, f: File): File {
    if f.place.Msg? then File(Aside(IndexOf(stems, f.place.n), f.place.n), f.suffix) else f
  }

  function FinalName(stems: seq<nat>, f: File): File {
    if f.place.Msg? then File(Msg(IndexOf(stems, f.place.n)), f.suffix) else f
  }

  /** Where files are while some have been set aside, or some have got their final name. */
  function During(stems: seq<nat>, aside: set<File>, done: set<File>): File -> File {
    f => if f in done then FinalName(stems, f) else if f in aside then AsideName(stems, f) else f
  }

  lemma MessageIndex(orig: Files, stems: seq<nat>, f: File)
    requires stems == Stems(orig) && FourDigits(orig) && f in orig
    ensures f.place.Msg? ==> IndexOf(stems, f.place.n) < |stems| && stems[IndexOf(stems, f.place.n)] == f.place.n
  {
    if f.place.Msg? {
      StemsAre(orig);
      assert Has(orig, f.place.n);
      IndexOfIs(stems, f.place.n);
    }
  }

  lemma DuringIsOneToOne(orig: Files, stems: seq<nat>, aside: set<File>, done: set<File>)
    requires NoneAside(orig) && stems == Stems(orig) && FourDigits(orig)
    requires (forall f :: f in aside ==> f.place.Msg?) && done <= aside && aside <= orig.Keys
    requires done == {} || aside == set f | f in orig && f.place.Msg?
    ensures OneToOne(orig, During(stems, aside, done))
  {
    hide Stems, IndexOf, Has;
    var place := During(stems, aside, done);
    forall f, g | f in orig && g in orig && place(f) == place(g) ensures f == g {
      MessageIndex(orig, stems, f);
      MessageIndex(orig, stems, g);
    }
  }

  /** The numbers 0 to k. */
  function Iota(k: nat): (r: seq<nat>)
    ensures |r| == k && forall i :: 0 <= i < k ==> r[i] == i
  {
    seq(k, i => i)
  }

  lemma IotaHas(k: nat)
    ensures forall i: nat :: i in Iota(k) <==> i < k
  {
    forall i: nat | i < k ensures i in Iota(k) { assert Iota(k)[i] == i; }
  }

  /** Renumbered: every message file is at the index of its number, every other file untouched. */
  ghost predicate Renumbered(orig: Files, files: Files) {
    Located(orig, files, f => FinalName(Stems(orig), f))
  }

  /** Renumbering gives 0, 1, 2, … to the same messages in the same order, and touches nothing else. */
  lemma RenumberedMeans(orig: Files, files: Files)
    requires NoneAside(orig) && FourDigits(orig) && Renumbered(orig, files)
    ensures Messages(files) == Messages(orig) && Stems(files) == Iota(|Stems(orig)|)
    ensures NoneAside(files) && FourDigits(files)
    ensures forall f: File :: !f.place.Msg? ==> (f in files <==> f in orig) && (f in orig ==> files[f] == orig[f])
  {
    hide StemsFrom, IndexOf;
    var stems := Stems(orig);
    StemsAre(orig);
    forall f | f in orig && f.place.Msg? ensures FinalName(stems, f).place.n < |stems| && stems[FinalName(stems, f).place.n] == f.place.n {
      assert Has(orig, f.place.n);
      IndexOfIs(stems, f.place.n);
    }
    forall i | 0 <= i < |stems| ensures MessageAt(files, i) == MessageAt(orig, stems[i]) && Has(files, i) { RenumberedAt(orig, files, stems, i); }
    StemsLength(orig);
    StemsAre(files);
    forall k: nat ensures k in Stems(files) <==> k in Iota(|stems|) {
      if k in Iota(|stems|) { assert Has(files, k); }
      if k in Stems(files) {
        var g :| g in files && g.place == Msg(k);
        var f :| f in orig && FinalName(stems, f) == g;
        assert Iota(|stems|)[k] == k;
      }
    }
    AscendingUnique(Stems(files), Iota(|stems|));
    assert Messages(files) == Messages(orig);
  }

  lemma RenumberedAt(orig: Files, files: Files, stems: seq<nat>, i: nat)
    requires FourDigits(orig) && Renumbered(orig, files) && stems == Stems(orig) && i < |stems|
    ensures MessageAt(files, i) == MessageAt(orig, stems[i]) && Has(files, i)
  {
    hide StemsFrom, IndexOf;
    StemsAre(orig);
    assert stems[i] in stems;
    IndexOfIs(stems, stems[i]);
    assert IndexOf(stems, stems[i]) == i;
    forall suffix ensures File(Msg(i), suffix) in files <==> File(Msg(stems[i]), suffix) in orig {
      if File(Msg(stems[i]), suffix) in orig { assert FinalName(stems, File(Msg(stems[i]), suffix)) == File(Msg(i), suffix); }
      if File(Msg(i), suffix) in files {
        var f :| f in orig && FinalName(stems, f) == File(Msg(i), suffix);
        assert Has(orig, f.place.n);
        IndexOfIs(stems, f.place.n);
      }
    }
    forall suffix | File(Msg(stems[i]), suffix) in orig
      ensures files[File(Msg(i), suffix)] == orig[File(Msg(stems[i]), suffix)]
    {
      assert FinalName(stems, File(Msg(stems[i]), suffix)) == File(Msg(i), suffix);
    }
    var a, b := MessageAt(files, i), MessageAt(orig, stems[i]);
    forall suffix ensures suffix in a <==> suffix in b {
      assert suffix in a <==> File(Msg(i), suffix) in files;
      assert suffix in b <==> File(Msg(stems[i]), suffix) in orig;
    }
    var f :| f in orig && f.place == Msg(stems[i]);
    assert File(Msg(i), f.suffix) in files;
  }

  /** There are at most as many numbers as four digits give. */
  lemma StemsLength(files: Files)
    ensures |Stems(files)| <= LIMIT
  {
    StemsFromLength(files, 0);
  }

  lemma {:induction false} StemsFromLength(files: Files, n: nat)
    requires n <= LIMIT
    ensures |StemsFrom(files, n)| <= LIMIT - n
    decreases LIMIT - n
  {
    if n < LIMIT { StemsFromLength(files, n + 1); }
  }

  // ---------------------------------------------------------------- what a rename may meet

  /** Nothing holds the name a message file is set aside under. */
  lemma AsideIsFree(orig: Files, files: Files, stems: seq<nat>, aside: set<File>, f: File)
    requires NoneAside(orig) && FourDigits(orig) && stems == Stems(orig) && aside <= orig.Keys && (forall g :: g in aside ==> g.place.Msg?)
    requires Located(orig, files, During(stems, aside, {})) && f in orig && f.place.Msg? && f !in aside
    ensures AsideName(stems, f) !in files && f in files && files[f] == orig[f]
  {}

  /** Nothing holds the final name of a message file once all of them have been set aside. */
  lemma FinalIsFree(orig: Files, files: Files, stems: seq<nat>, all: set<File>, done: set<File>, f: File)
    requires NoneAside(orig) && FourDigits(orig) && stems == Stems(orig) && all == (set g | g in orig && g.place.Msg?) && done <= all
    requires Located(orig, files, During(stems, all, done)) && f in all && f !in done
    ensures FinalName(stems, f) !in files && AsideName(stems, f) in files && files[AsideName(stems, f)] == orig[f]
  {
    hide Stems, IndexOf;
    var place := During(stems, all, done);
    assert place(f) == AsideName(stems, f);
    if FinalName(stems, f) in files {
      var g :| g in orig && place(g) == FinalName(stems, f);
      MessageIndex(orig, stems, f);
      MessageIndex(orig, stems, g);
    }
  }

  lemma SamePlaces(orig: Files, files: Files, a: File -> File, b: File -> File)
    requires Located(orig, files, a) && forall f :: f in orig ==> a(f) == b(f)
    ensures Located(orig, files, b)
  {}

  /** A folder on disk. `overwritten` collects every file whose name a rename or a move took over. */
  class MailFolder {
    var files: Files
    var overwritten: set<File>

    method Rename(from: File, to: File)
      requires from in files
      modifies this
      ensures files == Renamed(old(files), from, to)
      ensures overwritten == old(overwritten) + if to in old(files) && to != from then {to} else {}
    {
      if to in files && to != from { overwritten := overwritten + {to}; }
      files := (files - {from})[to := files[from]];
    }

    /** Write a file that comes from another folder. */
    method Put(to: File, content: Content)
      modifies this
      ensures files == old(files)[to := content]
      ensures overwritten == old(overwritten) + if to in old(files) then {to} else {}
    {
      if to in files { overwritten := overwritten + {to}; }
      files := files[to := content];
    }

    /** Number the messages 0, 1, 2, … in two passes, so that no rename meets a name still in use. */
    method Renumber()
      requires NoneAside(files) && FourDigits(files)
      modifies this
      ensures Renumbered(old(files), files) && overwritten == old(overwritten)
    {
      hide Stems, IndexOf, Located, AsideName, FinalName, During, Staged, NoneAside, FourDigits, Renumbered, Has, FilesBefore, MessageFiles, Set;
      var stems := Stems(files);
      ghost var orig := files;
      var staged: seq<(File, File)> := [];
      ghost var aside: seq<File> := [];
      StartsInPlace(orig, stems);
      for index := 0 to |stems|
        invariant overwritten == old(overwritten)
        invariant Located(orig, files, During(stems, Set(aside), {})) && Staged(stems, staged, aside)
        invariant Set(aside) == FilesBefore(orig, stems, index)
      {
        staged, aside := SetAside(stems, index, staged, orig, aside);
      }
      AllSetAside(orig, stems);
      NameAll(stems, staged, orig, aside);
    }

    /** The second pass: every file that was set aside takes its final name. */
    method NameAll(stems: seq<nat>, staged: seq<(File, File)>, ghost orig: Files, ghost aside: seq<File>)
      requires NoneAside(orig) && FourDigits(orig) && stems == Stems(orig)
      requires Staged(stems, staged, aside) && Set(aside) == MessageFiles(orig)
      requires Located(orig, files, During(stems, MessageFiles(orig), {}))
      modifies this
      ensures Renumbered(orig, files) && overwritten == old(overwritten)
    {
      hide Stems, IndexOf, Located, AsideName, FinalName, During, Staged, NoneAside, FourDigits, Renumbered, Has, FilesBefore, MessageFiles, Set;
      ghost var all := MessageFiles(orig);
      AllNamed(stems, staged, aside);
      for i := 0 to |staged|
        invariant overwritten == old(overwritten)
        invariant Located(orig, files, During(stems, all, Set(aside[..i])))
      {
        NextStaged(stems, staged, aside, i);
        GiveName(orig, files, stems, all, Set(aside[..i]), aside[i]);
        Rename(staged[i].0, staged[i].1);
      }
      EndsRenumbered(orig, files, stems, all);
    }

    /** Set aside every file of one message. */
    method SetAside(stems: seq<nat>, index: nat, before: seq<(File, File)>, ghost orig: Files, ghost was: seq<File>)
      returns (staged: seq<(File, File)>, ghost aside: seq<File>)
      requires NoneAside(orig) && FourDigits(orig) && stems == Stems(orig) && index < |stems|
      requires Located(orig, files, During(stems, Set(was), {})) && Staged(stems, before, was)
      requires Set(was) == FilesBefore(orig, stems, index)
      modifies this
      ensures overwritten == old(overwritten)
      ensures Located(orig, files, During(stems, Set(aside), {})) && Staged(stems, staged, aside)
      ensures Set(aside) == FilesBefore(orig, stems, index + 1)
    {
      hide Stems, IndexOf, Located, AsideName, FinalName, During, Staged, NoneAside, FourDigits, Has, Set, FilesBefore, MessageFiles;
      staged, aside := before, was;
      var pending := set f | f in files && f.place == Msg(stems[index]);
      StillInPlace(orig, files, stems, index, Set(was));
      FilesBeforeStep(orig, stems, index);
      while pending != {}
        invariant overwritten == old(overwritten)
        invariant Located(orig, files, During(stems, Set(aside), {})) && Staged(stems, staged, aside)
        invariant pending <= FilesOf(orig, stems[index])
        invariant Set(aside) == FilesBefore(orig, stems, index) + (FilesOf(orig, stems[index]) - pending)
        decreases pending
      {
        var f :| f in pending;
        PutAside(orig, files, stems, Set(aside), index, f);
        MoreStaged(stems, staged, aside, f, index);
        Rename(f, File(Aside(index, stems[index]), f.suffix));
        pending := pending - {f};
        staged := staged + [(File(Aside(index, stems[index]), f.suffix), File(Msg(index), f.suffix))];
        aside := aside + [f];
      }
    }
  }

  ghost function Set(s: seq<File>): set<File> { set f | f in s }

  ghost function MessageFiles(orig: Files): set<File> { set f | f in orig && f.place.Msg? }

  ghost function FilesOf(orig: Files, n: nat): set<File> { set f | f in orig && f.place == Msg(n) }

  /** The files of the first messages. */
  ghost function FilesBefore(orig: Files, stems: seq<nat>, index: nat): set<File>
    requires index <= |stems|
  {
    set f | f in orig && f.place.Msg? && f.place.n in stems[..index]
  }

  lemma FilesBeforeStep(orig: Files, stems: seq<nat>, index: nat)
    requires index < |stems| && stems == Stems(orig)
    ensures FilesBefore(orig, stems, index + 1) == FilesBefore(orig, stems, index) + FilesOf(orig, stems[index])
    ensures FilesBefore(orig, stems, index) !! FilesOf(orig, stems[index])
    ensures FilesBefore(orig, stems, index + 1) <= MessageFiles(orig)
  {
    StemsAre(orig);
    assert stems[..index + 1] == stems[..index] + [stems[index]];
    assert stems[index] !in stems[..index];
  }

  /** The list of renames still owed: where each file was set aside, and the name it gets. */
  ghost predicate Staged(stems: seq<nat>, staged: seq<(File, File)>, aside: seq<File>) {
    && |staged| == |aside|
    && (forall i :: 0 <= i < |staged| ==> staged[i] == (AsideName(stems, aside[i]), FinalName(stems, aside[i])))
    && (forall i, j :: 0 <= i < j < |aside| ==> aside[i] != aside[j])
  }

  lemma MoreStaged(stems: seq<nat>, staged: seq<(File, File)>, aside: seq<File>, f: File, index: nat)
    requires Staged(stems, staged, aside) && f !in Set(aside)
    requires f.place.Msg?
    requires AsideName(stems, f) == File(Aside(index, f.place.n), f.suffix) && FinalName(stems, f) == File(Msg(index), f.suffix)
    ensures Staged(stems, staged + [(File(Aside(index, f.place.n), f.suffix), File(Msg(index), f.suffix))], aside + [f])
    ensures Set(aside + [f]) == Set(aside) + {f}
  {
    hide AsideName, FinalName;
  }

  lemma NextStaged(stems: seq<nat>, staged: seq<(File, File)>, aside: seq<File>, i: nat)
    requires Staged(stems, staged, aside) && i < |staged|
    ensures i < |aside| && staged[i] == (AsideName(stems, aside[i]), FinalName(stems, aside[i]))
    ensures aside[i] !in Set(aside[..i]) && aside[i] in Set(aside)
    ensures Set(aside[..i]) <= Set(aside) && Set(aside[..i + 1]) == Set(aside[..i]) + {aside[i]}
  {
    assert aside[..i + 1] == aside[..i] + [aside[i]];
  }

  lemma AllNamed(stems: seq<nat>, staged: seq<(File, File)>, aside: seq<File>)
    requires Staged(stems, staged, aside)
    ensures |aside| == |staged| && aside[..|staged|] == aside && Set(aside[..0]) == {}
  {}

  lemma AllSetAside(orig: Files, stems: seq<nat>)
    requires FourDigits(orig) && stems == Stems(orig)
    ensures FilesBefore(orig, stems, |stems|) == MessageFiles(orig)
  {
    AllMessagesHaveStems(orig);
    assert stems[..|stems|] == stems;
  }

  /** One step of the first pass: the name is free, and the file is set aside under it. */
  lemma PutAside(orig: Files, files: Files, stems: seq<nat>, aside: set<File>, index: nat, f: File)
    requires NoneAside(orig) && FourDigits(orig) && stems == Stems(orig) && index < |stems|
    requires aside <= MessageFiles(orig) && f in FilesOf(orig, stems[index]) && f !in aside
    requires Located(orig, files, During(stems, aside, {}))
    ensures AsideName(stems, f) == File(Aside(index, f.place.n), f.suffix) && FinalName(stems, f) == File(Msg(index), f.suffix)
    ensures f in files && AsideName(stems, f) !in files
    ensures Located(orig, Renamed(files, f, AsideName(stems, f)), During(stems, aside + {f}, {}))
  {
    hide Stems, IndexOf, Located;
    AsideIsFree(orig, files, stems, aside, f);
    var before, after := During(stems, aside, {}), During(stems, aside + {f}, {});
    DuringIsOneToOne(orig, stems, aside, {});
    assert before(f) == f && after(f) == AsideName(stems, f);
    RenameMoves(orig, files, before, after, f);
    MessageIndex(orig, stems, f);
    StemsAre(orig);
  }

  /** One step of the second pass: the final name is free, and the file takes it. */
  lemma GiveName(orig: Files, files: Files, stems: seq<nat>, all: set<File>, done: set<File>, f: File)
    requires NoneAside(orig) && FourDigits(orig) && stems == Stems(orig) && all == MessageFiles(orig) && done <= all
    requires f in all && f !in done && Located(orig, files, During(stems, all, done))
    ensures AsideName(stems, f) in files && FinalName(stems, f) !in files
    ensures Located(orig, Renamed(files, AsideName(stems, f), FinalName(stems, f)), During(stems, all, done + {f}))
  {
    hide Stems, IndexOf, Located;
    FinalIsFree(orig, files, stems, all, done, f);
    var before, after := During(stems, all, done), During(stems, all, done + {f});
    DuringIsOneToOne(orig, stems, all, done);
    assert before(f) == AsideName(stems, f) && after(f) == FinalName(stems, f);
    RenameMoves(orig, files, before, after, f);
  }

  lemma StartsInPlace(orig: Files, stems: seq<nat>)
    ensures Located(orig, orig, During(stems, Set([]), {})) && Set([]) == {} && Staged(stems, [], [])
    ensures FilesBefore(orig, stems, 0) == {}
  {
    var place := During(stems, Set([]), {});
    assert forall f :: f in orig ==> place(f) == f;
  }

  lemma AllMessagesHaveStems(orig: Files)
    requires FourDigits(orig)
    ensures forall f :: f in orig && f.place.Msg? ==> f.place.n in Stems(orig)
  {
    StemsAre(orig);
    forall f | f in orig && f.place.Msg? ensures f.place.n in Stems(orig) { assert Has(orig, f.place.n); }
  }

  lemma EndsRenumbered(orig: Files, files: Files, stems: seq<nat>, all: set<File>)
    requires stems == Stems(orig) && all == MessageFiles(orig) && Located(orig, files, During(stems, all, all))
    ensures Renumbered(orig, files)
  {
    var place := During(stems, all, all);
    assert forall f :: f in orig && !f.place.Msg? ==> FinalName(stems, f) == f;
    SamePlaces(orig, files, place, f => FinalName(stems, f));
  }

  /** The files of a message that has not been set aside are where they were. */
  lemma StillInPlace(orig: Files, files: Files, stems: seq<nat>, index: nat, aside: set<File>)
    requires NoneAside(orig) && FourDigits(orig) && stems == Stems(orig) && index < |stems|
    requires Located(orig, files, During(stems, aside, {}))
    requires aside == FilesBefore(orig, stems, index)
    ensures (set f | f in files && f.place == Msg(stems[index])) == FilesOf(orig, stems[index])
  {
    hide IndexOf;
    StemsAre(orig);
    assert stems[index] !in stems[..index];
    var place := During(stems, aside, {});
    forall f | f in files && f.place == Msg(stems[index]) ensures f in orig {
      var g :| g in orig && place(g) == f;
    }
    forall f | f in orig && f.place == Msg(stems[index]) ensures f in files { assert place(f) == f; }
  }
}
