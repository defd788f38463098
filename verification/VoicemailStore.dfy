/** Deleting, reading and adopting messages: operations on whole mailbox folders. */
module VoicemailStore {
  import opened Wrappers
  import opened VoicemailFolder

  const TEXT: string := "txt"

  /** The folder without one message. */
  function Removed(files: Files, n: nat): Files { map f | f in files && f.place != Msg(n) :: files[f] }

  /** The first number at or after `n` that no message uses. */
  function GapFrom(files: Files, n: nat): nat
    decreases LIMIT - n
  {
    if n >= LIMIT || !Has(files, n) then n else GapFrom(files, n + 1)
  }

  function Gap(files: Files): nat { GapFrom(files, 0) }

  function FilesAt(files: Files, n: nat): set<File> { set f | f in files && f.place == Msg(n) }

  /** Some files of message `n` of one folder, moved into another as message `g`. */
  function PlacedSome(into: Files, from: Files, g: nat, n: nat, done: set<File>): Files
    requires done <= FilesAt(from, n)
  {
    map f | f in into.Keys + (set h | h in done :: File(Msg(g), h.suffix))
      :: if f in into then into[f] else from[File(Msg(n), f.suffix)]
  }

  /** The whole message moved. */
  function Placed(into: Files, from: Files, g: nat, n: nat): Files { PlacedSome(into, from, g, n, FilesAt(from, n)) }

  // ---------------------------------------------------------------- the operations

  /** Delete one message and close the gap it leaves. */
  method Delete(folder: MailFolder, n: nat) returns (ok: bool)
    requires NoneAside(folder.files) && FourDigits(folder.files)
    modifies folder
    ensures ok <==> Has(old(folder.files), n)
    ensures folder.overwritten == old(folder.overwritten)
    ensures if ok then Renumbered(Removed(old(folder.files), n), folder.files) else folder.files == old(folder.files)
  {
    hide Renumbered, Stems;
    ghost var orig := folder.files;
    var pending := FilesAt(folder.files, n);
    if pending == {} {
      assert forall f :: f in orig ==> f !in FilesAt(orig, n);
      return false;
    }
    var some :| some in pending;
    assert Has(orig, n);
    while pending != {}
      invariant pending <= FilesAt(orig, n)
      invariant folder.files == map f | f in orig && (f.place != Msg(n) || f in pending) :: orig[f]
      invariant folder.overwritten == old(folder.overwritten)
      decreases pending
    {
      var f :| f in pending;
      pending := pending - {f};
      folder.files := folder.files - {f};
    }
    assert folder.files == Removed(orig, n);
    folder.Renumber();
    return true;
  }

  /** The first free number of a folder, counted up. */
  method FirstGap(files: Files) returns (g: nat)
    requires FourDigits(files)
    ensures g == Gap(files)
  {
    hide Has;
    g := 0;
    while g < LIMIT && Has(files, g)
      invariant g <= LIMIT && GapFrom(files, g) == Gap(files)
    {
      g := g + 1;
    }
  }

  /** Move every file of one message into another folder under a free number. */
  method MoveMessage(source: MailFolder, destination: MailFolder, n: nat, g: nat)
    requires source != destination && !Has(destination.files, g)
    modifies source, destination
    ensures source.files == Removed(old(source.files), n)
    ensures destination.files == Placed(old(destination.files), old(source.files), g, n)
    ensures source.overwritten == old(source.overwritten) && destination.overwritten == old(destination.overwritten)
  {
    hide FilesAt, PlacedSome, Has, LeftSome;
    ghost var from, into := source.files, destination.files;
    var pending := FilesAt(source.files, n);
    ghost var done: set<File> := {};
    NothingMoved(into, from, g, n);
    while pending != {}
      invariant pending + done == FilesAt(from, n) && pending !! done
      invariant source.files == LeftSome(from, n, pending)
      invariant destination.files == PlacedSome(into, from, g, n, done)
      invariant source.overwritten == old(source.overwritten) && destination.overwritten == old(destination.overwritten)
      decreases pending
    {
      var f :| f in pending;
      var target := File(Msg(g), f.suffix);
      MoveOne(into, from, g, n, done, pending, f);
      var content := source.files[f];
      source.files := source.files - {f};
      destination.Put(target, content);
      pending := pending - {f};
      done := done + {f};
    }
    assert done == FilesAt(from, n);
    AllMoved(from, n);
  }

  /** Move one message of the inbox to the read folder, at its first free number, and close both gaps. */
  method MarkRead(inbox: MailFolder, read: MailFolder, n: nat) returns (ok: bool)
    requires inbox != read && NoneAside(inbox.files) && FourDigits(inbox.files) && NoneAside(read.files) && FourDigits(read.files)
    requires |Stems(read.files)| < LIMIT
    modifies inbox, read
    ensures ok <==> Has(old(inbox.files), n)
    ensures inbox.overwritten == old(inbox.overwritten) && read.overwritten == old(read.overwritten)
    ensures if ok
            then Renumbered(Removed(old(inbox.files), n), inbox.files)
                 && Renumbered(Placed(old(read.files), old(inbox.files), Gap(old(read.files)), n), read.files)
            else inbox.files == old(inbox.files) && read.files == old(read.files)
  {
    hide Renumbered, Stems, NoneAside, FourDigits, Gap, Removed, PlacedSome;
    NoFilesMeansAbsent(inbox.files, n);
    if FilesAt(inbox.files, n) == {} { return false; }
    GapIsFree(read.files);
    PlacedIsClean(read.files, inbox.files, Gap(read.files), n);
    RemovedIsClean(inbox.files, n);
    var g := FirstGap(read.files);
    MoveMessage(inbox, read, n, g);
    inbox.Renumber();
    read.Renumber();
    return true;
  }

  lemma NoFilesMeansAbsent(files: Files, n: nat)
    ensures FilesAt(files, n) == {} <==> !Has(files, n)
  {
    if FilesAt(files, n) == {} { assert forall f :: f in files ==> f !in FilesAt(files, n); }
  }

  /** The messages that still have their text file: the ones an adoption moves. */
  function TextStems(files: Files): seq<nat> { TextOf(files, Stems(files)) }

  function TextOf(files: Files, stems: seq<nat>): seq<nat> {
    if stems == [] then []
    else (if File(Msg(stems[0]), TEXT) in files then [stems[0]] else []) + TextOf(files, stems[1..])
  }

  datatype Both = Both(from: Files, into: Files)

  /** One folder after another message of it has moved to the other's first free number. */
  function AdoptAll(from: Files, into: Files, stems: seq<nat>): Both
    decreases |stems|
  {
    if stems == [] then Both(from, into)
    else AdoptAll(Removed(from, stems[0]), Placed(into, from, Gap(into), stems[0]), stems[1..])
  }

  /** Move every message with a text file into the mailbox the device files under now. */
  method Adopt(legacy: MailFolder, mailbox: MailFolder) returns (moved: nat)
    requires legacy != mailbox && NoneAside(legacy.files) && FourDigits(legacy.files) && NoneAside(mailbox.files) && FourDigits(mailbox.files)
    requires |Stems(mailbox.files)| + |TextStems(legacy.files)| <= LIMIT
    modifies legacy, mailbox
    ensures moved == |TextStems(old(legacy.files))|
    ensures Both(legacy.files, mailbox.files) == AdoptAll(old(legacy.files), old(mailbox.files), TextStems(old(legacy.files)))
    ensures legacy.overwritten == old(legacy.overwritten) && mailbox.overwritten == old(mailbox.overwritten)
  {
    hide Stems, TextOf, NoneAside, FourDigits, Gap, Removed, PlacedSome, Has, FilesAt;
    ghost var from, into := legacy.files, mailbox.files;
    var stems := TextStems(legacy.files);
    moved := 0;
    TextsAre(from);
    assert stems[0..] == stems;
    for i := 0 to |stems|
      invariant moved == i && NoneAside(mailbox.files) && FourDigits(mailbox.files)
      invariant |Stems(mailbox.files)| == |Stems(into)| + i
      invariant AdoptAll(legacy.files, mailbox.files, stems[i..]) == AdoptAll(from, into, stems)
      invariant forall j :: i <= j < |stems| ==> Has(legacy.files, stems[j])
      invariant legacy.overwritten == old(legacy.overwritten) && mailbox.overwritten == old(mailbox.overwritten)
    {
      assert stems[i..][0] == stems[i] && stems[i..][1..] == stems[i + 1..];
      GapIsFree(mailbox.files);
      PlacedIsClean(mailbox.files, legacy.files, Gap(mailbox.files), stems[i]);
      PlacedMeans(mailbox.files, legacy.files, stems[i]);
      OthersStay(legacy.files, stems[i]);
      var g := FirstGap(mailbox.files);
      MoveMessage(legacy, mailbox, stems[i], g);
      moved := moved + 1;
    }
    assert stems[|stems|..] == [];
  }

  // ---------------------------------------------------------------- what they mean

  lemma OthersStay(files: Files, n: nat)
    ensures forall k :: k != n && Has(files, k) ==> Has(Removed(files, n), k)
  {}

  lemma RemovedIsClean(files: Files, n: nat)
    requires NoneAside(files) && FourDigits(files)
    ensures NoneAside(Removed(files, n)) && FourDigits(Removed(files, n))
  {}

  lemma PlacedIsClean(into: Files, from: Files, g: nat, n: nat)
    requires NoneAside(into) && FourDigits(into) && g < LIMIT
    ensures NoneAside(Placed(into, from, g, n)) && FourDigits(Placed(into, from, g, n))
  {}

  lemma {:induction false} GapFromIs(files: Files, n: nat)
    requires n <= LIMIT
    ensures var g := GapFrom(files, n);
            n <= g <= LIMIT && (g < LIMIT ==> !Has(files, g)) && forall k :: n <= k < g ==> Has(files, k)
    decreases LIMIT - n
  {
    hide Has;
    if n < LIMIT && Has(files, n) { GapFromIs(files, n + 1); }
  }

  /** With room left, the first gap is a four-digit number nobody uses, and every number below it is used. */
  lemma GapIsFree(files: Files)
    requires FourDigits(files) && |Stems(files)| < LIMIT
    ensures Gap(files) < LIMIT && !Has(files, Gap(files))
    ensures forall k :: 0 <= k < Gap(files) ==> Has(files, k)
  {
    hide Has, Stems, FourDigits;
    GapFromIs(files, 0);
    if Gap(files) == LIMIT {
      StemsAre(files);
      FullMeansLimit(Stems(files));
    }
  }

  lemma FullMeansLimit(stems: seq<nat>)
    requires Ascending(stems) && forall k: nat :: k in stems <==> k < LIMIT
    ensures |stems| == LIMIT
  {
    var all := Iota(LIMIT);
    forall k: nat ensures k in all <==> k < LIMIT { if k < LIMIT { assert all[k] == k; } }
    AscendingUnique(stems, all);
  }

  /** Removing a message removes that element of the sequence and nothing else. */
  lemma RemovedMeans(files: Files, n: nat)
    requires FourDigits(files) && Has(files, n)
    ensures var i := IndexOf(Stems(files), n);
            i < |Stems(files)| && Messages(Removed(files, n)) == Messages(files)[..i] + Messages(files)[i + 1..]
            && Messages(files)[i] == MessageAt(files, n)
  {
    hide Stems, Has, IndexOf;
    var stems, rest := Stems(files), Removed(files, n);
    StemsAre(files);
    StemsAre(rest);
    HasIsFourDigits(files, n);
    IndexOfIs(stems, n);
    var i := IndexOf(stems, n);
    var shorter := stems[..i] + stems[i + 1..];
    forall k: nat ensures k in Stems(rest) <==> k in shorter { RemovedStem(files, n, stems, i, k); }
    AscendingUnique(Stems(rest), shorter);
    forall k: nat | k != n ensures MessageAt(rest, k) == MessageAt(files, k) { RemovedMessage(files, n, k); }
    assert Messages(rest) == Messages(files)[..i] + Messages(files)[i + 1..];
  }

  lemma HasIsFourDigits(files: Files, n: nat)
    requires FourDigits(files) && Has(files, n)
    ensures n < LIMIT
  {}

  lemma RemovedMessage(files: Files, n: nat, k: nat)
    requires k != n
    ensures MessageAt(Removed(files, n), k) == MessageAt(files, k) && (Has(Removed(files, n), k) <==> Has(files, k))
  {}

  lemma RemovedStem(files: Files, n: nat, stems: seq<nat>, i: nat, k: nat)
    requires stems == Stems(files) && i < |stems| && stems[i] == n
    ensures k in Stems(Removed(files, n)) <==> k in stems[..i] + stems[i + 1..]
  {
    hide Stems;
    StemsAre(files);
    StemsAre(Removed(files, n));
    if k == n {
      assert !Has(Removed(files, n), n);
      assert n !in stems[..i] && n !in stems[i + 1..];
    } else {
      RemovedMessage(files, n, k);
      if k in stems {
        var j :| 0 <= j < |stems| && stems[j] == k;
        if j < i { assert stems[..i][j] == k; } else { assert stems[i + 1..][j - i - 1] == k; }
      }
    }
  }

  /** Placing a message at the first gap inserts it there, after the messages numbered without a gap. */
  lemma PlacedMeans(into: Files, from: Files, n: nat)
    requires FourDigits(into) && |Stems(into)| < LIMIT && Has(from, n)
    ensures var g, next := Gap(into), Placed(into, from, Gap(into), n);
            && g <= |Stems(into)| && |Stems(next)| == |Stems(into)| + 1
            && Messages(next) == Messages(into)[..g] + [MessageAt(from, n)] + Messages(into)[g..]
  {
    hide Stems, Has, PlacedSome, Gap, FourDigits, MessageAt, FilesAt;
    var stems, g, next := Stems(into), Gap(into), Placed(into, from, Gap(into), n);
    GapIsFree(into);
    GapPrefix(into, stems, g);
    PlacedStems(into, from, g, n);
    forall k: nat ensures k != g ==> MessageAt(next, k) == MessageAt(into, k) { PlacedMessage(into, from, g, n, k); }
    PlacedMessage(into, from, g, n, g);
    SplitMessages(into, next, stems, g);
  }

  lemma PlacedStems(into: Files, from: Files, g: nat, n: nat)
    requires g < LIMIT && !Has(into, g) && Has(from, n) && forall k :: 0 <= k < g ==> Has(into, k)
    ensures g <= |Stems(into)| && Stems(Placed(into, from, g, n)) == Stems(into)[..g] + [g] + Stems(into)[g..]
  {
    hide Stems, Has, PlacedSome, FilesAt;
    var stems, next := Stems(into), Placed(into, from, g, n);
    GapPrefix(into, stems, g);
    StemsAre(into);
    StemsAre(next);
    var longer := stems[..g] + [g] + stems[g..];
    assert stems == stems[..g] + stems[g..];
    forall k: nat ensures k in Stems(next) <==> k in longer { PlacedMessage(into, from, g, n, k); }
    AscendingUnique(Stems(next), longer);
  }

  lemma SplitMessages(into: Files, next: Files, stems: seq<nat>, g: nat)
    requires stems == Stems(into) && g <= |stems| && Stems(next) == stems[..g] + [g] + stems[g..]
    requires g !in stems && forall k: nat :: k != g ==> MessageAt(next, k) == MessageAt(into, k)
    ensures Messages(next) == Messages(into)[..g] + [MessageAt(next, g)] + Messages(into)[g..]
  {
    hide Stems, MessageAt;
    assert forall j :: 0 <= j < |stems| ==> stems[j] in stems;
  }

  /** Below the first gap the numbers in use are 0, 1, 2, …, and those above it are larger. */
  lemma GapPrefix(files: Files, stems: seq<nat>, g: nat)
    requires stems == Stems(files) && g < LIMIT && !Has(files, g) && forall k :: 0 <= k < g ==> Has(files, k)
    ensures g <= |stems| && (forall j :: 0 <= j < g ==> stems[j] == j) && Ascending(stems[..g] + [g] + stems[g..])
    ensures g !in stems
  {
    hide Stems, Has;
    StemsAre(files);
    PrefixOf(stems, g);
    forall j | g <= j < |stems| ensures stems[j] > g {
      SpreadOut(stems, j);
      assert stems[j] in stems;
    }
  }

  lemma {:induction false} PrefixOf(stems: seq<nat>, g: nat)
    requires Ascending(stems) && forall k: nat :: k < g ==> k in stems
    ensures g <= |stems| && forall j :: 0 <= j < g ==> stems[j] == j
  {
    if g > 0 {
      PrefixOf(stems, g - 1);
      assert g - 1 in stems;
      var i :| 0 <= i < |stems| && stems[i] == g - 1;
      assert i >= g - 1;
      if i > g - 1 { SpreadOut(stems, i); }
    }
  }

  /** An ascending sequence of naturals is at least its own index everywhere. */
  lemma {:induction false} SpreadOut(stems: seq<nat>, i: nat)
    requires Ascending(stems) && i < |stems|
    ensures stems[i] >= i
  {
    if i > 0 { SpreadOut(stems, i - 1); }
  }

  lemma PlacedMessage(into: Files, from: Files, g: nat, n: nat, k: nat)
    requires !Has(into, g) && Has(from, n)
    ensures var next := Placed(into, from, g, n);
            if k == g then MessageAt(next, k) == MessageAt(from, n) && Has(next, k)
            else MessageAt(next, k) == MessageAt(into, k) && (Has(next, k) <==> Has(into, k))
  {}

  lemma TextsAre(files: Files)
    ensures Ascending(TextStems(files)) && forall n :: n in TextStems(files) ==> Has(files, n)
  {
    hide Stems;
    StemsAre(files);
    TextOfIs(files, Stems(files));
  }

  lemma {:induction false} TextOfIs(files: Files, stems: seq<nat>)
    requires Ascending(stems)
    ensures forall n :: n in TextOf(files, stems) <==> n in stems && File(Msg(n), TEXT) in files
    ensures Ascending(TextOf(files, stems))
  {
    if stems != [] {
      TextOfIs(files, stems[1..]);
      assert stems == [stems[0]] + stems[1..];
      var rest := TextOf(files, stems[1..]);
      assert forall j :: 0 <= j < |rest| ==> rest[j] in rest;
    }
  }

  /** The folder while some files of message `n` are still to be moved. */
  function LeftSome(from: Files, n: nat, pending: set<File>): Files {
    map f | f in from && (f.place != Msg(n) || f in pending) :: from[f]
  }

  lemma NothingMoved(into: Files, from: Files, g: nat, n: nat)
    ensures LeftSome(from, n, FilesAt(from, n)) == from && PlacedSome(into, from, g, n, {}) == into
  {}

  lemma AllMoved(from: Files, n: nat)
    ensures LeftSome(from, n, {}) == Removed(from, n)
  {}

  /** Moving one more file: its new name is free, and both folders are as they should be. */
  lemma MoveOne(into: Files, from: Files, g: nat, n: nat, done: set<File>, pending: set<File>, f: File)
    requires pending + done == FilesAt(from, n) && pending !! done && f in pending && !Has(into, g)
    ensures var target := File(Msg(g), f.suffix);
            && f in LeftSome(from, n, pending) && LeftSome(from, n, pending)[f] == from[f]
            && target !in PlacedSome(into, from, g, n, done)
            && PlacedSome(into, from, g, n, done + {f}) == PlacedSome(into, from, g, n, done)[target := from[f]]
            && LeftSome(from, n, pending - {f}) == LeftSome(from, n, pending) - {f}
  {
    hide LeftSome, PlacedSome;
    PlaceOneMore(into, from, g, n, done, f);
    TakeOne(from, n, pending, f);
  }

  lemma PlaceOneMore(into: Files, from: Files, g: nat, n: nat, done: set<File>, f: File)
    requires done <= FilesAt(from, n) && f in FilesAt(from, n) && f !in done && !Has(into, g)
    ensures var target := File(Msg(g), f.suffix);
            && target !in PlacedSome(into, from, g, n, done)
            && PlacedSome(into, from, g, n, done + {f}) == PlacedSome(into, from, g, n, done)[target := from[f]]
  {
    assert File(Msg(g), f.suffix) !in into;
  }

  lemma TakeOne(from: Files, n: nat, pending: set<File>, f: File)
    requires pending <= FilesAt(from, n) && f in pending
    ensures f in LeftSome(from, n, pending) && LeftSome(from, n, pending)[f] == from[f]
    ensures LeftSome(from, n, pending - {f}) == LeftSome(from, n, pending) - {f}
  {}
}
