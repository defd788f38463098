/** Mailbox folders as sequences of messages: nothing is lost, duplicated or overwritten. */
module VoicemailLaws {
  import opened Wrappers
  import opened VoicemailFolder
  import opened VoicemailStore

  /** A folder that holds no leftovers and whose messages are numbered with four digits. */
  predicate Tidy(files: Files) { NoneAside(files) && FourDigits(files) }

  /** Deleting a message removes that element of the sequence; the rest are 0, 1, 2, … in their old order. */
  lemma DeleteRemovesOne(files: Files, n: nat, after: Files)
    requires Tidy(files) && Has(files, n) && Renumbered(Removed(files, n), after)
    ensures var i := IndexOf(Stems(files), n);
            && i < |Messages(files)| && Messages(files)[i] == MessageAt(files, n)
            && Messages(after) == Messages(files)[..i] + Messages(files)[i + 1..]
            && Stems(after) == Iota(|Messages(files)| - 1)
  {
    hide Stems, Has, Renumbered, IndexOf, MessageAt;
    RemovedIsClean(files, n);
    RenumberedMeans(Removed(files, n), after);
    RemovedMeans(files, n);
    assert |Messages(after)| == |Stems(after)|;
  }

  /** Reading a message takes it out of the inbox and puts it, whole, at the first free place of the read folder. */
  lemma MarkReadMovesOne(inbox: Files, read: Files, n: nat, inboxAfter: Files, readAfter: Files)
    requires Tidy(inbox) && Tidy(read) && Has(inbox, n) && |Stems(read)| < LIMIT
    requires Renumbered(Removed(inbox, n), inboxAfter) && Renumbered(Placed(read, inbox, Gap(read), n), readAfter)
    ensures var i, g := IndexOf(Stems(inbox), n), Gap(read);
            && i < |Messages(inbox)| && g <= |Messages(read)|
            && Messages(inboxAfter) == Messages(inbox)[..i] + Messages(inbox)[i + 1..]
            && Messages(readAfter) == Messages(read)[..g] + [Messages(inbox)[i]] + Messages(read)[g..]
  {
    hide Stems, Has, Renumbered, IndexOf, MessageAt, Gap, Placed;
    DeleteRemovesOne(inbox, n, inboxAfter);
    GapIsFree(read);
    PlacedIsClean(read, inbox, Gap(read), n);
    PlacedMeans(read, inbox, n);
    RenumberedMeans(Placed(read, inbox, Gap(read), n), readAfter);
  }

  // ---------------------------------------------------------------- adoption

  /** The messages of these numbers, in order. */
  function Taken(files: Files, stems: seq<nat>): seq<Message> { MessagesAt(files, stems) }

  /** A folder whose messages are numbered 0, 1, 2, … without a gap. */
  predicate Contiguous(files: Files) { Stems(files) == Iota(|Stems(files)|) }

  /**
   * Into a mailbox numbered without gaps, adoption appends the legacy messages in their order, and the legacy
   * folder keeps only what was not moved.
   */
  lemma {:induction false} AdoptAppends(from: Files, into: Files, stems: seq<nat>)
    requires Tidy(from) && Tidy(into) && Contiguous(into) && |Stems(into)| + |stems| <= LIMIT
    requires Ascending(stems) && forall n :: n in stems ==> Has(from, n)
    ensures var both := AdoptAll(from, into, stems);
            && Messages(both.into) == Messages(into) + Taken(from, stems)
            && Contiguous(both.into) && Tidy(both.into) && Tidy(both.from)
    decreases |stems|
  {
    hide Stems, Has, Placed, Gap, MessageAt, Removed, NoneAside, FourDigits;
    if stems == [] {
      assert Messages(into) + Taken(from, stems) == Messages(into);
    } else {
      var n, rest := stems[0], stems[1..];
      var next, left := Placed(into, from, Gap(into), n), Removed(from, n);
      GapIsFree(into);
      PlacedIsClean(into, from, Gap(into), n);
      RemovedIsClean(from, n);
      PlacedAtEnd(into, from, n);
      OthersStay(from, n);
      AdoptAppends(left, next, rest);
      forall k: nat | k != n ensures MessageAt(left, k) == MessageAt(from, k) { RemovedMessage(from, n, k); }
      assert Taken(left, rest) == Taken(from, rest);
      assert Taken(from, stems) == [MessageAt(from, n)] + Taken(from, rest);
    }
  }

  lemma PlacedAtEnd(into: Files, from: Files, n: nat)
    requires Tidy(into) && Contiguous(into) && |Stems(into)| < LIMIT && Has(from, n)
    ensures var next := Placed(into, from, Gap(into), n);
            && Messages(next) == Messages(into) + [MessageAt(from, n)]
            && Contiguous(next) && |Stems(next)| == |Stems(into)| + 1
  {
    hide Stems, Has, Placed, MessageAt, Gap;
    var stems, g := Stems(into), Gap(into);
    GapIsFree(into);
    StemsAre(into);
    PlacedMeans(into, from, n);
    PlacedStems(into, from, g, n);
    GapPrefix(into, stems, g);
    IotaHas(|stems|);
    assert g == |stems|;
    assert stems[..g] + [g] + stems[g..] == Iota(g + 1);
    assert Messages(into)[..g] + [MessageAt(from, n)] + Messages(into)[g..] == Messages(into) + [MessageAt(from, n)];
  }

  /**
   * Whatever gaps there are, adoption keeps every file that was in the mailbox, gives every adopted message a
   * number of its own with all its files, and leaves every other file of the legacy folder where it was.
   */
  lemma {:induction false} AdoptLosesNothing(from: Files, into: Files, stems: seq<nat>)
    requires Tidy(from) && Tidy(into) && |Stems(into)| + |stems| <= LIMIT
    requires Ascending(stems) && forall n :: n in stems ==> Has(from, n)
    ensures var both := AdoptAll(from, into, stems);
            && (forall f :: f in into ==> f in both.into && both.into[f] == into[f])
            && (forall n :: n in stems ==> exists g: nat :: !Has(into, g) && MessageAt(both.into, g) == MessageAt(from, n))
            && (forall f :: f in both.from <==> f in from && !(f.place.Msg? && f.place.n in stems))
            && (forall f :: f in both.from ==> both.from[f] == from[f])
            && |Stems(both.into)| == |Stems(into)| + |stems|
    decreases |stems|
  {
    hide Stems, Placed, Gap, MessageAt, NoneAside, FourDigits;
    if stems != [] {
      var n, rest := stems[0], stems[1..];
      var next, left := Placed(into, from, Gap(into), n), Removed(from, n);
      var both := AdoptAll(left, next, rest);
      assert stems == [n] + rest;
      GapIsFree(into);
      PlacedIsClean(into, from, Gap(into), n);
      RemovedIsClean(from, n);
      PlacedMeans(into, from, n);
      PlacedKeeps(into, from, Gap(into), n);
      OthersStay(from, n);
      assert forall k :: k in rest ==> k != n by { assert forall j :: 0 <= j < |rest| ==> rest[j] == stems[j + 1]; }
      AdoptLosesNothing(left, next, rest);
      PlacedMessage(into, from, Gap(into), n, Gap(into));
      NumberKept(next, both.into, left, rest, Gap(into));
      forall k | k in stems ensures exists g: nat :: !Has(into, g) && MessageAt(both.into, g) == MessageAt(from, k) {
        if k != n {
          RemovedMessage(from, n, k);
          var g: nat :| !Has(next, g) && MessageAt(both.into, g) == MessageAt(left, k);
          PlacedMessage(into, from, Gap(into), n, g);
        }
      }
    }
  }

  lemma PlacedKeeps(into: Files, from: Files, g: nat, n: nat)
    requires !Has(into, g)
    ensures forall f :: f in into ==> f in Placed(into, from, g, n) && Placed(into, from, g, n)[f] == into[f]
  {}

  /** Once a message has its number, later adoptions leave that number alone. */
  lemma {:induction false} NumberKept(into: Files, after: Files, from: Files, stems: seq<nat>, g: nat)
    requires Tidy(from) && Tidy(into) && |Stems(into)| + |stems| <= LIMIT
    requires Ascending(stems) && (forall n :: n in stems ==> Has(from, n)) && after == AdoptAll(from, into, stems).into && Has(into, g)
    ensures MessageAt(after, g) == MessageAt(into, g)
    decreases |stems|
  {
    hide Stems, Placed, Gap, MessageAt, NoneAside, FourDigits, Has, Removed;
    if stems != [] {
      var n, rest := stems[0], stems[1..];
      var next, left := Placed(into, from, Gap(into), n), Removed(from, n);
      assert stems == [n] + rest;
      GapIsFree(into);
      PlacedIsClean(into, from, Gap(into), n);
      RemovedIsClean(from, n);
      PlacedMeans(into, from, n);
      PlacedMessage(into, from, Gap(into), n, g);
      OthersStay(from, n);
      assert forall k :: k in rest ==> k != n by { assert forall j :: 0 <= j < |rest| ==> rest[j] == stems[j + 1]; }
      NumberKept(next, after, left, rest, g);
    }
  }

  /** A second adoption finds nothing to move. */
  lemma SecondAdoptMovesNone(from: Files, into: Files)
    requires Tidy(from) && Tidy(into) && |Stems(into)| + |TextStems(from)| <= LIMIT
    ensures TextStems(AdoptAll(from, into, TextStems(from)).from) == []
  {
    hide Stems, TextOf, Has;
    var stems := TextStems(from);
    var left := AdoptAll(from, into, stems).from;
    TextsAre(from);
    AdoptLosesNothing(from, into, stems);
    StemsAre(from);
    StemsAre(left);
    TextOfIs(from, Stems(from));
    TextOfIs(left, Stems(left));
    if TextStems(left) != [] {
      var n := TextStems(left)[0];
      assert n in TextStems(left);
      HasText(from, n);
    }
  }

  lemma HasText(files: Files, n: nat)
    requires FourDigits(files) && File(Msg(n), TEXT) in files
    ensures n < LIMIT && Has(files, n)
  {}
}
