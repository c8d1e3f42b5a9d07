/**
 * The neighbour directory of components/CommunityHub.tsx: the four named
 * directory filters, the filtered list they produce, and the buttons each
 * neighbour card offers. The directory only reads the list it is given.
 */
module CommunityHub {
  import opened Types
  import opened Arrays
  import App

  /** The four named filters of the directory. */
  datatype DirectoryFilter = All | SignedOnly | MissingContact | NonResident

  /** The filter selected when the directory opens. */
  const InitialFilter: DirectoryFilter := All

  /** The filter's predicate on one neighbour. */
  predicate Keep(f: DirectoryFilter, n: Neighbor) {
    match f
    case All => true
    case SignedOnly => n.status == Signed
    case MissingContact => n.contactStatus == Missing
    case NonResident => !n.isResident
  }

  /** `Keep(f, _)` as a value, the callback handed to `Array.prototype.filter`. */
  function KeepFn(f: DirectoryFilter): Neighbor -> bool {
    n => Keep(f, n)
  }

  /** `filteredNeighbors`: the neighbours the selected filter lets through. */
  function Filtered(ns: seq<Neighbor>, f: DirectoryFilter): (r: seq<Neighbor>)
    ensures |r| <= |ns|
    ensures forall k :: 0 <= k < |r| ==> Keep(f, r[k])
    ensures |r| == |MatchingPositions(ns, KeepFn(f))|
  {
    FilterCounts(ns, KeepFn(f));
    Filter(ns, KeepFn(f))
  }

  /**
   * The filtered list is the order-preserving subsequence of `ns` at exactly
   * the positions whose neighbour satisfies the filter, and it holds exactly
   * the neighbours of `ns` that satisfy it.
   */
  lemma FilteredSelects(ns: seq<Neighbor>, f: DirectoryFilter)
    ensures exists idx :: IsSelection(idx, Filtered(ns, f), ns, KeepFn(f))
    ensures forall n :: n in Filtered(ns, f) <==> n in ns && Keep(f, n)
    ensures |Filtered(ns, f)| == |MatchingPositions(ns, KeepFn(f))|
  {
    FilterSelects(ns, KeepFn(f));
    assert IsSelection(KeptPositions(ns, KeepFn(f)), Filtered(ns, f), ns, KeepFn(f));
    FilterMembership(ns, KeepFn(f));
    FilterCounts(ns, KeepFn(f));
  }

  /** The `all` filter, the one selected on opening, returns the list unchanged. */
  lemma FilterAllIsIdentity(ns: seq<Neighbor>)
    ensures Filtered(ns, All) == ns
    ensures Filtered(ns, InitialFilter) == ns
  {
    FilterAllMatching(ns, KeepFn(All));
  }

  /** Selecting the same filter again changes nothing. */
  lemma FilterIdempotent(ns: seq<Neighbor>, f: DirectoryFilter)
    ensures Filtered(Filtered(ns, f), f) == Filtered(ns, f)
  {
    Arrays.FilterIdempotent(ns, KeepFn(f));
  }

  /** The directory's `signed` filter keeps the same neighbours the shell counts as signed. */
  lemma SignedFilterMatchesCount(ns: seq<Neighbor>)
    ensures |Filtered(ns, SignedOnly)| == App.ComputeStats(ns).signedUnits
  {
    FilterAgreeing(ns, KeepFn(SignedOnly), App.IsSigned);
  }

  /** On the seed list the `signed` filter gives the owners "1" and "2". */
  lemma SeedSignedFilter()
    ensures Filtered(App.MockNeighbors, SignedOnly) == [App.MockNeighbors[0], App.MockNeighbors[1]]
  {
    App.SeedStats();
    FilterAgreeing(App.MockNeighbors, KeepFn(SignedOnly), App.IsSigned);
  }

  /** On the seed list the `missing_contact` filter gives the owners "4" and "6". */
  lemma SeedMissingContactFilter()
    ensures Filtered(App.MockNeighbors, MissingContact) == [App.MockNeighbors[3], App.MockNeighbors[5]]
    ensures App.MockNeighbors[3].id == "4" && App.MockNeighbors[5].id == "6"
  {
    FilterIsFilterFrontFirst(App.MockNeighbors, KeepFn(MissingContact));
  }

  /** On the seed list the `non_resident` filter gives the owners "3" and "6". */
  lemma SeedNonResidentFilter()
    ensures Filtered(App.MockNeighbors, NonResident) == [App.MockNeighbors[2], App.MockNeighbors[5]]
    ensures App.MockNeighbors[2].id == "3" && App.MockNeighbors[5].id == "6"
  {
    FilterIsFilterFrontFirst(App.MockNeighbors, KeepFn(NonResident));
  }

  /** The buttons a neighbour card can show. */
  datatype CardButton = AddDetails | Message | Remind

  /** The buttons of one card, left to right. */
  function CardButtons(n: Neighbor): (r: seq<CardButton>)
    ensures 1 <= |r| <= 2
    ensures r[0] == (if n.contactStatus == Missing then AddDetails else Message)
    ensures Remind in r <==> n.status == Pending && n.contactStatus != Missing
    ensures Remind in r ==> r == [Message, Remind]
    ensures |r| == (if Remind in r then 2 else 1)
  {
    var first := if n.contactStatus == Missing then AddDetails else Message;
    if n.status == Pending && n.contactStatus != Missing then [first, Remind] else [first]
  }

  /**
   * An owner without contact details is offered only "Add Details": never a
   * message or a reminder. Signed and opposed owners are never reminded.
   */
  lemma MissingContactOnlyAddDetails(n: Neighbor)
    ensures n.contactStatus == Missing <==> CardButtons(n) == [AddDetails]
    ensures AddDetails in CardButtons(n) ==> Remind !in CardButtons(n) && Message !in CardButtons(n)
    ensures n.status != Pending ==> Remind !in CardButtons(n)
  {
  }

  /** On the seed list only "3" and "5" get a reminder button. */
  lemma SeedReminders()
    ensures forall i :: 0 <= i < |App.MockNeighbors| ==>
      (Remind in CardButtons(App.MockNeighbors[i]) <==> i == 2 || i == 4)
  {
  }
}
