/** The shared client utilities: the `cn` class-name combinator and the
    session-scoped comparison selection kept under the storage key
    `compare.selectedIds`, read and written through get/set/add/remove/clear. */
module Utils {
  import opened Seqs
  import opened Text

  // ---- cn ----

  /** One argument of `cn`: a class string, or `false`/`null`/`undefined`. */
  datatype ClassArg = ClassName(name: string) | NoClass

  /** The text of an argument; `false`, `null` and `undefined` have none. */
  function ClassText(a: ClassArg): string
  {
    if a.ClassName? then a.name else ""
  }

  function ClassTexts(args: seq<ClassArg>): (r: seq<string>)
    ensures |r| == |args|
    ensures forall k :: 0 <= k < |r| ==> r[k] == ClassText(args[k])
  {
    if args == [] then [] else [ClassText(args[0])] + ClassTexts(args[1..])
  }

  /** A class string occurs among the texts as often as among the arguments. */
  lemma {:induction false} ClassTextsCount(args: seq<ClassArg>, x: string)
    requires x != ""
    ensures multiset(ClassTexts(args))[x] == multiset(args)[ClassName(x)]
  {
    if args != [] {
      var head, rest := args[0], args[1..];
      ClassTextsCount(rest, x);
      assert args == [head] + rest;
      assert ClassTexts(args) == [ClassText(head)] + ClassTexts(rest);
      assert multiset(args)[ClassName(x)] == multiset([head])[ClassName(x)] + multiset(rest)[ClassName(x)];
      assert multiset(ClassTexts(args))[x] == multiset([ClassText(head)])[x] + multiset(ClassTexts(rest))[x];
      assert ClassText(head) == x <==> head == ClassName(x);
    }
  }

  /** The arguments `filter(Boolean)` keeps: every non-empty class string, in
      argument order and as often as it is passed, and nothing else. */
  function TruthyClasses(args: seq<ClassArg>): (kept: seq<string>)
    ensures forall x :: x in kept <==> x != "" && ClassName(x) in args
    ensures forall x :: x != "" ==> multiset(kept)[x] == multiset(args)[ClassName(x)]
    ensures IsSubsequence(kept, ClassTexts(args))
    ensures forall k :: 0 <= k < |kept| ==> kept[k] != ""
  {
    var texts := ClassTexts(args);
    FilterIsSubsequence(texts, NonEmptyText);
    TruthyCounts(args);
    Filter(texts, NonEmptyText)
  }

  lemma TruthyCounts(args: seq<ClassArg>)
    ensures forall x :: x != "" ==> multiset(Filter(ClassTexts(args), NonEmptyText))[x] == multiset(args)[ClassName(x)]
    ensures forall x :: x in Filter(ClassTexts(args), NonEmptyText) <==> x != "" && ClassName(x) in args
    ensures forall k :: 0 <= k < |Filter(ClassTexts(args), NonEmptyText)| ==> Filter(ClassTexts(args), NonEmptyText)[k] != ""
  {
    var kept := Filter(ClassTexts(args), NonEmptyText);
    forall x | x != "" ensures multiset(kept)[x] == multiset(args)[ClassName(x)] {
      ClassTextsCount(args, x);
    }
    forall x ensures x in kept <==> x != "" && ClassName(x) in args {
      if x != "" {
        assert x in kept <==> multiset(kept)[x] > 0;
        assert ClassName(x) in args <==> multiset(args)[ClassName(x)] > 0;
      }
    }
    forall k | 0 <= k < |kept| ensures kept[k] != "" {
      assert kept[k] in kept;
    }
  }

  /** `cn(...classes)`: the truthy class strings joined by single spaces. */
  function Cn(args: seq<ClassArg>): (r: string)
    ensures forall k :: 0 <= k < |args| && args[k].ClassName? && args[k].name != "" ==> Contains(r, args[k].name)
  {
    var kept := TruthyClasses(args);
    JoinContainsParts(kept, " ");
    assert forall k :: 0 <= k < |args| && args[k].ClassName? && args[k].name != "" ==> args[k].name in kept by {
      forall k | 0 <= k < |args| && args[k].ClassName? && args[k].name != "" ensures args[k].name in kept {
        assert ClassName(args[k].name) in args;
      }
    }
    Join(kept, " ")
  }

  /** The combined class attribute is empty exactly when no argument is truthy. */
  lemma CnEmptyIff(args: seq<ClassArg>)
    ensures Cn(args) == "" <==> TruthyClasses(args) == []
  {
    JoinEmptyIff(TruthyClasses(args), " ");
  }

  /** Splitting the combined attribute on spaces gives back the truthy classes,
      in their order, when each is a single class name. */
  lemma CnSplitsBack(args: seq<ClassArg>)
    requires TruthyClasses(args) != []
    requires forall k :: 0 <= k < |TruthyClasses(args)| ==> ' ' !in TruthyClasses(args)[k]
    ensures Split(Cn(args), ' ') == TruthyClasses(args)
  {
    SplitJoin(TruthyClasses(args), ' ');
  }

  // ---- comparison selection ----

  /** `COMPARISON_LIMIT`. */
  const ComparisonLimit: nat := 3

  /** `compare.selectedIds`, the session-storage key of the selection. */
  const StorageKey: string := "compare.selectedIds"

  /** What the storage slot holds, as `getComparisonIds` reads it: nothing
      (absent key, empty text, or storage that cannot be read), text that fails
      to parse as JSON, JSON that is not an array, or an array of ids. */
  datatype Stored = Missing | Malformed | NotAnArray | ArrayOf(items: seq<string>)

  /** `getComparisonIds()` on a given slot. */
  function ReadIds(slot: Stored): (ids: seq<string>)
    ensures |ids| <= ComparisonLimit
    ensures slot.ArrayOf? ==> |ids| <= |slot.items| && ids == slot.items[..|ids|] && (|ids| < ComparisonLimit ==> ids == slot.items)
  {
    if slot.ArrayOf? then Take(slot.items, ComparisonLimit) else []
  }

  /** The reading is empty unless the slot holds an array, and is then its
      first min(n, 3) elements in stored order. */
  lemma ReadIdsCases(slot: Stored)
    ensures !slot.ArrayOf? ==> ReadIds(slot) == []
    ensures slot.ArrayOf? ==> |ReadIds(slot)| == Min(|slot.items|, 3)
    ensures slot.ArrayOf? ==> forall i :: 0 <= i < |ReadIds(slot)| ==> ReadIds(slot)[i] == slot.items[i]
    ensures |ReadIds(slot)| <= ComparisonLimit
  {
  }

  /** What `setComparisonIds(ids)` stores when the write succeeds. */
  function Written(ids: seq<string>): (slot: Stored)
    ensures slot.ArrayOf? && |slot.items| <= ComparisonLimit
    ensures ReadIds(slot) == slot.items
    ensures |slot.items| <= |ids| && slot.items == ids[..|slot.items|] && (|ids| <= ComparisonLimit ==> slot.items == ids)
  {
    ArrayOf(Take(ids, ComparisonLimit))
  }

  /** Round trip: reading back after a successful write gives the first
      min(|ids|, 3) ids, in order. */
  lemma ReadAfterWrite(ids: seq<string>)
    ensures ReadIds(Written(ids)) == Take(ids, ComparisonLimit)
    ensures ReadIds(Written(ids)) == ids[..Min(|ids|, 3)]
  {
  }

  /** The session-storage slot of the comparison selection. Writes may fail
      (quota, disabled storage); a failing write is given as `writeFails`, and
      is swallowed: the slot keeps its old content and nothing is reported. */
  class ComparisonStore {
    var slot: Stored

    constructor (initial: Stored)
      ensures slot == initial
    {
      slot := initial;
    }

    /** `getComparisonIds()`. */
    method GetComparisonIds() returns (ids: seq<string>)
      ensures ids == ReadIds(slot)
      ensures |ids| <= ComparisonLimit
    {
      if slot.ArrayOf? {
        ids := Take(slot.items, ComparisonLimit);
      } else {
        ids := [];
      }
    }

    /** `setComparisonIds(ids)`. */
    method SetComparisonIds(ids: seq<string>, writeFails: bool)
      modifies this
      ensures slot == if writeFails then old(slot) else Written(ids)
      ensures !writeFails ==> ReadIds(slot) == Take(ids, ComparisonLimit)
    {
      if !writeFails {
        slot := Written(ids);
      }
    }

    /** `addToComparison(id)`: refused when the id is already selected or three
        are selected; otherwise appended at the end. The result is `true`
        even when the write then fails, as the source swallows that error. */
    method AddToComparison(id: string, writeFails: bool) returns (added: bool)
      modifies this
      ensures added <==> id !in ReadIds(old(slot)) && |ReadIds(old(slot))| < ComparisonLimit
      ensures added && !writeFails ==> slot == ArrayOf(ReadIds(old(slot)) + [id])
      ensures !added || writeFails ==> slot == old(slot)
      ensures added && !writeFails ==> ReadIds(slot) == ReadIds(old(slot)) + [id]
    {
      var current := GetComparisonIds();
      if id in current {
        return false;
      }
      if |current| >= ComparisonLimit {
        return false;
      }
      SetComparisonIds(current + [id], writeFails);
      return true;
    }

    /** `removeFromComparison(id)`: refused when the id is not among the ids
        read; otherwise every occurrence is removed and the rest keep their
        order. The rewrite also drops anything stored beyond the first three. */
    method RemoveFromComparison(id: string, writeFails: bool) returns (removed: bool)
      modifies this
      ensures removed <==> id in ReadIds(old(slot))
      ensures removed && !writeFails ==> slot == ArrayOf(RemoveAll(ReadIds(old(slot)), id))
      ensures !removed || writeFails ==> slot == old(slot)
    {
      var current := GetComparisonIds();
      if id !in current {
        return false;
      }
      SetComparisonIds(RemoveAll(current, id), writeFails);
      return true;
    }

    /** `clearComparison()`: the key is removed, so the selection reads as empty. */
    method ClearComparison(writeFails: bool)
      modifies this
      ensures slot == if writeFails then old(slot) else Missing
      ensures !writeFails ==> ReadIds(slot) == []
    {
      if !writeFails {
        slot := Missing;
      }
    }
  }

  /** A removal keeps the others in relative order and drops every occurrence. */
  lemma RemovalKeepsOrder(slot: Stored, id: string)
    ensures id !in RemoveAll(ReadIds(slot), id)
    ensures IsSubsequence(RemoveAll(ReadIds(slot), id), ReadIds(slot))
    ensures multiset(RemoveAll(ReadIds(slot), id)) == multiset(ReadIds(slot))[id := 0]
  {
    RemoveAllIsSubsequence(ReadIds(slot), id);
  }

  /** A session on one store: adding four distinct ids in turn keeps the first
      three and refuses the fourth, adding the first again is refused, and the
      comparison page then reads the three. */
  method SessionAddsFourIds(a: string, b: string, c: string, d: string) returns (store: ComparisonStore, fourthAdded: bool, repeatAdded: bool)
    requires a != b && a != c && a != d && b != c && b != d && c != d
    ensures !fourthAdded && !repeatAdded
    ensures ReadIds(store.slot) == [a, b, c]
  {
    store := new ComparisonStore(Missing);
    var ok := store.AddToComparison(a, false);
    ok := store.AddToComparison(b, false);
    ok := store.AddToComparison(c, false);
    fourthAdded := store.AddToComparison(d, false);
    repeatAdded := store.AddToComparison(a, false);
  }
}
