/** The filter sidebar above the calendar: purpose and organizer
    check-lists, the search box, and the dropdown of purposes. */
module ActionBar {
  import opened Lists
  import opened Text
  import UserStore

  /** The selected purposes. The parent holds a list, but a dropdown item
      stores a bare name string in the same place. */
  datatype Selection = Names(names: seq<string>) | Bare(name: string)

  /** The one-character strings of `s`, as spreading a string yields. */
  function Chars(s: string): (r: seq<string>)
    ensures |r| == |s|
    ensures forall i :: 0 <= i < |s| ==> r[i] == [s[i]]
  {
    if s == [] then [] else [[s[0]]] + Chars(s[1..])
  }

  /** Spreading the selection: a list is copied, a string gives its letters. */
  function Spread(sel: Selection): (r: seq<string>)
    ensures sel.Names? ==> r == sel.names
    ensures sel.Bare? ==> |r| == |sel.name| && forall i :: 0 <= i < |r| ==> |r[i]| == 1 && r[i][0] == sel.name[i]
  {
    match sel
    case Names(ns) => ns
    case Bare(name) => Chars(name)
  }

  /** Whether the selection includes `p`: list membership, or a substring
      test when the selection is a bare string, which then includes itself,
      the empty name and every piece of it, but nothing longer. */
  predicate Includes(sel: Selection, p: string): (r: bool)
    ensures sel.Names? ==> (r <==> p in sel.names)
    ensures sel.Bare? && (p == sel.name || p == "") ==> r
    ensures sel.Bare? && |p| > |sel.name| ==> !r
  {
    match sel
    case Names(ns) => p in ns
    case Bare(name) =>
      ContainsEmpty(name);
      assert OccursAt(name, name, 0);
      Contains(name, p)
  }

  /** The list after toggling `p`: every copy of `p` removed if present, else `p` appended. */
  function Toggle(s: seq<string>, p: string): (r: seq<string>)
    ensures p in r <==> p !in s
    ensures forall i :: 0 <= i < |s| && s[i] != p ==> s[i] in r
    ensures forall i :: 0 <= i < |r| && r[i] != p ==> r[i] in s
    ensures p !in s ==> r == s + [p]
  {
    if p in s then Filter(s, Differs(p)) else s + [p]
  }

  /** Toggling leaves the other elements in their relative order. */
  lemma {:induction false} ToggleKeepsOrder(s: seq<string>, p: string)
    ensures Filter(Toggle(s, p), Differs(p)) == Filter(s, Differs(p))
  {
    if p in s {
      FilterIdempotent(s, Differs(p));
    } else {
      FilterConcat(s, [p], Differs(p));
      assert Filter([p], Differs(p)) == [] by {
        assert [p][1..] == [];
      }
    }
  }

  /** Toggling an absent element twice gives back the original list. */
  lemma {:induction false} ToggleTwiceRestores(s: seq<string>, p: string)
    requires p !in s
    ensures Toggle(Toggle(s, p), p) == s
  {
    FilterConcat(s, [p], Differs(p));
    assert Filter([p], Differs(p)) == [] by {
      assert [p][1..] == [];
    }
    FilterKeepsAll(s, Differs(p));
  }

  /** The names of the user's purposes, in order. */
  function PurposeNames(ps: seq<UserStore.Purpose>): (r: seq<string>)
    ensures |r| == |ps|
    ensures forall i :: 0 <= i < |ps| ==> r[i] == ps[i].name
  {
    if ps == [] then [] else [ps[0].name] + PurposeNames(ps[1..])
  }

  function MatchesTerm(term: string): string -> bool {
    (n: string) => n != "" && Contains(Lower(n), Lower(term))
  }

  function NonEmpty(): string -> bool {
    (n: string) => n != ""
  }

  /** `filteredPurposes`: the non-empty names containing the search term, ignoring case. */
  function FilteredPurposes(names: seq<string>, term: string): (r: seq<string>)
    ensures forall i :: 0 <= i < |r| ==> r[i] in names && r[i] != "" && Contains(Lower(r[i]), Lower(term))
    ensures forall j :: 0 <= j < |names| && names[j] != "" && Contains(Lower(names[j]), Lower(term)) ==> names[j] in r
  {
    Filter(names, MatchesTerm(term))
  }

  /** An empty search term keeps exactly the non-empty names, in order. */
  lemma EmptyTermKeepsNonEmpty(names: seq<string>)
    ensures FilteredPurposes(names, "") == Filter(names, NonEmpty())
  {
    forall i | 0 <= i < |names| ensures MatchesTerm("")(names[i]) == NonEmpty()(names[i]) {
      ContainsEmpty(Lower(names[i]));
    }
    FilterSameKeep(names, MatchesTerm(""), NonEmpty());
  }

  /** Spreading a longer bare name and toggling it yields its letters followed by the name. */
  lemma {:induction false} ToggleAfterDropdownSplitsName(name: string)
    requires |name| != 1
    ensures Toggle(Spread(Bare(name)), name) == Chars(name) + [name]
  {
    assert name !in Chars(name) by {
      forall i | 0 <= i < |name| ensures Chars(name)[i] != name {
        assert |Chars(name)[i]| == 1;
      }
    }
  }

  /** Picking "OM1" from the dropdown and ticking it gives four selections. */
  lemma DropdownThenToggleExample()
    ensures Toggle(Spread(Bare("OM1")), "OM1") == ["O", "M", "1", "OM1"]
  {
    ToggleAfterDropdownSplitsName("OM1");
    assert Chars("OM1") == ["O", "M", "1"];
  }

  /** After picking "OM1", a purpose named "OM" shows as ticked. */
  lemma BareSelectionTicksSubstring()
    ensures Includes(Bare("OM1"), "OM") && !Includes(Names(["OM1"]), "OM")
  {
    assert OccursAt("OM1", "OM", 0);
  }

  /** A picked name held as a one-element list ticks only itself, and ticking it again clears it. */
  lemma PickedListBehaves(name: string, q: string)
    ensures Includes(Names([name]), q) <==> q == name
    ensures Toggle(Spread(Names([name])), name) == []
  {
    FilterKeepsNone([name], Differs(name));
  }

  /** The sidebar's filter state. */
  class Bar {
    var selectedPurposes: Selection
    var organizerFilter: seq<string>
    var selectedOrganizers: seq<string>
    var userPurposes: seq<UserStore.Purpose>
    var searchTerm: string

    constructor (selectedPurposes: Selection, organizerFilter: seq<string>,
                 selectedOrganizers: seq<string>, userPurposes: seq<UserStore.Purpose>)
      ensures this.selectedPurposes == selectedPurposes && this.organizerFilter == organizerFilter
      ensures this.selectedOrganizers == selectedOrganizers && this.userPurposes == userPurposes
      ensures searchTerm == ""
    {
      this.selectedPurposes, this.organizerFilter := selectedPurposes, organizerFilter;
      this.selectedOrganizers, this.userPurposes := selectedOrganizers, userPurposes;
      searchTerm := "";
    }

    /** Whether a purpose's checkbox shows as ticked. */
    predicate Ticked(purpose: string): (r: bool)
      reads this
      ensures selectedPurposes.Names? ==> (r <==> purpose in selectedPurposes.names)
      ensures selectedPurposes.Bare? && purpose == selectedPurposes.name ==> r
    {
      Includes(selectedPurposes, purpose)
    }

    /** `handlePurposeToggle`. */
    method HandlePurposeToggle(purpose: string)
      modifies this`selectedPurposes
      ensures selectedPurposes == Names(Toggle(Spread(old(selectedPurposes)), purpose))
    {
      var newPurposes := Spread(selectedPurposes);
      if purpose in newPurposes {
        newPurposes := Filter(newPurposes, Differs(purpose));
      } else {
        newPurposes := newPurposes + [purpose];
      }
      selectedPurposes := Names(newPurposes);
    }

    /** `handleOrganizerToggle`. */
    method HandleOrganizerToggle(organizer: string)
      modifies this`organizerFilter
      ensures organizerFilter == Toggle(old(organizerFilter), organizer)
      ensures organizer in organizerFilter <==> organizer !in old(organizerFilter)
    {
      var newOrganizers := organizerFilter;
      if organizer in newOrganizers {
        newOrganizers := Filter(newOrganizers, Differs(organizer));
      } else {
        newOrganizers := newOrganizers + [organizer];
      }
      organizerFilter := newOrganizers;
    }

    /** `selectAllPurposes`: the purposes currently listed under the search term. */
    method SelectAllPurposes()
      modifies this`selectedPurposes
      ensures selectedPurposes == Names(FilteredPurposes(PurposeNames(userPurposes), searchTerm))
    {
      selectedPurposes := Names(FilteredPurposes(PurposeNames(userPurposes), searchTerm));
    }

    /** `deselectAllPurposes`. */
    method DeselectAllPurposes()
      modifies this`selectedPurposes
      ensures selectedPurposes == Names([])
      ensures forall p :: !Ticked(p)
    {
      selectedPurposes := Names([]);
    }

    /** `selectAllOrganizers`. */
    method SelectAllOrganizers()
      modifies this`organizerFilter
      ensures organizerFilter == selectedOrganizers
    {
      organizerFilter := selectedOrganizers;
    }

    /** `deselectAllOrganizers`. */
    method DeselectAllOrganizers()
      modifies this`organizerFilter
      ensures organizerFilter == []
    {
      organizerFilter := [];
    }

    /** A per-purpose dropdown item as written: the bare name replaces the list. */
    method PickPurposeAsWritten(name: string)
      modifies this`selectedPurposes
      ensures selectedPurposes == Bare(name)
    {
      selectedPurposes := Bare(name);
    }

    /** A per-purpose dropdown item selecting just that purpose, as a list. */
    method PickPurpose(name: string)
      modifies this`selectedPurposes
      ensures selectedPurposes == Names([name])
      ensures forall q :: Ticked(q) <==> q == name
    {
      selectedPurposes := Names([name]);
    }
  }
}
