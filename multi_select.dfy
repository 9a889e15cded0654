/** The skill picker: toggling ids in a selection and splitting the options by it. */
module MultiSelect {
  import opened Sequences
  import opened Strings

  datatype SelectOption = SelectOption(id: int, name: string)

  /**
   * handleToggle: a selected id is removed (every occurrence, the other ids
   * keeping their order and their number); an unselected id is appended at the end.
   */
  function Toggle(selected: seq<int>, id: int): (r: seq<int>)
    ensures id in selected ==> id !in r && IsSubsequence(r, selected)
    ensures id in selected ==> forall x :: x in selected && x != id ==> x in r
    ensures id in selected ==> forall x :: multiset(r)[x] == if x == id then 0 else multiset(selected)[x]
    ensures id !in selected ==> |r| == |selected| + 1 && r[..|selected|] == selected && r[|selected|] == id
  {
    if id in selected then
      var p := (x: int) => x != id;
      assert forall x :: multiset(Filter(selected, p))[x] == if x == id then 0 else multiset(selected)[x] by {
        forall x ensures multiset(Filter(selected, p))[x] == if x == id then 0 else multiset(selected)[x] {
          FilterCounts(selected, p, x);
        }
      }
      Filter(selected, p)
    else selected + [id]
  }

  /** Toggling flips membership of the id. */
  lemma ToggleFlipsMembership(selected: seq<int>, id: int)
    ensures id in Toggle(selected, id) <==> id !in selected
  {
    if id !in selected {
      assert Toggle(selected, id)[|selected|] == id;
    }
  }

  /** Toggling an unselected id twice gives back the original selection. */
  lemma ToggleTwiceRestores(selected: seq<int>, id: int)
    requires id !in selected
    ensures Toggle(Toggle(selected, id), id) == selected
  {
    var p := (x: int) => x != id;
    assert Toggle(selected, id) == selected + [id];
    FilterConcat(selected, [id], p);
    FilterKeepsAll(selected, p);
    FilterCons(id, [], p);
    assert [id] + [] == [id];
  }

  /** The options shown as chips: those whose id is selected, in option order. */
  function SelectedOptions(options: seq<SelectOption>, selectedIds: seq<int>): (r: seq<SelectOption>)
    ensures IsSubsequence(r, options)
    ensures forall o :: o in r <==> o in options && o.id in selectedIds
  {
    Filter(options, (o: SelectOption) => o.id in selectedIds)
  }

  /** The options offered in the drop-down: those whose id is not selected, in option order. */
  function UnselectedOptions(options: seq<SelectOption>, selectedIds: seq<int>): (r: seq<SelectOption>)
    ensures IsSubsequence(r, options)
    ensures forall o :: o in r <==> o in options && o.id !in selectedIds
  {
    Filter(options, (o: SelectOption) => o.id !in selectedIds)
  }

  /** The two lists partition the options: every occurrence of an option lands in exactly one of them. */
  lemma OptionsPartition(options: seq<SelectOption>, selectedIds: seq<int>, o: SelectOption)
    ensures multiset(SelectedOptions(options, selectedIds))[o] + multiset(UnselectedOptions(options, selectedIds))[o]
            == multiset(options)[o]
  {
    FilterCounts(options, (x: SelectOption) => x.id in selectedIds, o);
    FilterCounts(options, (x: SelectOption) => x.id !in selectedIds, o);
  }

  /**
   * The select's change handler: Number(value), and a toggle only when it is
   * neither 0 nor NaN. The selection changes exactly then.
   */
  function OnSelectChange(selected: seq<int>, value: string): (r: seq<int>)
    ensures r != selected <==> JsNumber(value).Some? && JsNumber(value).value != 0
    ensures r != selected ==> r == Toggle(selected, JsNumber(value).value)
  {
    var n := JsNumber(value);
    if n.Some? && n.value != 0 then
      assert Toggle(selected, n.value) != selected by {
        if n.value !in selected {
          assert |Toggle(selected, n.value)| != |selected|;
        }
      }
      Toggle(selected, n.value)
    else selected
  }

  /** The "" placeholder and any non-numeric value toggle nothing. */
  lemma PlaceholderTogglesNothing(selected: seq<int>, value: string)
    requires value == "" || JsNumber(value).None?
    ensures OnSelectChange(selected, value) == selected
  {
  }

  /** Picking the option rendered for a non-zero id toggles that id. */
  lemma PickingOptionToggles(selected: seq<int>, id: int)
    requires id != 0
    ensures OnSelectChange(selected, IntToString(id)) == Toggle(selected, id)
  {
    NumberOfIntToString(id);
  }
}
