/** The newsletter card: an e-mail field, one checkbox per update category,
    and a Subscribe button that is enabled once some category is checked. */
module NewsLetter {
  import opened Flags

  /** The ids of `CATEGORIES`, in display order. */
  const CategoryIds: seq<string> := ["whatsapp", "instagram", "messenger", "ads", "pricing", "compliance"]

  class NewsLetterCard {
    var email: string
    var selected: FlagMap

    /** Only category checkboxes write flags. */
    ghost predicate Valid()
      reads this
    {
      forall name :: name in selected ==> name in CategoryIds
    }

    /** The card starts with an empty address and nothing selected. */
    constructor ()
      ensures email == "" && selected == map[]
      ensures Valid() && !SubscribeEnabled()
    {
      email, selected := "", map[];
    }

    /** Whether a category's checkbox shows as checked. */
    predicate IsChecked(id: string)
      reads this
    {
      Checked(selected, id)
    }

    /** The Subscribe button is enabled when some flag is on. */
    predicate SubscribeEnabled()
      reads this
    {
      AnyChecked(selected)
    }

    /** `toggle(id)`, sent by a category's checkbox: that flag is flipped. */
    method Toggle(id: string)
      requires Valid() && id in CategoryIds
      modifies this
      ensures Valid()
      ensures selected == Flipped(old(selected), id)
      ensures IsChecked(id) == !old(IsChecked(id))
      ensures forall other :: other != id ==> IsChecked(other) == old(IsChecked(other))
      ensures email == old(email)
    {
      FlippedChangesOnlyName(selected, id);
      selected := Flipped(selected, id);
    }

    /** Typing in the e-mail field: the selection is not touched. */
    method SetEmail(value: string)
      modifies this
      ensures email == value && selected == old(selected)
    {
      email := value;
    }
  }

  /** Subscribe is enabled exactly when one of the categories is checked. */
  lemma SubscribeEnabledIff(card: NewsLetterCard)
    requires card.Valid()
    ensures card.SubscribeEnabled() <==> exists k :: 0 <= k < |CategoryIds| && card.IsChecked(CategoryIds[k])
  {
    if card.SubscribeEnabled() {
      var name :| name in card.selected && card.selected[name];
      assert name in CategoryIds;
      var k :| 0 <= k < |CategoryIds| && CategoryIds[k] == name;
      assert card.IsChecked(CategoryIds[k]);
    }
  }

  /** Toggling a category twice leaves every checkbox as it was. */
  method ToggleTwiceRestores(card: NewsLetterCard, id: string)
    requires card.Valid() && id in CategoryIds
    modifies card
    ensures card.Valid()
    ensures forall name :: card.IsChecked(name) == old(card.IsChecked(name))
    ensures card.SubscribeEnabled() == old(card.SubscribeEnabled())
  {
    ghost var before := card.selected;
    card.Toggle(id);
    card.Toggle(id);
    FlippedTwice(before, id);
    assert forall name :: Checked(card.selected, name) == Checked(before, name);
  }
}
