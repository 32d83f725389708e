/** The header (components/Header.tsx): the profile switcher dropdown. */
module Header {
  import opened Types
  import opened ProfileTree

  /** `handleSelectProfile`'s value for the selector: `null` for the user's
      own id, any other id as it is. */
  function SelectorFor(rootId: string, id: string): (sel: Selector)
    ensures sel == None <==> id == rootId
    ensures sel.Some? ==> sel.value == id
  {
    if id == rootId then None else Some(id)
  }

  /** One button of the open dropdown: the id it selects and its text. */
  datatype MenuEntry = MenuEntry(id: string, text: string)

  /** The dropdown's buttons: the user first, labelled "<name> (You)", then
      the family members in list order. */
  function Menu(u: UserProfile): (es: seq<MenuEntry>)
    ensures |es| == |u.familyMembers| + 1
    ensures es[0] == MenuEntry(u.profile.id, u.profile.name + " (You)")
    ensures forall i :: 0 <= i < |u.familyMembers| ==>
      es[i + 1] == MenuEntry(u.familyMembers[i].profile.id, u.familyMembers[i].profile.name)
  {
    [MenuEntry(u.profile.id, u.profile.name + " (You)")]
      + seq(|u.familyMembers|, i requires 0 <= i < |u.familyMembers| =>
          MenuEntry(u.familyMembers[i].profile.id, u.familyMembers[i].profile.name))
  }

  /** Picking an entry of the menu: the first entry (the user) stores `null`,
      which resolves to no profile; any member entry whose id differs from
      the user's resolves to a profile with that id. */
  lemma PickingMenuEntry(u: UserProfile, i: nat)
    requires i < |Menu(u)|
    ensures i == 0 ==> Resolve(u, SelectorFor(u.profile.id, Menu(u)[i].id)) == None
    ensures i > 0 && Menu(u)[i].id != u.profile.id ==>
      var r := Resolve(u, SelectorFor(u.profile.id, Menu(u)[i].id));
      r.Some? && r.value.id == Menu(u)[i].id
  {
    if i > 0 {
      var m := u.familyMembers[i - 1];
      assert Menu(u)[i].id == m.profile.id;
      assert Matches(m, Some(m.profile.id));
    }
  }

  /** The dropdown's open flag. */
  class Dropdown {
    var isOpen: bool

    constructor ()
      ensures !isOpen
    {
      isOpen := false;
    }

    /** The header button flips the flag. */
    method Toggle()
      modifies this
      ensures isOpen == !old(isOpen)
    {
      isOpen := !isOpen;
    }

    /** `handleSelectProfile`: returns the value handed to
        `setActiveProfileId` and closes the dropdown. */
    method SelectProfile(rootId: string, id: string) returns (sel: Selector)
      modifies this
      ensures sel == SelectorFor(rootId, id)
      ensures !isOpen
    {
      sel := SelectorFor(rootId, id);
      isOpen := false;
    }

    /** The document `mousedown` listener: a press outside the dropdown closes
        it, one inside leaves it as it is. */
    method MouseDown(insideDropdown: bool)
      modifies this
      ensures isOpen == (old(isOpen) && insideDropdown)
    {
      if !insideDropdown {
        isOpen := false;
      }
    }
  }
}
