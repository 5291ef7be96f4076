/** The sidebar accordion (src/components/layout/Sidebar.jsx): one parent
    menu at a time is open, named by its title. */
module Sidebar {
  import opened Js

  /** `openMenu === title ? null : title` */
  function NextOpen(open: Option<string>, title: string): (next: Option<string>)
    ensures open == Some(title) ==> next == None
    ensures open != Some(title) ==> next == Some(title)
  {
    if open == Some(title) then None else Some(title)
  }

  /** A parent's submenu is expanded when it is the open menu. */
  predicate Expanded(open: Option<string>, title: string)
  {
    open == Some(title)
  }

  /** Clicking a title twice closes it when it was not open before and
      reopens it when it was; in between, exactly the clicked title decides
      what is expanded. */
  lemma ToggleTwice(open: Option<string>, title: string)
    ensures NextOpen(NextOpen(open, title), title) == (if open == Some(title) then open else None)
    ensures Expanded(NextOpen(open, title), title) <==> !Expanded(open, title)
    ensures forall other :: other != title ==> !Expanded(NextOpen(open, title), other)
  {
  }

  class SidebarState {
    var openMenu: Option<string>

    /** At most one submenu is expanded. With a single `openMenu` field this
        holds by construction; it is stated to name the accordion's promise. */
    ghost predicate OneOpen()
      reads this
    {
      forall a, b :: Expanded(openMenu, a) && Expanded(openMenu, b) ==> a == b
    }

    constructor()
      ensures openMenu == None
      ensures forall title :: !Expanded(openMenu, title)
    {
      openMenu := None;
    }

    /** `toggleMenu`: the open title closes, any other title opens in its
        place. */
    method ToggleMenu(title: string)
      modifies this
      ensures openMenu == NextOpen(old(openMenu), title)
      ensures Expanded(openMenu, title) <==> !Expanded(old(openMenu), title)
      ensures forall other :: other != title ==> !Expanded(openMenu, other)
      ensures OneOpen()
    {
      openMenu := NextOpen(openMenu, title);
    }
  }
}
