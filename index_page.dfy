/** The landing page's view state (src/pages/Index.tsx): whether the operator area is
    open, whether the operator has entered the password in this session, and which
    room's request form the page itself shows. The password check is the event
    `PasswordAccepted`; the screens are the values of `View`. */
module IndexPage {
  import opened Basics

  /** What the page renders. */
  datatype View =
    | AdminPanelView
    | AdminAuthView
    | PublicView(modalRoom: Option<string>)

  /** The page's handlers, as events. */
  datatype Event =
    | AdminClicked
    | PasswordAccepted
    | AdminClosed
    | RoomSelected(roomId: string)
    | BookingModalClosed

  class Index {
    var selectedRoom: Option<string>
    var showAdmin: bool
    var isAuthenticated: bool

    constructor ()
      ensures selectedRoom == None && !showAdmin && !isAuthenticated
    {
      selectedRoom := None;
      showAdmin := false;
      isAuthenticated := false;
    }

    /** The screen for the current state: the panel only when the operator area is
        open and the operator is authenticated, the password prompt when it is open
        and they are not, and otherwise the public page, with a request form exactly
        when a room id is selected (the empty id counts as none). */
    function CurrentView(): (v: View)
      reads this
      ensures v == AdminPanelView <==> showAdmin && isAuthenticated
      ensures v == AdminAuthView <==> showAdmin && !isAuthenticated
      ensures v.PublicView? <==> !showAdmin
      ensures v.PublicView? ==> (v.modalRoom.Some? <==> selectedRoom.Some? && selectedRoom.value != "")
      ensures v.PublicView? && v.modalRoom.Some? ==> v.modalRoom == selectedRoom
    {
      if showAdmin then
        (if isAuthenticated then AdminPanelView else AdminAuthView)
      else if selectedRoom.Some? && selectedRoom.value != "" then PublicView(selectedRoom)
      else PublicView(None)
    }

    /** `handleAdminClick`: an authenticated operator toggles the operator area; anyone
        else opens it (onto the password prompt). */
    method HandleAdminClick()
      modifies this
      ensures showAdmin == if old(isAuthenticated) then !old(showAdmin) else true
      ensures isAuthenticated == old(isAuthenticated) && selectedRoom == old(selectedRoom)
    {
      if isAuthenticated {
        showAdmin := !showAdmin;
      } else {
        showAdmin := true;
      }
    }

    /** `handleAuthenticated`: the password was accepted. */
    method HandleAuthenticated()
      modifies this
      ensures isAuthenticated
      ensures showAdmin == old(showAdmin) && selectedRoom == old(selectedRoom)
    {
      isAuthenticated := true;
    }

    /** `handleCloseAdmin`: leave the operator area but stay authenticated. */
    method HandleCloseAdmin()
      modifies this
      ensures !showAdmin
      ensures isAuthenticated == old(isAuthenticated) && selectedRoom == old(selectedRoom)
    {
      showAdmin := false;
    }

    /** `setSelectedRoom(roomId)`, the callback handed to the availability view. */
    method SelectRoom(roomId: string)
      modifies this
      ensures selectedRoom == Some(roomId)
      ensures showAdmin == old(showAdmin) && isAuthenticated == old(isAuthenticated)
    {
      selectedRoom := Some(roomId);
    }

    /** The page-level request form's close action. */
    method CloseBookingModal()
      modifies this
      ensures selectedRoom == None
      ensures showAdmin == old(showAdmin) && isAuthenticated == old(isAuthenticated)
    {
      selectedRoom := None;
    }

    /** Dispatch one event to its handler. */
    method Handle(e: Event)
      modifies this
      ensures isAuthenticated == (old(isAuthenticated) || e == PasswordAccepted)
      ensures e == AdminClicked ==> showAdmin == if old(isAuthenticated) then !old(showAdmin) else true
      ensures e == AdminClosed ==> !showAdmin
      ensures e.RoomSelected? ==> selectedRoom == Some(e.roomId)
      ensures e == BookingModalClosed ==> selectedRoom == None
      ensures !e.RoomSelected? && e != BookingModalClosed ==> selectedRoom == old(selectedRoom)
      ensures e.RoomSelected? || e == BookingModalClosed || e == PasswordAccepted ==> showAdmin == old(showAdmin)
    {
      match e
      case AdminClicked => HandleAdminClick();
      case PasswordAccepted => HandleAuthenticated();
      case AdminClosed => HandleCloseAdmin();
      case RoomSelected(roomId) => SelectRoom(roomId);
      case BookingModalClosed => CloseBookingModal();
    }

    /** A session of events, handled in order: the operator is authenticated at the end
        exactly when they were at the start or the password was accepted on the way;
        nothing logs them out. */
    method Run(events: seq<Event>)
      modifies this
      ensures isAuthenticated == (old(isAuthenticated) || PasswordAccepted in events)
    {
      for i := 0 to |events|
        invariant isAuthenticated == (old(isAuthenticated) || PasswordAccepted in events[..i])
      {
        Handle(events[i]);
        assert events[..i + 1] == events[..i] + [events[i]];
      }
      assert events[..|events|] == events;
    }
  }

  /** Once authenticated, the operator moves between the panel and the public page with
      the corner button alone: two clicks bring the same screen back. */
  method TwoClicksRestoreScreen(page: Index)
    requires page.isAuthenticated
    modifies page
    ensures page.CurrentView() == old(page.CurrentView())
    ensures old(page.showAdmin) ==> old(page.CurrentView()) == AdminPanelView
  {
    page.HandleAdminClick();
    page.HandleAdminClick();
  }

  /** A visitor who opens the page and never gets the password accepted never sees
      the operator panel, whatever else they do. */
  method SessionFromStart(events: seq<Event>) returns (view: View)
    ensures view == AdminPanelView ==> PasswordAccepted in events
  {
    var page := new Index();
    page.Run(events);
    view := page.CurrentView();
  }
}
