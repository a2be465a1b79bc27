/** The top-level component: the booking modal flag, the global success toast and the
    redirects run after an admin logs in or registers. */
module App {
  import opened Wrappers
  import opened Session

  class AppState {
    var isModalOpen: bool
    var successMessage: string
    var isSuccessVisible: bool

    constructor ()
      ensures !isModalOpen && successMessage == "" && !isSuccessVisible
    {
      isModalOpen := false;
      successMessage := "";
      isSuccessVisible := false;
    }

    /** Opening is idempotent: the new state does not depend on the old flag. */
    method OpenModal()
      modifies this
      ensures isModalOpen
      ensures successMessage == old(successMessage) && isSuccessVisible == old(isSuccessVisible)
    {
      isModalOpen := true;
    }

    method CloseModal()
      modifies this
      ensures !isModalOpen
      ensures successMessage == old(successMessage) && isSuccessVisible == old(isSuccessVisible)
    {
      isModalOpen := false;
    }

    method HandleBookingSuccess(message: string)
      modifies this
      ensures successMessage == message && isSuccessVisible
      ensures isModalOpen == old(isModalOpen)
    {
      successMessage := message;
      isSuccessVisible := true;
    }

    method CloseSuccessToast()
      modifies this
      ensures !isSuccessVisible && successMessage == ""
      ensures isModalOpen == old(isModalOpen)
    {
      isSuccessVisible := false;
      successMessage := "";
    }

    /** The user and token handed over by the login form are ignored: the app always goes to the dashboard. */
    method HandleAdminLogin(b: BrowserState, user: string, token: string)
      modifies b
      ensures b.route == Some(AdminRoute) && b.storage == old(b.storage)
    {
      b.NavigateTo(AdminRoute);
    }

    method HandleAdminRegister(b: BrowserState, user: string, token: string)
      modifies b
      ensures b.route == Some(AdminRoute) && b.storage == old(b.storage)
    {
      b.NavigateTo(AdminRoute);
    }
  }
}
