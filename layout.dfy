/**
 * The application shell around every page: the account dropdown, the
 * composer dialog's open flag, the "published" notification, logout, and
 * the `dark` class on the document root that follows the theme.
 */
module Layout {
  import opened Common
  import Browser
  import PostModal

  const PublishedNotice := "Post publicado com sucesso!"
  const TokenKey := "userToken"
  const HomeRoute := "/"

  /** Whether the document root carries the `dark` class for a theme. */
  predicate DarkFor(theme: string) {
    theme == "dark"
  }

  class Shell {
    var isDropdownOpen: bool
    var isModalOpen: bool
    var notificationMessage: string

    constructor ()
      ensures !isDropdownOpen && !isModalOpen && notificationMessage == ""
    {
      isDropdownOpen := false;
      isModalOpen := false;
      notificationMessage := "";
    }

    /** The "Minha Conta" button: `setDropdownOpen(prev => !prev)`. */
    method ToggleDropdown()
      modifies this
      ensures isDropdownOpen == !old(isDropdownOpen)
      ensures isModalOpen == old(isModalOpen) && notificationMessage == old(notificationMessage)
    {
      isDropdownOpen := !isDropdownOpen;
    }

    /** The "Postar" button. */
    method OpenModal()
      modifies this
      ensures isModalOpen
      ensures isDropdownOpen == old(isDropdownOpen) && notificationMessage == old(notificationMessage)
    {
      isModalOpen := true;
    }

    /** The composer's `onClose`. */
    method CloseModal()
      modifies this
      ensures !isModalOpen
      ensures isDropdownOpen == old(isDropdownOpen) && notificationMessage == old(notificationMessage)
    {
      isModalOpen := false;
    }

    /**
     * `handleCreatePost`, the composer's `onCreatePost`: the content goes
     * unchanged to the page's `onPostCreated` (returned as `forwarded`),
     * the notification is shown, and the dialog is closed.
     */
    method HandleCreatePost(content: string) returns (forwarded: string)
      modifies this
      ensures forwarded == content
      ensures notificationMessage == PublishedNotice && !isModalOpen
      ensures isDropdownOpen == old(isDropdownOpen)
    {
      forwarded := content;
      notificationMessage := PublishedNotice;
      isModalOpen := false;
    }

    /**
     * Runs the callbacks a composer handler invoked, in order, against this
     * shell's handlers; `forwarded` is what reached `onPostCreated`.
     */
    method Dispatch(e: PostModal.Effects) returns (forwarded: Option<string>)
      modifies this
      ensures forwarded == e.created
      ensures e.created.Some? ==> notificationMessage == PublishedNotice
      ensures e.created.None? ==> notificationMessage == old(notificationMessage)
      ensures isModalOpen == (old(isModalOpen) && e.created.None? && !e.closed)
      ensures isDropdownOpen == old(isDropdownOpen)
    {
      forwarded := None;
      if e.created.Some? {
        var content := HandleCreatePost(e.created.value);
        forwarded := Some(content);
      }
      if e.closed {
        CloseModal();
      }
    }

    /** `handleLogout`: the token key, and nothing else, leaves storage; the route goes to "/". */
    method Logout(storage: Browser.Storage) returns (navigate: string)
      modifies storage
      ensures navigate == HomeRoute
      ensures storage.entries == old(storage.entries) - {TokenKey}
    {
      storage.RemoveItem(TokenKey);
      navigate := HomeRoute;
    }

    /** The theme effect: `classList.toggle("dark", theme === "dark")`. */
    method SyncTheme(doc: Browser.Document, theme: string)
      modifies doc
      ensures doc.darkClass <==> DarkFor(theme)
      ensures doc.lang == old(doc.lang)
    {
      doc.ToggleDark(theme == "dark");
    }
  }

  /**
   * The composer is always mounted, but its draft is only ever left
   * non-empty while the dialog is open: every path that closes it clears
   * the draft first or closes only an empty one.
   */
  ghost predicate ClosedComposerEmpty(shell: Shell, composer: PostModal.Composer)
    reads shell, composer
  {
    !shell.isModalOpen ==> composer.newPost == ""
  }

  /**
   * The composer inside the shell: a submit of a draft that is not blank
   * publishes it exactly once and closes the dialog; a blank draft leaves
   * the dialog open and publishes nothing.
   */
  method SubmitComposer(shell: Shell, composer: PostModal.Composer) returns (published: Option<string>)
    requires composer.Valid() && shell.isModalOpen
    modifies shell, composer
    ensures composer.Valid() && ClosedComposerEmpty(shell, composer)
    ensures shell.isDropdownOpen == old(shell.isDropdownOpen) && composer.isConfirmOpen == old(composer.isConfirmOpen)
    ensures !IsBlank(old(composer.newPost)) ==>
              && published == Some(old(composer.newPost))
              && !shell.isModalOpen && composer.newPost == ""
              && shell.notificationMessage == PublishedNotice
    ensures IsBlank(old(composer.newPost)) ==>
              && published.None? && shell.isModalOpen && composer.newPost == old(composer.newPost)
              && shell.notificationMessage == old(shell.notificationMessage)
  {
    var e := composer.Submit();
    published := shell.Dispatch(e);
  }

  /**
   * Closing the composer inside the shell (Cancelar or Escape): an empty
   * draft closes the dialog; any other draft keeps it open behind the
   * confirmation. The Escape listener stays installed while the dialog is
   * closed, and then the draft is empty, so the key changes nothing.
   */
  method CloseComposer(shell: Shell, composer: PostModal.Composer)
    requires composer.Valid() && ClosedComposerEmpty(shell, composer)
    modifies shell, composer
    ensures composer.Valid() && ClosedComposerEmpty(shell, composer) && composer.newPost == old(composer.newPost)
    ensures !old(shell.isModalOpen) ==> !shell.isModalOpen && composer.isConfirmOpen == old(composer.isConfirmOpen)
    ensures old(composer.newPost) == "" <==> !shell.isModalOpen
    ensures old(composer.newPost) != "" ==> composer.isConfirmOpen
    ensures old(composer.newPost) == "" ==> composer.isConfirmOpen == old(composer.isConfirmOpen)
    ensures shell.isDropdownOpen == old(shell.isDropdownOpen)
    ensures shell.notificationMessage == old(shell.notificationMessage)
  {
    var e := composer.Close();
    var _ := shell.Dispatch(e);
  }

  /** Confirming the discard inside the shell closes the dialog with an empty draft. */
  method DiscardComposer(shell: Shell, composer: PostModal.Composer)
    modifies shell, composer
    ensures composer.Valid() && ClosedComposerEmpty(shell, composer)
    ensures composer.newPost == "" && !composer.isConfirmOpen
    ensures !shell.isModalOpen && shell.notificationMessage == old(shell.notificationMessage)
    ensures shell.isDropdownOpen == old(shell.isDropdownOpen)
  {
    var e := composer.ConfirmDiscard();
    var _ := shell.Dispatch(e);
  }
}
