/** The dashboard navbar: the avatar letter taken from the stored email,
    the profile dropdown, and logout. */
module Navbar {
  import opened Web
  import Text

  /** The email the navbar shows: the stored one, or "F" when there is none
      (or when rendering without a browser, `storage` = `None`). */
  function DisplayEmail(storage: Option<Storage>): (r: string)
    ensures r != ""
    ensures storage.Some? && Truthy(GetItem(storage.value, "email")) ==> r == storage.value["email"]
    ensures storage.None? || !Truthy(GetItem(storage.value, "email")) ==> r == "F"
  {
    if storage.Some? then OrElse(GetItem(storage.value, "email"), "F") else "F"
  }

  /** `email.charAt(0).toUpperCase()`. */
  function AvatarLetter(email: string): (r: string)
    ensures email == "" ==> r == ""
    ensures email != "" ==> |r| == 1 && r[0] == Text.UpperChar(email[0])
  {
    if email == "" then "" else Text.Upper(email[..1])
  }

  /** The avatar always shows one character, not a lower-case ASCII letter:
      the upper-cased first character of the email, or "F". */
  lemma AvatarIsOneLetter(storage: Option<Storage>)
    ensures var a := AvatarLetter(DisplayEmail(storage));
      |a| == 1 && !Text.IsLowerAscii(a[0])
    ensures var e := DisplayEmail(storage);
      e == "F" ==> AvatarLetter(e) == "F"
  {
  }

  datatype Nav = Nav(dropdownOpen: bool)

  const Initial := Nav(false)

  /** Clicking the avatar toggles the dropdown. */
  function ToggleDropdown(n: Nav): (r: Nav)
    ensures r.dropdownOpen != n.dropdownOpen
  {
    Nav(!n.dropdownOpen)
  }

  /** Clicking the backdrop, drawn only while the dropdown is open, closes
      it. */
  function ClickBackdrop(n: Nav): (r: Nav)
    ensures !r.dropdownOpen
  {
    Nav(false)
  }

  /** Two avatar clicks leave the dropdown as it was, and the backdrop, only
      drawn while open, brings it back to its initial state. */
  lemma ToggleTwice(n: Nav)
    ensures ToggleDropdown(ToggleDropdown(n)) == n
    ensures ClickBackdrop(ToggleDropdown(Initial)) == Initial
  {
  }

  /** Logout empties local storage and navigates to `/login`. */
  function Logout(storage: Storage): (r: (Storage, string))
    ensures r.0 == map[] && r.1 == "/login"
    ensures forall k :: GetItem(r.0, k).None?
  {
    (map[], "/login")
  }

  /** After logout the navbar falls back to "F". */
  lemma LogoutForgetsEmail(storage: Storage)
    ensures DisplayEmail(Some(Logout(storage).0)) == "F"
  {
  }
}
